/**
  The free camera's orientation: a yaw and a pitch angle in radians. A look
  drag subtracts `rotateSpeed * (d * pi / 180)` from each and then brings the
  angle back into [0, 2pi] with a single add or subtract of 2pi. The range is
  closed at 2pi, because the test is "greater than 2pi".
 */
module Camera {

  /** M_PI to 16 significant digits. */
  const Pi: real := 3.141592653589793
  const TwoPi: real := 2.0 * Pi

  /** The sensitivity the viewer is constructed with. */
  const RotateSpeed: real := 50.0

  /**
    The angle change of one look step for a drag of `d` (a fraction of the
    viewport): with a positive speed it has the sign of the drag, and at the
    viewer's speed a drag of 7.2 viewports is one whole turn.
   */
  function Step(speed: real, d: real): (r: real)
    ensures speed > 0.0 ==> (r > 0.0 <==> d > 0.0) && (r < 0.0 <==> d < 0.0)
    ensures speed == RotateSpeed ==> r == d * (TwoPi / 7.2)
  {
    var k := Pi / 180.0;
    assert speed * (d * k) == (speed * k) * d;
    assert speed > 0.0 ==> speed * k > 0.0;
    speed * (d * Pi / 180.0)
  }

  /** In [0, 2pi], both ends included. */
  predicate InRange(a: real) {
    0.0 <= a <= TwoPi
  }

  /**
    The wrap of mouseMoveEvent: the result is the same direction (it differs by
    at most one whole turn), leaves an angle in range alone, and lands in range
    whenever the angle was at most one turn outside it.
   */
  function Wrap(a: real): (r: real)
    ensures r == a || r == a + TwoPi || r == a - TwoPi
    ensures InRange(a) ==> r == a
    ensures -TwoPi <= a <= 2.0 * TwoPi ==> InRange(r)
  {
    if a < 0.0 then a + TwoPi
    else if a > TwoPi then a - TwoPi
    else a
  }

  /** `camRotation[k] -= delta`, then the wrap: the angle lowered by `delta`, up to one whole turn. */
  function Turn(a: real, delta: real): (r: real)
    ensures r == a - delta || r == a - delta + TwoPi || r == a - delta - TwoPi
    ensures InRange(a - delta) ==> r == a - delta
  {
    Wrap(a - delta)
  }

  /** One look step keeps an angle in range when the step is at most one whole turn. */
  lemma TurnStaysInRange(a: real, delta: real)
    requires InRange(a) && -TwoPi <= delta <= TwoPi
    ensures InRange(Turn(a, delta))
  {
  }

  /** With the viewer's sensitivity a step is at most a whole turn exactly when the drag is at most 7.2 viewports. */
  lemma SmallDragSmallStep(d: real)
    ensures -7.2 <= d <= 7.2 <==> -TwoPi <= Step(RotateSpeed, d) <= TwoPi
  {
    assert Step(RotateSpeed, d) == d * (TwoPi / 7.2);
  }

  /** The angle after a sequence of look steps. */
  function Spin(a: real, deltas: seq<real>): real
    decreases deltas
  {
    if deltas == [] then a else Spin(Turn(a, deltas[0]), deltas[1..])
  }

  /** A sustained drag never lets the angle leave [0, 2pi], however many steps it has. */
  lemma {:induction false} SpinStaysInRange(a: real, deltas: seq<real>)
    requires InRange(a)
    requires forall k :: 0 <= k < |deltas| ==> -TwoPi <= deltas[k] <= TwoPi
    ensures InRange(Spin(a, deltas))
    decreases deltas
  {
    if deltas != [] {
      TurnStaysInRange(a, deltas[0]);
      SpinStaysInRange(Turn(a, deltas[0]), deltas[1..]);
    }
  }

  /** The initial pitch, -pi/6, is outside [0, 2pi]; the first look step of less than eleven twelfths of a turn brings it in. */
  lemma FirstStepNormalisesPitch(delta: real)
    requires -(TwoPi - Pi / 6.0) <= delta <= TwoPi - Pi / 6.0
    ensures !InRange(-Pi / 6.0)
    ensures InRange(Turn(-Pi / 6.0, delta))
  {
  }
}
