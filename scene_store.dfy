/**
  The scene store as a value: five parallel lists kept by the viewer, one entry
  per placed object. `objects` holds kind codes; the other four hold one
  3-component row per object (position offset, Euler angles in degrees, scale
  factors, RGB colour). An object is addressed only by its index.
 */
module SceneStore {
  import opened Text

  /** One row of a per-object list (a `std::vector<double>`). */
  type Vec = seq<real>

  /** The seven primitives and the integer codes the store and the scene file use for them. */
  datatype Kind = Plane | Cube | Sphere | Cone | Cylinder | Pyramid | Wedge {
    function Code(): (c: Int32)
      ensures 0 <= c <= 6
    {
      match this
      case Plane => 0
      case Cube => 1
      case Sphere => 2
      case Cone => 3
      case Cylinder => 4
      case Pyramid => 5
      case Wedge => 6
    }
  }

  /** The four per-object lists of 3-vectors, in the order they are stored and reported. */
  datatype Attribute = Translation | Rotation | Scale | Color {
    /** Where this attribute's three numbers start in the 12-number report. */
    function Slot(): (k: nat)
      ensures k < 12 && k % 3 == 0
    {
      match this
      case Translation => 0
      case Rotation => 3
      case Scale => 6
      case Color => 9
    }
  }

  datatype Scene = Scene(objects: seq<Int32>, translates: seq<Vec>, rotations: seq<Vec>,
                         scales: seq<Vec>, colors: seq<Vec>)
  {
    function Table(a: Attribute): seq<Vec> {
      match a
      case Translation => translates
      case Rotation => rotations
      case Scale => scales
      case Color => colors
    }
  }

  const Empty: Scene := Scene([], [], [], [], [])

  /** The default rows of a new object. */
  const Origin: Vec := [0.0, 0.0, 0.0]
  const Unit: Vec := [1.0, 1.0, 1.0]
  const Grey: Vec := [0.8, 0.8, 0.8]

  /** The five lists have the same length, so index i names one whole object. */
  predicate Aligned(s: Scene) {
    |s.translates| == |s.objects| && |s.rotations| == |s.objects| &&
    |s.scales| == |s.objects| && |s.colors| == |s.objects|
  }

  /** Every row has three components. */
  predicate Rows3(rows: seq<Vec>) {
    forall i :: 0 <= i < |rows| ==> |rows[i]| == 3
  }

  /** Every row of the four vector lists has three components. */
  predicate Shaped(s: Scene) {
    Rows3(s.translates) && Rows3(s.rotations) && Rows3(s.scales) && Rows3(s.colors)
  }

  /** Row i exists in every vector list and has its three components. */
  predicate HasRow(s: Scene, i: int) {
    0 <= i < |s.translates| && |s.translates[i]| >= 3 &&
    i < |s.rotations| && |s.rotations[i]| >= 3 &&
    i < |s.scales| && |s.scales[i]| >= 3 &&
    i < |s.colors| && |s.colors[i]| >= 3
  }

  /** `i` is not past the end of any of the five lists. */
  predicate Below(s: Scene, i: int) {
    i < |s.objects| && i < |s.translates| && i < |s.rotations| && i < |s.scales| && i < |s.colors|
  }

  /** `after` is `before` with the element at `i` taken out and the later ones moved down by one. */
  predicate RemovedAt<T(==)>(before: seq<T>, after: seq<T>, i: nat) {
    i < |before| && |after| == |before| - 1 &&
    (forall j :: 0 <= j < i ==> after[j] == before[j]) &&
    (forall j :: i <= j < |after| ==> after[j] == before[j + 1])
  }

  /** `after` is `before` with exactly one more element, `x`, at the end. */
  predicate AppendedTo<T(==)>(before: seq<T>, after: seq<T>, x: T) {
    |after| == |before| + 1 && after[..|before|] == before && after[|before|] == x
  }

  /** createPlane ... createWedge: one new row at the end of each of the five lists. */
  function Create(s: Scene, k: Kind): (r: Scene)
    ensures AppendedTo(s.objects, r.objects, k.Code())
    ensures AppendedTo(s.translates, r.translates, Origin)
    ensures AppendedTo(s.rotations, r.rotations, Origin)
    ensures AppendedTo(s.scales, r.scales, Unit)
    ensures AppendedTo(s.colors, r.colors, Grey)
    ensures Aligned(s) ==> Aligned(r)
    ensures Shaped(s) ==> Shaped(r)
  {
    Scene(s.objects + [k.Code()], s.translates + [Origin], s.rotations + [Origin],
          s.scales + [Unit], s.colors + [Grey])
  }

  /** removeObject: a negative index changes nothing; otherwise row i leaves all five lists. */
  function Remove(s: Scene, i: int): (r: Scene)
    requires Below(s, i)
    ensures i < 0 ==> r == s
    ensures i >= 0 ==> RemovedAt(s.objects, r.objects, i)
    ensures i >= 0 ==> forall a: Attribute :: RemovedAt(s.Table(a), r.Table(a), i)
    ensures Aligned(s) ==> Aligned(r)
    ensures Shaped(s) ==> Shaped(r)
  {
    if i < 0 then s
    else
      var r := Scene(s.objects[..i] + s.objects[i + 1..], s.translates[..i] + s.translates[i + 1..],
                     s.rotations[..i] + s.rotations[i + 1..], s.scales[..i] + s.scales[i + 1..],
                     s.colors[..i] + s.colors[i + 1..]);
      assert forall a: Attribute :: r.Table(a) == s.Table(a)[..i] + s.Table(a)[i + 1..];
      r
  }

  /**
    receiveTranslation / receiveRotation / receiveScale / receiveColor: a
    negative index changes nothing; otherwise the first three components of
    row i of that one list become (x, y, z) and nothing else changes.
   */
  function Receive(s: Scene, a: Attribute, i: int, x: real, y: real, z: real): (r: Scene)
    requires i < |s.Table(a)|
    requires i >= 0 ==> |s.Table(a)[i]| >= 3
    ensures i < 0 ==> r == s
    ensures i >= 0 ==> |r.Table(a)| == |s.Table(a)| && |r.Table(a)[i]| == |s.Table(a)[i]|
    ensures i >= 0 ==> r.Table(a)[i][..3] == [x, y, z] && r.Table(a)[i][3..] == s.Table(a)[i][3..]
    ensures i >= 0 ==> forall j :: 0 <= j < |s.Table(a)| && j != i ==> r.Table(a)[j] == s.Table(a)[j]
    ensures forall b: Attribute :: b != a ==> r.Table(b) == s.Table(b)
    ensures r.objects == s.objects
    ensures Aligned(r) == Aligned(s)
    ensures Shaped(s) ==> Shaped(r)
  {
    if i < 0 then s
    else
      var rows := s.Table(a);
      var row := rows[i][0 := x][1 := y][2 := z];
      assert row[..3] == [x, y, z];
      var updated := rows[i := row];
      match a
      case Translation => s.(translates := updated)
      case Rotation => s.(rotations := updated)
      case Scale => s.(scales := updated)
      case Color => s.(colors := updated)
  }

  /** answerInfo: the object's translate, rotation, scale and colour, three numbers each, in that order. */
  function Info(s: Scene, i: int): (r: seq<real>)
    requires HasRow(s, i)
    ensures |r| == 12
    ensures forall a: Attribute :: r[a.Slot()..a.Slot() + 3] == s.Table(a)[i][..3]
  {
    var t, o, c, k := s.translates[i], s.rotations[i], s.scales[i], s.colors[i];
    var r := [t[0], t[1], t[2], o[0], o[1], o[2], c[0], c[1], c[2], k[0], k[1], k[2]];
    assert r[0..3] == t[..3] && r[3..6] == o[..3] && r[6..9] == c[..3] && r[9..12] == k[..3];
    r
  }

  /** Removing the object just created gives back the scene as it was. */
  lemma RemoveUndoesCreate(s: Scene, k: Kind)
    requires Aligned(s)
    ensures Below(Create(s, k), |s.objects|)
    ensures Remove(Create(s, k), |s.objects|) == s
  {
    var c := Create(s, k);
    var n := |s.objects|;
    var r := Remove(c, n);
    assert r.objects == s.objects;
    assert r.translates == s.translates;
    assert r.rotations == s.rotations;
    assert r.scales == s.scales;
    assert r.colors == s.colors;
  }

  /** A new object reports position 0, rotation 0, scale 1 and grey. */
  lemma InfoOfCreated(s: Scene, k: Kind)
    requires Aligned(s)
    ensures Info(Create(s, k), |s.objects|) == Origin + Origin + Unit + Grey
  {
    var c, n := Create(s, k), |s.objects|;
    assert c.translates[n] == Origin && c.rotations[n] == Origin && c.scales[n] == Unit && c.colors[n] == Grey;
    assert Origin + Origin + Unit + Grey == [0.0, 0.0, 0.0, 0.0, 0.0, 0.0, 1.0, 1.0, 1.0, 0.8, 0.8, 0.8];
  }

  /** Read after write: the report right after a receive holds the values just written, and only there. */
  lemma ReadAfterWrite(s: Scene, a: Attribute, i: int, x: real, y: real, z: real)
    requires HasRow(s, i)
    ensures HasRow(Receive(s, a, i, x, y, z), i)
    ensures Info(Receive(s, a, i, x, y, z), i)[a.Slot()..a.Slot() + 3] == [x, y, z]
    ensures forall b: Attribute :: b != a ==>
              Info(Receive(s, a, i, x, y, z), i)[b.Slot()..b.Slot() + 3] == Info(s, i)[b.Slot()..b.Slot() + 3]
  {
    var r := Receive(s, a, i, x, y, z);
    assert r.Table(a)[i][..3] == [x, y, z];
    forall b: Attribute | b != a
      ensures Info(r, i)[b.Slot()..b.Slot() + 3] == Info(s, i)[b.Slot()..b.Slot() + 3]
    {
      assert r.Table(b) == s.Table(b);
    }
  }
}
