/**
  The GLViewer widget's own state and the slots that change it: the five
  per-object lists, edited in place by the create, remove and receive slots and
  by loading a scene file, and the camera's yaw and pitch, turned by a
  right-button drag. The scene and file functions these methods are proved
  against live in SceneStore and SceneFile.
 */
module Viewer {
  import opened Wrappers
  import opened Text
  import opened SceneStore
  import opened SceneFile
  import opened Camera

  /* ---------------------------------------------------------------- record loops */

  /** saveFile's first loop: each kind code written out, then ','. */
  method WriteKindRecord(kinds: seq<Int32>) returns (line: string)
    ensures line == KindsRecord(kinds)
  {
    line := "";
    for i := 0 to |kinds|
      invariant line == KindsRecord(kinds[..i])
    {
      KindsRecordSnoc(kinds, i);
      line := line + IntText(kinds[i]) + [','];
    }
    assert kinds[..|kinds|] == kinds;
  }

  /** One group of a vector record: each component written out, then ','. */
  method WriteRow(row: Vec, format: real -> string) returns (group: string)
    ensures group == RowText(row, format)
  {
    group := "";
    for j := 0 to |row|
      invariant group == RowText(row[..j], format)
    {
      RowTextSnoc(row, format, j);
      group := group + format(row[j]) + [','];
    }
    assert row[..|row|] == row;
  }

  /** saveFile's loops over translates, rotations, scales or colors: each row's group, then ';'. */
  method WriteVectorRecord(rows: seq<Vec>, format: real -> string) returns (line: string)
    ensures line == VectorsRecord(rows, format)
  {
    line := "";
    for i := 0 to |rows|
      invariant line == VectorsRecord(rows[..i], format)
    {
      var group := WriteRow(rows[i], format);
      VectorsRecordSnoc(rows, format, i);
      line := line + group + [';'];
    }
    assert rows[..|rows|] == rows;
  }

  /** loadFile, line 0: split at ',' and append the integer value of every piece but the last. */
  method ReadKindRecord(kinds: seq<Int32>, line: string) returns (r: seq<Int32>)
    ensures r == kinds + ReadKinds(line)
  {
    var numbers := Split(line, ',');
    ghost var read := ReadKinds(line);
    r := kinds;
    for i := 0 to |numbers| - 1
      invariant r == kinds + read[..i]
    {
      assert read[..i + 1] == read[..i] + [ToInt(numbers[i])];
      r := r + [ToInt(numbers[i])];
    }
    assert read[..|read|] == read;
  }

  /** loadFile's inner loop: component j of the row becomes the j-th ','-piece of the group but the last. */
  method FillRow(row: Vec, group: string, parse: string -> real) returns (r: Vec)
    requires |Numbers(group)| <= |row|
    ensures r == Fill(row, Numbers(group), parse)
  {
    var numbers := Split(group, ',');
    r := row;
    for j := 0 to |numbers| - 1
      invariant |r| == |row|
      invariant forall m :: 0 <= m < j ==> r[m] == parse(numbers[m])
      invariant forall m :: j <= m < |r| ==> r[m] == row[m]
    {
      r := r[j := parse(numbers[j])];
    }
    ghost var filled := Fill(row, Numbers(group), parse);
    forall m | 0 <= m < |r|
      ensures r[m] == filled[m]
    {
      if m >= |numbers| - 1 {
        assert filled[m] == filled[|numbers| - 1..][m - (|numbers| - 1)];
      }
    }
  }

  /**
    loadFile's loop over the ';'-pieces of one line but the last: append a
    (0,0,0) row, then write the numbers of piece i into row i, counted from the
    start of the list and not from the rows just appended.
   */
  method FillGroups(rows: seq<Vec>, elements: seq<string>, parse: string -> real) returns (r: seq<Vec>)
    requires |elements| >= 1
    requires forall i :: 0 <= i < |elements| - 1 ==> |Numbers(elements[i])| <= |(rows + Zeros(|elements| - 1))[i]|
    ensures |r| == |rows| + |elements| - 1
    ensures forall k :: 0 <= k < |elements| - 1 ==> r[k] == Fill((rows + Zeros(|elements| - 1))[k], Numbers(elements[k]), parse)
    ensures forall k :: |elements| - 1 <= k < |r| ==> r[k] == (rows + Zeros(|elements| - 1))[k]
  {
    ghost var padded := rows + Zeros(|elements| - 1);
    r := rows;
    for i := 0 to |elements| - 1
      invariant |r| == |rows| + i
      invariant forall k :: 0 <= k < i ==> r[k] == Fill(padded[k], Numbers(elements[k]), parse)
      invariant forall k :: i <= k < |r| ==> r[k] == padded[k]
    {
      r := r + [Origin];
      assert r[|r| - 1] == padded[|r| - 1];
      var row := FillRow(r[i], elements[i], parse);
      r := r[i := row];
    }
  }

  /** loadFile, lines 1 to 4: split the line at ';' and read the groups into the rows. */
  method ReadVectorRecord(rows: seq<Vec>, line: string, parse: string -> real) returns (r: seq<Vec>)
    requires FitsRows(rows, line)
    ensures ReadVectors(rows, line, parse) == Some(r)
  {
    var elements := Split(line, ';');
    ghost var groups, padded := Pieces(line, ';'), Padded(rows, line);
    assert padded == rows + Zeros(|elements| - 1);
    assert forall i :: 0 <= i < |elements| - 1 ==> groups[i] == elements[i];
    r := FillGroups(rows, elements, parse);
    ghost var v := ReadVectors(rows, line, parse).value;
    assert |v| == |r|;
    forall k | 0 <= k < |r|
      ensures v[k] == r[k]
    {
      if k < |groups| {
        assert groups[k] == elements[k];
      }
    }
    assert v == r;
  }

  /** saveFile's body: the five records, each but the last followed by a newline. */
  method WriteScene(s: Scene, format: real -> string) returns (text: string)
    ensures text == FileText(s, format)
  {
    var kinds := WriteKindRecord(s.objects);
    var t := WriteVectorRecord(s.translates, format);
    var o := WriteVectorRecord(s.rotations, format);
    var k := WriteVectorRecord(s.scales, format);
    var c := WriteVectorRecord(s.colors, format);
    text := kinds + "\n" + t + "\n" + o + "\n" + k + "\n" + c;
    JoinFive(kinds, t, o, k, c, '\n');
  }

  /**
    loadFile's loop: at most five lines, line k read into list k on top of
    what the lists already hold.
   */
  method ReadScene(lines: seq<string>, s: Scene, parse: string -> real) returns (r: Scene)
    requires Decode(lines, s, parse).Some?
    ensures Decode(lines, s, parse) == Some(r)
    ensures Shaped(s) ==> Shaped(r)
  {
    if Shaped(s) {
      DecodeKeepsShape(lines, s, parse);
    }
    DecodeRecords(lines, s, parse);
    ghost var target := Decode(lines, s, parse).value;
    r := s;
    var lineCount := 0;
    while lineCount < |lines| && lineCount < 5
      invariant 0 <= lineCount <= 5 && lineCount <= |lines|
      invariant r.objects == if lineCount > 0 then target.objects else s.objects
      invariant r.translates == if lineCount > 1 then target.translates else s.translates
      invariant r.rotations == if lineCount > 2 then target.rotations else s.rotations
      invariant r.scales == if lineCount > 3 then target.scales else s.scales
      invariant r.colors == if lineCount > 4 then target.colors else s.colors
    {
      if lineCount == 0 {
        var objects := ReadKindRecord(r.objects, lines[0]);
        r := r.(objects := objects);
      } else if lineCount == 1 {
        var translates := ReadVectorRecord(r.translates, lines[1], parse);
        r := r.(translates := translates);
      } else if lineCount == 2 {
        var rotations := ReadVectorRecord(r.rotations, lines[2], parse);
        r := r.(rotations := rotations);
      } else if lineCount == 3 {
        var scales := ReadVectorRecord(r.scales, lines[3], parse);
        r := r.(scales := scales);
      } else {
        var colors := ReadVectorRecord(r.colors, lines[4], parse);
        r := r.(colors := colors);
      }
      lineCount := lineCount + 1;
    }
  }

  /* ---------------------------------------------------------------- the widget */

  class GLViewer {
    /** Kind codes, 0 = Plane ... 6 = Wedge. */
    var objects: seq<Int32>
    var translates: seq<Vec>
    var rotations: seq<Vec>
    var scales: seq<Vec>
    var colors: seq<Vec>
    /** camRotation[0] and camRotation[1], in radians. */
    var yaw: real
    var pitch: real
    var rotateSpeed: real

    /** The five lists as a scene value. */
    function Current(): Scene
      reads this
    {
      Scene(objects, translates, rotations, scales, colors)
    }

    /**
      Every row of the four vector lists has three components; every slot keeps
      this, so answerInfo can read three numbers of any row that exists.
     */
    predicate Valid()
      reads this
      ensures Valid() ==> forall i :: 0 <= i < |translates| && i < |rotations| && i < |scales| && i < |colors| ==>
                            HasRow(Current(), i)
    {
      Shaped(Current())
    }

    /** An empty scene; the camera turned 225 degrees and tilted 30 degrees down. */
    constructor()
      ensures Current() == Empty && Valid()
      ensures yaw == Pi + Pi / 4.0 && pitch == -Pi / 6.0 && rotateSpeed == RotateSpeed
    {
      objects, translates, rotations, scales, colors := [], [], [], [], [];
      yaw, pitch := Pi + Pi / 4.0, -Pi / 6.0;
      rotateSpeed := 50.0;
    }

    /** The body every create slot shares: push one row onto each of the five lists. */
    method Append(k: Kind)
      requires Valid()
      modifies this
      ensures Current() == Create(old(Current()), k) && Valid()
      ensures yaw == old(yaw) && pitch == old(pitch) && rotateSpeed == old(rotateSpeed)
    {
      objects := objects + [k.Code()];
      translates := translates + [[0.0, 0.0, 0.0]];
      rotations := rotations + [[0.0, 0.0, 0.0]];
      scales := scales + [[1.0, 1.0, 1.0]];
      colors := colors + [[0.8, 0.8, 0.8]];
    }

    method CreatePlane()
      requires Valid()
      modifies this
      ensures Current() == Create(old(Current()), Plane) && Valid()
      ensures yaw == old(yaw) && pitch == old(pitch) && rotateSpeed == old(rotateSpeed)
    {
      Append(Plane);
    }

    method CreateCube()
      requires Valid()
      modifies this
      ensures Current() == Create(old(Current()), Cube) && Valid()
      ensures yaw == old(yaw) && pitch == old(pitch) && rotateSpeed == old(rotateSpeed)
    {
      Append(Cube);
    }

    method CreateSphere()
      requires Valid()
      modifies this
      ensures Current() == Create(old(Current()), Sphere) && Valid()
      ensures yaw == old(yaw) && pitch == old(pitch) && rotateSpeed == old(rotateSpeed)
    {
      Append(Sphere);
    }

    method CreateCone()
      requires Valid()
      modifies this
      ensures Current() == Create(old(Current()), Cone) && Valid()
      ensures yaw == old(yaw) && pitch == old(pitch) && rotateSpeed == old(rotateSpeed)
    {
      Append(Cone);
    }

    method CreateCylinder()
      requires Valid()
      modifies this
      ensures Current() == Create(old(Current()), Cylinder) && Valid()
      ensures yaw == old(yaw) && pitch == old(pitch) && rotateSpeed == old(rotateSpeed)
    {
      Append(Cylinder);
    }

    method CreatePyramid()
      requires Valid()
      modifies this
      ensures Current() == Create(old(Current()), Pyramid) && Valid()
      ensures yaw == old(yaw) && pitch == old(pitch) && rotateSpeed == old(rotateSpeed)
    {
      Append(Pyramid);
    }

    method CreateWedge()
      requires Valid()
      modifies this
      ensures Current() == Create(old(Current()), Wedge) && Valid()
      ensures yaw == old(yaw) && pitch == old(pitch) && rotateSpeed == old(rotateSpeed)
    {
      Append(Wedge);
    }

    /** Erase row `index` from all five lists; a negative index is ignored. */
    method RemoveObject(index: int)
      requires Valid() && Below(Current(), index)
      modifies this
      ensures Current() == Remove(old(Current()), index) && Valid()
      ensures yaw == old(yaw) && pitch == old(pitch) && rotateSpeed == old(rotateSpeed)
    {
      if index > -1 {
        objects := objects[..index] + objects[index + 1..];
        translates := translates[..index] + translates[index + 1..];
        rotations := rotations[..index] + rotations[index + 1..];
        scales := scales[..index] + scales[index + 1..];
        colors := colors[..index] + colors[index + 1..];
      }
    }

    method ReceiveTranslation(index: int, x: real, y: real, z: real)
      requires Valid() && index < |translates|
      modifies this
      ensures Current() == Receive(old(Current()), Translation, index, x, y, z) && Valid()
      ensures yaw == old(yaw) && pitch == old(pitch) && rotateSpeed == old(rotateSpeed)
    {
      if index > -1 {
        translates := translates[index := translates[index][0 := x][1 := y][2 := z]];
      }
    }

    method ReceiveRotation(index: int, x: real, y: real, z: real)
      requires Valid() && index < |rotations|
      modifies this
      ensures Current() == Receive(old(Current()), Rotation, index, x, y, z) && Valid()
      ensures yaw == old(yaw) && pitch == old(pitch) && rotateSpeed == old(rotateSpeed)
    {
      if index > -1 {
        rotations := rotations[index := rotations[index][0 := x][1 := y][2 := z]];
      }
    }

    method ReceiveScale(index: int, x: real, y: real, z: real)
      requires Valid() && index < |scales|
      modifies this
      ensures Current() == Receive(old(Current()), Scale, index, x, y, z) && Valid()
      ensures yaw == old(yaw) && pitch == old(pitch) && rotateSpeed == old(rotateSpeed)
    {
      if index > -1 {
        scales := scales[index := scales[index][0 := x][1 := y][2 := z]];
      }
    }

    method ReceiveColor(index: int, r: real, g: real, b: real)
      requires Valid() && index < |colors|
      modifies this
      ensures Current() == Receive(old(Current()), Color, index, r, g, b) && Valid()
      ensures yaw == old(yaw) && pitch == old(pitch) && rotateSpeed == old(rotateSpeed)
    {
      if index > -1 {
        colors := colors[index := colors[index][0 := r][1 := g][2 := b]];
      }
    }

    /** The 12 numbers sendInfo is emitted with, or None when the index is negative and nothing is sent. */
    method AnswerInfo(index: int) returns (info: Option<seq<real>>)
      requires Valid()
      requires index < |translates| && index < |rotations| && index < |scales| && index < |colors|
      ensures index < 0 ==> info == None
      ensures index >= 0 ==> HasRow(Current(), index) && info == Some(Info(Current(), index))
    {
      if index > -1 {
        var t, o, s, c := translates[index], rotations[index], scales[index], colors[index];
        info := Some([t[0], t[1], t[2], o[0], o[1], o[2], s[0], s[1], s[2], c[0], c[1], c[2]]);
      } else {
        info := None;
      }
    }

    /** The text saveFile writes: the five records, a newline after each but the last. */
    method SaveFile(format: real -> string) returns (text: string)
      ensures text == FileText(Current(), format)
    {
      text := WriteScene(Current(), format);
    }

    /**
      loadFile: read at most five lines, line k into list k, on top of what the
      lists already hold. Requires that no group has more numbers than its row
      has components, which the source would write out of bounds.
     */
    method LoadFile(lines: seq<string>, parse: string -> real)
      requires Valid() && Decode(lines, Current(), parse).Some?
      modifies this
      ensures Current() == Decode(lines, old(Current()), parse).value && Valid()
      ensures yaw == old(yaw) && pitch == old(pitch) && rotateSpeed == old(rotateSpeed)
    {
      var loaded := ReadScene(lines, Current(), parse);
      objects, translates, rotations, scales, colors :=
        loaded.objects, loaded.translates, loaded.rotations, loaded.scales, loaded.colors;
    }

    /**
      mouseMoveEvent with the right button alone: each angle drops by one look
      step and is wrapped back into [0, 2pi] in place. The other button
      combinations move the camera position, not its angles.
     */
    method MouseMove(dx: real, dy: real, leftButton: bool, rightButton: bool)
      modifies this
      ensures Current() == old(Current()) && rotateSpeed == old(rotateSpeed)
      ensures rightButton && !leftButton ==>
                yaw == Turn(old(yaw), Step(rotateSpeed, dx)) && pitch == Turn(old(pitch), Step(rotateSpeed, dy))
      ensures rightButton && !leftButton && InRange(old(yaw)) && -TwoPi <= Step(rotateSpeed, dx) <= TwoPi ==>
                InRange(yaw)
      ensures !(rightButton && !leftButton) ==> yaw == old(yaw) && pitch == old(pitch)
    {
      if rightButton && !leftButton {
        yaw := yaw - Step(rotateSpeed, dx);
        if yaw < 0.0 {
          yaw := yaw + TwoPi;
        } else if yaw > TwoPi {
          yaw := yaw - TwoPi;
        }
        pitch := pitch - Step(rotateSpeed, dy);
        if pitch < 0.0 {
          pitch := pitch + TwoPi;
        } else if pitch > TwoPi {
          pitch := pitch - TwoPi;
        }
        if InRange(old(yaw)) && -TwoPi <= Step(rotateSpeed, dx) <= TwoPi {
          TurnStaysInRange(old(yaw), Step(rotateSpeed, dx));
        }
      }
    }
  }
}
