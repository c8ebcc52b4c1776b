/**
  The scene file (".vox"): five records, one per line, in the order kinds,
  translates, rotations, scales, colours.

    kinds:    k0,k1,...,kn,
    vectors:  x,y,z,;x,y,z,;...;

  Every number is followed by ',' and, in the vector records, every row by ';'.
  Records 0 to 3 are followed by a newline; the colour record is not.

  Reading is lenient and literal: a piece that is not a number reads as 0, the
  piece after the last separator is always dropped, and each row read from
  record k is first appended as (0,0,0) and then written at index i counted
  from 0, not from the end of what was already there.
 */
module SceneFile {
  import opened Wrappers
  import opened Text
  import opened SceneStore

  /**
    How a real number is written (`QTextStream << double`) and read back
    (QString::toDouble, 0 for text that is not a number); left abstract.
   */
  datatype RealText = RealText(format: real -> string, parse: string -> real)

  /**
    The number x is written exactly: reading its text back gives x. No format
    does this for every real (there are more reals than strings), so exactness
    is asked of the numbers a scene holds, not of all numbers.
   */
  predicate ExactAt(c: RealText, x: real) {
    c.parse(c.format(x)) == x
  }

  /** Every component of the row is written exactly. */
  predicate ExactRow(c: RealText, row: Vec) {
    forall j :: 0 <= j < |row| ==> ExactAt(c, row[j])
  }

  /** Every component of every row is written exactly. */
  predicate ExactOn(c: RealText, rows: seq<Vec>) {
    forall i :: 0 <= i < |rows| ==> ExactRow(c, rows[i])
  }

  /** Every number the scene would save is written exactly. */
  predicate ExactScene(c: RealText, s: Scene) {
    ExactOn(c, s.translates) && ExactOn(c, s.rotations) && ExactOn(c, s.scales) && ExactOn(c, s.colors)
  }

  /** A written number never contains one of the file's separators. */
  ghost predicate Separable(format: real -> string) {
    forall x :: ',' !in format(x) && ';' !in format(x) && '\n' !in format(x)
  }

  lemma FormatFree(format: real -> string, x: real)
    requires Separable(format)
    ensures ',' !in format(x) && ';' !in format(x) && '\n' !in format(x)
  {
  }

  /* ---------------------------------------------------------------- writing */

  function KindTexts(kinds: seq<Int32>): (r: seq<string>)
    ensures |r| == |kinds|
    ensures forall i :: 0 <= i < |kinds| ==> r[i] == IntText(kinds[i])
  {
    seq(|kinds|, i requires 0 <= i < |kinds| => IntText(kinds[i]))
  }

  /** Record 0: every kind code followed by ','. */
  function KindsRecord(kinds: seq<Int32>): string {
    Terminated(KindTexts(kinds), ',')
  }

  function NumberTexts(row: Vec, format: real -> string): (r: seq<string>)
    ensures |r| == |row|
    ensures forall j :: 0 <= j < |row| ==> r[j] == format(row[j])
  {
    seq(|row|, j requires 0 <= j < |row| => format(row[j]))
  }

  /** One group of a vector record: every component followed by ','. */
  function RowText(row: Vec, format: real -> string): string {
    Terminated(NumberTexts(row, format), ',')
  }

  function RowTexts(rows: seq<Vec>, format: real -> string): (r: seq<string>)
    ensures |r| == |rows|
    ensures forall i :: 0 <= i < |rows| ==> r[i] == RowText(rows[i], format)
  {
    seq(|rows|, i requires 0 <= i < |rows| => RowText(rows[i], format))
  }

  /** Records 1 to 4: every row's group followed by ';'. */
  function VectorsRecord(rows: seq<Vec>, format: real -> string): string {
    Terminated(RowTexts(rows, format), ';')
  }

  /**
    saveFile, record by record: five records, each empty exactly when its list
    is, and none holding a newline when the numbers' text holds none.
   */
  function Encode(s: Scene, format: real -> string): (r: seq<string>)
    ensures |r| == 5
    ensures r[0] == [] <==> s.objects == []
    ensures r[1] == [] <==> s.translates == []
    ensures r[2] == [] <==> s.rotations == []
    ensures r[3] == [] <==> s.scales == []
    ensures r[4] == [] <==> s.colors == []
    ensures Separable(format) ==> FreeOf(r, '\n')
  {
    RecordsEmptyAndFree(s, format);
    [KindsRecord(s.objects), VectorsRecord(s.translates, format), VectorsRecord(s.rotations, format),
     VectorsRecord(s.scales, format), VectorsRecord(s.colors, format)]
  }

  /** Each record is empty exactly when its list is, and holds no newline when the numbers' text holds none. */
  lemma RecordsEmptyAndFree(s: Scene, format: real -> string)
    ensures KindsRecord(s.objects) == [] <==> s.objects == []
    ensures VectorsRecord(s.translates, format) == [] <==> s.translates == []
    ensures VectorsRecord(s.rotations, format) == [] <==> s.rotations == []
    ensures VectorsRecord(s.scales, format) == [] <==> s.scales == []
    ensures VectorsRecord(s.colors, format) == [] <==> s.colors == []
    ensures '\n' !in KindsRecord(s.objects)
    ensures Separable(format) ==>
              ('\n' !in VectorsRecord(s.translates, format) && '\n' !in VectorsRecord(s.rotations, format) &&
               '\n' !in VectorsRecord(s.scales, format) && '\n' !in VectorsRecord(s.colors, format))
  {
    TerminatedEmpty(KindTexts(s.objects), ',');
    TerminatedEmpty(RowTexts(s.translates, format), ';');
    TerminatedEmpty(RowTexts(s.rotations, format), ';');
    TerminatedEmpty(RowTexts(s.scales, format), ';');
    TerminatedEmpty(RowTexts(s.colors, format), ';');
    KindsRecordFree(s.objects);
    if Separable(format) {
      VectorsRecordFree(s.translates, format);
      VectorsRecordFree(s.rotations, format);
      VectorsRecordFree(s.scales, format);
      VectorsRecordFree(s.colors, format);
    }
  }

  /**
    The whole file saveFile writes: a newline after each record but the last,
    so that splitting it at the newlines gives back exactly the five records.
   */
  function FileText(s: Scene, format: real -> string): (r: string)
    ensures |r| >= 4
    ensures Separable(format) ==> Split(r, '\n') == Encode(s, format)
  {
    var e := Encode(s, format);
    JoinLength(e, '\n');
    assert Separable(format) ==> Split(Join(e, '\n'), '\n') == e by {
      if Separable(format) {
        SplitJoin(e, '\n');
      }
    }
    Join(e, '\n')
  }

  /**
    The lines a text stream's readLine hands out until it reports the end of the
    file: none for an empty file, no line holds a newline, and joining them with
    newlines gives back the text, plus the final newline when there is one (a
    final newline ends the last line; it does not start an empty one).
   */
  function ReadLines(text: string): (r: seq<string>)
    ensures r == [] <==> text == []
    ensures forall k :: 0 <= k < |r| ==> '\n' !in r[k]
    ensures r != [] ==> text == Join(r, '\n') + (if text[|text| - 1] == '\n' then "\n" else "")
  {
    if text == [] then []
    else
      var lines := Split(text, '\n');
      var n := |lines|;
      if lines[n - 1] == [] then
        assert n >= 2;
        assert lines[..n - 1] + [lines[n - 1]] == lines;
        JoinSnoc(lines[..n - 1], [], '\n');
        lines[..n - 1]
      else
        assert text[|text| - 1] == lines[n - 1][|lines[n - 1]| - 1] by {
          if n >= 2 {
            assert lines[..n - 1] + [lines[n - 1]] == lines;
            JoinSnoc(lines[..n - 1], lines[n - 1], '\n');
          }
        }
        assert '\n' !in lines[n - 1];
        lines
  }

  /** One more kind code written: its text and a ',' at the end of the record. */
  lemma KindsRecordSnoc(kinds: seq<Int32>, i: nat)
    requires i < |kinds|
    ensures KindsRecord(kinds[..i + 1]) == KindsRecord(kinds[..i]) + IntText(kinds[i]) + [',']
  {
    assert KindTexts(kinds[..i + 1]) == KindTexts(kinds[..i]) + [IntText(kinds[i])];
    TerminatedSnoc(KindTexts(kinds[..i]), IntText(kinds[i]), ',');
  }

  /** One more component written: its text and a ',' at the end of the group. */
  lemma RowTextSnoc(row: Vec, format: real -> string, j: nat)
    requires j < |row|
    ensures RowText(row[..j + 1], format) == RowText(row[..j], format) + format(row[j]) + [',']
  {
    assert NumberTexts(row[..j + 1], format) == NumberTexts(row[..j], format) + [format(row[j])];
    TerminatedSnoc(NumberTexts(row[..j], format), format(row[j]), ',');
  }

  /** One more row written: its group and a ';' at the end of the record. */
  lemma VectorsRecordSnoc(rows: seq<Vec>, format: real -> string, i: nat)
    requires i < |rows|
    ensures VectorsRecord(rows[..i + 1], format) == VectorsRecord(rows[..i], format) + RowText(rows[i], format) + [';']
  {
    assert RowTexts(rows[..i + 1], format) == RowTexts(rows[..i], format) + [RowText(rows[i], format)];
    TerminatedSnoc(RowTexts(rows[..i], format), RowText(rows[i], format), ';');
  }

  /* ---------------------------------------------------------------- reading */

  /** Record 0: one kind code per ','-piece except the last. */
  function ReadKinds(line: string): (r: seq<Int32>)
    ensures |r| == |Pieces(line, ',')|
    ensures forall i :: 0 <= i < |r| ==> r[i] == ToInt(Pieces(line, ',')[i])
  {
    var pieces := Pieces(line, ',');
    seq(|pieces|, i requires 0 <= i < |pieces| => ToInt(pieces[i]))
  }

  /** The numbers of one ';'-group: every ','-piece except the last. */
  function Numbers(group: string): seq<string> {
    Pieces(group, ',')
  }

  function Zeros(k: nat): (r: seq<Vec>)
    ensures |r| == k && forall i :: 0 <= i < k ==> r[i] == Origin
  {
    seq(k, _ => Origin)
  }

  /** The rows after the loader has appended one (0,0,0) row per group. */
  function Padded(rows: seq<Vec>, line: string): (r: seq<Vec>)
    ensures |r| == |rows| + |Pieces(line, ';')|
  {
    rows + Zeros(|Pieces(line, ';')|)
  }

  /** Component j of the row becomes the j-th number read; the components past the last number keep their value. */
  function Fill(row: Vec, numbers: seq<string>, parse: string -> real): (r: Vec)
    requires |numbers| <= |row|
    ensures |r| == |row|
    ensures forall j :: 0 <= j < |numbers| ==> r[j] == parse(numbers[j])
    ensures r[|numbers|..] == row[|numbers|..]
  {
    seq(|numbers|, j requires 0 <= j < |numbers| => parse(numbers[j])) + row[|numbers|..]
  }

  /** Group i has no more numbers than row i (of the padded rows) has components. */
  predicate FitsRows(rows: seq<Vec>, line: string) {
    var groups, padded := Pieces(line, ';'), Padded(rows, line);
    forall i :: 0 <= i < |groups| ==> |Numbers(groups[i])| <= |padded[i]|
  }

  /**
    Records 1 to 4, read into the rows already there: None when a group has more
    numbers than its row has components, the out-of-bounds write of the source.
   */
  function ReadVectors(rows: seq<Vec>, line: string, parse: string -> real): (r: Option<seq<Vec>>)
    ensures r.Some? <==> FitsRows(rows, line)
    ensures r.Some? ==> |r.value| == |rows| + |Pieces(line, ';')|
    ensures r.Some? ==> forall i :: 0 <= i < |Pieces(line, ';')| ==>
              r.value[i] == Fill(Padded(rows, line)[i], Numbers(Pieces(line, ';')[i]), parse)
    ensures r.Some? ==> forall i :: |Pieces(line, ';')| <= i < |r.value| ==> r.value[i] == Padded(rows, line)[i]
    ensures r.Some? ==> forall i :: 0 <= i < |r.value| ==> |r.value[i]| == |Padded(rows, line)[i]|
  {
    var groups, padded := Pieces(line, ';'), Padded(rows, line);
    if FitsRows(rows, line) then
      Some(seq(|padded|, i requires 0 <= i < |padded| =>
                 if i < |groups| then Fill(padded[i], Numbers(groups[i]), parse) else padded[i]))
    else None
  }

  /**
    loadFile on top of the scene `s`: only the first five lines are read, line k
    into list k. It fails exactly when a present vector line has a group too
    long for its row; otherwise the old kinds stay in front and every list grows
    by the pieces of its line, and without lines nothing changes.
   */
  function Decode(lines: seq<string>, s: Scene, parse: string -> real): (r: Option<Scene>)
    ensures r.Some? <==> (|lines| > 1 ==> FitsRows(s.translates, lines[1])) &&
                         (|lines| > 2 ==> FitsRows(s.rotations, lines[2])) &&
                         (|lines| > 3 ==> FitsRows(s.scales, lines[3])) &&
                         (|lines| > 4 ==> FitsRows(s.colors, lines[4]))
    ensures |lines| == 0 ==> r == Some(s)
    ensures r.Some? ==> |r.value.objects| == |s.objects| + (if |lines| > 0 then |Pieces(lines[0], ',')| else 0) &&
                        r.value.objects[..|s.objects|] == s.objects
    ensures r.Some? ==> |r.value.translates| == |s.translates| + (if |lines| > 1 then |Pieces(lines[1], ';')| else 0)
    ensures r.Some? ==> |r.value.rotations| == |s.rotations| + (if |lines| > 2 then |Pieces(lines[2], ';')| else 0)
    ensures r.Some? ==> |r.value.scales| == |s.scales| + (if |lines| > 3 then |Pieces(lines[3], ';')| else 0)
    ensures r.Some? ==> |r.value.colors| == |s.colors| + (if |lines| > 4 then |Pieces(lines[4], ';')| else 0)
  {
    var objects := if |lines| > 0 then s.objects + ReadKinds(lines[0]) else s.objects;
    var translates := if |lines| > 1 then ReadVectors(s.translates, lines[1], parse) else Some(s.translates);
    var rotations := if |lines| > 2 then ReadVectors(s.rotations, lines[2], parse) else Some(s.rotations);
    var scales := if |lines| > 3 then ReadVectors(s.scales, lines[3], parse) else Some(s.scales);
    var colors := if |lines| > 4 then ReadVectors(s.colors, lines[4], parse) else Some(s.colors);
    if translates.Some? && rotations.Some? && scales.Some? && colors.Some? then
      Some(Scene(objects, translates.value, rotations.value, scales.value, colors.value))
    else None
  }

  /** Decode record by record: line k, when present, is what list k was read into. */
  lemma DecodeRecords(lines: seq<string>, s: Scene, parse: string -> real)
    requires Decode(lines, s, parse).Some?
    ensures var r := Decode(lines, s, parse).value;
      r.objects == (if |lines| > 0 then s.objects + ReadKinds(lines[0]) else s.objects) &&
      (if |lines| > 1 then ReadVectors(s.translates, lines[1], parse) == Some(r.translates)
       else r.translates == s.translates) &&
      (if |lines| > 2 then ReadVectors(s.rotations, lines[2], parse) == Some(r.rotations)
       else r.rotations == s.rotations) &&
      (if |lines| > 3 then ReadVectors(s.scales, lines[3], parse) == Some(r.scales)
       else r.scales == s.scales) &&
      (if |lines| > 4 then ReadVectors(s.colors, lines[4], parse) == Some(r.colors)
       else r.colors == s.colors)
  {
  }

  /** Reading a record into rows of three components gives rows of three components. */
  lemma ReadVectorsKeepsRows3(rows: seq<Vec>, line: string, parse: string -> real)
    requires Rows3(rows) && ReadVectors(rows, line, parse).Some?
    ensures Rows3(ReadVectors(rows, line, parse).value)
  {
    var padded := Padded(rows, line);
    assert Rows3(padded) by {
      forall i | 0 <= i < |padded|
        ensures |padded[i]| == 3
      {
        if i >= |rows| {
          assert padded[i] == Zeros(|Pieces(line, ';')|)[i - |rows|];
        }
      }
    }
  }

  /** Loading keeps every row at three components, whatever the file holds. */
  lemma DecodeKeepsShape(lines: seq<string>, s: Scene, parse: string -> real)
    requires Shaped(s) && Decode(lines, s, parse).Some?
    ensures Shaped(Decode(lines, s, parse).value)
  {
    if |lines| > 1 { ReadVectorsKeepsRows3(s.translates, lines[1], parse); }
    if |lines| > 2 { ReadVectorsKeepsRows3(s.rotations, lines[2], parse); }
    if |lines| > 3 { ReadVectorsKeepsRows3(s.scales, lines[3], parse); }
    if |lines| > 4 { ReadVectorsKeepsRows3(s.colors, lines[4], parse); }
  }

  /**
    What loading a saved list of rows does to the rows already there: the saved
    rows replace the first ones, and the rows appended by the load stay (0,0,0)
    unless they are themselves among the first ones.
   */
  function Overlay(prior: seq<Vec>, saved: seq<Vec>): (r: seq<Vec>)
    ensures |r| == |prior| + |saved|
    ensures r[..|saved|] == saved
    ensures forall i :: |saved| <= i < |prior| ==> r[i] == prior[i]
    ensures forall i :: |prior| <= i < |r| && |saved| <= i ==> r[i] == Origin
  {
    var padded := prior + Zeros(|saved|);
    saved + padded[|saved|..]
  }

  /* ---------------------------------------------------------------- properties */

  lemma KindTextsFree(kinds: seq<Int32>)
    ensures FreeOf(KindTexts(kinds), ',') && FreeOf(KindTexts(kinds), ';') && FreeOf(KindTexts(kinds), '\n')
  {
    forall i | 0 <= i < |kinds|
      ensures ',' !in IntText(kinds[i]) && ';' !in IntText(kinds[i]) && '\n' !in IntText(kinds[i])
    {
      var t := IntText(kinds[i]);
      assert forall j :: 0 <= j < |t| ==> t[j] != ',' && t[j] != ';' && t[j] != '\n';
    }
  }

  /** The kinds record reads back as the kinds written. */
  lemma {:induction false} ReadKindsRecord(kinds: seq<Int32>)
    ensures ReadKinds(KindsRecord(kinds)) == kinds
  {
    KindTextsFree(kinds);
    SplitTerminated(KindTexts(kinds), ',');
    forall i | 0 <= i < |kinds| ensures ReadKinds(KindsRecord(kinds))[i] == kinds[i] {
      ToIntIntText(kinds[i]);
    }
  }

  lemma KindsRecordFree(kinds: seq<Int32>)
    ensures '\n' !in KindsRecord(kinds)
  {
    KindTextsFree(kinds);
    TerminatedFree(KindTexts(kinds), ',', '\n');
  }

  lemma VectorsRecordFree(rows: seq<Vec>, format: real -> string)
    requires Separable(format)
    ensures '\n' !in VectorsRecord(rows, format)
  {
    RowTextsFree(rows, format);
    TerminatedFree(RowTexts(rows, format), ';', '\n');
  }

  lemma NumberTextsFree(row: Vec, format: real -> string)
    requires Separable(format)
    ensures FreeOf(NumberTexts(row, format), ',')
  {
    forall j | 0 <= j < |row| ensures ',' !in NumberTexts(row, format)[j] {
      FormatFree(format, row[j]);
    }
  }

  lemma RowTextFree(row: Vec, format: real -> string)
    requires Separable(format)
    ensures ';' !in RowText(row, format) && '\n' !in RowText(row, format)
  {
    NumberTextsOtherFree(row, format);
    TerminatedFree(NumberTexts(row, format), ',', ';');
    TerminatedFree(NumberTexts(row, format), ',', '\n');
  }

  /** A terminated list contains a character other than its separator only if one of its pieces does. */
  lemma {:induction false} TerminatedFree(pieces: seq<string>, sep: char, c: char)
    requires c != sep && FreeOf(pieces, c)
    ensures c !in Terminated(pieces, sep)
  {
    if pieces != [] {
      TerminatedFree(pieces[1..], sep, c);
    }
  }

  lemma NumberTextsOtherFree(row: Vec, format: real -> string)
    requires Separable(format)
    ensures FreeOf(NumberTexts(row, format), ';') && FreeOf(NumberTexts(row, format), '\n')
  {
    forall j | 0 <= j < |row|
      ensures ';' !in NumberTexts(row, format)[j] && '\n' !in NumberTexts(row, format)[j]
    {
      FormatFree(format, row[j]);
    }
  }

  /** One group reads back as the row written, when the row has at most as many components as its target. */
  lemma RowRoundTrip(row: Vec, target: Vec, c: RealText)
    requires ExactRow(c, row) && Separable(c.format) && |row| <= |target|
    ensures Numbers(RowText(row, c.format)) == NumberTexts(row, c.format)
    ensures Fill(target, Numbers(RowText(row, c.format)), c.parse) == row + target[|row|..]
  {
    NumberTextsFree(row, c.format);
    SplitTerminated(NumberTexts(row, c.format), ',');
    var r := Fill(target, Numbers(RowText(row, c.format)), c.parse);
    forall j | 0 <= j < |row| ensures r[j] == row[j] {
      assert ExactAt(c, row[j]);
    }
    assert r[..|row|] == row;
    assert r == r[..|row|] + r[|row|..];
  }

  lemma RowTextsFree(rows: seq<Vec>, format: real -> string)
    requires Separable(format)
    ensures FreeOf(RowTexts(rows, format), ';') && FreeOf(RowTexts(rows, format), '\n')
  {
    forall i | 0 <= i < |rows|
      ensures ';' !in RowTexts(rows, format)[i] && '\n' !in RowTexts(rows, format)[i]
    {
      NumberTextsOtherFree(rows[i], format);
      RowTextFree(rows[i], format);
    }
  }

  /**
    A vector record read into rows that are already there: the saved rows end up
    at the front, not after the old ones (the source writes row i, counted from 0).
   */
  lemma ReadVectorsRecord(prior: seq<Vec>, rows: seq<Vec>, c: RealText)
    requires ExactOn(c, rows) && Separable(c.format) && Rows3(prior) && Rows3(rows)
    ensures ReadVectors(prior, VectorsRecord(rows, c.format), c.parse) == Some(Overlay(prior, rows))
  {
    var line := VectorsRecord(rows, c.format);
    RowTextsFree(rows, c.format);
    SplitTerminated(RowTexts(rows, c.format), ';');
    var groups, padded := Pieces(line, ';'), Padded(prior, line);
    assert groups == RowTexts(rows, c.format);
    forall i | 0 <= i < |groups|
      ensures |Numbers(groups[i])| <= |padded[i]|
      ensures Fill(padded[i], Numbers(groups[i]), c.parse) == rows[i]
    {
      assert |padded[i]| == 3 && ExactRow(c, rows[i]);
      RowRoundTrip(rows[i], padded[i], c);
    }
    var r := ReadVectors(prior, line, c.parse);
    assert r.Some?;
    assert r.value == Overlay(prior, rows);
  }

  /**
    Loading a saved scene into a scene that already has objects: the kinds are
    appended, but every vector list gets the saved rows at its front and (0,0,0)
    rows behind the old ones, so the result is not the two scenes concatenated.
   */
  lemma LoadIntoNonEmpty(s: Scene, prior: Scene, c: RealText)
    requires ExactScene(c, s) && Separable(c.format) && Shaped(s) && Shaped(prior)
    ensures Decode(Encode(s, c.format), prior, c.parse) ==
            Some(Scene(prior.objects + s.objects, Overlay(prior.translates, s.translates),
                       Overlay(prior.rotations, s.rotations), Overlay(prior.scales, s.scales),
                       Overlay(prior.colors, s.colors)))
  {
    ReadKindsRecord(s.objects);
    ReadVectorsRecord(prior.translates, s.translates, c);
    ReadVectorsRecord(prior.rotations, s.rotations, c);
    ReadVectorsRecord(prior.scales, s.scales, c);
    ReadVectorsRecord(prior.colors, s.colors, c);
  }

  /**
    Loading into a scene whose first translate differs from the saved one does
    not concatenate: the saved translate replaces the old first one. When the
    file has no more rows than the scene, every loaded object is left with
    (0,0,0) rows, scale included, so it is drawn at zero size. One fresh cube
    loaded with a saved cube moved to (1,0,0) gives translates (1,0,0), (0,0,0).
   */
  lemma LoadIsNotConcatenation(s: Scene, prior: Scene, c: RealText)
    requires ExactScene(c, s) && Separable(c.format) && Shaped(s) && Shaped(prior)
    requires s.translates != [] && prior.translates != [] && s.translates[0] != prior.translates[0]
    ensures Decode(Encode(s, c.format), prior, c.parse).Some?
    ensures Decode(Encode(s, c.format), prior, c.parse).value.translates != prior.translates + s.translates
    ensures |s.scales| <= |prior.scales| ==>
              forall i :: |prior.scales| <= i < |Decode(Encode(s, c.format), prior, c.parse).value.scales| ==>
                Decode(Encode(s, c.format), prior, c.parse).value.scales[i] == Origin
  {
    LoadIntoNonEmpty(s, prior, c);
    var t := Overlay(prior.translates, s.translates);
    assert t[0] == s.translates[0];
    assert (prior.translates + s.translates)[0] == prior.translates[0];
  }

  lemma OverlayEmpty(saved: seq<Vec>)
    ensures Overlay([], saved) == saved
  {
    var r := Overlay([], saved);
    assert r == r[..|saved|];
  }

  /** Round trip: the saved records read into an empty scene give back the scene. */
  lemma DecodeEncode(s: Scene, c: RealText)
    requires ExactScene(c, s) && Separable(c.format) && Shaped(s)
    ensures Decode(Encode(s, c.format), Empty, c.parse) == Some(s)
  {
    OverlayEmpty(s.translates);
    OverlayEmpty(s.rotations);
    OverlayEmpty(s.scales);
    OverlayEmpty(s.colors);
    assert Empty.objects + s.objects == s.objects;
    assert Scene(Empty.objects + s.objects, Overlay(Empty.translates, s.translates),
                 Overlay(Empty.rotations, s.rotations), Overlay(Empty.scales, s.scales),
                 Overlay(Empty.colors, s.colors)) == s;
    LoadIntoNonEmpty(s, Empty, c);
  }

  /** The file saveFile writes comes back, line by line, as the five records (four when the last is empty). */
  lemma ReadLinesFileText(s: Scene, format: real -> string)
    requires Separable(format)
    ensures var e := Encode(s, format);
            ReadLines(FileText(s, format)) == if e[4] == [] then e[..4] else e
  {
    var text := FileText(s, format);
    assert text != [] && Split(text, '\n') == Encode(s, format);
  }

  lemma {:induction false} JoinLength(pieces: seq<string>, sep: char)
    requires |pieces| >= 1
    ensures |Join(pieces, sep)| >= |pieces| - 1
  {
    if |pieces| > 1 {
      JoinLength(pieces[1..], sep);
    }
  }

  /** An empty last line and a missing last line load the same way. */
  lemma ReadVectorsEmptyLine(rows: seq<Vec>, parse: string -> real)
    ensures ReadVectors(rows, "", parse) == Some(rows)
  {
    assert Pieces("", ';') == [];
    assert Padded(rows, "") == rows;
    var r := ReadVectors(rows, "", parse);
    assert r.Some?;
    assert r.value == rows;
  }

  lemma TerminatedEmpty(pieces: seq<string>, sep: char)
    ensures Terminated(pieces, sep) == [] <==> pieces == []
  {
    if pieces != [] {
      assert Terminated(pieces, sep)[|pieces[0]|] == sep;
    }
  }

  /** Save then load into an empty scene, through the file's text: the scene comes back. */
  lemma SaveThenLoad(s: Scene, c: RealText)
    requires ExactScene(c, s) && Separable(c.format) && Shaped(s)
    ensures Decode(ReadLines(FileText(s, c.format)), Empty, c.parse) == Some(s)
  {
    ReadLinesFileText(s, c.format);
    DecodeEncode(s, c);
    var e := Encode(s, c.format);
    if e[4] == [] {
      ReadVectorsEmptyLine(s.colors, c.parse);
    }
  }

  /**
    `QTextStream << double` writes 0, 1 and 0.8, the numbers a new object
    holds, as "0", "1" and "0.8", which read back exactly. So creating an
    object keeps a scene exact under such a format.
   */
  lemma CreateKeepsExact(s: Scene, k: Kind, c: RealText)
    requires ExactScene(c, s) && ExactAt(c, 0.0) && ExactAt(c, 1.0) && ExactAt(c, 0.8)
    ensures ExactScene(c, Create(s, k))
  {
    var r := Create(s, k);
    assert ExactRow(c, Origin) && ExactRow(c, Unit) && ExactRow(c, Grey) by {
      assert forall j :: 0 <= j < 3 ==> Origin[j] == 0.0 && Unit[j] == 1.0 && Grey[j] == 0.8;
    }
    assert r.translates == s.translates + [Origin];
    assert r.rotations == s.rotations + [Origin];
    assert r.scales == s.scales + [Unit];
    assert r.colors == s.colors + [Grey];
  }

  /** Objects created into an exact scene survive save then load. */
  lemma CreatedSurvivesSaveLoad(s: Scene, k: Kind, c: RealText)
    requires ExactScene(c, s) && Separable(c.format) && Shaped(s)
    requires ExactAt(c, 0.0) && ExactAt(c, 1.0) && ExactAt(c, 0.8)
    ensures Decode(ReadLines(FileText(Create(s, k), c.format)), Empty, c.parse) == Some(Create(s, k))
  {
    CreateKeepsExact(s, k, c);
    SaveThenLoad(Create(s, k), c);
  }

  /**
    A number text as `QTextStream << double` and `QString::toDouble` treat
    0, 1 and 0.8; every other number is written as "0". It shows that the
    assumptions of the round-trip lemmas can be met.
   */
  function SampleText(): (r: RealText)
    ensures Separable(r.format)
    ensures ExactAt(r, 0.0) && ExactAt(r, 1.0) && ExactAt(r, 0.8)
    ensures !ExactAt(r, 0.5)
  {
    RealText(x => if x == 1.0 then "1" else if x == 0.8 then "0.8" else "0",
             t => if t == "1" then 1.0 else if t == "0.8" then 0.8 else 0.0)
  }

  /** A freshly created object, saved and loaded with SampleText, comes back. */
  lemma SampleRoundTrip(k: Kind)
    ensures Decode(ReadLines(FileText(Create(Empty, k), SampleText().format)), Empty, SampleText().parse)
            == Some(Create(Empty, k))
  {
    CreatedSurvivesSaveLoad(Empty, k, SampleText());
  }

  /** Lines after the fifth are never read. */
  lemma DecodeReadsFiveLines(lines: seq<string>, s: Scene, parse: string -> real)
    requires |lines| > 5
    ensures Decode(lines, s, parse) == Decode(lines[..5], s, parse)
  {
  }

  /**
    Read into an empty list, every group gives one row of three components:
    the numbers it has, then zeros for the ones it lacks.
   */
  lemma ReadIntoEmpty(line: string, parse: string -> real)
    requires forall i :: 0 <= i < |Pieces(line, ';')| ==> |Numbers(Pieces(line, ';')[i])| <= 3
    ensures ReadVectors([], line, parse).Some?
    ensures var rows, groups := ReadVectors([], line, parse).value, Pieces(line, ';');
            |rows| == |groups| && Rows3(rows) &&
            forall i, j :: 0 <= i < |rows| && 0 <= j < 3 ==>
              rows[i][j] == if j < |Numbers(groups[i])| then parse(Numbers(groups[i])[j]) else 0.0
  {
    var groups, padded := Pieces(line, ';'), Padded([], line);
    assert forall i :: 0 <= i < |padded| ==> padded[i] == Origin;
  }

  /** A kinds record longer than the vector records leaves the lists out of step. */
  lemma DecodeMayMisalign(parse: string -> real)
    ensures Decode(["0,"], Empty, parse) == Some(Scene([0], [], [], [], []))
    ensures !Aligned(Decode(["0,"], Empty, parse).value)
  {
    assert "0," == Terminated(["0"], ',');
    SplitTerminated(["0"], ',');
    assert AllDigits("0") && DigitsValue("0") == 0;
    assert ParseInt("0") == Some(0);
    assert ReadKinds("0,") == [0];
    assert Empty.objects + [0] == [0];
  }

  lemma FourNumbers()
    ensures Numbers("1,2,3,4,") == ["1", "2", "3", "4"]
  {
    assert "1,2,3,4," == Terminated(["1", "2", "3", "4"], ',');
    SplitTerminated(["1", "2", "3", "4"], ',');
  }

  lemma OneGroup()
    ensures Pieces("1,2,3,4,;", ';') == ["1,2,3,4,"]
  {
    assert "1,2,3,4,;" == Terminated(["1,2,3,4,"], ';');
    SplitTerminated(["1,2,3,4,"], ';');
  }

  /** A group of four numbers would be written past the end of its three-component row. */
  lemma OverlongGroupIsOutOfBounds(parse: string -> real)
    ensures Decode(["", "1,2,3,4,;"], Empty, parse) == None
  {
    var line := "1,2,3,4,;";
    FourNumbers();
    OneGroup();
    var groups, padded := Pieces(line, ';'), Padded([], line);
    assert |Numbers(groups[0])| == 4;
    assert padded[0] == Origin;
    assert !FitsRows([], line);
    var lines := ["", line];
    assert lines[1] == line;
    assert ReadVectors(Empty.translates, lines[1], parse) == None;
  }
}
