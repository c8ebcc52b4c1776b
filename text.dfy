/**
  The textual primitives the scene file is built from: writing a 32-bit integer
  in decimal (what a text stream does with `int`), reading one back the way
  QString's toInt does (0 when the text is not an integer), and splitting a line
  at a separator character the way QString's split does (empty pieces kept).
 */
module Text {
  import opened Wrappers

  /** The range of a C++ `int`. */
  type Int32 = x: int | -0x8000_0000 <= x < 0x8000_0000

  predicate IsDigit(c: char) {
    '0' <= c <= '9'
  }

  predicate AllDigits(s: string) {
    forall k :: 0 <= k < |s| ==> IsDigit(s[k])
  }

  function DigitChar(d: nat): (c: char)
    requires d < 10
    ensures IsDigit(c) && c as int - '0' as int == d
  {
    ('0' as int + d) as char
  }

  function DigitValue(c: char): (d: nat)
    requires IsDigit(c)
    ensures d < 10 && DigitChar(d) == c
  {
    c as int - '0' as int
  }

  /** Decimal digits of a natural number, most significant first, no leading zeros. */
  function NatText(n: nat): (r: string)
    ensures |r| >= 1 && AllDigits(r)
    ensures |r| > 1 ==> r[0] != '0'
  {
    if n < 10 then [DigitChar(n)] else NatText(n / 10) + [DigitChar(n % 10)]
  }

  /** The value of a string of decimal digits, read left to right. */
  function DigitsValue(s: string): nat
    requires AllDigits(s)
  {
    if s == [] then 0 else DigitsValue(s[..|s| - 1]) * 10 + DigitValue(s[|s| - 1])
  }

  /** How a text stream writes an integer: a minus sign for negatives, then the digits. */
  function IntText(k: int): (r: string)
    ensures |r| >= 1
    ensures k >= 0 <==> AllDigits(r)
    ensures forall j :: 0 <= j < |r| ==> IsDigit(r[j]) || r[j] == '-'
    ensures k < 0 ==> r[0] == '-' && AllDigits(r[1..])
  {
    if k < 0 then
      var r := "-" + NatText(-k);
      assert !IsDigit(r[0]) && r[1..] == NatText(-k);
      r
    else NatText(k)
  }

  /** An optionally signed, non-empty run of decimal digits, or None for anything else. */
  function ParseInt(s: string): (r: Option<int>)
    ensures r.Some? <==> (AllDigits(s) && s != []) ||
                         (|s| >= 2 && (s[0] == '-' || s[0] == '+') && AllDigits(s[1..]))
  {
    if |s| >= 1 && (s[0] == '-' || s[0] == '+') then
      if |s| >= 2 && AllDigits(s[1..]) then
        var magnitude: int := DigitsValue(s[1..]);
        Some(if s[0] == '-' then -magnitude else magnitude)
      else None
    else if s != [] && AllDigits(s) then Some(DigitsValue(s))
    else None
  }

  /** QString::toInt: the value when the text is an integer that fits an `int`, otherwise 0. */
  function ToInt(s: string): (r: Int32)
    ensures ParseInt(s).None? ==> r == 0
    ensures ParseInt(s).Some? && -0x8000_0000 <= ParseInt(s).value < 0x8000_0000 ==> r == ParseInt(s).value
    ensures ParseInt(s).Some? && !(-0x8000_0000 <= ParseInt(s).value < 0x8000_0000) ==> r == 0
  {
    match ParseInt(s)
    case None => 0
    case Some(v) => if -0x8000_0000 <= v < 0x8000_0000 then v else 0
  }

  lemma {:induction false} DigitsValueNatText(n: nat)
    ensures DigitsValue(NatText(n)) == n
  {
    if n >= 10 {
      var s := NatText(n);
      assert s[..|s| - 1] == NatText(n / 10);
      DigitsValueNatText(n / 10);
    }
  }

  /** Reading back what was written gives the same integer. */
  lemma ToIntIntText(k: Int32)
    ensures ToInt(IntText(k)) == k
  {
    var s := IntText(k);
    if k < 0 {
      var m: nat := -(k as int);
      assert s[0] == '-' && s[1..] == NatText(m);
      DigitsValueNatText(m);
      assert ParseInt(s) == Some(k);
    } else {
      DigitsValueNatText(k);
      assert ParseInt(s) == Some(k);
    }
  }

  /** The pieces joined back together with the separator between them. */
  function Join(pieces: seq<string>, sep: char): string
    requires |pieces| >= 1
  {
    if |pieces| == 1 then pieces[0] else pieces[0] + [sep] + Join(pieces[1..], sep)
  }

  /** One more piece joined at the end. */
  lemma {:induction false} JoinSnoc(pieces: seq<string>, p: string, sep: char)
    requires |pieces| >= 1
    ensures Join(pieces + [p], sep) == Join(pieces, sep) + [sep] + p
  {
    if |pieces| > 1 {
      assert (pieces + [p])[1..] == pieces[1..] + [p];
      JoinSnoc(pieces[1..], p, sep);
    } else {
      assert (pieces + [p])[1..] == [p];
    }
  }

  /** Five pieces joined: the separator between each two. */
  lemma JoinFive(a: string, b: string, c: string, d: string, e: string, sep: char)
    ensures Join([a, b, c, d, e], sep) == a + [sep] + b + [sep] + c + [sep] + d + [sep] + e
  {
    assert [a, b, c, d, e][1..] == [b, c, d, e];
    assert [b, c, d, e][1..] == [c, d, e];
    assert [c, d, e][1..] == [d, e];
    assert [d, e][1..] == [e];
    var de := d + [sep] + e;
    assert Join([d, e], sep) == de;
    var cde := c + [sep] + de;
    assert Join([c, d, e], sep) == cde;
    assert cde == c + [sep] + d + [sep] + e;
    var bcde := b + [sep] + cde;
    assert Join([b, c, d, e], sep) == bcde;
    assert bcde == b + [sep] + c + [sep] + d + [sep] + e;
    assert Join([a, b, c, d, e], sep) == a + [sep] + bcde;
  }

  /**
    QString::split with empty pieces kept: the pieces contain no separator,
    there is always at least one, and joining them gives back the input.
   */
  function Split(s: string, sep: char): (r: seq<string>)
    ensures |r| >= 1 && |r| <= |s| + 1
    ensures forall k :: 0 <= k < |r| ==> sep !in r[k]
    ensures Join(r, sep) == s
  {
    if s == [] then [""]
    else
      var rest := Split(s[1..], sep);
      if s[0] == sep then [""] + rest
      else [[s[0]] + rest[0]] + rest[1..]
  }

  /** Every piece of a split but the last: what a loop `i < pieces.size() - 1` visits. */
  function Pieces(s: string, sep: char): (r: seq<string>)
    ensures |r| == |Split(s, sep)| - 1
    ensures forall k :: 0 <= k < |r| ==> r[k] == Split(s, sep)[k]
  {
    var all := Split(s, sep);
    all[..|all| - 1]
  }

  /** Each piece followed by the separator: how the save loop writes a list. */
  function Terminated(pieces: seq<string>, sep: char): string {
    if pieces == [] then "" else pieces[0] + [sep] + Terminated(pieces[1..], sep)
  }

  predicate FreeOf(pieces: seq<string>, sep: char) {
    forall k :: 0 <= k < |pieces| ==> sep !in pieces[k]
  }

  lemma {:induction false} TerminatedSnoc(pieces: seq<string>, p: string, sep: char)
    ensures Terminated(pieces + [p], sep) == Terminated(pieces, sep) + p + [sep]
  {
    if pieces != [] {
      assert (pieces + [p])[1..] == pieces[1..] + [p];
      TerminatedSnoc(pieces[1..], p, sep);
    }
  }

  lemma {:induction false} SplitAfter(a: string, b: string, sep: char)
    requires sep !in a
    ensures Split(a + [sep] + b, sep) == [a] + Split(b, sep)
  {
    var s := a + [sep] + b;
    if a == [] {
      assert s[1..] == b;
    } else {
      assert s[1..] == a[1..] + [sep] + b;
      SplitAfter(a[1..], b, sep);
      assert [a[0]] + a[1..] == a;
    }
  }

  /** Splitting a terminated list gives the pieces back, plus the empty piece after the last separator. */
  lemma {:induction false} SplitTerminated(pieces: seq<string>, sep: char)
    requires FreeOf(pieces, sep)
    ensures Split(Terminated(pieces, sep), sep) == pieces + [""]
    ensures Pieces(Terminated(pieces, sep), sep) == pieces
  {
    if pieces != [] {
      SplitAfter(pieces[0], Terminated(pieces[1..], sep), sep);
      SplitTerminated(pieces[1..], sep);
      assert [pieces[0]] + pieces[1..] == pieces;
    }
  }

  lemma {:induction false} SplitJoin(pieces: seq<string>, sep: char)
    requires |pieces| >= 1 && FreeOf(pieces, sep)
    ensures Split(Join(pieces, sep), sep) == pieces
  {
    if |pieces| == 1 {
      SplitFree(pieces[0], sep);
    } else {
      SplitAfter(pieces[0], Join(pieces[1..], sep), sep);
      SplitJoin(pieces[1..], sep);
      assert [pieces[0]] + pieces[1..] == pieces;
    }
  }

  lemma {:induction false} SplitFree(s: string, sep: char)
    requires sep !in s
    ensures Split(s, sep) == [s]
  {
    if s != [] {
      SplitFree(s[1..], sep);
      assert [s[0]] + s[1..] == s;
    }
  }
}
