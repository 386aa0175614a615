/**
  Text operations the server relies on, with Python's meaning:
  `str.split` on a one-character separator, the path-segment filter of the
  request handler, `int(s)` / `str(n)` for decimal integers, and the order
  `sorted()` puts strings in.
*/
module Text {
  import opened Wrappers

  // ---------------------------------------------------------------------
  // Splitting and joining

  /** `sep.join(parts)` */
  function Join(parts: seq<string>, sep: char): string
    decreases |parts|
  {
    if |parts| == 0 then ""
    else if |parts| == 1 then parts[0]
    else parts[0] + [sep] + Join(parts[1..], sep)
  }

  /** `s.split(sep)`: the pieces between separators, empty pieces included. */
  function Split(s: string, sep: char): (r: seq<string>)
    ensures |r| >= 1
    ensures forall i :: 0 <= i < |r| ==> sep !in r[i]
    ensures Join(r, sep) == s
    decreases |s|
  {
    if |s| == 0 then [""]
    else
      var rest := Split(s[1..], sep);
      if s[0] == sep then
        assert s == [sep] + s[1..];
        [""] + rest
      else
        var r := [[s[0]] + rest[0]] + rest[1..];
        assert r[1..] == rest[1..];
        assert Join(r, sep) == [s[0]] + Join(rest, sep) by {
          if |rest| > 1 {
            assert Join(rest, sep) == rest[0] + [sep] + Join(rest[1..], sep);
          }
        }
        assert s == [s[0]] + s[1..];
        r
  }

  lemma {:induction false} SplitNoSeparator(a: string, sep: char)
    requires sep !in a
    ensures Split(a, sep) == [a]
    decreases |a|
  {
    if |a| > 0 {
      SplitNoSeparator(a[1..], sep);
      assert [a[0]] + a[1..] == a;
    }
  }

  lemma {:induction false} SplitAfterPiece(a: string, t: string, sep: char)
    requires sep !in a
    ensures Split(a + [sep] + t, sep) == [a] + Split(t, sep)
    decreases |a|
  {
    var s := a + [sep] + t;
    if |a| == 0 {
      assert s[1..] == t;
    } else {
      assert s[1..] == a[1..] + [sep] + t;
      SplitAfterPiece(a[1..], t, sep);
      assert [a[0]] + a[1..] == a;
    }
  }

  /** The filter `[p for p in parts if p]`. */
  function NonEmpty(parts: seq<string>): (r: seq<string>)
    ensures forall i :: 0 <= i < |r| ==> r[i] != "" && r[i] in parts
    ensures forall p :: p in parts && p != "" ==> p in r
    decreases |parts|
  {
    if |parts| == 0 then []
    else (if parts[0] == "" then [] else [parts[0]]) + NonEmpty(parts[1..])
  }

  /** The filter distributes over concatenation: order and repetitions are kept. */
  lemma {:induction false} NonEmptyAppend(a: seq<string>, b: seq<string>)
    ensures NonEmpty(a + b) == NonEmpty(a) + NonEmpty(b)
    decreases |a|
  {
    if |a| == 0 {
      assert a + b == b;
    } else {
      assert (a + b)[0] == a[0] && (a + b)[1..] == a[1..] + b;
      NonEmptyAppend(a[1..], b);
    }
  }

  /** One piece is kept exactly when it is non-empty. */
  lemma NonEmptyOne(p: string)
    ensures NonEmpty([p]) == (if p == "" then [] else [p])
  {
    assert [p][1..] == [];
  }

  /** One step of `str.split`: a leading separator starts a new piece, any other character extends the first. */
  lemma SplitCons(c: char, t: string, sep: char)
    ensures Split([c] + t, sep) ==
      if c == sep then [""] + Split(t, sep) else [[c] + Split(t, sep)[0]] + Split(t, sep)[1..]
  {
    assert ([c] + t)[0] == c && ([c] + t)[1..] == t;
  }

  lemma ConsPieceAppend(c: char, left: seq<string>, right: seq<string>)
    requires |left| >= 1
    ensures [[c] + (left + right)[0]] + (left + right)[1..] == ([[c] + left[0]] + left[1..]) + right
  {
    assert (left + right)[0] == left[0];
    assert (left + right)[1..] == left[1..] + right;
  }

  /** The inductive step of SplitConcat: one more character in front of the left side. */
  lemma SplitConcatStep(c: char, t: string, b: string, sep: char)
    requires Split(t + [sep] + b, sep) == Split(t, sep) + Split(b, sep)
    ensures Split([c] + t + [sep] + b, sep) == Split([c] + t, sep) + Split(b, sep)
  {
    var mid := t + [sep] + b;
    assert [c] + t + [sep] + b == [c] + mid;
    if c == sep {
      LeadingSeparatorStep(c, t, mid, Split(b, sep), sep);
    } else {
      PieceCharStep(c, t, mid, Split(b, sep), sep);
    }
  }

  lemma LeadingSeparatorStep(c: char, t: string, mid: string, right: seq<string>, sep: char)
    requires c == sep && Split(mid, sep) == Split(t, sep) + right
    ensures Split([c] + mid, sep) == Split([c] + t, sep) + right
  {
    SplitCons(c, mid, sep);
    SplitCons(c, t, sep);
    var left := Split(t, sep);
    assert [""] + (left + right) == ([""] + left) + right;
  }

  lemma PieceCharStep(c: char, t: string, mid: string, right: seq<string>, sep: char)
    requires c != sep && Split(mid, sep) == Split(t, sep) + right
    ensures Split([c] + mid, sep) == Split([c] + t, sep) + right
  {
    SplitCons(c, mid, sep);
    SplitCons(c, t, sep);
    ConsPieceAppend(c, Split(t, sep), right);
  }

  /** Splitting at one more separator splits the two sides apart. */
  lemma {:induction false} SplitConcat(a: string, b: string, sep: char)
    ensures Split(a + [sep] + b, sep) == Split(a, sep) + Split(b, sep)
    decreases |a|
  {
    if |a| == 0 {
      assert a + [sep] + b == [sep] + b;
      SplitCons(sep, b, sep);
    } else {
      SplitConcat(a[1..], b, sep);
      SplitConcatStep(a[0], a[1..], b, sep);
      assert [a[0]] + a[1..] == a;
    }
  }

  /** The request handler's `[p for p in path.split("/") if p]`. */
  function Segments(path: string): (r: seq<string>)
    ensures forall i :: 0 <= i < |r| ==> r[i] != "" && '/' !in r[i]
  {
    NonEmpty(Split(path, '/'))
  }

  /** The segments of two paths joined by a slash are the segments of each, in order. */
  lemma SegmentsConcat(a: string, b: string)
    ensures Segments(a + "/" + b) == Segments(a) + Segments(b)
  {
    SplitConcat(a, b, '/');
    NonEmptyAppend(Split(a, '/'), Split(b, '/'));
  }

  /** A slash-free piece is one segment, or none when it is empty. */
  lemma SegmentsOfPiece(a: string)
    requires '/' !in a
    ensures Segments(a) == (if a == "" then [] else [a])
  {
    SplitNoSeparator(a, '/');
    NonEmptyOne(a);
  }

  /** A path whose first segment starts right after the leading slash has that segment first. */
  lemma SegmentsOfRooted(path: string)
    requires |path| >= 2 && path[0] == '/' && path[1] != '/'
    ensures |Segments(path)| >= 1 && Segments(path)[0] != "" && Segments(path)[0][0] == path[1]
  {
    var rest := path[1..];
    SplitConcat("", rest, '/');
    assert "" + ['/'] + rest == path;
    var pieces := Split(rest, '/');
    assert pieces == [[rest[0]] + Split(rest[1..], '/')[0]] + Split(rest[1..], '/')[1..];
    assert pieces == [pieces[0]] + pieces[1..];
    NonEmptyAppend([""], pieces);
    NonEmptyOne("");
    NonEmptyAppend([pieces[0]], pieces[1..]);
    NonEmptyOne(pieces[0]);
  }

  /** The path "/" + p1 + "/" + p2 + ... built from its segments. */
  function PathOf(parts: seq<string>): string
    decreases |parts|
  {
    if |parts| == 0 then "" else "/" + parts[0] + PathOf(parts[1..])
  }

  ghost predicate SegmentLike(p: string) {
    p != "" && '/' !in p
  }

  lemma {:induction false} SplitPathOf(parts: seq<string>)
    requires |parts| >= 1
    requires forall i :: 0 <= i < |parts| ==> '/' !in parts[i]
    ensures Split(PathOf(parts), '/') == [""] + parts
    decreases |parts|
  {
    var s := PathOf(parts);
    assert s[1..] == parts[0] + PathOf(parts[1..]);
    if |parts| == 1 {
      assert PathOf(parts[1..]) == "";
      assert s[1..] == parts[0];
      SplitNoSeparator(parts[0], '/');
    } else {
      SplitPathOf(parts[1..]);
      var tail := PathOf(parts[1..]);
      assert tail == "/" + tail[1..];
      assert Split(tail, '/') == [""] + Split(tail[1..], '/');
      assert s[1..] == parts[0] + ['/'] + tail[1..];
      SplitAfterPiece(parts[0], tail[1..], '/');
      assert Split(tail[1..], '/') == parts[1..];
      assert [parts[0]] + parts[1..] == parts;
    }
  }

  /** Splitting a path built from non-empty, slash-free segments gives those segments back. */
  lemma SegmentsOfPath(parts: seq<string>)
    requires forall i :: 0 <= i < |parts| ==> SegmentLike(parts[i])
    ensures Segments(PathOf(parts)) == parts
  {
    if |parts| == 0 {
      assert Split("", '/') == [""];
      assert NonEmpty([""]) == [] + NonEmpty([]);
    } else {
      SplitPathOf(parts);
      NonEmptyKeeps(parts);
      assert ([""] + parts)[1..] == parts;
    }
  }

  lemma {:induction false} NonEmptyKeeps(parts: seq<string>)
    requires forall i :: 0 <= i < |parts| ==> parts[i] != ""
    ensures NonEmpty(parts) == parts
    decreases |parts|
  {
    if |parts| > 0 {
      NonEmptyKeeps(parts[1..]);
      assert [parts[0]] + parts[1..] == parts;
    }
  }

  // ---------------------------------------------------------------------
  // Decimal integers: Python's int(s) and str(n)

  predicate IsDigit(c: char) { '0' <= c <= '9' }

  /** The ASCII characters Python's `int()` strips around its argument. */
  predicate IsSpace(c: char) {
    c == ' ' || 9 <= c as int <= 13 || 28 <= c as int <= 31
  }

  function DigitValue(c: char): nat {
    if IsDigit(c) then c as int - '0' as int else 0
  }

  function Digit(d: nat): char
    requires d < 10
  {
    ('0' as int + d) as char
  }

  function TrimStart(s: string): string
    decreases |s|
  {
    if |s| > 0 && IsSpace(s[0]) then TrimStart(s[1..]) else s
  }

  function TrimEnd(s: string): string
    decreases |s|
  {
    if |s| > 0 && IsSpace(s[|s| - 1]) then TrimEnd(s[..|s| - 1]) else s
  }

  /**
    The body of a decimal literal `int()` accepts: digits, where a single
    underscore may stand between two digits.
  */
  predicate DigitString(t: string) {
    |t| > 0 && IsDigit(t[0]) && IsDigit(t[|t| - 1]) &&
    forall i :: 0 <= i < |t| ==> IsDigit(t[i]) || (t[i] == '_' && i + 1 < |t| && IsDigit(t[i + 1]))
  }

  /** The number the digits of `t` spell, underscores skipped. */
  function DigitsValue(t: string): nat
    decreases |t|
  {
    if |t| == 0 then 0
    else if t[|t| - 1] == '_' then DigitsValue(t[..|t| - 1])
    else DigitsValue(t[..|t| - 1]) * 10 + DigitValue(t[|t| - 1])
  }

  /** Python's `int()` strips nothing from a plain digit string: it starts and ends with a digit. */
  lemma DigitStringTrimmed(s: string)
    ensures DigitString(s) ==> TrimEnd(TrimStart(s)) == s
  {
    if DigitString(s) {
      assert !IsSpace(s[0]) && !IsSpace(s[|s| - 1]);
      assert TrimStart(s) == s;
    }
  }

  /** `int(s)` for a string `s`: None where Python raises ValueError. */
  function ParseInt(s: string): (r: Option<int>)
    ensures s == "" ==> r.None?
    ensures DigitString(s) ==> r == Some(DigitsValue(s))
  {
    var t := TrimEnd(TrimStart(s));
    DigitStringTrimmed(s);
    if |t| > 0 && (t[0] == '+' || t[0] == '-') then
      if DigitString(t[1..]) then
        var v: int := DigitsValue(t[1..]);
        Some(if t[0] == '-' then -v else v)
      else None
    else if DigitString(t) then Some(DigitsValue(t))
    else None
  }

  /** `str(n)` for a natural number. */
  function ShowNat(n: nat): (r: string)
    ensures |r| > 0
    ensures forall i :: 0 <= i < |r| ==> IsDigit(r[i])
    ensures DigitsValue(r) == n
    ensures r == "0" <==> n == 0
    ensures |r| == 1 || r[0] != '0'
    decreases n
  {
    if n < 10 then [Digit(n)]
    else
      var r := ShowNat(n / 10) + [Digit(n % 10)];
      assert r[..|r| - 1] == ShowNat(n / 10);
      assert r[0] == ShowNat(n / 10)[0];
      r
  }

  /** A digit string without a leading zero is the text `str` gives its value: `str(n)` is the only such text. */
  lemma {:induction false} CanonicalIsShowNat(s: string)
    requires |s| > 0 && forall i :: 0 <= i < |s| ==> IsDigit(s[i])
    requires |s| == 1 || s[0] != '0'
    ensures s == ShowNat(DigitsValue(s))
    decreases |s|
  {
    var p := s[..|s| - 1];
    var d := DigitValue(s[|s| - 1]);
    assert DigitsValue(s) == DigitsValue(p) * 10 + d;
    assert Digit(d) == s[|s| - 1];
    if |s| == 1 {
      assert DigitsValue(p) == 0;
    } else {
      assert p[0] == s[0];
      CanonicalIsShowNat(p);
      assert p != "0";
      var n := DigitsValue(s);
      assert n / 10 == DigitsValue(p) && n % 10 == d;
      assert s == p + [s[|s| - 1]];
    }
  }

  /** `str(n)` for an integer. */
  function ShowInt(n: int): (r: string)
    ensures |r| > 0 && (r[0] == '-' <==> n < 0)
    ensures n < 0 ==> r[1..] == ShowNat(-n)
  {
    if n < 0 then "-" + ShowNat(-n) else ShowNat(n)
  }

  /** `int(str(n)) == n`. */
  lemma ParseShowInt(n: int)
    ensures ParseInt(ShowInt(n)) == Some(n)
  {
    var s := ShowInt(n);
    var d := ShowNat(if n < 0 then -n else n);
    assert !IsSpace(s[0]) && !IsSpace(s[|s| - 1]);
    assert TrimStart(s) == s;
    assert TrimEnd(s) == s;
    if n < 0 {
      assert s[1..] == d;
    }
    assert DigitString(d);
  }

  // ---------------------------------------------------------------------
  // String order and sorting

  /** Python's `a < b` on strings: lexicographic by code point, a proper prefix first. */
  predicate Less(a: string, b: string)
    ensures a < b ==> Less(a, b)
    decreases |a|
  {
    |b| > 0 && (|a| == 0 || a[0] < b[0] || (a[0] == b[0] && Less(a[1..], b[1..])))
  }

  lemma {:induction false} LessIrreflexive(a: string)
    ensures !Less(a, a)
    decreases |a|
  {
    if |a| > 0 { LessIrreflexive(a[1..]); }
  }

  lemma {:induction false} LessTransitive(a: string, b: string, c: string)
    requires Less(a, b) && Less(b, c)
    ensures Less(a, c)
    decreases |a|
  {
    if |a| > 0 && a[0] == b[0] && b[0] == c[0] {
      LessTransitive(a[1..], b[1..], c[1..]);
    }
  }

  lemma {:induction false} LessTotal(a: string, b: string)
    requires a != b
    ensures Less(a, b) || Less(b, a)
    decreases |a|
  {
    if |a| > 0 && |b| > 0 && a[0] == b[0] {
      assert a == [a[0]] + a[1..] && b == [b[0]] + b[1..];
      LessTotal(a[1..], b[1..]);
    }
  }

  predicate StrictlySorted(s: seq<string>) {
    forall i, j :: 0 <= i < j < |s| ==> Less(s[i], s[j])
  }

  predicate IsLeast(m: string, s: set<string>) {
    m in s && forall y :: y in s && y != m ==> Less(m, y)
  }

  lemma {:induction false} LeastExists(s: set<string>)
    requires s != {}
    ensures exists m :: IsLeast(m, s)
    decreases |s|
  {
    var x :| x in s;
    var rest := s - {x};
    if rest == {} {
      assert s == {x};
      assert IsLeast(x, s);
    } else {
      LeastExists(rest);
      var m :| IsLeast(m, rest);
      if Less(x, m) {
        forall y | y in s && y != x ensures Less(x, y) {
          if y != m { LessTransitive(x, m, y); }
        }
        assert IsLeast(x, s);
      } else {
        LessTotal(x, m);
        assert IsLeast(m, s);
      }
    }
  }

  lemma LeastUnique(s: set<string>)
    ensures forall a, b :: IsLeast(a, s) && IsLeast(b, s) ==> a == b
  {
    forall a, b | IsLeast(a, s) && IsLeast(b, s) ensures a == b {
      if a != b {
        LessTransitive(a, b, a);
        LessIrreflexive(a);
      }
    }
  }

  /** `sorted(s)` for a set of strings. */
  function SortedSet(s: set<string>): (r: seq<string>)
    ensures StrictlySorted(r)
    ensures forall x :: x in r <==> x in s
    ensures |r| == |s|
    decreases |s|
  {
    if s == {} then []
    else
      LeastExists(s);
      LeastUnique(s);
      var m :| IsLeast(m, s);
      var rest := SortedSet(s - {m});
      assert forall j :: 0 <= j < |rest| ==> rest[j] in s - {m};
      [m] + rest
  }
}
