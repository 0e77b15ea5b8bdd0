/**
  String helpers behind the gateway command URL: the decimal rendering that a
  Python f-string gives an integer, its inverse, and splitting a string at a
  separator character together with its inverse, joining.
 */
module Text {
  import opened Wrappers

  predicate IsDigit(c: char)
  {
    '0' <= c <= '9'
  }

  predicate AllDigits(s: string)
  {
    forall i :: 0 <= i < |s| ==> IsDigit(s[i])
  }

  function DigitChar(d: nat): (c: char)
    requires d < 10
    ensures IsDigit(c) && c as int - '0' as int == d
  {
    ('0' as int + d) as char
  }

  /** The decimal digits of n, most significant first, without leading zeros:
      what `f'{n}'` produces for a non-negative integer. */
  function Decimal(n: nat): (s: string)
    ensures s != [] && AllDigits(s)
    ensures |s| > 1 ==> s[0] != '0'
    decreases n
  {
    if n < 10 then [DigitChar(n)] else Decimal(n / 10) + [DigitChar(n % 10)]
  }

  /** The number a string of decimal digits denotes. */
  function ValueOf(s: string): nat
    requires AllDigits(s)
    decreases |s|
  {
    if s == [] then 0 else 10 * ValueOf(s[..|s| - 1]) + (s[|s| - 1] as int - '0' as int)
  }

  lemma {:induction false} ValueOfDecimal(n: nat)
    ensures ValueOf(Decimal(n)) == n
    decreases n
  {
    var s := Decimal(n);
    if n >= 10 {
      assert s[..|s| - 1] == Decimal(n / 10);
      ValueOfDecimal(n / 10);
    }
  }

  /** A digit string without leading zeros is non-zero when its first digit is. */
  lemma {:induction false} ValueOfPositive(s: string)
    requires s != [] && AllDigits(s) && s[0] != '0'
    ensures ValueOf(s) > 0
    decreases |s|
  {
    if |s| > 1 {
      ValueOfPositive(s[..|s| - 1]);
    }
  }

  /** Decimal rendering undoes reading a digit string that has no leading
      zeros. */
  lemma {:induction false} DecimalOfValue(s: string)
    requires s != [] && AllDigits(s) && (|s| == 1 || s[0] != '0')
    ensures Decimal(ValueOf(s)) == s
    decreases |s|
  {
    var last := s[|s| - 1];
    var prefix := s[..|s| - 1];
    if |s| > 1 {
      ValueOfPositive(prefix);
      DecimalOfValue(prefix);
      var n := ValueOf(s);
      assert n / 10 == ValueOf(prefix) && n % 10 == last as int - '0' as int;
      assert prefix + [last] == s;
    }
  }

  /** Splits s at the first occurrence of sep, if there is one. */
  function Cut(s: string, sep: char): (r: Option<(string, string)>)
    ensures r.None? <==> sep !in s
    ensures r.Some? ==> sep !in r.value.0 && s == r.value.0 + [sep] + r.value.1
    decreases |s|
  {
    if s == [] then None
    else if s[0] == sep then Some(([], s[1..]))
    else
      match Cut(s[1..], sep)
      case None => None
      case Some((before, after)) => Some(([s[0]] + before, after))
  }

  lemma {:induction false} CutAt(a: string, b: string, sep: char)
    requires sep !in a
    ensures Cut(a + [sep] + b, sep) == Some((a, b))
    decreases |a|
  {
    var s := a + [sep] + b;
    if a != [] {
      assert s[1..] == a[1..] + [sep] + b;
      CutAt(a[1..], b, sep);
      assert [a[0]] + a[1..] == a;
    } else {
      assert s[1..] == b;
    }
  }

  /** The pieces of s between occurrences of sep (Python's `s.split(sep)`). */
  function Split(s: string, sep: char): (parts: seq<string>)
    ensures |parts| > 0
    decreases |s|
  {
    match Cut(s, sep)
    case None => [s]
    case Some((before, after)) => [before] + Split(after, sep)
  }

  /** The pieces put back together with sep between them (Python's `sep.join`). */
  function Join(parts: seq<string>, sep: char): string
    requires |parts| > 0
    decreases |parts|
  {
    if |parts| == 1 then parts[0] else parts[0] + [sep] + Join(parts[1..], sep)
  }

  lemma JoinCons(p: string, rest: seq<string>, sep: char)
    requires |rest| > 0
    ensures Join([p] + rest, sep) == p + [sep] + Join(rest, sep)
  {
  }

  /** Joining eight pieces, written out. */
  lemma JoinEight(p: seq<string>, sep: char)
    requires |p| == 8
    ensures Join(p, sep) == p[0] + [sep] + p[1] + [sep] + p[2] + [sep] + p[3] + [sep]
                          + p[4] + [sep] + p[5] + [sep] + p[6] + [sep] + p[7]
  {
    var j6 := p[6] + [sep] + p[7];
    assert Join(p[6..], sep) == j6;
    var j5 := p[5] + [sep] + j6;
    assert Join(p[5..], sep) == j5;
    var j4 := p[4] + [sep] + j5;
    assert Join(p[4..], sep) == j4;
    var j3 := p[3] + [sep] + j4;
    assert Join(p[3..], sep) == j3;
    var j2 := p[2] + [sep] + j3;
    assert Join(p[2..], sep) == j2;
    var j1 := p[1] + [sep] + j2;
    assert Join(p[1..], sep) == j1;
    assert Join(p, sep) == p[0] + [sep] + j1;
  }

  /** Splitting undoes joining as long as no piece contains the separator. */
  lemma {:induction false} SplitJoin(parts: seq<string>, sep: char)
    requires |parts| > 0
    requires forall i :: 0 <= i < |parts| ==> sep !in parts[i]
    ensures Split(Join(parts, sep), sep) == parts
    decreases |parts|
  {
    if |parts| > 1 {
      CutAt(parts[0], Join(parts[1..], sep), sep);
      SplitJoin(parts[1..], sep);
      assert [parts[0]] + parts[1..] == parts;
    }
  }

  /** Joining undoes splitting. */
  lemma {:induction false} JoinSplit(s: string, sep: char)
    ensures Join(Split(s, sep), sep) == s
    decreases |s|
  {
    match Cut(s, sep)
    case None =>
    case Some((before, after)) =>
      JoinSplit(after, sep);
      JoinCons(before, Split(after, sep), sep);
  }
}
