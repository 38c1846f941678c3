/**
 The string operations the client relies on, decimal rendering of integers
 (Go's `strconv.Itoa`) and joining on a separator (Go's `strings.Join`), and
 the readers the URL router uses to take those strings apart again: a number
 reader, `Split` (Go's `strings.Split` with a one-character separator), and
 cuts at one occurrence of a character.
 */
module Strings {
  import opened Wrappers

  predicate IsDigit(c: char) {
    '0' <= c <= '9'
  }

  predicate AllDigits(s: string) {
    forall i :: 0 <= i < |s| ==> IsDigit(s[i])
  }

  /** True iff nothing in `s` could be read as more digits of a number written just before it. */
  predicate StartsWithoutDigit(s: string) {
    |s| == 0 || !IsDigit(s[0])
  }

  function DigitChar(d: nat): (c: char)
    requires d < 10
    ensures IsDigit(c)
  {
    ('0' as int + d) as char
  }

  function DigitValue(c: char): (d: nat)
    requires IsDigit(c)
    ensures d < 10
  {
    c as int - '0' as int
  }

  // ---------------------------------------------------------------------------
  // Decimal rendering

  /** A numeral as `strconv.Itoa` writes a non-negative number: digits, with no leading zero except in "0". */
  predicate IsNumeral(d: string) {
    |d| > 0 && AllDigits(d) && (d[0] == '0' ==> |d| == 1)
  }

  /** The decimal digits of `n`, most significant first. */
  function Digits(n: nat): (s: string)
    ensures IsNumeral(s)
    ensures s[0] == '0' ==> n == 0
    decreases n
  {
    if n < 10 then [DigitChar(n)] else Digits(n / 10) + [DigitChar(n % 10)]
  }

  /** `strconv.Itoa`: decimal, with a leading '-' for negative numbers. */
  function Itoa(n: int): (s: string)
    ensures |s| > 0 && IsDigit(s[|s| - 1])
    ensures n >= 0 ==> IsNumeral(s)
    ensures n < 0 ==> s[0] == '-' && IsNumeral(s[1..]) && s[1] != '0'
  {
    if n < 0 then "-" + Digits(-n) else Digits(n)
  }

  // ---------------------------------------------------------------------------
  // Reading numbers back

  /** The number a string of decimal digits denotes (leading zeros allowed). */
  function DigitsValue(s: string): nat
    requires AllDigits(s)
    decreases |s|
  {
    if |s| == 0 then 0 else 10 * DigitsValue(s[..|s| - 1]) + DigitValue(s[|s| - 1])
  }

  lemma {:induction false} DigitsValueOfDigits(n: nat)
    ensures DigitsValue(Digits(n)) == n
    decreases n
  {
    var s := Digits(n);
    if n >= 10 {
      assert s[..|s| - 1] == Digits(n / 10);
      DigitsValueOfDigits(n / 10);
    }
  }

  /** The length of the longest run of digits `s` starts with. */
  function DigitRun(s: string): (k: nat)
    ensures k <= |s|
    ensures AllDigits(s[..k])
    ensures StartsWithoutDigit(s[k..])
    decreases |s|
  {
    if |s| == 0 || !IsDigit(s[0]) then 0
    else
      var k := 1 + DigitRun(s[1..]);
      assert s[..k] == [s[0]] + s[1..][..k - 1];
      k
  }

  lemma {:induction false} DigitRunOfNumber(d: string, rest: string)
    requires AllDigits(d) && StartsWithoutDigit(rest)
    ensures DigitRun(d + rest) == |d|
    decreases |d|
  {
    if |d| > 0 {
      assert (d + rest)[1..] == d[1..] + rest;
      DigitRunOfNumber(d[1..], rest);
    } else {
      assert d + rest == rest;
    }
  }

  /**
   Reads an optionally negative decimal number from the front of `s` and
   returns it with the rest of `s`. Only numbers as `Itoa` writes them are
   accepted: it fails when no digit follows the sign, when a run of several
   digits starts with '0', and on "-0".
   */
  function ReadInt(s: string): (r: Option<(int, string)>)
    ensures r.Some? ==> StartsWithoutDigit(r.value.1)
    ensures r.Some? ==> |r.value.1| < |s| && s[|s| - |r.value.1|..] == r.value.1
  {
    if |s| > 0 && s[0] == '-' then
      var k := DigitRun(s[1..]);
      if k == 0 || s[1] == '0' then None
      else
        assert s[1..][k..] == s[1 + k..];
        var m: int := DigitsValue(s[1..][..k]);
        Some((0 - m, s[1 + k..]))
    else
      var k := DigitRun(s);
      if k == 0 || (k > 1 && s[0] == '0') then None else Some((DigitsValue(s[..k]), s[k..]))
  }

  lemma ReadIntDigits(n: nat, rest: string)
    requires StartsWithoutDigit(rest)
    ensures ReadInt(Digits(n) + rest) == Some((n, rest))
  {
    var d := Digits(n);
    var s := d + rest;
    DigitRunOfNumber(d, rest);
    assert s[..|d|] == d;
    assert s[|d|..] == rest;
    DigitsValueOfDigits(n);
  }

  lemma ReadIntNegativeDigits(n: nat, rest: string)
    requires n > 0 && StartsWithoutDigit(rest)
    ensures ReadInt("-" + Digits(n) + rest) == Some((-(n as int), rest))
  {
    var d := Digits(n);
    var s := "-" + d + rest;
    assert s[1..] == d + rest;
    DigitRunOfNumber(d, rest);
    assert s[1..][..|d|] == d;
    assert s[1 + |d|..] == rest;
    DigitsValueOfDigits(n);
  }

  /** Reading back what `Itoa` wrote gives the number and leaves what followed it. */
  lemma ReadIntItoa(n: int, rest: string)
    requires StartsWithoutDigit(rest)
    ensures ReadInt(Itoa(n) + rest) == Some((n, rest))
  {
    if n < 0 {
      ReadIntNegativeDigits(-n, rest);
    } else {
      ReadIntDigits(n, rest);
    }
  }

  lemma {:induction false} DigitsValuePositive(d: string)
    requires |d| > 0 && AllDigits(d) && d[0] != '0'
    ensures DigitsValue(d) > 0
    decreases |d|
  {
    if |d| > 1 {
      var h := d[..|d| - 1];
      assert h[0] == d[0];
      DigitsValuePositive(h);
    }
  }

  /** A numeral is the decimal rendering of the value it denotes. */
  lemma {:induction false} DigitsOfValue(d: string)
    requires IsNumeral(d)
    ensures Digits(DigitsValue(d)) == d
    decreases |d|
  {
    var last := d[|d| - 1];
    if |d| == 1 {
      assert d[..0] == "";
      assert DigitsValue(d) == DigitValue(last);
      assert [DigitChar(DigitValue(last))] == d;
    } else {
      var h := d[..|d| - 1];
      assert h[0] == d[0];
      DigitsOfValue(h);
      DigitsValuePositive(h);
      var n := DigitsValue(d);
      assert n == 10 * DigitsValue(h) + DigitValue(last);
      assert n / 10 == DigitsValue(h) && n % 10 == DigitValue(last);
      assert DigitChar(n % 10) == last;
      assert d == h + [last];
    }
  }

  /** Whatever `ReadInt` accepts is a number as `Itoa` writes it, followed by the rest. */
  lemma ReadIntSound(s: string)
    requires ReadInt(s).Some?
    ensures s == Itoa(ReadInt(s).value.0) + ReadInt(s).value.1
  {
    if |s| > 0 && s[0] == '-' {
      var k := DigitRun(s[1..]);
      var d := s[1..][..k];
      assert d[0] == s[1];
      DigitsValuePositive(d);
      DigitsOfValue(d);
      var m: int := DigitsValue(d);
      assert Itoa(0 - m) == "-" + d;
      assert s == "-" + d + s[1 + k..];
    } else {
      var k := DigitRun(s);
      DigitsOfValue(s[..k]);
      assert s == s[..k] + s[k..];
    }
  }

  /**
   `ReadInt` reads `n` and leaves `rest` exactly when the text is `n` as
   `Itoa` writes it followed by `rest`, and `rest` does not start with a digit.
   */
  lemma ReadIntExactly(s: string, n: int, rest: string)
    ensures ReadInt(s) == Some((n, rest)) <==> s == Itoa(n) + rest && StartsWithoutDigit(rest)
  {
    if s == Itoa(n) + rest && StartsWithoutDigit(rest) {
      ReadIntItoa(n, rest);
    }
    if ReadInt(s) == Some((n, rest)) {
      ReadIntSound(s);
    }
  }

  /**
   A number followed by a suffix that does not start with a digit is written
   uniquely: both the number and the suffix can be told from the string.
   */
  lemma NumberWithSuffixInjective(n: int, u: string, m: int, v: string)
    requires StartsWithoutDigit(u) && StartsWithoutDigit(v)
    ensures Itoa(n) + u == Itoa(m) + v <==> n == m && u == v
  {
    ReadIntItoa(n, u);
    ReadIntItoa(m, v);
  }

  // ---------------------------------------------------------------------------
  // Joining and splitting

  /** `strings.Join(parts, [sep])`: the parts in order, with `sep` between neighbours. */
  function Join(parts: seq<string>, sep: char): (s: string)
    ensures |parts| == 0 ==> s == ""
    ensures |parts| > 0 ==> parts[0] <= s
    ensures (forall i :: 0 <= i < |parts| ==> sep !in parts[i]) ==> (sep in s <==> |parts| > 1)
    decreases |parts|
  {
    if |parts| == 0 then ""
    else if |parts| == 1 then parts[0]
    else parts[0] + [sep] + Join(parts[1..], sep)
  }

  /** `strings.Split(s, [sep])`: the pieces between separators; "" splits into [""]. */
  function Split(s: string, sep: char): (parts: seq<string>)
    ensures |parts| > 0
    ensures forall i :: 0 <= i < |parts| ==> sep !in parts[i]
    decreases |s|
  {
    if |s| == 0 then [""]
    else if s[0] == sep then [""] + Split(s[1..], sep)
    else
      var rest := Split(s[1..], sep);
      [[s[0]] + rest[0]] + rest[1..]
  }

  lemma {:induction false} SplitWithoutSep(s: string, sep: char)
    requires sep !in s
    ensures Split(s, sep) == [s]
    decreases |s|
  {
    if |s| > 0 {
      SplitWithoutSep(s[1..], sep);
      assert [s[0]] + s[1..] == s;
    }
  }

  lemma {:induction false} SplitAfterPiece(piece: string, sep: char, rest: string)
    requires sep !in piece
    ensures Split(piece + [sep] + rest, sep) == [piece] + Split(rest, sep)
    decreases |piece|
  {
    var s := piece + [sep] + rest;
    if |piece| == 0 {
      assert s == [sep] + rest;
      assert s[1..] == rest;
    } else {
      assert s[1..] == piece[1..] + [sep] + rest;
      SplitAfterPiece(piece[1..], sep, rest);
      assert [s[0]] + piece[1..] == piece;
    }
  }

  /** Splitting a join recovers the parts, when no part contains the separator. */
  lemma {:induction false} SplitJoin(parts: seq<string>, sep: char)
    requires |parts| > 0
    requires forall i :: 0 <= i < |parts| ==> sep !in parts[i]
    ensures Split(Join(parts, sep), sep) == parts
    decreases |parts|
  {
    if |parts| == 1 {
      SplitWithoutSep(parts[0], sep);
    } else {
      SplitJoin(parts[1..], sep);
      SplitAfterPiece(parts[0], sep, Join(parts[1..], sep));
      assert parts == [parts[0]] + parts[1..];
    }
  }

  lemma JoinCons(p: string, rest: seq<string>, sep: char)
    requires |rest| > 0
    ensures Join([p] + rest, sep) == p + [sep] + Join(rest, sep)
  {
    assert ([p] + rest)[1..] == rest;
  }

  /** Joining the pieces of a split gives the string back, whatever it holds. */
  lemma {:induction false} JoinSplit(s: string, sep: char)
    ensures Join(Split(s, sep), sep) == s
    decreases |s|
  {
    if |s| > 0 {
      JoinSplit(s[1..], sep);
      var rest := Split(s[1..], sep);
      if s[0] == sep {
        JoinCons("", rest, sep);
      } else if |rest| == 1 {
        assert Split(s, sep) == [[s[0]] + rest[0]];
      } else {
        assert rest == [rest[0]] + rest[1..];
        JoinCons([s[0]] + rest[0], rest[1..], sep);
        JoinCons(rest[0], rest[1..], sep);
      }
      assert s == [s[0]] + s[1..];
    }
  }

  /** The pieces of every part, in order. */
  function SplitEach(parts: seq<string>, sep: char): seq<string>
    decreases |parts|
  {
    if |parts| == 0 then [] else Split(parts[0], sep) + SplitEach(parts[1..], sep)
  }

  lemma SplitAtSep(t: string, sep: char)
    ensures Split([sep] + t, sep) == [""] + Split(t, sep)
  {
    assert ([sep] + t)[1..] == t;
  }

  lemma SplitAtOther(c: char, t: string, sep: char)
    requires c != sep
    ensures Split([c] + t, sep) == [[c] + Split(t, sep)[0]] + Split(t, sep)[1..]
  {
    assert ([c] + t)[1..] == t;
  }

  lemma HeadAppend(h: string, ra: seq<string>, rb: seq<string>)
    requires |ra| > 0
    ensures (ra + rb)[0] == ra[0]
    ensures [h] + (ra + rb)[1..] == ([h] + ra[1..]) + rb
  {
    assert (ra + rb)[1..] == ra[1..] + rb;
  }

  lemma SplitAroundStep(c: char, t: string, sep: char, b: string)
    requires Split(t + [sep] + b, sep) == Split(t, sep) + Split(b, sep)
    ensures Split([c] + t + [sep] + b, sep) == Split([c] + t, sep) + Split(b, sep)
  {
    var x := t + [sep] + b;
    ConcatAssoc([c] + t, [sep], b);
    ConcatAssoc([c], t, [sep] + b);
    ConcatAssoc(t, [sep], b);
    var ra := Split(t, sep);
    var rb := Split(b, sep);
    if c == sep {
      SplitAtSep(x, sep);
      SplitAtSep(t, sep);
      assert [""] + (ra + rb) == ([""] + ra) + rb;
    } else {
      SplitAtOther(c, x, sep);
      SplitAtOther(c, t, sep);
      HeadAppend([c] + ra[0], ra, rb);
    }
  }

  /** Splitting at one separator splits the two sides independently. */
  lemma {:induction false} SplitAround(a: string, sep: char, b: string)
    ensures Split(a + [sep] + b, sep) == Split(a, sep) + Split(b, sep)
    decreases |a|
  {
    if |a| == 0 {
      assert a + [sep] + b == [sep] + b;
      SplitAtSep(b, sep);
      assert Split(a, sep) == [""];
    } else {
      var t := a[1..];
      SplitAround(t, sep, b);
      SplitAroundStep(a[0], t, sep, b);
      assert a == [a[0]] + t;
    }
  }

  /**
   Splitting a join gives the pieces of each part in order, whatever the
   parts hold: a part holding the separator comes back in pieces, and an
   empty part as an empty piece.
   */
  lemma {:induction false} SplitJoinPieces(parts: seq<string>, sep: char)
    requires |parts| > 0
    ensures Split(Join(parts, sep), sep) == SplitEach(parts, sep)
    decreases |parts|
  {
    if |parts| == 1 {
      assert SplitEach(parts[1..], sep) == [];
      assert SplitEach(parts, sep) == Split(parts[0], sep) + [];
    } else {
      SplitJoinPieces(parts[1..], sep);
      SplitAround(parts[0], sep, Join(parts[1..], sep));
    }
  }

  /** A join of non-empty parts is empty exactly when there are no parts. */
  lemma JoinEmpty(parts: seq<string>, sep: char)
    requires forall i :: 0 <= i < |parts| ==> |parts[i]| > 0
    ensures Join(parts, sep) == "" <==> |parts| == 0
  {
  }

  // ---------------------------------------------------------------------------
  // Splitting at one occurrence of a character

  /** `s` cut before its first `c`: the part without `c`, and the rest (empty or starting with `c`). */
  function SplitAtFirst(s: string, c: char): (r: (string, string))
    ensures r.0 + r.1 == s
    ensures c !in r.0
    ensures |r.1| == 0 || r.1[0] == c
    decreases |s|
  {
    if |s| == 0 then ("", "")
    else if s[0] == c then ("", s)
    else
      var (u, v) := SplitAtFirst(s[1..], c);
      assert [s[0]] + u + v == s;
      ([s[0]] + u, v)
  }

  /** `s` cut at its last `c`: the part before it and the part after it. */
  function SplitAtLast(s: string, c: char): (r: Option<(string, string)>)
    ensures r.Some? ==> r.value.0 + [c] + r.value.1 == s && c !in r.value.1
    ensures r.None? ==> c !in s
    decreases |s|
  {
    if |s| == 0 then None
    else if s[|s| - 1] == c then
      assert s[..|s| - 1] + [c] + "" == s;
      Some((s[..|s| - 1], ""))
    else
      match SplitAtLast(s[..|s| - 1], c)
      case None =>
        assert s == s[..|s| - 1] + [s[|s| - 1]];
        None
      case Some((h, t)) =>
        assert h + [c] + (t + [s[|s| - 1]]) == s[..|s| - 1] + [s[|s| - 1]] == s;
        Some((h, t + [s[|s| - 1]]))
  }

  lemma {:induction false} SplitAtFirstUnique(u: string, v: string, c: char)
    requires c !in u && (|v| == 0 || v[0] == c)
    ensures SplitAtFirst(u + v, c) == (u, v)
    decreases |u|
  {
    if |u| == 0 {
      assert u + v == v;
    } else {
      assert (u + v)[1..] == u[1..] + v;
      SplitAtFirstUnique(u[1..], v, c);
      assert [u[0]] + u[1..] == u;
    }
  }

  lemma {:induction false} SplitAtLastUnique(h: string, c: char, t: string)
    requires c !in t
    ensures SplitAtLast(h + [c] + t, c) == Some((h, t))
    decreases |t|
  {
    var s := h + [c] + t;
    if |t| == 0 {
      assert s[..|s| - 1] == h;
    } else {
      var t' := t[..|t| - 1];
      assert s[..|s| - 1] == h + [c] + t';
      SplitAtLastUnique(h, c, t');
      assert t' + [s[|s| - 1]] == t;
    }
  }

  // ---------------------------------------------------------------------------
  // Prefixes and suffixes

  lemma ConcatAssoc(a: string, b: string, c: string)
    ensures (a + b) + c == a + (b + c)
  {
  }

  /** `s` without the prefix `p`, when it has it. */
  function StripPrefix(s: string, p: string): (r: Option<string>)
    ensures r.Some? <==> p <= s
    ensures r.Some? ==> s == p + r.value
  {
    if p <= s then Some(s[|p|..]) else None
  }

  /** `s` without the suffix `q`, when it has it. */
  function StripSuffix(s: string, q: string): (r: Option<string>)
    ensures r.Some? <==> |q| <= |s| && s[|s| - |q|..] == q
    ensures r.Some? ==> s == r.value + q
  {
    if |q| <= |s| && s[|s| - |q|..] == q then Some(s[..|s| - |q|]) else None
  }

}
