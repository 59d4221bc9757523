/**
 * The Python string operations the service and the classifier rely on:
 * slicing, `str.strip()`, `"%d"` formatting and iteration over the lines
 * of a buffered reader.
 */
module Text {
  import opened Options

  // ---------------------------------------------------------------------
  // Slicing

  function Min(a: nat, b: nat): (m: nat)
    ensures m <= a && m <= b && (m == a || m == b)
  {
    if a <= b then a else b
  }

  /** Python's `s[:n]` for `n >= 0`: the first `n` characters, or all of `s` when shorter. */
  function Head(s: string, n: nat): (r: string)
    ensures r <= s
    ensures |r| == Min(n, |s|)
  {
    if n <= |s| then s[..n] else s
  }

  /** Python's `s[n:]` for `n >= 0`: empty once `n` passes the end. */
  function Tail(s: string, n: nat): (r: string)
    ensures |r| == |s| - Min(n, |s|)
    ensures Head(s, n) + r == s
  {
    if n <= |s| then s[n..] else []
  }

  /** Comparing `s[:len(p)]` with `p` is exactly a prefix test. */
  lemma HeadIsPrefixTest(s: string, p: string)
    ensures Head(s, |p|) == p <==> p <= s
  {
  }

  // ---------------------------------------------------------------------
  // Whitespace and str.strip()

  /** The characters `str.strip()` removes by default: space, tab, line feed, carriage return, vertical tab and form feed. */
  predicate IsSpace(c: char)
  {
    c == ' ' || c == '\t' || c == '\n' || c == '\r' || c == '\U{000B}' || c == '\U{000C}'
  }

  predicate AllSpace(s: string)
  {
    forall i :: 0 <= i < |s| ==> IsSpace(s[i])
  }

  /** Drops leading whitespace: the result is the suffix of `s` after its longest all-space prefix. */
  function TrimLeft(s: string): (r: string)
    ensures |r| <= |s| && r == s[|s| - |r|..]
    ensures AllSpace(s[..|s| - |r|])
    ensures r == [] || !IsSpace(r[0])
    decreases |s|
  {
    if s != [] && IsSpace(s[0]) then TrimLeft(s[1..]) else s
  }

  /** Drops trailing whitespace: the result is the prefix of `s` before its longest all-space suffix. */
  function TrimRight(s: string): (r: string)
    ensures |r| <= |s| && r == s[..|r|]
    ensures AllSpace(s[|r|..])
    ensures r == [] || !IsSpace(r[|r| - 1])
    decreases |s|
  {
    if s != [] && IsSpace(s[|s| - 1]) then TrimRight(s[..|s| - 1]) else s
  }

  /**
   * `r` is what `str.strip()` leaves of `s`: a contiguous piece of `s` with
   * only whitespace around it, neither starting nor ending with whitespace.
   */
  ghost predicate IsStripOf(r: string, s: string)
  {
    exists i, j :: 0 <= i <= j <= |s| && r == s[i..j]
      && AllSpace(s[..i]) && AllSpace(s[j..])
      && (r == [] || (!IsSpace(r[0]) && !IsSpace(r[|r| - 1])))
  }

  /** Python's `str.strip()` with no argument. */
  function Strip(s: string): (r: string)
    ensures IsStripOf(r, s)
  {
    var l := TrimLeft(s);
    var r := TrimRight(l);
    var i := |s| - |l|;
    assert r == s[i..i + |r|];
    assert s[i + |r|..] == l[|r|..];
    r
  }

  /** At most one string is the strip of `s`. */
  lemma StripOfUnique(s: string, r1: string, r2: string)
    requires IsStripOf(r1, s) && IsStripOf(r2, s)
    ensures r1 == r2
  {
    var i1, j1 :| 0 <= i1 <= j1 <= |s| && r1 == s[i1..j1]
      && AllSpace(s[..i1]) && AllSpace(s[j1..])
      && (r1 == [] || (!IsSpace(r1[0]) && !IsSpace(r1[|r1| - 1])));
    var i2, j2 :| 0 <= i2 <= j2 <= |s| && r2 == s[i2..j2]
      && AllSpace(s[..i2]) && AllSpace(s[j2..])
      && (r2 == [] || (!IsSpace(r2[0]) && !IsSpace(r2[|r2| - 1])));
    // a non-space character at either end of one candidate cannot lie in
    // the whitespace around the other
    SpaceInPrefix(s, i1, i2);
    SpaceInPrefix(s, i2, i1);
    SpaceInSuffix(s, j1, i2);
    SpaceInSuffix(s, j2, i1);
    SpaceInSuffix(s, j1, j2 - 1);
    SpaceInSuffix(s, j2, j1 - 1);
  }

  lemma SpaceInPrefix(s: string, i: int, k: int)
    ensures 0 <= k < i <= |s| && AllSpace(s[..i]) ==> IsSpace(s[k])
  {
    if 0 <= k < i <= |s| {
      assert s[..i][k] == s[k];
    }
  }

  lemma SpaceInSuffix(s: string, j: int, k: int)
    ensures 0 <= j <= k < |s| && AllSpace(s[j..]) ==> IsSpace(s[k])
  {
    if 0 <= j <= k < |s| {
      assert s[j..][k - j] == s[k];
    }
  }

  /** `Strip` is the one function meeting the characterisation `IsStripOf`. */
  lemma StripCharacterized(s: string, r: string)
    ensures IsStripOf(r, s) <==> r == Strip(s)
  {
    if IsStripOf(r, s) {
      StripOfUnique(s, r, Strip(s));
    }
  }

  /** Stripping an already stripped string changes nothing. */
  lemma StripIdempotent(s: string)
    ensures Strip(Strip(s)) == Strip(s)
  {
    var r := Strip(s);
    assert r == r[0..|r|] && r[..0] == [] && r[|r|..] == [];
    assert r == [] || (!IsSpace(r[0]) && !IsSpace(r[|r| - 1])) by {
      var i, j :| 0 <= i <= j <= |s| && r == s[i..j]
        && AllSpace(s[..i]) && AllSpace(s[j..])
        && (r == [] || (!IsSpace(r[0]) && !IsSpace(r[|r| - 1])));
    }
    assert IsStripOf(r, r);
    StripOfUnique(r, r, Strip(r));
  }

  // ---------------------------------------------------------------------
  // "%d" formatting

  predicate IsDigit(c: char)
  {
    '0' <= c <= '9'
  }

  predicate AllDigits(s: string)
  {
    forall i :: 0 <= i < |s| ==> IsDigit(s[i])
  }

  function DigitValue(c: char): (d: nat)
    requires IsDigit(c)
    ensures d < 10
  {
    (c as int) - ('0' as int)
  }

  function DigitChar(d: nat): (c: char)
    requires d < 10
    ensures IsDigit(c) && DigitValue(c) == d
  {
    (('0' as int) + d) as char
  }

  /** Decimal digits of `n`, most significant first, without leading zeros. */
  function NatToDecimal(n: nat): (r: string)
    ensures |r| >= 1 && AllDigits(r)
    ensures |r| > 1 ==> r[0] != '0'
    decreases n
  {
    if n < 10 then [DigitChar(n)] else NatToDecimal(n / 10) + [DigitChar(n % 10)]
  }

  /** Python's `"%d" % n`. */
  function IntToDecimal(n: int): (r: string)
    ensures r != []
    ensures n >= 0 ==> AllDigits(r) && (|r| > 1 ==> r[0] != '0')
    ensures n < 0 ==> |r| > 1 && r[0] == '-' && AllDigits(r[1..]) && r[1] != '0'
  {
    if n < 0 then "-" + NatToDecimal(-n) else NatToDecimal(n)
  }

  /** The number a string of decimal digits denotes. */
  function DecimalValue(s: string): nat
    requires AllDigits(s)
    decreases |s|
  {
    if s == [] then 0 else DecimalValue(s[..|s| - 1]) * 10 + DigitValue(s[|s| - 1])
  }

  /** Python's `int(s)` restricted to an optional minus sign followed by decimal digits. */
  function ParseInt(s: string): Option<int>
  {
    if |s| > 1 && s[0] == '-' && AllDigits(s[1..]) then Some(0 - DecimalValue(s[1..]))
    else if s != [] && AllDigits(s) then Some(DecimalValue(s))
    else None
  }

  lemma {:induction false} NatDecimalRoundTrip(n: nat)
    ensures DecimalValue(NatToDecimal(n)) == n
    decreases n
  {
    if n >= 10 {
      var r := NatToDecimal(n / 10);
      var c := DigitChar(n % 10);
      assert NatToDecimal(n) == r + [c];
      assert (r + [c])[..|r|] == r;
      NatDecimalRoundTrip(n / 10);
    }
  }

  /** `"%d"` loses nothing: the integer can be read back from its text. */
  lemma IntDecimalRoundTrip(n: int)
    ensures ParseInt(IntToDecimal(n)) == Some(n)
  {
    if n < 0 {
      NegativeDecimalRoundTrip(-n);
    } else {
      NatDecimalRoundTrip(n);
    }
  }

  /** A minus sign followed by the digits of a positive number parses back to its negation. */
  lemma NegativeDecimalRoundTrip(m: nat)
    requires m > 0
    ensures ParseInt("-" + NatToDecimal(m)) == Some(0 - m)
  {
    var d := NatToDecimal(m);
    var s := "-" + d;
    assert s[1..] == d;
    NatDecimalRoundTrip(m);
  }

  // ---------------------------------------------------------------------
  // Iterating a buffered reader line by line

  /** Length of the first line of `s`: up to and including the first line feed, or all of `s`. */
  function FirstLineLength(s: string): (n: nat)
    requires s != []
    ensures 1 <= n <= |s|
    ensures forall i :: 0 <= i < n - 1 ==> s[i] != '\n'
    ensures n < |s| ==> s[n - 1] == '\n'
    decreases |s|
  {
    if s[0] == '\n' || |s| == 1 then 1 else 1 + FirstLineLength(s[1..])
  }

  /** The lines a reader over `s` yields: each keeps its line feed; no empty line is produced at the end. */
  function Lines(s: string): (ls: seq<string>)
    ensures forall k :: 0 <= k < |ls| ==> ls[k] != []
    ensures forall k :: 0 <= k < |ls| - 1 ==> ls[k][|ls[k]| - 1] == '\n'
    ensures forall k, i :: 0 <= k < |ls| && 0 <= i < |ls[k]| - 1 ==> ls[k][i] != '\n'
    decreases |s|
  {
    if s == [] then []
    else
      var n := FirstLineLength(s);
      [s[..n]] + Lines(s[n..])
  }

  function Concat(ls: seq<string>): string
  {
    if ls == [] then [] else ls[0] + Concat(ls[1..])
  }

  /** Joining the lines back together gives the reader's whole content. */
  lemma {:induction false} LinesRoundTrip(s: string)
    ensures Concat(Lines(s)) == s
    decreases |s|
  {
    if s != [] {
      var n := FirstLineLength(s);
      var rest := s[n..];
      assert Lines(s) == [s[..n]] + Lines(rest);
      ConcatCons(s[..n], Lines(rest));
      LinesRoundTrip(rest);
      assert s[..n] + rest == s;
    }
  }

  lemma ConcatCons(first: string, ls: seq<string>)
    ensures Concat([first] + ls) == first + Concat(ls)
  {
    assert ([first] + ls)[1..] == ls;
  }
}
