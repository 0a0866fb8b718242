/** String and integer helpers with the behaviour of Go's `strings` and `strconv`
    packages, as far as names are built and parsed with them. */
module Text {
  import opened Options

  /* Decimal numbers */

  predicate IsDigit(c: char) {
    '0' <= c <= '9'
  }

  predicate AllDigits(s: string) {
    forall i :: 0 <= i < |s| ==> IsDigit(s[i])
  }

  function DigitValue(c: char): nat
    requires IsDigit(c)
  {
    c as int - '0' as int
  }

  /** Value of a digit string; the empty string counts as 0. */
  function DigitsValue(s: string): nat
    requires AllDigits(s)
  {
    if s == "" then 0 else 10 * DigitsValue(s[..|s| - 1]) + DigitValue(s[|s| - 1])
  }

  function Digits(n: nat): (s: string)
    ensures s != "" && AllDigits(s)
    ensures DigitsValue(s) == n
  {
    var last := ['0' + (n % 10) as char];
    if n < 10 then
      last
    else
      var front := Digits(n / 10);
      assert (front + last)[..|front + last| - 1] == front;
      front + last
  }

  /** The `%d` verb. */
  function Itoa(n: int): string {
    if n < 0 then "-" + Digits(-n) else Digits(n)
  }

  function Pow2(k: nat): (p: nat)
    ensures p >= 1
  {
    if k == 0 then 1 else 2 * Pow2(k - 1)
  }

  predicate InRange(n: int, bits: nat)
    requires bits >= 1
  {
    var bound: int := Pow2(bits - 1);
    -bound <= n < bound
  }

  /** `strconv.ParseInt(s, 10, bits)`: an optional sign, then one or more digits,
      with the value in the signed range. */
  function ParseInt(s: string, bits: nat): Option<int>
    requires bits >= 1
  {
    var signed := s != "" && (s[0] == '-' || s[0] == '+');
    var digits := if signed then s[1..] else s;
    if digits == "" || !AllDigits(digits) then
      None
    else
      var size: int := DigitsValue(digits);
      var n := if signed && s[0] == '-' then -size else size;
      if InRange(n, bits) then Some(n) else None
  }

  lemma ParseItoa(n: int, bits: nat)
    requires bits >= 1
    ensures ParseInt(Itoa(n), bits) == if InRange(n, bits) then Some(n) else None
  {
    if n < 0 {
      assert Itoa(n)[1..] == Digits(-n);
    } else {
      assert IsDigit(Digits(n)[0]);
    }
  }

  /** The forms a number may have: a sign may stand before it, and zeros. */
  lemma ParseIntForms(d: string, bits: nat)
    requires bits >= 1 && d != "" && AllDigits(d)
    ensures var v: int := DigitsValue(d);
            && ParseInt(d, bits) == (if InRange(v, bits) then Some(v) else None)
            && ParseInt("+" + d, bits) == ParseInt(d, bits)
            && ParseInt("-" + d, bits) == (if InRange(-v, bits) then Some(-v) else None)
    ensures AllDigits("0" + d) && DigitsValue("0" + d) == DigitsValue(d)
  {
    assert ("+" + d)[1..] == d && ("-" + d)[1..] == d && IsDigit(d[0]);
    LeadingZero(d);
  }

  lemma {:induction false} LeadingZero(d: string)
    requires AllDigits(d)
    ensures AllDigits("0" + d) && DigitsValue("0" + d) == DigitsValue(d)
    decreases |d|
  {
    var z := "0" + d;
    assert forall i :: 0 <= i < |z| ==> z[i] == if i == 0 then '0' else d[i - 1];
    if d == "" {
      assert z[..|z| - 1] == "";
    } else {
      LeadingZero(d[..|d| - 1]);
      assert z[..|z| - 1] == "0" + d[..|d| - 1];
    }
  }

  /** The ranges of 32 and 64 bits. */
  lemma RangeValues(n: int)
    ensures InRange(n, 32) <==> -0x8000_0000 <= n < 0x8000_0000
    ensures InRange(n, 64) <==> -0x8000_0000_0000_0000 <= n < 0x8000_0000_0000_0000
  {
    Pow2Values();
  }

  lemma Pow2Values()
    ensures Pow2(31) == 0x8000_0000 && Pow2(63) == 0x8000_0000_0000_0000
  {
    Pow2Small();
    Pow2Adds(7, 8);
    Pow2Adds(8, 8);
    Pow2Adds(15, 16);
    Pow2Adds(16, 16);
    Pow2Adds(31, 32);
  }

  lemma Pow2Small()
    ensures Pow2(7) == 128 && Pow2(8) == 256
  {
    assert Pow2(2) == 4 && Pow2(4) == 2 * Pow2(3) && Pow2(6) == 2 * Pow2(5) && Pow2(8) == 2 * Pow2(7);
  }

  lemma {:induction false} Pow2Adds(a: nat, b: nat)
    ensures Pow2(a + b) == Pow2(a) * Pow2(b)
    decreases a
  {
    if a > 0 { Pow2Adds(a - 1, b); }
  }

  /** What the `%d` verb can write: digits with at most a leading minus sign. */
  lemma ItoaChars(n: int)
    ensures Itoa(n) != ""
    ensures forall i :: 0 <= i < |Itoa(n)| ==> IsDigit(Itoa(n)[i]) || Itoa(n)[i] == '-'
  {
  }

  /* Searching and cutting */

  predicate OccursAt(s: string, sep: string, i: int) {
    0 <= i <= |s| - |sep| && s[i..i + |sep|] == sep
  }

  /** A separator of two characters can only start where its first character stands. */
  lemma OccurrenceChars(s: string, sep: string, i: int)
    requires |sep| == 2 && OccursAt(s, sep, i)
    ensures s[i] == sep[0] && s[i + 1] == sep[1]
  {
    var w := s[i..i + |sep|];
    assert w[0] == s[i] && w[1] == s[i + 1];
  }

  predicate HasPrefix(s: string, prefix: string) {
    OccursAt(s, prefix, 0)
  }

  /** `strings.LastIndex` */
  function LastIndex(s: string, sep: string): (r: int)
    ensures r == -1 || OccursAt(s, sep, r)
    ensures forall i :: OccursAt(s, sep, i) ==> i <= r
    decreases |s|
  {
    if |s| < |sep| then
      -1
    else if s[|s| - |sep|..] == sep then
      |s| - |sep|
    else
      var front := s[..|s| - 1];
      var r := LastIndex(front, sep);
      assert forall i :: OccursAt(s, sep, i) ==> OccursAt(front, sep, i) by {
        forall i | OccursAt(s, sep, i)
          ensures OccursAt(front, sep, i)
        {
          assert i != |s| - |sep|;
          assert front[i..i + |sep|] == s[i..i + |sep|];
        }
      }
      assert r != -1 ==> front[r..r + |sep|] == s[r..r + |sep|];
      r
  }

  lemma OccursShifted(s: string, sep: string, i: int)
    requires s != "" && i != 0
    ensures OccursAt(s, sep, i) <==> i >= 1 && OccursAt(s[1..], sep, i - 1)
  {
    if 1 <= i <= |s| - |sep| { assert s[1..][i - 1..i - 1 + |sep|] == s[i..i + |sep|]; }
  }

  /** `strings.Index` */
  function Index(s: string, sep: string): (r: int)
    ensures r == -1 || OccursAt(s, sep, r)
    ensures r == -1 ==> forall i :: !OccursAt(s, sep, i)
    ensures forall i :: OccursAt(s, sep, i) ==> r <= i
    decreases |s|
  {
    if |s| < |sep| then
      -1
    else if s[..|sep|] == sep then
      0
    else
      var rest := s[1..];
      var r := Index(rest, sep);
      assert !OccursAt(s, sep, 0);
      assert forall i :: OccursAt(s, sep, i) ==> OccursAt(rest, sep, i - 1) by {
        forall i | OccursAt(s, sep, i)
          ensures OccursAt(rest, sep, i - 1)
        {
          OccursShifted(s, sep, i);
        }
      }
      if r == -1 then -1 else OccursShifted(s, sep, r + 1); r + 1
  }

  /** `strings.CutSuffix` */
  function CutSuffix(s: string, suffix: string): (string, bool) {
    if |suffix| <= |s| && s[|s| - |suffix|..] == suffix then
      (s[..|s| - |suffix|], true)
    else
      (s, false)
  }

  /** `strings.Cut`: the text around the first occurrence of `sep`. */
  function Cut(s: string, sep: string): Option<(string, string)> {
    var i := Index(s, sep);
    if i == -1 then None else Some((s[..i], s[i + |sep|..]))
  }
}
