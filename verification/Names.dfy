/** Names that carry an identity as text (internal/mwproto/discriminators.go):
    `x_(n)` holds a discriminator n, `MW(n)_x` qualifies x with a player ID. */
module Names {
  import opened Options
  import opened Text

  function Discriminated(name: string, n: int): string {
    name + "_(" + Itoa(n) + ")"
  }

  function Qualified(pid: int, name: string): string {
    "MW(" + Itoa(pid) + ")_" + name
  }

  /** Only a name that does not end in ")" is refused: without a separator, or without a
      64-bit number behind it, the result is 0 and still counts as parsed. */
  function ParseDiscriminator(name: string): Option<int> {
    var (front, ok) := CutSuffix(name, ")");
    if !ok then
      None
    else
      var i := LastIndex(front, "_(");
      if i == -1 then Some(0)
      else
        var n := ParseInt(front[i + 2..], 64);
        if n.None? then Some(0) else n
  }

  function StripDiscriminator(name: string): string {
    var (front, _) := CutSuffix(name, ")");
    var i := LastIndex(front, "_(");
    if i == -1 then front else front[..i]
  }

  function ParseQualifiedName(name: string): Option<(int, string)> {
    if !HasPrefix(name, "MW(") then
      None
    else
      var cut := Cut(name[3..], ")_");
      if cut.None? then
        None
      else
        var pid := ParseInt(cut.value.0, 32);
        if pid.None? then None else Some((pid.value, cut.value.1))
  }

  /** Whatever the name looks like, the separator written last is the one found:
      a decimal number cannot hold another one. */
  lemma SeparatorBeforeNumber(name: string, n: int)
    ensures LastIndex(name + "_(" + Itoa(n), "_(") == |name|
  {
    ItoaChars(n);
    LastSeparator(name, Itoa(n));
  }

  lemma LastSeparator(name: string, number: string)
    requires forall i :: 0 <= i < |number| ==> number[i] != '_'
    ensures LastIndex(name + "_(" + number, "_(") == |name|
  {
    var s := name + "_(" + number;
    var d := |name|;
    assert s[d..d + 2] == "_(";
    forall k | d < k < |s|
      ensures s[k] != '_'
    {
      assert s[k] == if k == d + 1 then '(' else number[k - d - 2];
    }
    LastAt(s, d);
  }

  lemma LastAt(s: string, d: nat)
    requires OccursAt(s, "_(", d) && forall k :: d < k < |s| ==> s[k] != '_'
    ensures LastIndex(s, "_(") == d
  {
    OccurrenceChars(s, "_(", LastIndex(s, "_("));
  }

  /** Reading back a discriminated name gives the number if it fits in 64 bits and 0
      otherwise, and stripping always gives the name, whatever characters it holds. */
  lemma DiscriminatorRoundTrip(name: string, n: int)
    ensures ParseDiscriminator(Discriminated(name, n)) == Some(if InRange(n, 64) then n else 0)
    ensures StripDiscriminator(Discriminated(name, n)) == name
    ensures InRange(n, 64) ==> HasNumber(Discriminated(name, n), n)
  {
    var s := Discriminated(name, n);
    DiscriminatedParts(name, Itoa(n));
    CutParenthesis(s);
    SeparatorBeforeNumber(name, n);
    ParseItoa(n, 64);
    ItoaChars(n);
    assert InRange(n, 64) ==> NumberAt(s, |name|, n);
  }

  lemma DiscriminatedParts(name: string, number: string)
    ensures var front := name + "_(" + number; var s := front + ")"; var d := |name|;
            && |s| == d + |number| + 3 && s[|s| - 1] == ')' && s[..|s| - 1] == front
            && front[..d] == name && front[d + 2..] == number
            && s[d..d + 2] == "_(" && s[d + 2..|s| - 1] == number
  {
  }

  /* When the number is the one in the name */

  /** The name ends in "_(", a 64-bit number and ")", with the separator at i. */
  predicate NumberAt(s: string, i: int, n: int) {
    && 0 <= i && i + 3 <= |s| && s[i..i + 2] == "_(" && s[|s| - 1] == ')'
    && ParseInt(s[i + 2..|s| - 1], 64) == Some(n)
  }

  ghost predicate HasNumber(s: string, n: int) {
    exists i :: NumberAt(s, i, n)
  }

  predicate EndsInParenthesis(s: string) {
    s != "" && s[|s| - 1] == ')'
  }

  lemma CutParenthesis(s: string)
    ensures CutSuffix(s, ")") == if EndsInParenthesis(s) then (s[..|s| - 1], true) else (s, false)
  {
    if s != "" { assert s[|s| - 1..] == [s[|s| - 1]]; }
  }

  lemma NumberChars(s: string, bits: nat)
    requires bits >= 1 && ParseInt(s, bits).Some?
    ensures forall k :: 0 <= k < |s| ==> s[k] != '_' && s[k] != ')'
  {
    var digits := if s[0] == '-' || s[0] == '+' then s[1..] else s;
    assert AllDigits(digits);
    forall k | 0 <= k < |s|
      ensures s[k] != '_' && s[k] != ')'
    {
      if |digits| < |s| {
        if k > 0 { assert s[k] == digits[k - 1]; }
      } else {
        assert s[k] == digits[k];
      }
    }
  }

  lemma SliceOfFront(s: string, i: nat)
    requires i + 3 <= |s|
    ensures var front := s[..|s| - 1];
            front[i..i + 2] == s[i..i + 2] && front[i + 2..] == s[i + 2..|s| - 1]
  {
  }

  /** The separator before a number is the one the parser finds. */
  lemma NumberIsFound(s: string, i: nat, n: int)
    requires NumberAt(s, i, n)
    ensures ParseDiscriminator(s) == Some(n)
  {
    CutParenthesis(s);
    SliceOfFront(s, i);
    var front, number := s[..|s| - 1], s[i + 2..|s| - 1];
    NumberChars(number, 64);
    assert front[i + 1] == front[i..i + 2][1];
    forall k | i < k < |front|
      ensures front[k] != '_'
    {
      if k > i + 1 { assert front[k] == number[k - i - 2]; }
    }
    LastAt(front, i);
  }

  lemma FoundIsNumber(s: string)
    requires EndsInParenthesis(s)
    requires var front := s[..|s| - 1]; var i := LastIndex(front, "_("); i != -1 && ParseInt(front[i + 2..], 64).Some?
    ensures ParseDiscriminator(s).Some? && HasNumber(s, ParseDiscriminator(s).value)
  {
    CutParenthesis(s);
    var i := LastIndex(s[..|s| - 1], "_(");
    SliceOfFront(s, i);
    assert NumberAt(s, i, ParseDiscriminator(s).value);
  }

  /** Parsing gives n exactly when the name carries the number n, or carries no number,
      ends in ")" and n is 0. */
  lemma ParsedNumberIff(s: string, n: int)
    ensures ParseDiscriminator(s) == Some(n) <==>
            HasNumber(s, n) || (n == 0 && EndsInParenthesis(s) && forall m :: !HasNumber(s, m))
  {
    CutParenthesis(s);
    forall m | HasNumber(s, m)
      ensures ParseDiscriminator(s) == Some(m)
    {
      var i :| NumberAt(s, i, m);
      NumberIsFound(s, i, m);
    }
    if EndsInParenthesis(s) {
      var front := s[..|s| - 1];
      var i := LastIndex(front, "_(");
      if i != -1 && ParseInt(front[i + 2..], 64).Some? { FoundIsNumber(s); }
    }
  }

  /** A name is refused exactly when it does not end in ")". */
  lemma RefusedIff(s: string)
    ensures ParseDiscriminator(s).None? <==> !EndsInParenthesis(s)
  {
    CutParenthesis(s);
  }

  /** Names without a discriminator that are taken for location 0. */
  lemma UnreadableNamesParse()
    ensures ParseDiscriminator("Foo)") == Some(0) && forall n :: !HasNumber("Foo)", n)
    ensures ParseDiscriminator("X_(abc)") == Some(0) && forall n :: !HasNumber("X_(abc)", n)
  {
    NoNumber("Foo)");
    NoNumber("X_(abc)");
    ParsedNumberIff("Foo)", 0);
    ParsedNumberIff("X_(abc)", 0);
  }

  lemma NumberEndsInDigit(s: string, i: int, n: int)
    requires NumberAt(s, i, n)
    ensures |s| >= 2 && IsDigit(s[|s| - 2])
  {
    var number := s[i + 2..|s| - 1];
    var digits := if number[0] == '-' || number[0] == '+' then number[1..] else number;
    assert AllDigits(digits) && digits[|digits| - 1] == s[|s| - 2];
  }

  lemma NoNumber(s: string)
    requires |s| >= 2 && !IsDigit(s[|s| - 2])
    ensures forall n :: !HasNumber(s, n)
  {
    forall n
      ensures !HasNumber(s, n)
    {
      if HasNumber(s, n) {
        var i :| NumberAt(s, i, n);
        NumberEndsInDigit(s, i, n);
      }
    }
  }

  /** Stripping is not the identity on every name without a discriminator: it also
      drops a lone closing parenthesis. It leaves a name alone exactly when the name
      ends differently and holds no separator. */
  lemma StripIsIdentityIff(s: string)
    ensures StripDiscriminator(s) == s <==>
            !EndsInParenthesis(s) && forall i :: !OccursAt(s, "_(", i)
  {
    CutParenthesis(s);
    assert |StripDiscriminator(s)| <= |CutSuffix(s, ")").0|;
  }

  /** The first `)_` is the one after the number, whatever the name holds. */
  lemma CutAfterNumber(pid: int, name: string)
    ensures Cut(Itoa(pid) + ")_" + name, ")_") == Some((Itoa(pid), name))
  {
    var number := Itoa(pid);
    var s := number + ")_" + name;
    var d := |number|;
    ItoaChars(pid);
    assert s[d..d + 2] == ")_";
    assert OccursAt(s, ")_", d);
    assert forall k :: 0 <= k < d ==> s[k] == number[k];
    OccurrenceChars(s, ")_", Index(s, ")_"));
    assert s[..d] == number && s[d + 2..] == name;
  }

  lemma QualifiedRoundTrip(pid: int, name: string)
    ensures ParseQualifiedName(Qualified(pid, name)) ==
            if InRange(pid, 32) then Some((pid, name)) else None
  {
    var s := Qualified(pid, name);
    var rest := Itoa(pid) + ")_" + name;
    assert s == "MW(" + rest;
    assert s[0..3] == "MW(" && s[3..] == rest;
    CutAfterNumber(pid, name);
    ParseItoa(pid, 32);
  }

  /* Which names are qualified */

  /** The name is "MW(", a 32-bit number, ")_" at j, and then the item. */
  predicate QualifiedAt(s: string, j: int, pid: int, item: string) {
    && 3 <= j && j + 2 <= |s| && s[..3] == "MW(" && s[j..j + 2] == ")_" && s[j + 2..] == item
    && ParseInt(s[3..j], 32) == Some(pid)
  }

  lemma CutAtFirst(number: string, item: string)
    requires forall k :: 0 <= k < |number| ==> number[k] != ')'
    ensures Cut(number + ")_" + item, ")_") == Some((number, item))
  {
    var s := number + ")_" + item;
    var d := |number|;
    assert s[d..d + 2] == ")_";
    assert OccursAt(s, ")_", d);
    assert forall k :: 0 <= k < d ==> s[k] == number[k];
    OccurrenceChars(s, ")_", Index(s, ")_"));
    assert s[..d] == number && s[d + 2..] == item;
  }

  lemma QualifiedIsFound(s: string, j: int, pid: int, item: string)
    requires QualifiedAt(s, j, pid, item)
    ensures ParseQualifiedName(s) == Some((pid, item))
  {
    var number := s[3..j];
    NumberChars(number, 32);
    assert s[0..3] == s[..3];
    assert s[3..] == number + ")_" + item by {
      assert s[3..] == s[3..j] + s[j..j + 2] + s[j + 2..];
    }
    CutAtFirst(number, item);
  }

  /** A name parses exactly when it has this form, and then into these parts; everything
      else is refused. */
  lemma QualifiedIff(s: string, pid: int, item: string)
    ensures ParseQualifiedName(s) == Some((pid, item)) <==> exists j :: QualifiedAt(s, j, pid, item)
  {
    if j :| QualifiedAt(s, j, pid, item) { QualifiedIsFound(s, j, pid, item); }
    if ParseQualifiedName(s) == Some((pid, item)) {
      var i := Index(s[3..], ")_");
      assert s[0..3] == s[..3];
      assert s[3..][..i] == s[3..i + 3] && s[3..][i..i + 2] == s[i + 3..i + 5] && s[3..][i + 2..] == s[i + 5..];
      assert QualifiedAt(s, i + 3, pid, item);
    }
  }
}
