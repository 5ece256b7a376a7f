/** String helpers the handler relies on: Python's `sub in s` substring test
    and the decimal rendering of an integer inside an f-string. */
module Text {

  /** `sub` occurs in `s` starting at index `i`. */
  ghost predicate OccursAt(s: string, sub: string, i: nat)
  {
    i + |sub| <= |s| && s[i..i + |sub|] == sub
  }

  /** Python's `sub in s`, computed by scanning the start positions. */
  function Contains(s: string, sub: string): (b: bool)
    ensures b <==> exists i: nat :: OccursAt(s, sub, i)
    decreases |s|
  {
    if sub <= s then
      assert OccursAt(s, sub, 0);
      true
    else if |s| == 0 then
      false
    else
      OccursShift(s, sub);
      Contains(s[1..], sub)
  }

  /** Past a failed match at index 0, the occurrences in `s` are those in
      its tail, shifted by one. */
  lemma OccursShift(s: string, sub: string)
    requires |s| > 0 && !(sub <= s)
    ensures (exists i: nat :: OccursAt(s, sub, i)) <==> (exists i: nat :: OccursAt(s[1..], sub, i))
  {
    forall i: nat | OccursAt(s[1..], sub, i)
      ensures OccursAt(s, sub, i + 1)
    {
      assert s[1..][i..i + |sub|] == s[i + 1..i + 1 + |sub|];
    }
    forall i: nat | OccursAt(s, sub, i)
      ensures i > 0 && OccursAt(s[1..], sub, i - 1)
    {
      assert s[1..][i - 1..i - 1 + |sub|] == s[i..i + |sub|];
    }
  }

  /** An occurrence at a known position is found by `Contains`. */
  lemma ContainsAt(s: string, sub: string, i: nat)
    requires i + |sub| <= |s| && s[i..i + |sub|] == sub
    ensures Contains(s, sub)
  {
    assert OccursAt(s, sub, i);
  }

  /** A concatenation contains each of its two parts. */
  lemma ContainsLeft(a: string, b: string)
    ensures Contains(a + b, a)
  {
    assert (a + b)[..|a|] == a;
    ContainsAt(a + b, a, 0);
  }

  lemma ContainsRight(a: string, b: string)
    ensures Contains(a + b, b)
  {
    assert (a + b)[|a|..|a| + |b|] == b;
    ContainsAt(a + b, b, |a|);
  }

  /** A string contains each of its middle parts. */
  lemma ContainsMiddle(a: string, b: string, c: string)
    ensures Contains(a + b + c, b)
  {
    assert (a + b + c)[|a|..|a| + |b|] == b;
    ContainsAt(a + b + c, b, |a|);
  }

  /** Containment is transitive: what occurs in a part occurs in the whole. */
  lemma ContainsWithin(part: string, sub: string, whole: string)
    requires Contains(part, sub) && Contains(whole, part)
    ensures Contains(whole, sub)
  {
    var i: nat :| OccursAt(part, sub, i);
    var j: nat :| OccursAt(whole, part, j);
    forall k | 0 <= k < |sub|
      ensures whole[j + i + k] == sub[k]
    {
      assert whole[j..j + |part|][i + k] == part[i + k] == part[i..i + |sub|][k];
    }
    assert whole[j + i..j + i + |sub|] == sub;
    ContainsAt(whole, sub, j + i);
  }

  predicate IsDigit(c: char)
  {
    '0' <= c <= '9'
  }

  function DigitChar(d: nat): (c: char)
    requires d < 10
    ensures IsDigit(c) && c as int - '0' as int == d
  {
    ('0' as int + d) as char
  }

  /** Python's `str(n)` for a non-negative integer: its base-10 digits,
      most significant first, without leading zeros. */
  function Decimal(n: nat): (s: string)
    ensures |s| >= 1
    ensures n < 10 <==> |s| == 1
    ensures forall k :: 0 <= k < |s| ==> IsDigit(s[k])
    ensures s[|s| - 1] == DigitChar(n % 10)
  {
    if n < 10 then [DigitChar(n)] else Decimal(n / 10) + [DigitChar(n % 10)]
  }

  /** Distinct numbers render to distinct strings. */
  lemma {:induction false} DecimalInjective(a: nat, b: nat)
    requires Decimal(a) == Decimal(b)
    ensures a == b
  {
    var s := Decimal(a);
    if a >= 10 && b >= 10 {
      assert Decimal(a / 10) == s[..|s| - 1] == Decimal(b / 10);
      DecimalInjective(a / 10, b / 10);
      assert DigitChar(a % 10) == DigitChar(b % 10);
    } else {
      assert |s| == 1;
      assert DigitChar(a % 10) == DigitChar(b % 10);
    }
  }
}
