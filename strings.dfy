/**
 * The JavaScript string operations the main process relies on
 * (`includes`, `startsWith`, `endsWith`, `lastIndexOf`) and the decimal
 * rendering of a number, with the facts the rest of the model needs.
 */
module Strings {
  import opened Optional

  /** `s.startsWith(t)`. */
  predicate StartsWith(s: string, t: string) {
    |t| <= |s| && s[..|t|] == t
  }

  /** `s.endsWith(t)`. */
  predicate EndsWith(s: string, t: string) {
    |t| <= |s| && s[|s| - |t|..] == t
  }

  /** `t` occurs in `s` starting at index `i`. */
  predicate OccursAt(s: string, t: string, i: int) {
    0 <= i && i + |t| <= |s| && s[i..i + |t|] == t
  }

  /** `s.includes(t)`: `t` occurs somewhere in `s`. */
  predicate Contains(s: string, t: string)
  {
    exists i :: 0 <= i <= |s| && OccursAt(s, t, i)
  }

  /** Whatever surrounds it, a string contains each of its pieces. */
  lemma ContainsPiece(p: string, t: string, q: string)
    ensures Contains(p + t + q, t)
  {
    var s := p + t + q;
    assert s[|p|..|p| + |t|] == t;
    assert OccursAt(s, t, |p|);
  }

  /** A string that contains `t + u` contains `t`. */
  lemma ContainsPrefixOfPattern(s: string, t: string, u: string)
    requires Contains(s, t + u)
    ensures Contains(s, t)
  {
    var i :| 0 <= i <= |s| && OccursAt(s, t + u, i);
    assert s[i..i + |t|] == s[i..i + |t + u|][..|t|];
    assert OccursAt(s, t, i);
  }

  /** `s` contains `t` iff some position of `s` starts a copy of `t`; a string
      with no occurrence of `t[0]` therefore cannot contain a non-empty `t`. */
  lemma NotContainsWithoutFirstChar(s: string, t: string)
    requires t != []
    requires forall i :: 0 <= i < |s| ==> s[i] != t[0]
    ensures !Contains(s, t)
  {
    forall i ensures !OccursAt(s, t, i) {
      if 0 <= i && i + |t| <= |s| {
        assert s[i..i + |t|][0] == s[i];
      }
    }
  }

  /** The index of the last character of `s[..n]` that lies in `cs`. */
  function LastIndexBelow(s: string, cs: set<char>, n: nat): (r: Option<nat>)
    requires n <= |s|
    ensures r.Some? ==> r.value < n && s[r.value] in cs
    ensures r.Some? ==> forall j :: r.value < j < n ==> s[j] !in cs
    ensures r.None? ==> forall j :: 0 <= j < n ==> s[j] !in cs
  {
    if n == 0 then None
    else if s[n - 1] in cs then Some(n - 1)
    else LastIndexBelow(s, cs, n - 1)
  }

  /** The index of the last character of `s` that lies in `cs`
      (`lastIndexOf` for one character, a greedy `/(.*)[cs]/` in general). */
  function LastIndexIn(s: string, cs: set<char>): (r: Option<nat>)
    ensures r.Some? ==> r.value < |s| && s[r.value] in cs
    ensures r.Some? ==> forall j :: r.value < j < |s| ==> s[j] !in cs
    ensures r.None? ==> forall j :: 0 <= j < |s| ==> s[j] !in cs
  {
    LastIndexBelow(s, cs, |s|)
  }

  /** A character of `cs` followed by none up to `k` is the one found below `k`. */
  lemma {:induction false} LastIndexBelowFinds(s: string, cs: set<char>, i: nat, k: nat)
    requires i < k <= |s| && s[i] in cs
    requires forall j :: i < j < k ==> s[j] !in cs
    ensures LastIndexBelow(s, cs, k) == Some(i)
    decreases k
  {
    if k - 1 != i {
      LastIndexBelowFinds(s, cs, i, k - 1);
    }
  }

  /** `LastIndexIn` finds the separator of `d + [c] + n` when `n` holds none. */
  lemma LastIndexInJoin(d: string, c: char, n: string, cs: set<char>)
    requires c in cs
    requires forall j :: 0 <= j < |n| ==> n[j] !in cs
    ensures LastIndexIn(d + [c] + n, cs) == Some(|d|)
  {
    var s := d + [c] + n;
    forall j | |d| < j < |s| ensures s[j] !in cs {
      assert s[j] == n[j - |d| - 1];
    }
    LastIndexBelowFinds(s, cs, |d|, |s|);
  }

  function DigitChar(d: nat): (c: char)
    requires d < 10
    ensures '0' <= c <= '9'
  {
    ['0', '1', '2', '3', '4', '5', '6', '7', '8', '9'][d]
  }

  function DigitValue(c: char): (d: nat)
    requires '0' <= c <= '9'
    ensures d < 10
  {
    (c as int - '0' as int) as nat
  }

  predicate AllDigits(s: string) {
    forall i :: 0 <= i < |s| ==> '0' <= s[i] <= '9'
  }

  /** JavaScript's `String(n)` for a non-negative integer. */
  function Decimal(n: nat): (r: string)
    ensures r != [] && AllDigits(r)
    decreases n
  {
    if n < 10 then [DigitChar(n)] else Decimal(n / 10) + [DigitChar(n % 10)]
  }

  /** `parseInt(s, 10)` on a string made only of decimal digits. */
  function ParseDecimal(s: string): nat
    requires AllDigits(s)
    decreases |s|
  {
    if s == [] then 0 else ParseDecimal(s[..|s| - 1]) * 10 + DigitValue(s[|s| - 1])
  }

  /** Reading back a rendered number gives that number. */
  lemma {:induction false} ParseDecimalOfDecimal(n: nat)
    ensures ParseDecimal(Decimal(n)) == n
    decreases n
  {
    var r := Decimal(n);
    if n < 10 {
      assert r[..0] == [];
    } else {
      ParseDecimalOfDecimal(n / 10);
      assert r[..|r| - 1] == Decimal(n / 10);
    }
  }

  /** Distinct numbers render as distinct strings. */
  lemma DecimalInjective(a: nat, b: nat)
    requires a != b
    ensures Decimal(a) != Decimal(b)
  {
    ParseDecimalOfDecimal(a);
    ParseDecimalOfDecimal(b);
  }

  /** Two strings that agree after a common prefix and before a common suffix
      are equal in the middle. */
  lemma CancelAround(p: string, x: string, y: string, q: string)
    requires p + x + q == p + y + q
    ensures x == y
  {
    var s := p + x + q;
    assert |x| == |y|;
    assert x == s[|p|..|p| + |x|];
    assert y == (p + y + q)[|p|..|p| + |y|];
  }
}
