/**
 * Counting by key: the `reduce((acc, x) => { acc[k] = (acc[k] || 0) + 1; ... }, {})`
 * idiom the dashboard uses for per-type statistics, with its missing keys read as 0.
 */
module Counting {

  /** How many times `x` occurs in `s`. */
  function Occurrences(s: seq<string>, x: string): (n: nat)
    ensures n <= |s|
    ensures n > 0 <==> exists i :: 0 <= i < |s| && s[i] == x
    decreases |s|
  {
    if s == [] then 0
    else
      var rest := Occurrences(s[..|s| - 1], x);
      assert forall i :: 0 <= i < |s| - 1 ==> s[..|s| - 1][i] == s[i];
      rest + (if s[|s| - 1] == x then 1 else 0)
  }

  /** `acc[k] || 0`: a missing key counts as zero. */
  function Count(m: map<string, nat>, k: string): nat {
    if k in m then m[k] else 0
  }

  /** The counting `reduce` over a list of keys. */
  function Tally(keys: seq<string>): (m: map<string, nat>)
    ensures forall k :: k in m <==> Occurrences(keys, k) > 0
    ensures forall k :: Count(m, k) == Occurrences(keys, k)
    decreases |keys|
  {
    if keys == [] then map[]
    else
      var m := Tally(keys[..|keys| - 1]);
      var k := keys[|keys| - 1];
      m[k := Count(m, k) + 1]
  }

  predicate Distinct(ks: seq<string>) {
    forall i, j :: 0 <= i < j < |ks| ==> ks[i] != ks[j]
  }

  /** The counts of the keys listed in `ks`, added up. */
  function TotalOver(m: map<string, nat>, ks: seq<string>): nat
    decreases |ks|
  {
    if ks == [] then 0 else TotalOver(m, ks[..|ks| - 1]) + Count(m, ks[|ks| - 1])
  }

  lemma {:induction false} TotalOverEmpty(ks: seq<string>)
    ensures TotalOver(map[], ks) == 0
    decreases |ks|
  {
    if ks != [] {
      TotalOverEmpty(ks[..|ks| - 1]);
    }
  }

  /** Counting one more `x` raises the total by one exactly when `x` is listed. */
  lemma {:induction false} TotalOverBump(m: map<string, nat>, m': map<string, nat>, ks: seq<string>, x: string)
    requires Distinct(ks)
    requires forall k :: Count(m', k) == Count(m, k) + (if k == x then 1 else 0)
    ensures TotalOver(m', ks) == TotalOver(m, ks) + (if x in ks then 1 else 0)
    decreases |ks|
  {
    if ks != [] {
      var init, last := ks[..|ks| - 1], ks[|ks| - 1];
      assert ks == init + [last];
      TotalOverBump(m, m', init, x);
      if last == x {
        forall i | 0 <= i < |init| ensures init[i] != x {
          assert init[i] == ks[i];
        }
      }
    }
  }

  /** Counts per key add up to the number of keys counted, over any list naming every key once. */
  lemma {:induction false} TallyTotal(keys: seq<string>, ks: seq<string>)
    requires Distinct(ks)
    requires forall i :: 0 <= i < |keys| ==> keys[i] in ks
    ensures TotalOver(Tally(keys), ks) == |keys|
    decreases |keys|
  {
    if keys == [] {
      TotalOverEmpty(ks);
    } else {
      var init := keys[..|keys| - 1];
      TallyTotal(init, ks);
      TotalOverBump(Tally(init), Tally(keys), ks, keys[|keys| - 1]);
    }
  }
}
