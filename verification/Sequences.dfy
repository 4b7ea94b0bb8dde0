/** Facts about index sequences shared by the two message channels. */
module Sequences {

  ghost predicate StrictlyIncreasing(s: seq<nat>) {
    forall i, j :: 0 <= i < j < |s| ==> s[i] < s[j]
  }

  /** 0, 1, ..., n - 1 */
  function Iota(n: nat): (s: seq<nat>)
    ensures |s| == n
    ensures forall i :: 0 <= i < n ==> s[i] == i
  {
    seq(n, i => i)
  }

  /** k, k + 1, ..., k + n - 1 */
  function From(k: nat, n: nat): (s: seq<nat>)
    ensures |s| == n
    ensures forall i :: 0 <= i < n ==> s[i] == k + i
  {
    seq(n, i requires i >= 0 => k + i)
  }

  ghost predicate AllBelow(s: seq<nat>, bound: nat) {
    forall i :: 0 <= i < |s| ==> s[i] < bound
  }

  lemma {:induction false} IncreasingAtLeastIndex(s: seq<nat>, i: nat)
    requires StrictlyIncreasing(s) && i < |s|
    ensures i <= s[i]
  {
    if i > 0 {
      IncreasingAtLeastIndex(s, i - 1);
      assert s[i - 1] < s[i];
    }
  }

  lemma {:induction false} IncreasingLeavesRoom(s: seq<nat>, bound: nat, i: nat)
    requires StrictlyIncreasing(s) && AllBelow(s, bound) && i < |s|
    ensures s[i] + |s| - i <= bound
    decreases |s| - i
  {
    if i + 1 < |s| {
      IncreasingLeavesRoom(s, bound, i + 1);
      assert s[i] < s[i + 1];
    }
  }

  /** Strictly increasing indices below a bound number at most the bound, and they
      number exactly the bound only when none is missing. */
  lemma IncreasingBelow(s: seq<nat>, bound: nat)
    requires StrictlyIncreasing(s) && AllBelow(s, bound)
    ensures |s| <= bound
    ensures |s| == bound <==> s == Iota(bound)
  {
    if s != [] {
      IncreasingLeavesRoom(s, bound, 0);
      if |s| == bound {
        forall i | 0 <= i < |s|
          ensures s[i] == i
        {
          IncreasingAtLeastIndex(s, i);
          IncreasingLeavesRoom(s, bound, i);
        }
      }
    }
  }

  /** Two strictly increasing sequences that together hold 0 .. |a| + |b| - 1, each
      number in exactly one of them. */
  ghost predicate Partition(a: seq<nat>, b: seq<nat>) {
    && StrictlyIncreasing(a) && AllBelow(a, |a| + |b|)
    && StrictlyIncreasing(b) && AllBelow(b, |a| + |b|)
    && (forall k: nat :: k < |a| + |b| ==> (k in a <==> k !in b))
  }

  lemma PartitionGrows(a: seq<nat>, b: seq<nat>)
    requires Partition(a, b) || Partition(b, a)
    ensures Partition(a + [|a| + |b|], b) && Partition(b, a + [|a| + |b|])
  {
  }

  /** `part` consists of the elements of `whole` at the increasing positions `at`. */
  ghost predicate Picks<T>(part: seq<T>, whole: seq<T>, at: seq<nat>) {
    && StrictlyIncreasing(at) && |at| == |part| && AllBelow(at, |whole|)
    && (forall i :: 0 <= i < |part| ==> part[i] == whole[at[i]])
  }

  lemma PicksFromMore<T>(part: seq<T>, whole: seq<T>, at: seq<nat>, more: seq<T>)
    requires Picks(part, whole, at)
    ensures Picks(part, whole + more, at)
  {
  }

  lemma PicksOneMore<T>(part: seq<T>, whole: seq<T>, at: seq<nat>, k: nat)
    requires Picks(part, whole, at) && AllBelow(at, k) && k < |whole|
    ensures Picks(part + [whole[k]], whole, at + [k])
  {
  }

  /** The positions `inner` of `outer`. */
  ghost function Through(outer: seq<nat>, inner: seq<nat>): (s: seq<nat>)
    requires AllBelow(inner, |outer|)
    ensures |s| == |inner|
    ensures forall i :: 0 <= i < |inner| ==> s[i] == outer[inner[i]]
  {
    seq(|inner|, i requires 0 <= i < |inner| => outer[inner[i]])
  }

  lemma PicksCompose<T>(a: seq<T>, b: seq<T>, c: seq<T>, inB: seq<nat>, inC: seq<nat>)
    requires Picks(a, b, inB) && Picks(b, c, inC)
    ensures Picks(a, c, Through(inC, inB))
  {
  }

  lemma ThreeParts<T>(whole: seq<T>, m: nat, n: nat)
    requires m <= n <= |whole|
    ensures whole[..n][..m] + whole[..n][m..] + whole[n..] == whole
  {
    assert whole[..n][..m] + whole[..n][m..] == whole[..n];
  }
}
