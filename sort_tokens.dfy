/**
 * The off-chain sorter of an ERC721 escrow's token queue
 * (utils/sortTokens.ts). The escrow issues tokens by popping the last
 * element of its queue, so "Ascending" issuance needs the queue sorted max
 * to min, "Descending" issuance min to max, and every other order is a
 * Fisher-Yates shuffle. Every branch rearranges the array in place and
 * returns the array itself. `Math.random` becomes an oracle run `picks`
 * that holds the swap partner `picks[i]`, in [0, i], drawn at step `i`.
 */
module SortTokens {
  import opened Types

  /** `x` may come before `y`: not smaller for max-to-min, not larger for min-to-max. */
  predicate InOrder(x: int, y: int, maxFirst: bool)
  {
    if maxFirst then x >= y else x <= y
  }

  predicate Sorted(s: seq<int>, maxFirst: bool)
  {
    forall p, q :: 0 <= p < q < |s| ==> InOrder(s[p], s[q], maxFirst)
  }

  /** Sorted from the largest id to the smallest. */
  predicate MaxToMin(s: seq<int>)
  {
    forall p, q :: 0 <= p < q < |s| ==> s[p] >= s[q]
  }

  /** Sorted from the smallest id to the largest. */
  predicate MinToMax(s: seq<int>)
  {
    forall p, q :: 0 <= p < q < |s| ==> s[p] <= s[q]
  }

  /**
   * In-place insertion sort, the model of `Array.prototype.sort` with the
   * comparator `(a, b) => b - a` (`maxFirst`) or `(a, b) => a - b`.
   */
  method SortInPlace(a: array<int>, maxFirst: bool)
    modifies a
    ensures Sorted(a[..], maxFirst)
    ensures multiset(a[..]) == multiset(old(a[..]))
  {
    var i := 0;
    while i < a.Length
      invariant 0 <= i <= a.Length
      invariant SortedBelow(a[..], i, maxFirst)
      invariant multiset(a[..]) == multiset(old(a[..]))
    {
      Insert(a, i, maxFirst);
      i := i + 1;
    }
  }

  /** The first `n` entries of `s` are in order. */
  predicate SortedBelow(s: seq<int>, n: nat, maxFirst: bool)
    requires n <= |s|
  {
    forall p, q :: 0 <= p < q < n ==> InOrder(s[p], s[q], maxFirst)
  }

  /** Moves `a[i]` left into the sorted prefix `a[..i]`, leaving `a[..i + 1]` sorted. */
  method Insert(a: array<int>, i: nat, maxFirst: bool)
    requires i < a.Length && SortedBelow(a[..], i, maxFirst)
    modifies a
    ensures SortedBelow(a[..], i + 1, maxFirst)
    ensures multiset(a[..]) == multiset(old(a[..]))
  {
    var j := i;
    while j > 0 && !InOrder(a[j - 1], a[j], maxFirst)
      invariant 0 <= j <= i
      invariant forall p, q :: 0 <= p < q <= i && p != j && q != j ==> InOrder(a[p], a[q], maxFirst)
      invariant forall q :: j < q <= i ==> InOrder(a[j], a[q], maxFirst)
      invariant multiset(a[..]) == multiset(old(a[..]))
      decreases j
    {
      Swap(a, j - 1, j);
      j := j - 1;
    }
  }

  /** The array with positions `i` and `j` exchanged. */
  function SwapAt(s: seq<int>, i: nat, j: nat): (r: seq<int>)
    requires i < |s| && j < |s|
    ensures |r| == |s|
  {
    s[i := s[j]][j := s[i]]
  }

  /** An exchange keeps the same elements. */
  lemma SwapAtPermutes(s: seq<int>, i: nat, j: nat)
    requires i < |s| && j < |s|
    ensures multiset(SwapAt(s, i, j)) == multiset(s)
  {
  }

  /** An oracle run: `picks[k]` is the partner drawn at step `k`, always in [0, k]. */
  predicate Draws(picks: seq<nat>, n: nat)
  {
    |picks| == n && forall k :: 0 <= k < |picks| ==> picks[k] <= k
  }

  /** The shuffle's steps `i`, `i - 1`, ..., 1: step `k` swaps `k` with `picks[k]`. */
  function ShuffleSteps(s: seq<int>, i: nat, picks: seq<nat>): (r: seq<int>)
    requires Draws(picks, |s|)
    requires i < |s| || i == 0
    ensures |r| == |s|
    decreases i
  {
    if i == 0 then s else ShuffleSteps(SwapAt(s, i, picks[i]), i - 1, picks)
  }

  /** The shuffle's steps keep the same elements. */
  lemma {:induction false} ShuffleStepsPermutes(s: seq<int>, i: nat, picks: seq<nat>)
    requires Draws(picks, |s|)
    requires i < |s| || i == 0
    ensures multiset(ShuffleSteps(s, i, picks)) == multiset(s)
    decreases i
  {
    if i > 0 {
      SwapAtPermutes(s, i, picks[i]);
      ShuffleStepsPermutes(SwapAt(s, i, picks[i]), i - 1, picks);
    }
  }

  /** One step of the shuffle, unfolded. */
  lemma ShuffleStep(s: seq<int>, i: nat, picks: seq<nat>)
    requires Draws(picks, |s|) && 0 < i < |s|
    ensures ShuffleSteps(s, i, picks) == ShuffleSteps(SwapAt(s, i, picks[i]), i - 1, picks)
  {
  }

  /** A shuffle is a permutation of its input, whatever the oracle draws. */
  lemma ShuffledPermutes(s: seq<int>, picks: seq<nat>)
    requires Draws(picks, |s|)
    ensures multiset(Shuffled(s, picks)) == multiset(s)
  {
    if |s| > 0 {
      ShuffleStepsPermutes(s, |s| - 1, picks);
    }
  }

  /** `[a[i], a[j]] = [a[j], a[i]]`. */
  method Swap(a: array<int>, i: nat, j: nat)
    requires i < a.Length && j < a.Length
    modifies a
    ensures a[..] == SwapAt(old(a[..]), i, j)
    ensures a[i] == old(a[j]) && a[j] == old(a[i])
    ensures forall k :: 0 <= k < a.Length && k != i && k != j ==> a[k] == old(a[k])
    ensures multiset(a[..]) == multiset(old(a[..]))
  {
    SwapAtPermutes(a[..], i, j);
    a[i], a[j] := a[j], a[i];
  }

  /** The Fisher-Yates shuffle of `s` under the oracle run `picks`. */
  function Shuffled(s: seq<int>, picks: seq<nat>): (r: seq<int>)
    requires Draws(picks, |s|)
    ensures |r| == |s|
  {
    if |s| == 0 then s else ShuffleSteps(s, |s| - 1, picks)
  }

  /** The Fisher-Yates loop: from the last index down to 1, swap with the oracle's draw. */
  method ShuffleInPlace(a: array<int>, picks: seq<nat>)
    requires Draws(picks, a.Length)
    modifies a
    ensures a[..] == Shuffled(old(a[..]), picks)
  {
    if a.Length == 0 {
      return;
    }
    var i: nat := a.Length - 1;
    ghost var goal := Shuffled(a[..], picks);
    while i > 0
      invariant i < a.Length
      invariant ShuffleSteps(a[..], i, picks) == goal
      decreases i
    {
      ShuffleStep(a[..], i, picks);
      Swap(a, i, picks[i]);
      i := i - 1;
    }
  }

  /**
   * `simulateOffChainSortTokens`: Ascending sorts max to min, Descending
   * min to max, and any other order (NotSet included) shuffles. The result
   * is the input array, rearranged.
   */
  method SimulateOffChainSortTokens(tokenIds: array<int>, order: RewardOrder, picks: seq<nat>)
    returns (r: array<int>)
    requires Draws(picks, tokenIds.Length)
    modifies tokenIds
    ensures r == tokenIds
    ensures multiset(r[..]) == multiset(old(tokenIds[..]))
    ensures order == Ascending ==> MaxToMin(r[..])
    ensures order == Descending ==> MinToMax(r[..])
    ensures order != Ascending && order != Descending ==> r[..] == Shuffled(old(tokenIds[..]), picks)
  {
    if order == Ascending {
      SortInPlace(tokenIds, true);
    } else if order == Descending {
      SortInPlace(tokenIds, false);
    } else {
      ShuffleInPlace(tokenIds, picks);
      ShuffledPermutes(old(tokenIds[..]), picks);
    }
    r := tokenIds;
  }

  // ---------------------------------------------------------------------
  // Issuing from the end of the queue

  /** The ids in the order an escrow issues them: always the last one left. */
  function IssueOrder(queue: seq<int>): (r: seq<int>)
    ensures |r| == |queue|
    decreases |queue|
  {
    if queue == [] then [] else [queue[|queue| - 1]] + IssueOrder(queue[..|queue| - 1])
  }

  /** Issuing hands out exactly the queued ids. */
  lemma {:induction false} IssueOrderPermutes(queue: seq<int>)
    ensures multiset(IssueOrder(queue)) == multiset(queue)
    decreases |queue|
  {
    if queue != [] {
      var n := |queue| - 1;
      IssueOrderPermutes(queue[..n]);
      assert queue == queue[..n] + [queue[n]];
    }
  }

  /** The `k`-th id issued is the `k`-th from the end of the queue. */
  lemma {:induction false} IssueOrderReverses(queue: seq<int>)
    ensures forall k :: 0 <= k < |queue| ==> IssueOrder(queue)[k] == queue[|queue| - 1 - k]
    decreases |queue|
  {
    if queue != [] {
      var n := |queue| - 1;
      IssueOrderReverses(queue[..n]);
      assert IssueOrder(queue) == [queue[n]] + IssueOrder(queue[..n]);
    }
  }

  /** A max-to-min queue popped from its end issues its ids smallest first. */
  lemma MaxToMinIssuesIncreasing(queue: seq<int>)
    requires MaxToMin(queue)
    ensures MinToMax(IssueOrder(queue))
  {
    var r := IssueOrder(queue);
    IssueOrderReverses(queue);
    forall p, q | 0 <= p < q < |r|
      ensures r[p] <= r[q]
    {
      var n := |queue| - 1;
      assert r[p] == queue[n - p] && r[q] == queue[n - q];
    }
  }
}
