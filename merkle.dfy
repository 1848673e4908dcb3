/**
 * The client-side dynamic Merkle tree over addresses (utils/merkleUtils.ts),
 * an adaptation of QuarkChain's DynamicMerkleTree. A level of `n` nodes is
 * hashed pairwise into `ceil(n/2)` parents, an odd last node being paired
 * with the all-zero hash, until one node is left. The hash functions are
 * parameters: the leaf hash of an address and the hash of a (left, right)
 * pair, both SHA-256 in the source, are not modelled.
 */
module Merkle {
  import opened Types

  type Hash = seq<bv8>

  /** The 32-byte all-zero hash (ethers' HashZero). */
  const HashZero: Hash := [
    0, 0, 0, 0, 0, 0, 0, 0, 0, 0, 0, 0, 0, 0, 0, 0, 0, 0, 0, 0, 0, 0, 0, 0, 0, 0, 0, 0, 0, 0, 0, 0]

  /** The two hash functions the tree is built from. */
  datatype Hasher = Hasher(leaf: Address -> Hash, node: (Hash, Hash) -> Hash)

  /** The leaf level: the leaf hash of every address, in order. */
  function LeafHashes(h: Hasher, addresses: seq<Address>): (r: seq<Hash>)
    ensures |r| == |addresses|
    ensures forall i :: 0 <= i < |r| ==> r[i] == h.leaf(addresses[i])
  {
    seq(|addresses|, i requires 0 <= i < |addresses| => h.leaf(addresses[i]))
  }

  /** Parent `k` of a level: nodes 2k and 2k+1, the missing right node read as HashZero. */
  function Parent(h: Hasher, nodes: seq<Hash>, k: nat): Hash
    requires 2 * k < |nodes|
  {
    h.node(nodes[2 * k], if 2 * k + 1 < |nodes| then nodes[2 * k + 1] else HashZero)
  }

  /** One halving round: `n` nodes become `ceil(n/2)` parents. */
  function NextLevel(h: Hasher, nodes: seq<Hash>): (r: seq<Hash>)
    ensures |r| == (|nodes| + 1) / 2
    ensures |nodes| > 1 ==> |r| < |nodes|
    ensures |nodes| <= 1 ==> |r| == |nodes|
  {
    seq((|nodes| + 1) / 2, k requires 0 <= k < (|nodes| + 1) / 2 => Parent(h, nodes, k))
  }

  /** Node `k` of the next level is parent `k` of this one. */
  lemma NextLevelAt(h: Hasher, nodes: seq<Hash>, k: nat)
    requires k < |NextLevel(h, nodes)|
    ensures 2 * k < |nodes| && NextLevel(h, nodes)[k] == Parent(h, nodes, k)
  {
  }

  /** The root of a non-empty level: halve until one node is left. */
  function RootOf(h: Hasher, nodes: seq<Hash>): Hash
    requires |nodes| >= 1
    decreases |nodes|
  {
    if |nodes| == 1 then nodes[0] else RootOf(h, NextLevel(h, nodes))
  }

  /** The root hash of an address list; an empty list has the zero hash. */
  function Root(h: Hasher, addresses: seq<Address>): (r: Hash)
    ensures addresses == [] ==> r == HashZero
    ensures |addresses| == 1 ==> r == h.leaf(addresses[0])
  {
    if |addresses| == 0 then HashZero else RootOf(h, LeafHashes(h, addresses))
  }

  /** The sibling of position `i`: `i + 1` for an even `i`, `i - 1` for an odd one. */
  function Sibling(i: nat): nat
  {
    if i % 2 == 0 then i + 1 else i - 1
  }

  /**
   * The proof of position `idx` in `nodes`: at every round the sibling's
   * hash when the sibling lies inside the current level, nothing when it
   * does not; rounds go on until one node is left and the index is 0.
   */
  function ProofOf(h: Hasher, nodes: seq<Hash>, idx: nat): seq<Hash>
    decreases |nodes| + idx
  {
    if |nodes| <= 1 && idx == 0 then []
    else
      (if Sibling(idx) < |nodes| then [nodes[Sibling(idx)]] else [])
      + ProofOf(h, NextLevel(h, nodes), idx / 2)
  }

  /** The leaf level the proof is taken from: an appended zero leaf when `index` is one past the end. */
  function ProofLeaves(h: Hasher, addresses: seq<Address>, index: nat): seq<Hash>
  {
    LeafHashes(h, addresses) + (if index == |addresses| then [HashZero] else [])
  }

  /** The proof `getUpdateProof(addresses, index)` returns. */
  function UpdateProof(h: Hasher, addresses: seq<Address>, index: nat): seq<Hash>
  {
    ProofOf(h, ProofLeaves(h, addresses, index), index)
  }

  /**
   * The verifier's fold: starting from the hash at position `idx` of a
   * level of `len` nodes, combine it with the next proof element when the
   * sibling exists and with HashZero when it does not, on the left or the
   * right by the parity of the position, and halve. The proof must be used
   * up exactly; `None` when it is too short or too long.
   */
  function FoldRoot(h: Hasher, len: nat, idx: nat, cur: Hash, proof: seq<Hash>): Option<Hash>
    decreases len
  {
    if len <= 1 then
      (if proof == [] then Some(cur) else None)
    else if Sibling(idx) < len then
      if proof == [] then None
      else
        var parent := if idx % 2 == 0 then h.node(cur, proof[0]) else h.node(proof[0], cur);
        FoldRoot(h, (len + 1) / 2, idx / 2, parent, proof[1..])
    else
      var parent := if idx % 2 == 0 then h.node(cur, HashZero) else h.node(HashZero, cur);
      FoldRoot(h, (len + 1) / 2, idx / 2, parent, proof)
  }

  /** Number of halving rounds that take `n` nodes down to one. */
  function Rounds(n: nat): nat
    decreases n
  {
    if n <= 1 then 0 else 1 + Rounds((n + 1) / 2)
  }

  // ---------------------------------------------------------------------
  // Round trips

  /**
   * Folding the node at `idx` with its proof gives back the root of the
   * level: the proof holds exactly the siblings the fold consumes.
   */
  lemma {:induction false} FoldProofOf(h: Hasher, nodes: seq<Hash>, idx: nat)
    requires idx < |nodes|
    ensures FoldRoot(h, |nodes|, idx, nodes[idx], ProofOf(h, nodes, idx)) == Some(RootOf(h, nodes))
    decreases |nodes|
  {
    if |nodes| > 1 {
      var next := NextLevel(h, nodes);
      var rest := ProofOf(h, next, idx / 2);
      var parent := Parent(h, nodes, idx / 2);
      NextLevelAt(h, nodes, idx / 2);
      FoldProofOf(h, next, idx / 2);
      ParentOfPosition(h, nodes, idx);
      if Sibling(idx) < |nodes| {
        var proof := [nodes[Sibling(idx)]] + rest;
        assert ProofOf(h, nodes, idx) == proof;
        assert proof[0] == nodes[Sibling(idx)] && proof[1..] == rest;
        FoldStepPresent(h, |nodes|, idx, nodes[idx], proof);
      } else {
        assert ProofOf(h, nodes, idx) == rest;
        FoldStepAbsent(h, |nodes|, idx, nodes[idx], rest);
      }
    }
  }

  /** The parent of position `idx` hashes it with its sibling, or with HashZero, on the side its parity says. */
  lemma ParentOfPosition(h: Hasher, nodes: seq<Hash>, idx: nat)
    requires idx < |nodes|
    ensures var peer := if Sibling(idx) < |nodes| then nodes[Sibling(idx)] else HashZero;
            Parent(h, nodes, idx / 2) == if idx % 2 == 0 then h.node(nodes[idx], peer) else h.node(peer, nodes[idx])
  {
    if idx % 2 == 0 {
      assert 2 * (idx / 2) == idx;
    } else {
      assert 2 * (idx / 2) + 1 == idx && Sibling(idx) == 2 * (idx / 2);
    }
  }

  lemma FoldStepPresent(h: Hasher, len: nat, idx: nat, cur: Hash, proof: seq<Hash>)
    requires len > 1 && Sibling(idx) < len && proof != []
    ensures FoldRoot(h, len, idx, cur, proof)
         == FoldRoot(h, (len + 1) / 2, idx / 2,
                     if idx % 2 == 0 then h.node(cur, proof[0]) else h.node(proof[0], cur), proof[1..])
  {
  }

  lemma FoldStepAbsent(h: Hasher, len: nat, idx: nat, cur: Hash, proof: seq<Hash>)
    requires len > 1 && Sibling(idx) >= len
    ensures FoldRoot(h, len, idx, cur, proof)
         == FoldRoot(h, (len + 1) / 2, idx / 2,
                     if idx % 2 == 0 then h.node(cur, HashZero) else h.node(HashZero, cur), proof)
  {
  }

  /** Nodes away from `idx` decide the proof of `idx`; the node at `idx` itself does not. */
  lemma {:induction false} ProofIgnoresOwnNode(h: Hasher, m1: seq<Hash>, m2: seq<Hash>, idx: nat)
    requires |m1| == |m2| && idx < |m1|
    requires forall j :: 0 <= j < |m1| && j != idx ==> m1[j] == m2[j]
    ensures ProofOf(h, m1, idx) == ProofOf(h, m2, idx)
    decreases |m1|
  {
    if |m1| > 1 {
      var n1 := NextLevel(h, m1);
      var n2 := NextLevel(h, m2);
      forall k | 0 <= k < |n1| && k != idx / 2
        ensures n1[k] == n2[k]
      {
        NextLevelAt(h, m1, k);
        NextLevelAt(h, m2, k);
      }
      ProofIgnoresOwnNode(h, n1, n2, idx / 2);
    }
  }

  /** Update round trip: the proof of an existing leaf folds back to the current root. */
  lemma UpdateRoundTrip(h: Hasher, addresses: seq<Address>, index: nat)
    requires index < |addresses|
    ensures FoldRoot(h, |addresses|, index, h.leaf(addresses[index]), UpdateProof(h, addresses, index))
            == Some(Root(h, addresses))
  {
    var leaves := LeafHashes(h, addresses);
    assert ProofLeaves(h, addresses, index) == leaves + [];
    assert leaves + [] == leaves;
    FoldProofOf(h, leaves, index);
  }

  /** Replacing the leaf at `index` by `x`: the same proof folds `x` to the root of the updated list. */
  lemma UpdateToNewRoot(h: Hasher, addresses: seq<Address>, index: nat, x: Address)
    requires index < |addresses|
    ensures FoldRoot(h, |addresses|, index, h.leaf(x), UpdateProof(h, addresses, index))
            == Some(Root(h, addresses[index := x]))
  {
    var updated := addresses[index := x];
    var old_leaves := LeafHashes(h, addresses);
    var new_leaves := LeafHashes(h, updated);
    assert ProofLeaves(h, addresses, index) == old_leaves + [];
    assert old_leaves + [] == old_leaves;
    forall j | 0 <= j < |old_leaves| && j != index
      ensures old_leaves[j] == new_leaves[j]
    {
      assert updated[j] == addresses[j];
    }
    ProofIgnoresOwnNode(h, old_leaves, new_leaves, index);
    FoldProofOf(h, new_leaves, index);
  }

  /** Append round trip: the append proof folds a new leaf `x` to the root of `addresses + [x]`. */
  lemma AppendRoundTrip(h: Hasher, addresses: seq<Address>, x: Address)
    ensures FoldRoot(h, |addresses| + 1, |addresses|, h.leaf(x), UpdateProof(h, addresses, |addresses|))
            == Some(Root(h, addresses + [x]))
  {
    var n := |addresses|;
    var padded := ProofLeaves(h, addresses, n);
    var grown := LeafHashes(h, addresses + [x]);
    forall j | 0 <= j < |padded| && j != n
      ensures padded[j] == grown[j]
    {
      assert padded[j] == h.leaf(addresses[j]);
    }
    ProofIgnoresOwnNode(h, padded, grown, n);
    FoldProofOf(h, grown, n);
  }

  /** A proof holds at most one hash per halving round. */
  lemma {:induction false} ProofLengthBound(h: Hasher, nodes: seq<Hash>, idx: nat)
    requires idx < |nodes|
    ensures |ProofOf(h, nodes, idx)| <= Rounds(|nodes|)
    decreases |nodes|
  {
    if |nodes| > 1 {
      ProofLengthBound(h, NextLevel(h, nodes), idx / 2);
    }
  }

  /** The proofs the client hands out are no longer than the tree is deep. */
  lemma UpdateProofLength(h: Hasher, addresses: seq<Address>, index: nat)
    requires index <= |addresses|
    ensures |UpdateProof(h, addresses, index)| <= Rounds(|ProofLeaves(h, addresses, index)|)
  {
    ProofLengthBound(h, ProofLeaves(h, addresses, index), index);
  }

  lemma AppendAssoc<T>(a: seq<T>, b: seq<T>, c: seq<T>)
    ensures (a + b) + c == a + (b + c)
  {
  }

  // ---------------------------------------------------------------------
  // The client helpers

  /** One round of the build loop: hash the level pairwise into `newNodes`. */
  method HashLevel(h: Hasher, nodes: seq<Hash>) returns (newNodes: seq<Hash>)
    ensures newNodes == NextLevel(h, nodes)
  {
    newNodes := [];
    var i := 0;
    while i < |nodes|
      invariant 0 <= i <= |nodes| + 1 && i % 2 == 0
      invariant |newNodes| == i / 2
      invariant forall k :: 0 <= k < |newNodes| ==> 2 * k < |nodes| && newNodes[k] == Parent(h, nodes, k)
      decreases |nodes| - i
    {
      var right := if i + 1 < |nodes| then nodes[i + 1] else HashZero;
      newNodes := newNodes + [h.node(nodes[i], right)];
      i := i + 2;
    }
  }

  /** `calculateRootHash`: the root of the tree over `addresses`. */
  method CalculateRootHash(h: Hasher, addresses: seq<Address>) returns (root: Hash)
    ensures root == Root(h, addresses)
  {
    var nodes := LeafHashes(h, addresses);
    if |nodes| == 0 {
      return HashZero;
    }
    while |nodes| > 1
      invariant |nodes| >= 1
      invariant RootOf(h, nodes) == Root(h, addresses)
      decreases |nodes|
    {
      nodes := HashLevel(h, nodes);
    }
    root := nodes[0];
  }

  /**
   * `getUpdateProof`: the proof for the leaf at `index`; `index` one past
   * the end asks for the proof of a leaf about to be appended.
   */
  method GetUpdateProof(h: Hasher, addresses: seq<Address>, index: nat) returns (proof: seq<Hash>)
    ensures proof == UpdateProof(h, addresses, index)
    ensures index < |addresses| ==>
      FoldRoot(h, |addresses|, index, h.leaf(addresses[index]), proof) == Some(Root(h, addresses))
  {
    var nodes := LeafHashes(h, addresses);
    if index == |nodes| {
      nodes := nodes + [HashZero];
    } else {
      assert nodes == nodes + [];
    }
    proof := [];
    var idx := index;
    while |nodes| > 1 || idx != 0
      invariant proof + ProofOf(h, nodes, idx) == UpdateProof(h, addresses, index)
      decreases |nodes| + idx
    {
      var sibling := (idx / 2) * 2;
      if sibling == idx {
        sibling := sibling + 1;
      }
      assert sibling == Sibling(idx);
      ghost var before := proof;
      ghost var step := if sibling < |nodes| then [nodes[sibling]] else [];
      ghost var rest := ProofOf(h, NextLevel(h, nodes), idx / 2);
      assert ProofOf(h, nodes, idx) == step + rest;
      if sibling < |nodes| {
        proof := proof + [nodes[sibling]];
      }
      assert proof == before + step;
      AppendAssoc(before, step, rest);
      nodes := HashLevel(h, nodes);
      idx := idx / 2;
    }
    if index < |addresses| {
      UpdateRoundTrip(h, addresses, index);
    }
  }

  /** `getAppendProof`: the update proof one past the end, which folds any new leaf to the grown root. */
  method GetAppendProof(h: Hasher, addresses: seq<Address>) returns (proof: seq<Hash>)
    ensures proof == UpdateProof(h, addresses, |addresses|)
    ensures forall x: Address :: FoldRoot(h, |addresses| + 1, |addresses|, h.leaf(x), proof)
                                == Some(Root(h, addresses + [x]))
  {
    proof := GetUpdateProof(h, addresses, |addresses|);
    forall x: Address
      ensures FoldRoot(h, |addresses| + 1, |addresses|, h.leaf(x), proof) == Some(Root(h, addresses + [x]))
    {
      AppendRoundTrip(h, addresses, x);
    }
  }
}
