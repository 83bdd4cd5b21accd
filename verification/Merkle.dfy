/**
  The Merkle root of a transaction list: the level-by-level loop, the recursive
  tree it computes, and what a root says about the list it came from.
 */
module Merkle {
  import opened Wrappers
  import opened Bytes
  import opened Types
  import Encoding

  // ---- the shape of the tree ----

  /** Number of nodes on level `k` above `n` leaves: every level halves, rounding up. */
  function Width(n: nat, k: nat): (w: nat)
    ensures n > 0 ==> w > 0
  {
    if k == 0 then n else (Width(n, k - 1) + 1) / 2
  }

  /** Number of levels above the leaves. */
  function Depth(n: nat): nat {
    if n <= 1 then 0 else 1 + Depth((n + 1) / 2)
  }

  function Pow2(k: nat): (p: nat)
    ensures p > 0
  {
    if k == 0 then 1 else 2 * Pow2(k - 1)
  }

  lemma {:induction false} WidthFromBelow(n: nat, k: nat)
    ensures Width(n, k + 1) == Width((n + 1) / 2, k)
  {
    if k == 0 {
    } else {
      WidthFromBelow(n, k - 1);
    }
  }

  lemma HalvingStep(n: nat, below: nat, p: nat)
    requires below * p >= n
    requires n > 0 ==> (below - 1) * p < n
    ensures ((below + 1) / 2) * (2 * p) >= n
    ensures n > 0 ==> ((below + 1) / 2 - 1) * (2 * p) < n
  {
    var w := (below + 1) / 2;
    assert w * (2 * p) == (2 * w) * p && (w - 1) * (2 * p) == (2 * w - 2) * p;
    if below == 2 * w - 1 {
      assert (2 * w) * p == below * p + p && (2 * w - 2) * p == (below - 1) * p;
    } else {
      assert below == 2 * w;
      assert (2 * w - 2) * p == (below - 1) * p - p;
    }
  }

  /** `Width(n, k)` is n / 2^k rounded up. */
  lemma {:induction false} WidthIsCeiling(n: nat, k: nat)
    ensures Width(n, k) * Pow2(k) >= n
    ensures n > 0 ==> (Width(n, k) - 1) * Pow2(k) < n
  {
    if k == 0 {
    } else {
      WidthIsCeiling(n, k - 1);
      HalvingStep(n, Width(n, k - 1), Pow2(k - 1));
    }
  }

  /** The top level is the first of width one, and `Depth` is the base-2 logarithm rounded up. */
  lemma {:induction false} DepthIsLogarithm(n: nat)
    requires n > 0
    ensures Width(n, Depth(n)) == 1
    ensures forall k | 0 <= k < Depth(n) :: Width(n, k) > 1
    ensures n <= Pow2(Depth(n)) && (n > 1 ==> Pow2(Depth(n) - 1) < n)
  {
    if n == 1 {
    } else {
      var half := (n + 1) / 2;
      DepthIsLogarithm(half);
      WidthFromBelow(n, Depth(half));
      forall k | 0 <= k < Depth(n) ensures Width(n, k) > 1 {
        if k > 0 { WidthFromBelow(n, k - 1); }
      }
    }
  }

  /** The right child of node `i`, or the left one again when the level below has odd width. */
  function Right(n: nat, k: nat, i: nat): (j: nat)
    requires k > 0 && i < Width(n, k)
    ensures j < Width(n, k - 1)
  {
    if 2 * i + 1 < Width(n, k - 1) then 2 * i + 1 else Width(n, k - 1) - 1
  }

  // ---- the recursive tree ----

  /** Node `i` on level `k` of the hash tree over `txs`. */
  function Node(c: Crypto, txs: seq<Transaction>, k: nat, i: nat): Digest
    requires i < Width(|txs|, k)
    decreases k, 1
  {
    if k == 0 then TxHash(c, txs[i]) else c.hash(Branch(c, txs, k, i))
  }

  function Branch(c: Crypto, txs: seq<Transaction>, k: nat, i: nat): (b: bytes)
    requires k > 0 && i < Width(|txs|, k)
    ensures |b| == 64
    decreases k, 0
  {
    Join(Node(c, txs, k - 1, 2 * i), Node(c, txs, k - 1, Right(|txs|, k, i)))
  }

  function Root(c: Crypto, txs: seq<Transaction>): Digest {
    if txs == [] then ZERO_32
    else DepthIsLogarithm(|txs|); Node(c, txs, Depth(|txs|), 0)
  }

  /**
    Every leaf is a transaction's hash; every inner node is the hash of its left child
    followed by its right one, or by the left one again where the level below runs out.
   */
  lemma NodeIsHash(c: Crypto, txs: seq<Transaction>, k: nat, i: nat)
    requires i < Width(|txs|, k)
    ensures k == 0 ==> Node(c, txs, k, i) == c.hash(c.hash(TxPreimage(txs[i])))
    ensures k > 0 ==> 2 * i < Width(|txs|, k - 1)
    ensures k > 0 ==>
      var right := if 2 * i + 1 < Width(|txs|, k - 1) then 2 * i + 1 else 2 * i;
      Node(c, txs, k, i) == c.hash(Node(c, txs, k - 1, 2 * i) + Node(c, txs, k - 1, right))
  {
    hide TxPreimage;
    if k > 0 { BranchParts(c, txs, k, i); }
  }

  /** The root of none is zero, of one its hash, of two the hash of the first one's hash and the second one's. */
  lemma RootOfFew(c: Crypto, x: Transaction, y: Transaction)
    ensures Root(c, []) == Zeros(32) && Root(c, [x]) == TxHash(c, x)
    ensures Root(c, [x, y]) == c.hash(TxHash(c, x) + TxHash(c, y))
  {
    assert Depth(2) == 1 + Depth(1) && Depth(1) == 0;
    assert Width(2, 1) == 1 && Width(2, 0) == 2;
    NodeIsHash(c, [x, y], 1, 0);
  }

  // ---- the loop ----

  function Join(left: Digest, right: Digest): (b: bytes)
    ensures |b| == 64
  {
    left + right
  }

  function HashPairs(c: Crypto, hashes: seq<Digest>): (up: seq<Digest>)
    requires |hashes| % 2 == 0
    ensures |up| == |hashes| / 2
  {
    seq(|hashes| / 2, i requires 0 <= i < |hashes| / 2 => c.hash(Join(hashes[2 * i], hashes[2 * i + 1])))
  }

  ghost predicate IsLevel(c: Crypto, txs: seq<Transaction>, k: nat, hashes: seq<Digest>) {
    |hashes| == Width(|txs|, k) && forall i | 0 <= i < |hashes| :: hashes[i] == Node(c, txs, k, i)
  }

  lemma NextLevel(c: Crypto, txs: seq<Transaction>, k: nat, level: seq<Digest>, padded: seq<Digest>)
    requires IsLevel(c, txs, k, level) && level != []
    requires padded == if |level| % 2 == 1 then level + [level[|level| - 1]] else level
    ensures IsLevel(c, txs, k + 1, HashPairs(c, padded))
    ensures |HashPairs(c, padded)| == Width(|txs|, k + 1) == (|level| + 1) / 2
  {
    var up := HashPairs(c, padded);
    forall i | 0 <= i < |up|
      ensures up[i] == Node(c, txs, k + 1, i)
    {
      assert padded[2 * i] == Node(c, txs, k, 2 * i);
      assert padded[2 * i + 1] == Node(c, txs, k, Right(|txs|, k + 1, i));
      assert Branch(c, txs, k + 1, i) == Join(padded[2 * i], padded[2 * i + 1]);
    }
  }

  function LeafHashes(c: Crypto, txs: seq<Transaction>): (hashes: seq<Digest>)
    ensures |hashes| == |txs|
  {
    seq(|txs|, i requires 0 <= i < |txs| => TxHash(c, txs[i]))
  }

  lemma BottomLevel(c: Crypto, txs: seq<Transaction>)
    ensures IsLevel(c, txs, 0, LeafHashes(c, txs)) && |txs| == Width(|txs|, 0)
  {
    hide TxHash;
  }

  lemma TopLevel(c: Crypto, txs: seq<Transaction>, hashes: seq<Digest>)
    requires txs != [] && |hashes| == 1 && IsLevel(c, txs, Depth(|txs|), hashes)
    ensures hashes[0] == Root(c, txs)
  {
    hide Depth;
  }

  /** The level-by-level loop computes the root of the recursive tree, in exactly `Depth` passes. */
  method MerkleRoot(c: Crypto, txs: seq<Transaction>) returns (root: Digest, ghost passes: nat)
    ensures root == Root(c, txs)
    ensures passes == Depth(|txs|)
  {
    hide Node, Width, IsLevel, HashPairs, LeafHashes, Join;
    passes := 0;
    if txs == [] {
      return ZERO_32, 0;
    }
    hide *;
    var hashes := LeafHashes(c, txs);
    BottomLevel(c, txs);
    DepthIsLogarithm(|txs|);
    while |hashes| > 1
      invariant 0 < |hashes| == Width(|txs|, passes) && IsLevel(c, txs, passes, hashes)
      invariant passes <= Depth(|txs|)
      decreases |hashes|
    {
      ghost var level := hashes;
      if |hashes| % 2 == 1 {
        hashes := hashes + [hashes[|hashes| - 1]];
      }
      NextLevel(c, txs, passes, level, hashes);
      hashes := HashPairs(c, hashes);
      passes := passes + 1;
    }
    TopLevel(c, txs, hashes);
    root := hashes[0];
  }

  // ---- what the root determines ----

  /** Everything hashed on the way to node `i` on level `k`. */
  ghost function Inputs(c: Crypto, txs: seq<Transaction>, k: nat, i: nat): set<bytes>
    requires i < Width(|txs|, k)
  {
    if k == 0 then {TxPreimage(txs[i]), TxSigningBytes(c, txs[i])}
    else Inputs(c, txs, k - 1, 2 * i) + Inputs(c, txs, k - 1, Right(|txs|, k, i)) + {Branch(c, txs, k, i)}
  }

  ghost function RootInputs(c: Crypto, txs: seq<Transaction>): set<bytes> {
    if txs == [] then {} else DepthIsLogarithm(|txs|); Inputs(c, txs, Depth(|txs|), 0)
  }

  /** The signed content of every transaction. */
  function Contents(txs: seq<Transaction>): (s: seq<Transaction>)
    ensures |s| == |txs| && forall i | 0 <= i < |s| :: s[i] == Encoding.Unsigned(txs[i])
  {
    seq(|txs|, i requires 0 <= i < |txs| => Encoding.Unsigned(txs[i]))
  }

  /** The leaves below a node, left to right, with the ones repeated by padding written out. */
  function Unfold(s: seq<Transaction>, k: nat, i: nat): (u: seq<Transaction>)
    requires i < Width(|s|, k)
    ensures |u| == Pow2(k)
  {
    if k == 0 then [s[i]] else Unfold(s, k - 1, 2 * i) + Unfold(s, k - 1, Right(|s|, k, i))
  }

  /** A list completed to a power of two the way the loop pads it. */
  function Completed(s: seq<Transaction>): seq<Transaction> {
    if s == [] then [] else DepthIsLogarithm(|s|); Unfold(s, Depth(|s|), 0)
  }

  lemma {:induction false} Pow2Injective(k: nat, m: nat)
    requires Pow2(k) == Pow2(m)
    ensures k == m
  {
    if k == 0 || m == 0 {
    } else {
      Pow2Injective(k - 1, m - 1);
    }
  }

  lemma JoinInjective(l: Digest, r: Digest, l': Digest, r': Digest)
    requires Join(l, r) == Join(l', r')
    ensures l == l' && r == r'
  {
    assert l == Join(l, r)[..32] && r == Join(l, r)[32..];
    assert l' == Join(l', r')[..32] && r' == Join(l', r')[32..];
  }

  lemma {:induction false} SameNodeSameLeaves(c: Crypto, a: seq<Transaction>, k: nat, i: nat,
                                              b: seq<Transaction>, m: nat, j: nat)
    requires i < Width(|a|, k) && j < Width(|b|, m)
    requires c.CollisionFreeOn(Inputs(c, a, k, i) + Inputs(c, b, m, j))
    requires Node(c, a, k, i) == Node(c, b, m, j)
    ensures Unfold(Contents(a), k, i) == Unfold(Contents(b), m, j)
    decreases k
  {
    hide Node, Inputs, TxPreimage, Unfold, Branch, Crypto.CollisionFreeOn, HashedFor;
    SameNodeSameInput(c, a, k, i, b, m, j);
    if k == 0 {
      SameLeaf(a, i, b, j);
    } else {
      var ri, rj := Right(|a|, k, i), Right(|b|, m, j);
      SameBranchParts(c, a, k, i, b, m, j);
      ChildInputs(c, a, k, i, b, m, j);
      SameNodeSameLeaves(c, a, k - 1, 2 * i, b, m - 1, 2 * j);
      SameNodeSameLeaves(c, a, k - 1, ri, b, m - 1, rj);
      SameChildren(Contents(a), k, i, Contents(b), m, j);
    }
  }

  lemma SameLeaf(a: seq<Transaction>, i: nat, b: seq<Transaction>, j: nat)
    requires i < |a| && j < |b| && TxPreimage(a[i]) == TxPreimage(b[j])
    ensures Unfold(Contents(a), 0, i) == Unfold(Contents(b), 0, j)
  {
    hide TxPreimage;
    Encoding.TxPreimageInjective(a[i], b[j]);
  }

  lemma SameChildren(s: seq<Transaction>, k: nat, i: nat, t: seq<Transaction>, m: nat, j: nat)
    requires k > 0 && m > 0 && i < Width(|s|, k) && j < Width(|t|, m)
    requires Unfold(s, k - 1, 2 * i) == Unfold(t, m - 1, 2 * j)
    requires Unfold(s, k - 1, Right(|s|, k, i)) == Unfold(t, m - 1, Right(|t|, m, j))
    ensures Unfold(s, k, i) == Unfold(t, m, j)
  {
  }

  lemma BranchParts(c: Crypto, txs: seq<Transaction>, k: nat, i: nat)
    requires k > 0 && i < Width(|txs|, k)
    ensures Branch(c, txs, k, i) == Join(Node(c, txs, k - 1, 2 * i), Node(c, txs, k - 1, Right(|txs|, k, i)))
  {
  }

  /** What is hashed last to get a node. */
  function HashedFor(c: Crypto, txs: seq<Transaction>, k: nat, i: nat): (b: bytes)
    requires i < Width(|txs|, k)
    ensures |b| == if k == 0 then 32 else 64
  {
    if k == 0 then TxSigningBytes(c, txs[i]) else Branch(c, txs, k, i)
  }

  lemma HashedForNode(c: Crypto, txs: seq<Transaction>, k: nat, i: nat)
    requires i < Width(|txs|, k)
    ensures Node(c, txs, k, i) == c.hash(HashedFor(c, txs, k, i))
    ensures HashedFor(c, txs, k, i) in Inputs(c, txs, k, i)
    ensures k == 0 ==>
      HashedFor(c, txs, k, i) == TxSigningBytes(c, txs[i]) && TxPreimage(txs[i]) in Inputs(c, txs, k, i)
    ensures k > 0 ==>
      && Inputs(c, txs, k - 1, 2 * i) <= Inputs(c, txs, k, i)
      && Inputs(c, txs, k - 1, Right(|txs|, k, i)) <= Inputs(c, txs, k, i)
  {
    hide Branch, TxPreimage, Right;
  }

  /** Without collisions equal nodes hash equal inputs; leaf and inner inputs differ in length, so never meet. */
  lemma SameNodeSameInput(c: Crypto, a: seq<Transaction>, k: nat, i: nat, b: seq<Transaction>, m: nat, j: nat)
    requires i < Width(|a|, k) && j < Width(|b|, m)
    requires c.CollisionFreeOn(Inputs(c, a, k, i) + Inputs(c, b, m, j))
    requires Node(c, a, k, i) == Node(c, b, m, j)
    ensures k == 0 <==> m == 0
    ensures HashedFor(c, a, k, i) == HashedFor(c, b, m, j)
    ensures k == 0 ==> TxPreimage(a[i]) == TxPreimage(b[j])
  {
    hide Crypto.CollisionFreeOn, Inputs, Node, HashedFor;
    var inputs := Inputs(c, a, k, i) + Inputs(c, b, m, j);
    HashedForNode(c, a, k, i);
    HashedForNode(c, b, m, j);
    SameDigestSameInput(c, inputs, HashedFor(c, a, k, i), HashedFor(c, b, m, j));
    if k == 0 { SameLeafPreimage(c, inputs, a[i], b[j]); }
  }

  /** Children hash no more than their parents. */
  lemma ChildInputs(c: Crypto, a: seq<Transaction>, k: nat, i: nat, b: seq<Transaction>, m: nat, j: nat)
    requires k > 0 && m > 0 && i < Width(|a|, k) && j < Width(|b|, m)
    requires c.CollisionFreeOn(Inputs(c, a, k, i) + Inputs(c, b, m, j))
    ensures c.CollisionFreeOn(Inputs(c, a, k - 1, 2 * i) + Inputs(c, b, m - 1, 2 * j))
    ensures c.CollisionFreeOn(Inputs(c, a, k - 1, Right(|a|, k, i)) + Inputs(c, b, m - 1, Right(|b|, m, j)))
  {
    hide Crypto.CollisionFreeOn, Inputs, Right;
    HashedForNode(c, a, k, i);
    HashedForNode(c, b, m, j);
    var inputs := Inputs(c, a, k, i) + Inputs(c, b, m, j);
    FewerInputs(c, inputs, Inputs(c, a, k - 1, 2 * i) + Inputs(c, b, m - 1, 2 * j));
    FewerInputs(c, inputs, Inputs(c, a, k - 1, Right(|a|, k, i)) + Inputs(c, b, m - 1, Right(|b|, m, j)));
  }

  lemma SameLeafPreimage(c: Crypto, inputs: set<bytes>, x: Transaction, y: Transaction)
    requires c.CollisionFreeOn(inputs) && TxPreimage(x) in inputs && TxPreimage(y) in inputs
    requires TxSigningBytes(c, x) == TxSigningBytes(c, y)
    ensures TxPreimage(x) == TxPreimage(y)
  {
    hide Crypto.CollisionFreeOn, TxPreimage;
    SameDigestSameInput(c, inputs, TxPreimage(x), TxPreimage(y));
  }

  lemma SameBranchParts(c: Crypto, a: seq<Transaction>, k: nat, i: nat, b: seq<Transaction>, m: nat, j: nat)
    requires k > 0 && m > 0 && i < Width(|a|, k) && j < Width(|b|, m)
    requires HashedFor(c, a, k, i) == HashedFor(c, b, m, j)
    ensures Node(c, a, k - 1, 2 * i) == Node(c, b, m - 1, 2 * j)
    ensures Node(c, a, k - 1, Right(|a|, k, i)) == Node(c, b, m - 1, Right(|b|, m, j))
  {
    hide Branch, Node, Right, Join;
    BranchParts(c, a, k, i);
    BranchParts(c, b, m, j);
    JoinInjective(Node(c, a, k - 1, 2 * i), Node(c, a, k - 1, Right(|a|, k, i)),
                  Node(c, b, m - 1, 2 * j), Node(c, b, m - 1, Right(|b|, m, j)));
  }

  lemma SameDigestSameInput(c: Crypto, inputs: set<bytes>, x: bytes, y: bytes)
    requires c.CollisionFreeOn(inputs) && x in inputs && y in inputs && c.hash(x) == c.hash(y)
    ensures x == y
  {
  }

  lemma {:induction false} SameLeavesSameNode(c: Crypto, a: seq<Transaction>, k: nat, i: nat,
                                              b: seq<Transaction>, j: nat)
    requires i < Width(|a|, k) && j < Width(|b|, k)
    requires Unfold(Contents(a), k, i) == Unfold(Contents(b), k, j)
    ensures Node(c, a, k, i) == Node(c, b, k, j)
  {
    hide TxPreimage;
    if k == 0 {
      assert Unfold(Contents(a), 0, i)[0] == Unfold(Contents(b), 0, j)[0];
      Encoding.TxPreimageInjective(a[i], b[j]);
    } else {
      SplitChildren(Contents(a), Contents(b), k, i, j);
      hide Unfold;
      SameLeavesSameNode(c, a, k - 1, 2 * i, b, 2 * j);
      SameLeavesSameNode(c, a, k - 1, Right(|a|, k, i), b, Right(|b|, k, j));
    }
  }

  lemma SplitChildren(s: seq<Transaction>, t: seq<Transaction>, k: nat, i: nat, j: nat)
    requires k > 0 && i < Width(|s|, k) && j < Width(|t|, k) && Unfold(s, k, i) == Unfold(t, k, j)
    ensures Unfold(s, k - 1, 2 * i) == Unfold(t, k - 1, 2 * j)
    ensures Unfold(s, k - 1, Right(|s|, k, i)) == Unfold(t, k - 1, Right(|t|, k, j))
  {
    var p := Pow2(k - 1);
    assert Unfold(s, k, i)[..p] == Unfold(s, k - 1, 2 * i);
    assert Unfold(s, k, i)[p..] == Unfold(s, k - 1, Right(|s|, k, i));
    assert Unfold(t, k, j)[..p] == Unfold(t, k - 1, 2 * j);
    assert Unfold(t, k, j)[p..] == Unfold(t, k - 1, Right(|t|, k, j));
  }

  /** What one root computation may rely on: no collision among the inputs, and no input hashing to zero. */
  ghost predicate Ideal(c: Crypto, inputs: set<bytes>) {
    c.CollisionFreeOn(inputs) && forall x | x in inputs :: c.hash(x) != ZERO_32
  }

  /** Exactly when two lists of any lengths share a root: they complete to the same leaves. */
  lemma RootIffCompleted(c: Crypto, a: seq<Transaction>, b: seq<Transaction>)
    requires Ideal(c, RootInputs(c, a) + RootInputs(c, b))
    ensures Root(c, a) == Root(c, b) <==> Completed(Contents(a)) == Completed(Contents(b))
  {
    if a == [] || b == [] {
      if a != [] { RootIsHashed(c, a); assert |Completed(Contents(a))| > 0; }
      if b != [] { RootIsHashed(c, b); assert |Completed(Contents(b))| > 0; }
    } else {
      DepthIsLogarithm(|a|);
      DepthIsLogarithm(|b|);
      var k, m := Depth(|a|), Depth(|b|);
      if Root(c, a) == Root(c, b) {
        SameNodeSameLeaves(c, a, k, 0, b, m, 0);
      }
      if Completed(Contents(a)) == Completed(Contents(b)) {
        Pow2Injective(k, m);
        SameLeavesSameNode(c, a, k, 0, b, 0);
      }
    }
  }

  lemma RootIsHashed(c: Crypto, txs: seq<Transaction>)
    requires txs != []
    ensures exists x | x in RootInputs(c, txs) :: Root(c, txs) == c.hash(x)
  {
    DepthIsLogarithm(|txs|);
    var d := Depth(|txs|);
    if d == 0 {
      assert Root(c, txs) == c.hash(TxSigningBytes(c, txs[0])) && TxSigningBytes(c, txs[0]) in RootInputs(c, txs);
    } else {
      assert Root(c, txs) == c.hash(Branch(c, txs, d, 0)) && Branch(c, txs, d, 0) in RootInputs(c, txs);
    }
  }

  // ---- lists without repetition ----

  /** Position of the first leaf below node `i` on level `k`. */
  function First(k: nat, i: nat): nat {
    if k == 0 then i else First(k - 1, 2 * i)
  }

  lemma {:induction false} FirstOfNext(k: nat, i: nat)
    ensures First(k, i + 1) == First(k, i) + Pow2(k)
    ensures First(k, 0) == 0
  {
    if k == 0 {
    } else {
      FirstOfNext(k - 1, 2 * i);
      FirstOfNext(k - 1, 2 * i + 1);
    }
  }

  lemma {:induction false} LevelCoversLeaves(n: nat, k: nat)
    ensures First(k, Width(n, k)) >= n
  {
    if k == 0 {
    } else {
      LevelCoversLeaves(n, k - 1);
      FirstOfNext(k - 1, Width(n, k - 1));
    }
  }

  lemma UnfoldHalves(s: seq<Transaction>, k: nat, i: nat, p: nat)
    requires k > 0 && i < Width(|s|, k) && p < Pow2(k)
    ensures var h := Pow2(k - 1);
      p - h < h && Unfold(s, k, i)[p] ==
                   if p < h then Unfold(s, k - 1, 2 * i)[p] else Unfold(s, k - 1, Right(|s|, k, i))[p - h]
  {
    hide Right, Width;
  }

  lemma UnfoldLeaf(s: seq<Transaction>, i: nat)
    requires i < |s|
    ensures Unfold(s, 0, i) == [s[i]] && First(0, i) == i
  {
  }

  lemma {:induction false} UnfoldAt(s: seq<Transaction>, k: nat, i: nat, p: nat)
    requires i < Width(|s|, k) && p < Pow2(k)
    ensures Unfold(s, k, i)[p] in s
    ensures First(k, i) + p < |s| ==> Unfold(s, k, i)[p] == s[First(k, i) + p]
  {
    hide Unfold;
    if k == 0 {
      UnfoldLeaf(s, i);
    } else {
      var h := Pow2(k - 1);
      UnfoldHalves(s, k, i, p);
      FirstOfNext(k - 1, 2 * i);
      LevelCoversLeaves(|s|, k - 1);
      if p < h {
        UnfoldAt(s, k - 1, 2 * i, p);
      } else {
        UnfoldAt(s, k - 1, Right(|s|, k, i), p - h);
      }
    }
  }

  ghost predicate Distinct(s: seq<Transaction>) {
    forall i, j | 0 <= i < j < |s| :: s[i] != s[j]
  }

  lemma CompletedAt(s: seq<Transaction>, p: nat)
    requires p < |Completed(s)|
    ensures Completed(s)[p] in s && (p < |s| ==> Completed(s)[p] == s[p])
  {
    DepthIsLogarithm(|s|);
    FirstOfNext(Depth(|s|), 0);
    UnfoldAt(s, Depth(|s|), 0, p);
  }

  lemma CompletedIsLonger(s: seq<Transaction>)
    ensures |s| <= |Completed(s)|
  {
    if s != [] { DepthIsLogarithm(|s|); }
  }

  lemma CompletedInjective(s: seq<Transaction>, t: seq<Transaction>)
    requires Distinct(s) && Distinct(t) && |s| <= |t| && Completed(s) == Completed(t)
    ensures s == t
  {
    CompletedIsLonger(t);
    forall p | 0 <= p < |s|
      ensures s[p] == t[p]
    {
      CompletedAt(s, p);
      CompletedAt(t, p);
    }
    if |s| < |t| {
      CompletedAt(t, |s|);
      CompletedAt(s, |s|);
    }
  }

  /** On lists that never repeat a transaction, the root determines the list. */
  lemma RootDeterminesList(c: Crypto, a: seq<Transaction>, b: seq<Transaction>)
    requires Ideal(c, RootInputs(c, a) + RootInputs(c, b))
    requires Distinct(Contents(a)) && Distinct(Contents(b))
    ensures Root(c, a) == Root(c, b) <==> Contents(a) == Contents(b)
  {
    RootIffCompleted(c, a, b);
    if Completed(Contents(a)) == Completed(Contents(b)) {
      if |a| <= |b| { CompletedInjective(Contents(a), Contents(b)); }
      else { CompletedInjective(Contents(b), Contents(a)); }
    }
  }

  /** The no-repetition hypothesis is needed: a list of three shares its root with its padded form. */
  lemma PaddingIsInvisible(c: Crypto, x: Transaction, y: Transaction, z: Transaction)
    ensures Root(c, [x, y, z]) == Root(c, [x, y, z, z])
  {
    var a, b := [x, y, z], [x, y, z, z];
    assert Depth(3) == 1 + Depth(2) && Depth(4) == 1 + Depth(2) && Depth(2) == 1 + Depth(1);
    assert Width(3, 1) == 2 && Width(4, 1) == 2;
    assert Width(3, 2) == 1 && Width(4, 2) == 1;
    assert Branch(c, a, 1, 0) == Branch(c, b, 1, 0);
    assert Branch(c, a, 1, 1) == Branch(c, b, 1, 1);
    assert Branch(c, a, 2, 0) == Branch(c, b, 2, 0);
  }
}
