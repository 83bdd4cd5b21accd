/**
  How far finality reaches. Support by f+1 honest validators is exactly what keeps a
  sibling from being certified later; and it does not reach back to earlier rounds.
 */
module Fork {
  import opened Wrappers
  import opened Bytes
  import opened Types
  import opened Quorum
  import opened HotStuff
  import opened HotStuffRuns
  import opened Agreement
  import opened Lawful
  import opened Finality
  import opened NetworkRound

  lemma {:induction false} Pick(s: set<Address>, k: nat, first: Address) returns (picked: seq<Address>)
    requires first in s && 0 < k <= |s|
    ensures |picked| == k && picked[0] == first
    ensures forall i | 0 <= i < k :: picked[i] in s
    ensures forall i, j | 0 <= i < j < k :: picked[i] != picked[j]
    decreases k
  {
    if k == 1 {
      picked := [first];
    } else {
      assert s == (s - {first}) + {first};
      var second :| second in s - {first};
      var rest := Pick(s - {first}, k - 1, second);
      picked := [first] + rest;
    }
  }

  // ---- a round from the start ----

  lemma StartSuits(w: World, a: Address, block: Block, round: u64)
    requires Extends(w.crypto, block, Genesis()) && round > 0
    ensures Open(w, Start(w), a, block, round)
  {
    hide BlockHash;
  }

  ghost function SignedInputs(n: Network): set<bytes> {
    set m | m in n.signed :: VotePreimage(m.blockHash, m.round)
  }

  /** The collector's new block, its certificate and the votes behind it, once the round is done. */
  lemma RoundCertifies(w: World, n: Network, m: Network, seen: set<BlockHeader>, members: seq<Address>, b: Address,
                       block: Block, round: u64, qc: QuorumCert)
    requires Settled(w, m, seen) && RoundDone(w, n, m, members, b, block, round, qc) && n.nodes[b].committed != []
    ensures Certifies(w, m.pool, qc)
    ensures VoteInputs(m, qc, qc) <= SignedInputs(n) + {VotePreimage(BlockHash(w.crypto, block), round)}
  {
    hide Settled, BlockHash, VotePreimage, Certifies;
    CommittedBlock(w, m, seen, b, |n.nodes[b].committed|);
  }

  /** A round from a settled network, with what it certifies. */
  lemma SettledRound(w: World, n: Network, seen: set<BlockHeader>, all: map<Address, bytes>, members: seq<Address>,
                     b: Address, block: Block, round: u64)
      returns (acts: seq<Action>, qc: QuorumCert)
    requires w.Valid() && w.crypto.Sound() && HoldsKeys(w, all) && |members| == w.config.QuorumSize()
    requires AllOpen(w, n, all, members, block, round) && b in members && b in w.keys && Settled(w, n, seen)
    ensures LawfulRun(w, n, acts) && Seen(w, n, acts) <= {block.header}
    ensures RoundDone(w, n, RunNet(w, n, acts), members, b, block, round, qc)
    ensures Settled(w, RunNet(w, n, acts), seen + Seen(w, n, acts)) && Certifies(w, RunNet(w, n, acts).pool, qc)
    ensures VoteInputs(RunNet(w, n, acts), qc, qc) <=
            SignedInputs(n) + {VotePreimage(BlockHash(w.crypto, block), round)}
  {
    assert Open(w, n, b, block, round);
    assert n.nodes[b].committed != [];
    hide *;
    acts, qc := RoundOnNetwork(w, n, all, members, b, block, round);
    RunSettles(w, n, seen, acts);
    assert RoundDone(w, n, RunNet(w, n, acts), members, b, block, round, qc);
    RoundCertifies(w, n, RunNet(w, n, acts), seen + Seen(w, n, acts), members, b, block, round, qc);
  }

  /**
    From the start, 2f+1 validators voting for one block give a run in which an honest one
    commits it, locks on it and announces a certificate for it: agreement and finality are
    about something.
   */
  lemma FirstRoundCommits(w: World, all: map<Address, bytes>, block: Block)
      returns (acts: seq<Action>, b: Address, qc: QuorumCert)
    requires Tolerant(w) && w.crypto.Sound() && HoldsKeys(w, all) && Extends(w.crypto, block, Genesis())
    ensures LawfulRun(w, Start(w), acts)
    ensures var n := RunNet(w, Start(w), acts);
      && b in n.nodes && n.nodes[b].committed == [Genesis(), block.(qc := Some(qc))]
      && n.nodes[b].lockedQc.Some? && n.nodes[b].lockedQc.value.blockHash == BlockHash(w.crypto, block)
      && View(2, qc) in n.views && Certifies(w, n.pool, qc) && w.crypto.CollisionFreeOn(VoteInputs(n, qc, qc))
  {
    var one: u64 := 1;
    hide *;
    TolerantIsValid(w);
    var picked;
    picked, b := OthersLeft(w, {});
    StartIsOpen(w, all, picked, block, one);
    StartIsSettled(w);
    StartHolds(w, b);
    acts, qc := SettledRound(w, Start(w), {}, all, picked, b, block, one);
    OneInputNoClash(w.crypto, VoteInputs(RunNet(w, Start(w), acts), qc, qc),
                    VotePreimage(BlockHash(w.crypto, block), one));
    DoneFromStart(w, RunNet(w, Start(w), acts), picked, b, block, qc);
  }

  lemma DoneFromStart(w: World, m: Network, picked: seq<Address>, b: Address, block: Block, qc: QuorumCert)
    requires b in w.keys && RoundDone(w, Start(w), m, picked, b, block, 1, qc)
    ensures b in m.nodes && m.nodes[b].committed == [Genesis(), block.(qc := Some(qc))]
    ensures m.nodes[b].lockedQc.Some? && m.nodes[b].lockedQc.value.blockHash == BlockHash(w.crypto, block)
    ensures View(2, qc) in m.views
  {
    hide BlockHash;
  }

  lemma StartHolds(w: World, b: Address)
    requires b in w.keys
    ensures b in Start(w).nodes && Start(w).nodes[b].committed == [Genesis()] && SignedInputs(Start(w)) == {}
  {
  }

  lemma OneInputNoClash(c: Crypto, inputs: set<bytes>, input: bytes)
    requires inputs <= {input}
    ensures c.CollisionFreeOn(inputs)
  {
  }

  lemma StartIsOpen(w: World, all: map<Address, bytes>, picked: seq<Address>, block: Block, round: u64)
    requires HoldsKeys(w, all) && Extends(w.crypto, block, Genesis()) && round > 0
    requires forall i | 0 <= i < |picked| :: picked[i] in w.config.Members()
    requires forall i, j | 0 <= i < j < |picked| :: picked[i] != picked[j]
    ensures AllOpen(w, Start(w), all, picked, block, round)
  {
    hide Open, BlockHash;
    forall i | 0 <= i < |picked| ensures Open(w, Start(w), picked[i], block, round) {
      StartSuits(w, picked[i], block, round);
    }
  }

  // ---- exactly when a sibling can still be certified ----

  /** Honest validators that stand behind `x`. */
  ghost function Supporters(w: World, n: Network, x: Block, h: nat, bound: nat): set<Address> {
    set a | a in w.config.Members() && a in w.keys && a in n.nodes && Supports(w.crypto, n.nodes[a], x, h, bound)
  }

  /** In this future `y` is certified in a later round, no hash clashing with another. */
  ghost predicate CertifiedLater(w: World, past: seq<Action>, future: seq<Action>, qc: QuorumCert, y: Block, bound: nat)
    requires LawfulRun(w, Start(w), past)
  {
    var n := RunNet(w, Start(w), past);
    && LawfulRun(w, n, future)
    && Certifies(w, RunNet(w, n, future).pool, qc) && qc.round > bound && qc.blockHash == BlockHash(w.crypto, y)
    && w.crypto.CollisionFreeOn(VoteInputs(RunNet(w, n, future), qc, qc))
    && NoHeaderClash(w.crypto, Seen(w, Start(w), past) + Seen(w, n, future) + {y.header})
  }

  ghost predicate CanBeCertified(w: World, past: seq<Action>, y: Block, bound: nat)
    requires LawfulRun(w, Start(w), past)
  {
    exists future, qc :: CertifiedLater(w, past, future, qc, y, bound)
  }

  lemma MonotoneAbove(c: Crypto, seen: set<BlockHeader>, x: Block, h: nat, y: Block)
    requires NamesAbove(c, seen, x, h, BlockHash(c, y)) && NoHeaderClash(c, seen + {y.header})
    ensures y.header.height > h
  {
    hide NoHeaderClash, NamesAbove, HeaderBytes;
    SeenMore(c, seen, seen + {y.header}, x, h, BlockHash(c, y));
    AboveIsHigher(c, seen + {y.header}, x, h, y.header);
  }

  /** Against f+1 supporters of a block nothing at or below its height is certified later. */
  lemma BackedHasNoSibling(w: World, past: seq<Action>, future: seq<Action>, qc: QuorumCert, x: Block, y: Block,
                           bound: nat)
    requires Tolerant(w) && LawfulRun(w, Start(w), past) && y.header.height > 0
    requires |Supporters(w, RunNet(w, Start(w), past), x, y.header.height, bound)| > w.config.f
    ensures !CertifiedLater(w, past, future, qc, y, bound)
  {
    if CertifiedLater(w, past, future, qc, y, bound) {
      var n := RunNet(w, Start(w), past);
      var h := y.header.height;
      var backers := Supporters(w, n, x, h, bound);
      hide LawfulRun, RunNet, Seen, Supports, Certifies, VoteInputs, NoHeaderClash, NamesAbove, Crypto.CollisionFreeOn;
      assert Backers(w, n, backers, x, h, bound);
      SupportIsFinal(w, past, future, backers, x, h, bound);
      MonotoneAbove(w.crypto, Seen(w, Start(w), past) + Seen(w, n, future), x, h, y);
    }
  }

  /** Enough validators are left when at most f honest ones stand behind `x`, an honest one among them. */
  lemma OthersLeft(w: World, supporters: set<Address>) returns (members: seq<Address>, b: Address)
    requires Tolerant(w) && supporters <= w.config.Members() && |supporters| <= w.config.f
    ensures |members| == w.config.QuorumSize() && b in members && b in w.keys
    ensures forall i | 0 <= i < |members| :: members[i] in w.config.Members() && members[i] !in supporters
    ensures forall i, j | 0 <= i < j < |members| :: members[i] != members[j]
  {
    var all := w.config.Members();
    MembersSize(w.config.validators, w.config.f);
    var left := all - supporters;
    assert |left| == |all| - |supporters|;
    SubsetSize(left - w.keys.Keys, all - w.keys.Keys);
    b := SharedElement(left, w.keys.Keys);
    members := Pick(left, w.config.QuorumSize(), b);
  }

  /** Every honest validator either stands behind `x` or has room for its sibling `y`. */
  ghost predicate Divided(w: World, n: Network, x: Block, y: Block, bound: nat) {
    forall a | a in w.config.Members() && a in w.keys ::
      && a in n.nodes && n.nodes[a].round <= bound
      && (Supports(w.crypto, n.nodes[a], x, y.header.height, bound) || Suits(w.crypto, n.nodes[a], y))
  }

  /** With at most f honest validators behind `x`, a sibling is certified in the next round, and committed. */
  lemma UnbackedIsDisplaced(w: World, all: map<Address, bytes>, past: seq<Action>, x: Block, y: Block, bound: u64)
      returns (future: seq<Action>, b: Address, qc: QuorumCert)
    requires Tolerant(w) && w.crypto.Sound() && HoldsKeys(w, all) && LawfulRun(w, Start(w), past)
    requires bound + 1 < TWO_64 && Divided(w, RunNet(w, Start(w), past), x, y, bound)
    requires |Supporters(w, RunNet(w, Start(w), past), x, y.header.height, bound)| <= w.config.f
    requires NoHeaderClash(w.crypto, Seen(w, Start(w), past) + {y.header})
    requires w.crypto.CollisionFreeOn(SignedInputs(RunNet(w, Start(w), past))
                                      + {VotePreimage(BlockHash(w.crypto, y), bound + 1)})
    ensures CertifiedLater(w, past, future, qc, y, bound)
    ensures var n := RunNet(w, Start(w), past);
      var m := RunNet(w, n, future);
      && b in n.nodes && b in m.nodes
      && m.nodes[b].committed == n.nodes[b].committed + [y.(qc := Some(qc))]
      && CommitInputs(m) <= CommitInputs(n) + {VotePreimage(BlockHash(w.crypto, y), bound + 1)}
  {
    hide *;
    TolerantIsValid(w);
    var n, seen := RunNet(w, Start(w), past), Seen(w, Start(w), past);
    var supporters := Supporters(w, n, x, y.header.height, bound);
    SupportersAreMembers(w, n, x, y.header.height, bound);
    var members;
    members, b := OthersLeft(w, supporters);
    SettledPast(w, past);
    LeftAreOpen(w, n, seen, all, members, x, y, bound);
    future, qc := SettledRound(w, n, seen, all, members, b, y, bound + 1);
    FewerInputs(w.crypto, SignedInputs(n) + {VotePreimage(BlockHash(w.crypto, y), bound + 1)},
                VoteInputs(RunNet(w, n, future), qc, qc));
    assert Seen(w, Start(w), past) + Seen(w, n, future) + {y.header} == Seen(w, Start(w), past) + {y.header};
    DisplacedIsCertified(w, past, future, members, b, y, bound, qc);
    RoundCommitInputs(w, n, RunNet(w, n, future), members, b, y, bound + 1, qc);
  }

  /** A round adds one certificate to the commits and one vote encoding to what is signed. */
  lemma RoundCommitInputs(w: World, n: Network, m: Network, members: seq<Address>, b: Address, block: Block,
                          round: u64, qc: QuorumCert)
    requires RoundDone(w, n, m, members, b, block, round, qc)
    ensures CommitInputs(m) <= CommitInputs(n) + {VotePreimage(BlockHash(w.crypto, block), round)}
  {
    hide VotePreimage, BlockHash, LockedAs;
    forall a, i | a in m.nodes && 0 < i < |m.nodes[a].committed| && m.nodes[a].committed[i].qc.Some?
      ensures var d := m.nodes[a].committed[i].qc.value;
        VotePreimage(d.blockHash, d.round) in CommitInputs(n) + {VotePreimage(BlockHash(w.crypto, block), round)}
    {
      if i < |n.nodes[a].committed| { assert m.nodes[a].committed[i] == n.nodes[a].committed[i]; }
    }
  }

  lemma TolerantIsValid(w: World)
    requires Tolerant(w)
    ensures w.Valid()
  {
  }

  lemma SupportersAreMembers(w: World, n: Network, x: Block, h: nat, bound: nat)
    ensures Supporters(w, n, x, h, bound) <= w.config.Members()
  {
    hide Supports;
  }

  lemma DisplacedIsCertified(w: World, past: seq<Action>, future: seq<Action>, members: seq<Address>, b: Address,
                             y: Block, bound: u64, qc: QuorumCert)
    requires LawfulRun(w, Start(w), past) && LawfulRun(w, RunNet(w, Start(w), past), future) && bound + 1 < TWO_64
    requires var n := RunNet(w, Start(w), past);
      && RoundDone(w, n, RunNet(w, n, future), members, b, y, bound + 1, qc)
      && Certifies(w, RunNet(w, n, future).pool, qc)
      && w.crypto.CollisionFreeOn(VoteInputs(RunNet(w, n, future), qc, qc))
      && NoHeaderClash(w.crypto, Seen(w, Start(w), past) + Seen(w, n, future) + {y.header})
    ensures CertifiedLater(w, past, future, qc, y, bound)
    ensures var n := RunNet(w, Start(w), past);
      var m := RunNet(w, n, future);
      && b in n.nodes && b in m.nodes
      && m.nodes[b].committed == n.nodes[b].committed + [y.(qc := Some(qc))]
  {
    hide Certifies, VoteInputs, Crypto.CollisionFreeOn, NoHeaderClash, BlockHash, LawfulRun, CanRun, RunNet, Seen;
  }

  lemma SettledPast(w: World, past: seq<Action>)
    requires w.Valid() && LawfulRun(w, Start(w), past)
    ensures Settled(w, RunNet(w, Start(w), past), Seen(w, Start(w), past))
  {
    hide Settled, LawfulRun, RunNet, Seen;
    StartIsSettled(w);
    RunSettles(w, Start(w), {}, past);
    assert {} + Seen(w, Start(w), past) == Seen(w, Start(w), past);
  }

  lemma LeftAreOpen(w: World, n: Network, seen: set<BlockHeader>, all: map<Address, bytes>, members: seq<Address>,
                    x: Block, y: Block, bound: u64)
    requires Settled(w, n, seen) && HoldsKeys(w, all) && Divided(w, n, x, y, bound) && bound + 1 < TWO_64
    requires forall i | 0 <= i < |members| ::
      members[i] in w.config.Members() && members[i] !in Supporters(w, n, x, y.header.height, bound)
    requires forall i, j | 0 <= i < j < |members| :: members[i] != members[j]
    ensures AllOpen(w, n, all, members, y, bound + 1)
  {
    hide Supports, Suits, OneHashPerRound, WellFormed, LawfulNode, CommitsCertify, Recorded, VotesAbove, VotesLocked;
    forall i | 0 <= i < |members| ensures Open(w, n, members[i], y, bound + 1) {
      var a := members[i];
      assert a !in Supporters(w, n, x, y.header.height, bound);
      if a in w.keys { assert NodeSettled(w, n, seen, a); }
    }
  }

  /**
    Exactly when finality sets in: while every honest validator either stands behind `x` or
    has room for a sibling `y`, the sibling can still be certified in a later round iff at
    most f honest validators stand behind `x`.
   */
  lemma SiblingIff(w: World, all: map<Address, bytes>, past: seq<Action>, x: Block, y: Block, bound: u64)
    requires Tolerant(w) && w.crypto.Sound() && HoldsKeys(w, all) && LawfulRun(w, Start(w), past)
    requires y.header.height > 0 && bound + 1 < TWO_64 && Divided(w, RunNet(w, Start(w), past), x, y, bound)
    requires NoHeaderClash(w.crypto, Seen(w, Start(w), past) + {y.header})
    requires w.crypto.CollisionFreeOn(SignedInputs(RunNet(w, Start(w), past))
                                      + {VotePreimage(BlockHash(w.crypto, y), bound + 1)})
    ensures CanBeCertified(w, past, y, bound) <==>
            |Supporters(w, RunNet(w, Start(w), past), x, y.header.height, bound)| <= w.config.f
  {
    hide LawfulRun, RunNet, Seen, HoldsKeys, Crypto.Sound, CertifiedLater, Supporters, Divided, NoHeaderClash;
    hide Crypto.CollisionFreeOn, VotePreimage, BlockHash, Tolerant, SignedInputs;
    if |Supporters(w, RunNet(w, Start(w), past), x, y.header.height, bound)| <= w.config.f {
      var future, b, qc := UnbackedIsDisplaced(w, all, past, x, y, bound);
    } else {
      forall future, qc ensures !CertifiedLater(w, past, future, qc, y, bound) {
        BackedHasNoSibling(w, past, future, qc, x, y, bound);
      }
    }
  }

  // ---- exactly when a sibling can still be committed ----

  /** In this future an honest node has `y` committed, no hash clashing with another. */
  ghost predicate CommittedLater(w: World, past: seq<Action>, future: seq<Action>, b: Address, y: Block)
    requires LawfulRun(w, Start(w), past)
  {
    var n, h := RunNet(w, Start(w), past), y.header.height;
    && LawfulRun(w, n, future)
    && var m := RunNet(w, n, future);
    && b in m.nodes && h < |m.nodes[b].committed|
    && BlockHash(w.crypto, m.nodes[b].committed[h]) == BlockHash(w.crypto, y)
    && NoHeaderClash(w.crypto, Seen(w, Start(w), past) + Seen(w, n, future)) && NoVoteClash(w, m)
  }

  ghost predicate CanBeCommitted(w: World, past: seq<Action>, y: Block)
    requires LawfulRun(w, Start(w), past)
  {
    exists future, b :: CommittedLater(w, past, future, b, y)
  }

  /** Every honest node is past the rounds in question, and stands behind `x` or has room for its sibling `y`. */
  ghost predicate DividedPast(w: World, n: Network, x: Block, y: Block, bound: nat, top: nat) {
    forall a | a in w.keys ::
      && a in n.nodes && bound < n.nodes[a].round <= top
      && (Supports(w.crypto, n.nodes[a], x, y.header.height, bound) || Suits(w.crypto, n.nodes[a], y))
  }

  /** A node with room for a block of some height has its tip just below, and stands behind no sibling. */
  lemma RoomIsNoSupport(w: World, n: Network, seen: set<BlockHeader>, a: Address, x: Block, y: Block, bound: nat)
    requires Settled(w, n, seen) && a in n.nodes && Suits(w.crypto, n.nodes[a], y)
    ensures |n.nodes[a].committed| == y.header.height
    ensures !Supports(w.crypto, n.nodes[a], x, y.header.height, bound)
  {
    assert NodeSettled(w, n, seen, a);
    hide Settled, NodeSettled, BlockHash, LawfulNode;
    NodeHasChain(w.Id(a), n.nodes[a]);
  }

  lemma BackedIsOnlyCommitted(w: World, past: seq<Action>, future: seq<Action>, b: Address, x: Block, y: Block,
                              bound: nat, top: nat)
    requires Tolerant(w) && LawfulRun(w, Start(w), past) && y.header.height > 0
    requires DividedPast(w, RunNet(w, Start(w), past), x, y, bound, top)
    requires BlockHash(w.crypto, x) != BlockHash(w.crypto, y)
    requires |Supporters(w, RunNet(w, Start(w), past), x, y.header.height, bound)| > w.config.f
    ensures !CommittedLater(w, past, future, b, y)
  {
    if CommittedLater(w, past, future, b, y) {
      var n, h := RunNet(w, Start(w), past), y.header.height;
      var backers := Supporters(w, n, x, h, bound);
      hide Supports;
      assert Backers(w, n, backers, x, h, bound);
      hide LawfulRun, CanRun, RunNet, Seen, NoHeaderClash, NoVoteClash, BlockHash, Settled, Supporters, Backers;
      TolerantIsValid(w);
      SettledPast(w, past);
      var m, seen := PastAndFuture(w, past, future);
      HonestNodes(w, n, Seen(w, Start(w), past));
      HonestNodes(w, m, seen);
      if Supports(w.crypto, n.nodes[b], x, h, bound) {
        RunKeepsSupport(w, n, Seen(w, Start(w), past), future, b, x, h, bound);
        SupportedAt(w.crypto, m.nodes[b], x, h, bound);
      } else {
        RoomIsNoSupport(w, n, Seen(w, Start(w), past), b, x, y, bound);
        NothingBeside(w, past, future, backers, x, h, bound, b);
      }
    }
  }

  lemma HonestNodes(w: World, n: Network, seen: set<BlockHeader>)
    requires Settled(w, n, seen)
    ensures n.nodes.Keys == w.keys.Keys && forall a | a in n.nodes :: n.nodes[a].committed != []
  {
    hide NodeSettled, OneHashPerRound, WellFormed;
    forall a | a in n.nodes ensures n.nodes[a].committed != [] { SettledChain(w, n, seen, a); }
  }

  lemma SettledChain(w: World, n: Network, seen: set<BlockHeader>, a: Address)
    requires NodeSettled(w, n, seen, a)
    ensures n.nodes[a].committed != []
  {
    hide LawfulNode, CommitsCertify;
  }

  lemma SupportedAt(c: Crypto, s: State, x: Block, h: nat, bound: nat)
    requires Supports(c, s, x, h, bound) && h < |s.committed|
    ensures BlockHash(c, s.committed[h]) == BlockHash(c, x)
  {
    hide BlockHash;
  }

  lemma SameSupporters(w: World, n: Network, seen: set<BlockHeader>, x: Block, y: Block, bound: nat, top: nat)
    requires Settled(w, n, seen) && DividedPast(w, n, x, y, bound, top) && bound <= top
    ensures Supporters(w, n, x, y.header.height, top) == Supporters(w, n, x, y.header.height, bound)
    ensures Divided(w, n, x, y, top)
  {
    hide Settled, BlockHash, Suits;
    forall a | a in w.keys
      ensures Supports(w.crypto, n.nodes[a], x, y.header.height, top) <==>
              Supports(w.crypto, n.nodes[a], x, y.header.height, bound)
    {
      if Suits(w.crypto, n.nodes[a], y) { RoomIsNoSupport(w, n, seen, a, x, y, top); }
    }
  }

  /** With at most f honest validators behind `x`, an honest node can still come to commit its sibling. */
  lemma SiblingIsCommitted(w: World, all: map<Address, bytes>, past: seq<Action>, x: Block, y: Block,
                           bound: nat, top: u64)
      returns (future: seq<Action>, b: Address)
    requires Tolerant(w) && w.crypto.Sound() && HoldsKeys(w, all) && LawfulRun(w, Start(w), past)
    requires bound <= top && top + 1 < TWO_64 && DividedPast(w, RunNet(w, Start(w), past), x, y, bound, top)
    requires |Supporters(w, RunNet(w, Start(w), past), x, y.header.height, bound)| <= w.config.f
    requires NoHeaderClash(w.crypto, Seen(w, Start(w), past) + {y.header})
    requires w.crypto.CollisionFreeOn(CommitInputs(RunNet(w, Start(w), past))
                                      + {VotePreimage(BlockHash(w.crypto, y), top + 1)})
    ensures CommittedLater(w, past, future, b, y)
  {
    hide *;
    TolerantIsValid(w);
    SettledPast(w, past);
    var n, input := RunNet(w, Start(w), past), VotePreimage(BlockHash(w.crypto, y), top + 1);
    HonestNodes(w, n, Seen(w, Start(w), past));
    SameSupporters(w, n, Seen(w, Start(w), past), x, y, bound, top);
    SignedAmongCommits(n);
    FewerInputs(w.crypto, CommitInputs(n) + {input}, SignedInputs(n) + {input});
    var qc;
    future, b, qc := UnbackedIsDisplaced(w, all, past, x, y, top);
    CertifiedParts(w, past, future, qc, y, top);
    var m, seen := PastAndFuture(w, past, future);
    FewerInputs(w.crypto, CommitInputs(n) + {input}, CommitInputs(m));
    NowCommitted(w, past, future, m, seen, b, y, qc);
  }

  lemma SignedAmongCommits(n: Network)
    ensures SignedInputs(n) <= CommitInputs(n)
  {
    hide VotePreimage;
  }

  lemma CertifiedParts(w: World, past: seq<Action>, future: seq<Action>, qc: QuorumCert, y: Block, bound: nat)
    requires LawfulRun(w, Start(w), past) && CertifiedLater(w, past, future, qc, y, bound)
    ensures LawfulRun(w, RunNet(w, Start(w), past), future)
    ensures NoHeaderClash(w.crypto, Seen(w, Start(w), past) + Seen(w, RunNet(w, Start(w), past), future))
  {
    hide LawfulRun, CanRun, RunNet, Seen, Certifies, VoteInputs, HeaderBytes, BlockHash;
  }

  lemma NowCommitted(w: World, past: seq<Action>, future: seq<Action>, m: Network, seen: set<BlockHeader>, b: Address,
                     y: Block, qc: QuorumCert)
    requires LawfulRun(w, Start(w), past) && LawfulRun(w, RunNet(w, Start(w), past), future)
    requires m == RunNet(w, RunNet(w, Start(w), past), future) && Settled(w, m, seen)
    requires seen == Seen(w, Start(w), past) + Seen(w, RunNet(w, Start(w), past), future)
    requires var n := RunNet(w, Start(w), past);
      && b in n.nodes && b in m.nodes && n.nodes[b].committed != []
      && m.nodes[b].committed == n.nodes[b].committed + [y.(qc := Some(qc))]
    requires NoHeaderClash(w.crypto, seen) && w.crypto.CollisionFreeOn(CommitInputs(m))
    ensures CommittedLater(w, past, future, b, y)
  {
    hide LawfulRun, CanRun, RunNet, Seen, Settled, NoHeaderClash, Crypto.CollisionFreeOn, CommitInputs, BlockHash;
    CommittedBlock(w, m, seen, b, |RunNet(w, Start(w), past).nodes[b].committed|);
    CertifiedBlockKeepsHash(w.crypto, y, qc);
  }

  /**
    Exactly when a commit is final: while every honest node is past the rounds by which `x`
    is supported and stands behind `x` or has room for a sibling `y`, an honest node can still
    commit the sibling iff at most f honest validators stand behind `x`.
   */
  lemma SiblingCommitIff(w: World, all: map<Address, bytes>, past: seq<Action>, x: Block, y: Block, bound: nat,
                         top: u64)
    requires Tolerant(w) && w.crypto.Sound() && HoldsKeys(w, all) && LawfulRun(w, Start(w), past)
    requires y.header.height > 0 && bound <= top && top + 1 < TWO_64
    requires DividedPast(w, RunNet(w, Start(w), past), x, y, bound, top)
    requires BlockHash(w.crypto, x) != BlockHash(w.crypto, y)
    requires NoHeaderClash(w.crypto, Seen(w, Start(w), past) + {y.header})
    requires w.crypto.CollisionFreeOn(CommitInputs(RunNet(w, Start(w), past))
                                      + {VotePreimage(BlockHash(w.crypto, y), top + 1)})
    ensures CanBeCommitted(w, past, y) <==>
            |Supporters(w, RunNet(w, Start(w), past), x, y.header.height, bound)| <= w.config.f
  {
    hide LawfulRun, CanRun, RunNet, Seen, HoldsKeys, Crypto.Sound, CommittedLater, Supporters, DividedPast;
    hide NoHeaderClash, Crypto.CollisionFreeOn, VotePreimage, BlockHash, Tolerant, CommitInputs;
    if |Supporters(w, RunNet(w, Start(w), past), x, y.header.height, bound)| <= w.config.f {
      var future, b := SiblingIsCommitted(w, all, past, x, y, bound, top);
    } else {
      forall future, b ensures !CommittedLater(w, past, future, b, y) {
        BackedIsOnlyCommitted(w, past, future, b, x, y, bound, top);
      }
    }
  }

  /** At the start nobody stands behind anything at height 1, and everyone has room for every block there. */
  lemma DividedAtStart(w: World, x: Block, y: Block)
    requires Extends(w.crypto, y, Genesis())
    ensures LawfulRun(w, Start(w), []) && RunNet(w, Start(w), []) == Start(w) && y.header.height == 1
    ensures (w.config.Members() * w.keys.Keys <= Start(w).nodes.Keys) && Divided(w, Start(w), x, y, 0)
    ensures Supporters(w, Start(w), x, y.header.height, 0) == {}
  {
    hide BlockHash;
  }
}
