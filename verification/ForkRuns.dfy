/**
  Concrete runs around finality: one in which two honest nodes commit different blocks
  at one height, and one that leaves f+1 validators behind a block.
 */
module ForkRuns {
  import opened Wrappers
  import opened Bytes
  import opened Types
  import opened Quorum
  import opened HotStuff
  import opened HotStuffRuns
  import opened Agreement
  import opened Lawful
  import opened Finality
  import opened NetworkRound
  import opened Fork
  import Certifying

  // ---- two blocks at one height ----

  ghost predicate Gathering(s: State, block: Block, round: u64) {
    s.phase == Prepare && NoVotes(s) && s.pending == Some(block) && s.round == round
  }

  ghost predicate HasCommitted(c: Crypto, s: State, t: State, block: Block, round: u64) {
    && |t.committed| == |s.committed| + 1 && s.committed == t.committed[..|s.committed|]
    && t.committed[|s.committed|].qc.Some?
    && t.committed[|s.committed|] == block.(qc := t.committed[|s.committed|].qc)
    && t.committed[|s.committed|].qc.value.round == round
    && t.committed[|s.committed|].qc.value.blockHash == BlockHash(c, block) && t.round == round
  }

  /** A quorum whose votes for the block are on the network. */
  ghost predicate Voted(w: World, n: Network, all: map<Address, bytes>, members: seq<Address>, block: Block,
                        round: u64)
  {
    && HoldsKeys(w, all) && |members| == w.config.QuorumSize()
    && (forall i | 0 <= i < |members| ::
          members[i] in w.config.Members() && members[i] in all && VoteFor(w, all, members[i], block, round) in n.pool)
    && (forall i, j | 0 <= i < j < |members| :: members[i] != members[j])
  }

  lemma CollectOne(w: World, n: Network, all: map<Address, bytes>, members: seq<Address>, b: Address,
                   block: Block, round: u64)
      returns (acts: seq<Action>)
    requires w.Valid() && w.crypto.Sound() && Voted(w, n, all, members, block, round)
    requires b in w.keys && b in n.nodes && Gathering(n.nodes[b], block, round)
    ensures LawfulRun(w, n, acts)
    ensures var m := RunNet(w, n, acts);
      && b in m.nodes && m.nodes == n.nodes[b := m.nodes[b]] && m.pool == n.pool
      && HasCommitted(w.crypto, n.nodes[b], m.nodes[b], block, round)
  {
    hide LawfulRun, CanRun, RunNet, Seen, HoldsKeys, VoteFor, BlockHash, Crypto.Sound;
    var qc;
    acts, qc := Collect(w, n, all, members, b, block, round);
  }

  lemma {:induction false} CollectAll(w: World, n: Network, all: map<Address, bytes>, members: seq<Address>,
                                      bs: seq<Address>, block: Block, round: u64)
      returns (acts: seq<Action>)
    requires w.Valid() && w.crypto.Sound() && Voted(w, n, all, members, block, round)
    requires forall i | 0 <= i < |bs| :: bs[i] in w.keys && bs[i] in n.nodes && Gathering(n.nodes[bs[i]], block, round)
    requires forall i, j | 0 <= i < j < |bs| :: bs[i] != bs[j]
    ensures LawfulRun(w, n, acts)
    ensures var m := RunNet(w, n, acts);
      && m.nodes.Keys == n.nodes.Keys && m.pool == n.pool
      && (forall i | 0 <= i < |bs| :: HasCommitted(w.crypto, n.nodes[bs[i]], m.nodes[bs[i]], block, round))
      && (forall a | a in n.nodes && a !in bs :: m.nodes[a] == n.nodes[a])
    decreases |bs|
  {
    hide LawfulAct, Act, Gathering, HasCommitted, HoldsKeys, VoteFor, BlockHash, Crypto.Sound;
    if bs == [] {
      acts := [];
    } else {
      var b, rest := bs[0], bs[1..];
      var first := CollectOne(w, n, all, members, b, block, round);
      hide LawfulRun, CanRun, RunNet, Seen;
      var next := RunNet(w, n, first);
      assert Voted(w, next, all, members, block, round);
      var others := CollectAll(w, next, all, members, rest, block, round);
      acts := first + others;
      NetConcat(w, n, first, others);
      assert bs == [b] + rest;
      var m := RunNet(w, n, acts);
      forall i | 0 <= i < |bs| ensures HasCommitted(w.crypto, n.nodes[bs[i]], m.nodes[bs[i]], block, round) {
        if i > 0 { assert bs[i] == rest[i - 1]; }
      }
    }
  }

  /** What the counterexample below leaves: two different blocks committed by honest nodes at height 1. */
  ghost predicate Forked(w: World, n: Network, p: Address, q: Address, x: Block, y: Block) {
    && p != q && p in w.keys && q in w.keys && p in n.nodes && q in n.nodes
    && |n.nodes[p].committed| == 2 && |n.nodes[q].committed| == 2
    && var b, d := n.nodes[p].committed[1], n.nodes[q].committed[1];
    && b.qc.Some? && b == x.(qc := b.qc) && Certifies(w, n.pool, b.qc.value)
    && d.qc.Some? && d == y.(qc := d.qc) && Certifies(w, n.pool, d.qc.value)
    && b.qc.value.blockHash == BlockHash(w.crypto, b) == BlockHash(w.crypto, x)
    && d.qc.value.blockHash == BlockHash(w.crypto, d) == BlockHash(w.crypto, y)
    && b.qc.value.round == 1 && d.qc.value.round == 2
  }

  lemma VotersSplit(w: World) returns (p: Address, first: seq<Address>, second: seq<Address>)
    requires Tolerant(w) && w.config.f > 0
    ensures |first| == |second| == w.config.QuorumSize() && p in first && p !in second
    ensures forall i | 0 <= i < |first| :: first[i] in w.config.Members()
    ensures forall i | 0 <= i < |second| :: second[i] in w.config.Members()
    ensures forall i, j | 0 <= i < j < |first| :: first[i] != first[j]
    ensures forall i, j | 0 <= i < j < |second| :: second[i] != second[j]
  {
    var all := w.config.Members();
    MembersSize(w.config.validators, w.config.f);
    p :| p in all;
    first := Pick(all, w.config.QuorumSize(), p);
    assert all == (all - {p}) + {p};
    var q :| q in all - {p};
    second := Pick(all - {p}, w.config.QuorumSize(), q);
  }

  /** Both quorums' votes are on the network; a node gathers the votes of its own latest round. */
  ghost predicate BothVoted(w: World, n: Network, first: seq<Address>, second: seq<Address>, x: Block, y: Block) {
    && Voted(w, n, w.keys, first, x, 1) && Voted(w, n, w.keys, second, y, 2)
    && n.nodes.Keys == w.keys.Keys && (forall a | a in n.nodes :: n.nodes[a].committed == [Genesis()])
    && (forall a | a in first && a !in second :: a in n.nodes && Gathering(n.nodes[a], x, 1))
    && (forall a | a in second :: a in n.nodes && Gathering(n.nodes[a], y, 2))
  }

  /** All members of `first` vote for `x` in round 1, then all of `second` for `y` in round 2. */
  lemma TwoVotes(w: World, first: seq<Address>, second: seq<Address>, x: Block, y: Block) returns (acts: seq<Action>)
    requires w.Valid() && HoldsKeys(w, w.keys)
    requires Extends(w.crypto, x, Genesis()) && Extends(w.crypto, y, Genesis())
    requires |first| == |second| == w.config.QuorumSize()
    requires forall i | 0 <= i < |first| :: first[i] in w.config.Members()
    requires forall i | 0 <= i < |second| :: second[i] in w.config.Members()
    requires forall i, j | 0 <= i < j < |first| :: first[i] != first[j]
    requires forall i, j | 0 <= i < j < |second| :: second[i] != second[j]
    ensures LawfulRun(w, Start(w), acts)
    ensures BothVoted(w, RunNet(w, Start(w), acts), first, second, x, y)
  {
    var none := QuorumCert(ZERO_32, 0, []);
    var all := w.keys;
    StartIsOpen(w, all, first, x, 1);
    MembersVote(w, Start(w), all, first, x, 1, none);
    var one := VotingAll(w, all, first, x, 1, none);
    hide LawfulRun, CanRun, RunNet, Seen, VotingAll, HoldsKeys, BlockHash, VoteFor, Moved, AllOpen, Settled, Extends;
    hide AllVoted, Gathering, BothVoted, Start, Voted;
    var n1 := RunNet(w, Start(w), one);
    StartIsSettled(w);
    RunSettles(w, Start(w), {}, one);
    FirstVoted(w, n1, first, x, none);
    OpenAgain(w, n1, {} + Seen(w, Start(w), one), second, y);
    MembersVote(w, n1, all, second, y, 2, none);
    var two := VotingAll(w, all, second, y, 2, none);
    var n := RunNet(w, n1, two);
    NetConcat(w, Start(w), one, two);
    acts := one + two;
    SecondVoted(w, n1, n, first, second, x, y, none);
  }

  lemma FirstVoted(w: World, n: Network, first: seq<Address>, x: Block, none: QuorumCert)
    requires AllVoted(w, Start(w), w.keys, first, x, 1, none, n)
    ensures forall a | a in n.nodes :: a in w.keys && n.nodes[a].round <= 1 && n.nodes[a].committed == [Genesis()]
    ensures forall a | a in n.nodes :: n.nodes[a].lockedQc == None
    ensures forall a | a in n.nodes && a in first :: Gathering(n.nodes[a], x, 1)
  {
    hide Moved, BlockHash, VoteFor;
    forall a | a in n.nodes
      ensures a in w.keys && n.nodes[a].round <= 1 && n.nodes[a].committed == [Genesis()]
      ensures n.nodes[a].lockedQc == None && (a in first ==> Gathering(n.nodes[a], x, 1))
    {
      if a in first { MovedShape(w.Id(a), Init(), x, 1, none); }
    }
  }

  lemma OpenAgain(w: World, n: Network, seen: set<BlockHeader>, second: seq<Address>, y: Block)
    requires Settled(w, n, seen) && HoldsKeys(w, w.keys) && Extends(w.crypto, y, Genesis())
    requires forall a | a in n.nodes ::
      a in w.keys && n.nodes[a].round <= 1 && n.nodes[a].committed == [Genesis()] && n.nodes[a].lockedQc == None
    requires forall i | 0 <= i < |second| :: second[i] in w.config.Members()
    requires forall i, j | 0 <= i < j < |second| :: second[i] != second[j]
    ensures AllOpen(w, n, w.keys, second, y, 2)
  {
    hide BlockHash, OneHashPerRound, WellFormed, LawfulNode, CommitsCertify;
    hide Recorded, VotesAbove, VotesLocked, VotesSoFar;
    forall i | 0 <= i < |second| ensures Open(w, n, second[i], y, 2) {
      assert second[i] in w.keys;
      assert NodeSettled(w, n, seen, second[i]);
    }
  }

  lemma SecondVoted(w: World, n1: Network, n: Network, first: seq<Address>, second: seq<Address>, x: Block, y: Block,
                    none: QuorumCert)
    requires HoldsKeys(w, w.keys) && |first| == |second| == w.config.QuorumSize()
    requires forall i | 0 <= i < |first| :: first[i] in w.config.Members()
    requires forall i | 0 <= i < |second| :: second[i] in w.config.Members()
    requires forall i, j | 0 <= i < j < |first| :: first[i] != first[j]
    requires forall i, j | 0 <= i < j < |second| :: second[i] != second[j]
    requires AllVoted(w, Start(w), w.keys, first, x, 1, none, n1) && AllVoted(w, n1, w.keys, second, y, 2, none, n)
    requires forall a | a in n1.nodes ::
      a in w.keys && n1.nodes[a].round <= 1 && n1.nodes[a].committed == [Genesis()] && n1.nodes[a].lockedQc == None
    requires forall a | a in n1.nodes && a in first :: Gathering(n1.nodes[a], x, 1)
    ensures BothVoted(w, n, first, second, x, y)
  {
    hide Moved, BlockHash, VoteFor;
    forall a | a in n.nodes
      ensures n.nodes[a].committed == [Genesis()] && (a in second ==> Gathering(n.nodes[a], y, 2))
    {
      if a in second { MovedShape(w.Id(a), n1.nodes[a], y, 2, none); }
    }
  }

  /**
    Finality does not reach back. With n = 3f+1 > 1 validators, none faulty and all calls
    lawful, f+1 of them can stand behind `y` committed in round 2, and still another, that
    voted in round 1 and collects those votes late, commits `x` at the same height.
   */
  lemma RoundsCanFork(w: World, x: Block, y: Block)
      returns (past: seq<Action>, future: seq<Action>, p: Address, backers: seq<Address>)
    requires Tolerant(w) && w.crypto.Sound() && w.config.f > 0 && w.config.Members() <= w.keys.Keys
    requires Extends(w.crypto, x, Genesis()) && Extends(w.crypto, y, Genesis())
    ensures LawfulRun(w, Start(w), past) && LawfulRun(w, RunNet(w, Start(w), past), future)
    ensures |backers| == w.config.f + 1
    ensures Backers(w, RunNet(w, Start(w), past), (set b | b in backers), y, 1, 2)
    ensures var n := RunNet(w, RunNet(w, Start(w), past), future);
      OneHashPerRound(w, n) && forall q | q in backers :: Forked(w, n, p, q, x, y)
  {
    var one: u64 := 1;
    hide *;
    var first, second;
    p, first, second := VotersSplit(w);
    TolerantIsValid(w);
    OwnKeysHeld(w);
    var votes := TwoVotes(w, first, second, x, y);
    var n1 := RunNet(w, Start(w), votes);
    var commits;
    commits, backers := BackersCommit(w, n1, p, first, second, x, y);
    NetConcat(w, Start(w), votes, commits);
    past := votes + commits;
    var n2 := RunNet(w, n1, commits);
    WaitingParts(w, n2, p, first, backers, x, y);
    future := CollectOne(w, n2, w.keys, first, p, x, one);
    SettledPast(w, past);
    RunSettles(w, n2, Seen(w, Start(w), past), future);
    ForkStands(w, n2, RunNet(w, n2, future), Seen(w, Start(w), past) + Seen(w, n2, future), first, backers, p, x, y);
  }

  /** f+1 nodes have committed `y`, and `p` has yet to collect the votes for `x` that are there. */
  ghost predicate Waiting(w: World, n: Network, p: Address, first: seq<Address>, backers: seq<Address>, x: Block,
                          y: Block)
  {
    && Voted(w, n, w.keys, first, x, 1)
    && p in w.keys && p in n.nodes && p !in backers
    && Gathering(n.nodes[p], x, 1) && n.nodes[p].committed == [Genesis()]
    && |backers| == w.config.f + 1 && Backers(w, n, (set b | b in backers), y, 1, 2)
    && forall b | b in backers :: b in w.keys && b in n.nodes && HasCommitted(w.crypto, Init(), n.nodes[b], y, 2)
  }

  lemma WaitingParts(w: World, n: Network, p: Address, first: seq<Address>, backers: seq<Address>, x: Block, y: Block)
    requires Waiting(w, n, p, first, backers, x, y)
    ensures Voted(w, n, w.keys, first, x, 1) && p in w.keys && p in n.nodes && Gathering(n.nodes[p], x, 1)
    ensures |backers| == w.config.f + 1 && Backers(w, n, (set b | b in backers), y, 1, 2)
  {
    hide Voted, Backers, Gathering, HasCommitted;
  }

  lemma BackersCommit(w: World, n: Network, p: Address, first: seq<Address>, second: seq<Address>, x: Block, y: Block)
      returns (commits: seq<Action>, backers: seq<Address>)
    requires w.Valid() && w.crypto.Sound() && BothVoted(w, n, first, second, x, y) && p in first && p !in second
    ensures LawfulRun(w, n, commits) && Waiting(w, RunNet(w, n, commits), p, first, backers, x, y)
  {
    hide Gathering, HasCommitted, HoldsKeys, VoteFor, BlockHash, Crypto.Sound, Supports, Waiting;
    hide LawfulRun, CanRun, RunNet, Seen;
    backers := second[..w.config.f + 1];
    BackersAreVoters(second, backers);
    forall i | 0 <= i < |backers| ensures backers[i] in w.config.Members() && backers[i] in n.nodes {
      assert backers[i] in second;
    }
    assert p in n.nodes && p !in backers && forall a | a in n.nodes :: n.nodes[a].committed == [Genesis()];
    assert n.nodes.Keys == w.keys.Keys;
    commits := CollectAll(w, n, w.keys, second, backers, y, 2);
    hide BothVoted, Voted, Backers;
    var m := RunNet(w, n, commits);
    SameChainCommitted(w.crypto, n, m, backers, y, 2);
    BackersStand(w, m, backers, y, 2);
    NowWaiting(w, n, m, p, first, second, backers, x, y);
  }

  lemma NowWaiting(w: World, n: Network, m: Network, p: Address, first: seq<Address>, second: seq<Address>,
                   backers: seq<Address>, x: Block, y: Block)
    requires BothVoted(w, n, first, second, x, y) && p in first && p !in second && p !in backers
    requires m.nodes.Keys == n.nodes.Keys && m.pool == n.pool && p in n.nodes && m.nodes[p] == n.nodes[p]
    requires |backers| == w.config.f + 1 && Backers(w, m, (set b | b in backers), y, 1, 2)
    requires forall b | b in backers :: b in m.nodes && HasCommitted(w.crypto, Init(), m.nodes[b], y, 2)
    ensures Waiting(w, m, p, first, backers, x, y)
  {
    hide Gathering, HasCommitted, HoldsKeys, VoteFor, Backers;
  }

  lemma SameChainCommitted(c: Crypto, n: Network, m: Network, backers: seq<Address>, y: Block,
                           round: u64)
    requires m.nodes.Keys == n.nodes.Keys && forall i | 0 <= i < |backers| :: backers[i] in n.nodes
    requires forall a | a in n.nodes :: n.nodes[a].committed == [Genesis()]
    requires forall i | 0 <= i < |backers| :: HasCommitted(c, n.nodes[backers[i]], m.nodes[backers[i]], y, round)
    ensures forall b | b in backers :: b in m.nodes && HasCommitted(c, Init(), m.nodes[b], y, round)
  {
    hide BlockHash;
  }

  lemma OwnKeysHeld(w: World)
    requires w.Valid() && w.config.Members() <= w.keys.Keys
    ensures HoldsKeys(w, w.keys)
  {
  }

  lemma BackersAreVoters(second: seq<Address>, backers: seq<Address>)
    requires backers <= second && forall i, j | 0 <= i < j < |second| :: second[i] != second[j]
    ensures forall i, j | 0 <= i < j < |backers| :: backers[i] != backers[j]
    ensures forall b | b in backers :: b in second
  {
  }

  lemma BackersStand(w: World, m: Network, backers: seq<Address>, y: Block, round: u64)
    requires |backers| == w.config.f + 1
    requires forall i, j | 0 <= i < j < |backers| :: backers[i] != backers[j]
    requires forall i | 0 <= i < |backers| :: backers[i] in w.config.Members() && backers[i] in w.keys
    requires forall b | b in backers :: b in m.nodes && HasCommitted(w.crypto, Init(), m.nodes[b], y, round)
    ensures Backers(w, m, (set b | b in backers), y, 1, round)
  {
    hide BlockHash;
    var all := set b | b in backers;
    Certifying.SizeOfDistinct(backers, all);
    forall a | a in all ensures Supports(w.crypto, m.nodes[a], y, 1, round) {
      CertifiedBlockKeepsHash(w.crypto, y, m.nodes[a].committed[1].qc.value);
    }
  }

  lemma ForkStands(w: World, n2: Network, n: Network, seen: set<BlockHeader>, first: seq<Address>,
                   backers: seq<Address>, p: Address, x: Block, y: Block)
    requires Settled(w, n, seen) && Waiting(w, n2, p, first, backers, x, y)
    requires p in n.nodes && n.nodes == n2.nodes[p := n.nodes[p]]
    requires HasCommitted(w.crypto, n2.nodes[p], n.nodes[p], x, 1)
    ensures OneHashPerRound(w, n) && forall q | q in backers :: Forked(w, n, p, q, x, y)
  {
    hide BlockHash, Certifies, OneHashPerRound, WellFormed, NodeSettled, Voted, Backers, Gathering;
    CommittedBlock(w, n, seen, p, 1);
    forall q | q in backers ensures Forked(w, n, p, q, x, y) {
      assert n.nodes[q] == n2.nodes[q];
      CommittedBlock(w, n, seen, q, 1);
      CertifiedBlockKeepsHash(w.crypto, x, n.nodes[p].committed[1].qc.value);
      CertifiedBlockKeepsHash(w.crypto, y, n.nodes[q].committed[1].qc.value);
    }
  }

  // ---- a network with f+1 backers ----

  /** Every one of these nodes is in the round, chain and lock as before; the others are as they were. */
  ghost predicate MovedTo(n: Network, m: Network, nodes: seq<Address>, round: u64) {
    && m.nodes.Keys == n.nodes.Keys
    && forall a | a in n.nodes ::
         if a in nodes
         then m.nodes[a].round == round && m.nodes[a].committed == n.nodes[a].committed
              && m.nodes[a].lockedQc == n.nodes[a].lockedQc
         else m.nodes[a] == n.nodes[a]
  }

  lemma {:induction false} MoveAll(w: World, n: Network, nodes: seq<Address>, round: u64) returns (acts: seq<Action>)
    requires forall i | 0 <= i < |nodes| :: nodes[i] in w.keys && nodes[i] in n.nodes && n.nodes[nodes[i]].round < round
    requires forall i, j | 0 <= i < j < |nodes| :: nodes[i] != nodes[j]
    ensures LawfulRun(w, n, acts) && MovedTo(n, RunNet(w, n, acts), nodes, round)
    decreases |nodes|
  {
    hide LawfulAct, Act, Taken;
    if nodes == [] {
      acts := [];
    } else {
      var a, rest, none := nodes[0], nodes[1..], QuorumCert(ZERO_32, 0, []);
      var move := Deliver(a, Viewing(round, none));
      NodeMoves(w, n, a, round, none);
      OneAct(w, n, move);
      ViewedShape(w.Id(a), n.nodes[a], round, none);
      hide LawfulRun, CanRun, RunNet, Seen, OnHandleNewView;
      var next := Act(w, n, move);
      var others := MoveAll(w, next, rest, round);
      acts := [move] + others;
      NetConcat(w, n, [move], others);
      assert nodes == [a] + rest;
    }
  }

  lemma ViewedShape(id: Identity, s: State, round: u64, qc: QuorumCert)
    requires s.round < round
    ensures var t := OnHandleNewView(id, s, round, qc).state;
      t.round == round && t.committed == s.committed && t.lockedQc == s.lockedQc
  {
    hide BlockHash, SignVote;
  }

  lemma VotedOnce(w: World, n: Network, first: seq<Address>, x: Block, none: QuorumCert)
    requires HoldsKeys(w, w.keys) && |first| == w.config.QuorumSize()
    requires AllVoted(w, Start(w), w.keys, first, x, 1, none, n)
    requires forall i | 0 <= i < |first| :: first[i] in w.config.Members()
    requires forall i, j | 0 <= i < j < |first| :: first[i] != first[j]
    ensures Voted(w, n, w.keys, first, x, 1) && n.nodes.Keys == w.keys.Keys
  {
    hide Moved, BlockHash, VoteFor;
  }

  /** f+1 nodes have committed `x` in round 1, and nobody else anything. */
  lemma RoundWithBackers(w: World, x: Block) returns (acts: seq<Action>, backers: seq<Address>)
    requires Tolerant(w) && w.crypto.Sound() && w.config.Members() <= w.keys.Keys && Extends(w.crypto, x, Genesis())
    ensures LawfulRun(w, Start(w), acts) && Backed(w, RunNet(w, Start(w), acts), backers, x)
  {
    OwnKeysHeld(w);
    var first, p := OthersLeft(w, {});
    var none := QuorumCert(ZERO_32, 0, []);
    StartIsOpen(w, w.keys, first, x, 1);
    hide LawfulRun, CanRun, RunNet, Seen, VotingAll, HoldsKeys, BlockHash, VoteFor, Moved, AllOpen, Extends, Tolerant;
    hide AllVoted, Gathering, Start, Voted, HasCommitted, Crypto.Sound, Backers, Backed;
    TolerantIsValid(w);
    MembersVote(w, Start(w), w.keys, first, x, 1, none);
    var votes := VotingAll(w, w.keys, first, x, 1, none);
    var n1 := RunNet(w, Start(w), votes);
    FirstVoted(w, n1, first, x, none);
    VotedOnce(w, n1, first, x, none);
    backers := first[..w.config.f + 1];
    BackersAreVoters(first, backers);
    forall i | 0 <= i < |backers| ensures backers[i] in w.config.Members() && backers[i] in n1.nodes {
      assert backers[i] in first;
    }
    var commits := CollectAll(w, n1, w.keys, first, backers, x, 1);
    var n := RunNet(w, n1, commits);
    SameChainCommitted(w.crypto, n1, n, backers, x, 1);
    BackersStand(w, n, backers, x, 1);
    NetConcat(w, Start(w), votes, commits);
    acts := votes + commits;
    NowBacked(w, n1, n, backers, x);
  }

  ghost predicate Backed(w: World, n: Network, backers: seq<Address>, x: Block) {
    && n.nodes.Keys == w.keys.Keys && |backers| == w.config.f + 1
    && Backers(w, n, (set b | b in backers), x, 1, 1)
    && forall a | a in n.nodes :: n.nodes[a].round <= 1
         && (a !in backers ==> n.nodes[a].committed == [Genesis()] && n.nodes[a].lockedQc == None)
  }

  lemma NowBacked(w: World, n1: Network, n: Network, backers: seq<Address>, x: Block)
    requires n.nodes.Keys == n1.nodes.Keys == w.keys.Keys && |backers| == w.config.f + 1
    requires Backers(w, n, (set b | b in backers), x, 1, 1)
    requires forall a | a in n1.nodes ::
      n1.nodes[a].round <= 1 && n1.nodes[a].committed == [Genesis()] && n1.nodes[a].lockedQc == None
    requires forall b | b in backers :: b in n.nodes && HasCommitted(w.crypto, Init(), n.nodes[b], x, 1)
    requires forall a | a in n1.nodes && a !in backers :: n.nodes[a] == n1.nodes[a]
    ensures Backed(w, n, backers, x)
  {
    hide BlockHash, Backers;
  }

  /**
    The other side of both equivalences: a lawful run without faults after which f+1
    validators stand behind `x`, everyone is past that round, and all others have room for
    any sibling.
   */
  lemma DividedWithBackers(w: World, x: Block, y: Block) returns (past: seq<Action>)
    requires Tolerant(w) && w.crypto.Sound() && w.config.Members() <= w.keys.Keys
    requires Extends(w.crypto, x, Genesis()) && Extends(w.crypto, y, Genesis())
    ensures LawfulRun(w, Start(w), past) && y.header.height == 1
    ensures var n := RunNet(w, Start(w), past);
      && DividedPast(w, n, x, y, 1, 2) && Divided(w, n, x, y, 2)
      && |Supporters(w, n, x, 1, 1)| > w.config.f && |Supporters(w, n, x, 1, 2)| > w.config.f
  {
    assert y.header.height == 1;
    var acts, backers := RoundWithBackers(w, x);
    hide LawfulRun, CanRun, RunNet, Seen, BlockHash, Start, Backers, Supports, Tolerant, Crypto.Sound, Extends;
    var n := RunNet(w, Start(w), acts);
    var nodes := Listed(n.nodes.Keys);
    forall i | 0 <= i < |nodes| ensures nodes[i] in n.nodes { assert nodes[i] in nodes; }
    var moves := MoveAll(w, n, nodes, 2);
    var m := RunNet(w, n, moves);
    NetConcat(w, Start(w), acts, moves);
    past := acts + moves;
    MovedIsDivided(w, n, m, nodes, backers, x, y);
  }

  lemma {:induction false} Listed(s: set<Address>) returns (list: seq<Address>)
    ensures forall a :: a in list <==> a in s
    ensures forall i, j | 0 <= i < j < |list| :: list[i] != list[j]
    decreases s
  {
    if s == {} {
      list := [];
    } else {
      var a :| a in s;
      var rest := Listed(s - {a});
      list := [a] + rest;
    }
  }

  lemma MovedIsDivided(w: World, n: Network, m: Network, nodes: seq<Address>, backers: seq<Address>, x: Block, y: Block)
    requires Backed(w, n, backers, x) && MovedTo(n, m, nodes, 2) && Extends(w.crypto, y, Genesis())
    requires forall a :: a in nodes <==> a in n.nodes
    ensures DividedPast(w, m, x, y, 1, 2) && Divided(w, m, x, y, 2)
    ensures |Supporters(w, m, x, 1, 1)| > w.config.f && |Supporters(w, m, x, 1, 2)| > w.config.f
  {
    assert y.header.height == 1;
    hide BlockHash, Extends;
    var all := set b | b in backers;
    forall a | a in w.keys
      ensures a in m.nodes && m.nodes[a].round == 2
      ensures a in backers ==> Supports(w.crypto, m.nodes[a], x, 1, 1) && Supports(w.crypto, m.nodes[a], x, 1, 2)
      ensures a !in backers ==> Suits(w.crypto, m.nodes[a], y)
    {
      assert a in nodes;
      if a in backers { assert a in all && Supports(w.crypto, n.nodes[a], x, 1, 1); }
    }
    SubsetSize(all, Supporters(w, m, x, 1, 1));
    SubsetSize(all, Supporters(w, m, x, 1, 2));
  }

  /** And a view change from the start reaches the near side: nobody stands behind anything, all have room. */
  lemma DividedUnbacked(w: World, x: Block, y: Block) returns (past: seq<Action>)
    requires Extends(w.crypto, y, Genesis())
    ensures LawfulRun(w, Start(w), past) && y.header.height == 1
    ensures var n := RunNet(w, Start(w), past);
      DividedPast(w, n, x, y, 0, 1) && Supporters(w, n, x, 1, 0) == {}
  {
    assert y.header.height == 1;
    hide LawfulRun, CanRun, RunNet, Seen, BlockHash, Extends;
    var n := Start(w);
    var nodes := Listed(n.nodes.Keys);
    forall i | 0 <= i < |nodes| ensures nodes[i] in n.nodes { assert nodes[i] in nodes; }
    past := MoveAll(w, n, nodes, 1);
    MovedIsEmpty(w, RunNet(w, n, past), nodes, x, y);
  }

  lemma MovedIsEmpty(w: World, m: Network, nodes: seq<Address>, x: Block, y: Block)
    requires MovedTo(Start(w), m, nodes, 1) && Extends(w.crypto, y, Genesis()) && y.header.height == 1
    requires forall a :: a in nodes <==> a in Start(w).nodes
    ensures DividedPast(w, m, x, y, 0, 1) && Supporters(w, m, x, 1, 0) == {}
  {
    hide BlockHash, Extends;
    forall a | a in w.keys
      ensures a in m.nodes && m.nodes[a].round == 1 && Suits(w.crypto, m.nodes[a], y)
      ensures !Supports(w.crypto, m.nodes[a], x, 1, 0)
    {
      assert a in nodes && a in Start(w).nodes;
    }
  }
}
