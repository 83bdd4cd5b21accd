/**
  When a commit is final. While all honest nodes abide by the rules of `Lawful`, a block
  that f+1 honest validators stand behind stays below everything certified in a later
  round, and no honest node commits beside it in one.
 */
module Finality {
  import opened Wrappers
  import opened Bytes
  import opened Types
  import opened Quorum
  import opened HotStuff
  import opened HotStuffRuns
  import opened CommitBacking
  import opened Agreement
  import opened Lawful
  import Encoding

  // ---- lawful runs ----

  ghost predicate LawfulAct(w: World, n: Network, act: Action) {
    CanAct(w, n, act) && (act.Deliver? ==> Abides(w.Id(act.node), n.nodes[act.node], act.event))
  }

  ghost function LawfulRun(w: World, n: Network, acts: seq<Action>): (lawful: bool)
    ensures lawful ==> CanRun(w, n, acts)
    decreases |acts|
  {
    acts != [] ==> LawfulAct(w, n, acts[0]) && LawfulRun(w, Act(w, n, acts[0]), acts[1..])
  }

  /** Headers of the block an action makes pending. */
  ghost function Taken(w: World, n: Network, act: Action): set<BlockHeader>
    requires Possible(w, n, act)
  {
    if act.Inject? then {}
    else match TakenUp(w.Id(act.node), n.nodes[act.node], act.event)
      case None => {}
      case Some(block) => {block.header}
  }

  /** Headers of all blocks taken up in a run. */
  ghost function Seen(w: World, n: Network, acts: seq<Action>): set<BlockHeader>
    requires LawfulRun(w, n, acts)
    decreases |acts|
  {
    if acts == [] then {} else Taken(w, n, acts[0]) + Seen(w, Act(w, n, acts[0]), acts[1..])
  }

  lemma {:induction false} NetConcat(w: World, n: Network, a: seq<Action>, b: seq<Action>)
    ensures LawfulRun(w, n, a + b) <==> LawfulRun(w, n, a) && LawfulRun(w, RunNet(w, n, a), b)
    ensures LawfulRun(w, n, a + b) ==>
      && RunNet(w, n, a + b) == RunNet(w, RunNet(w, n, a), b)
      && Seen(w, n, a + b) == Seen(w, n, a) + Seen(w, RunNet(w, n, a), b)
    decreases |a|
  {
    hide LawfulAct, Act, Taken;
    if a == [] {
      assert a + b == b;
    } else {
      assert (a + b)[0] == a[0] && (a + b)[1..] == a[1..] + b;
      if LawfulAct(w, n, a[0]) {
        ActIsPossible(w, n, a[0]);
        NetConcat(w, Act(w, n, a[0]), a[1..], b);
      }
    }
  }

  lemma ActIsPossible(w: World, n: Network, act: Action)
    requires LawfulAct(w, n, act)
    ensures CanAct(w, n, act) && Possible(w, n, act)
  {
  }

  // ---- above a block ----

  /** The header extends the last block of a linked chain that has `x` at height `h`. */
  ghost predicate OnTopOf(c: Crypto, x: Block, h: nat, header: BlockHeader) {
    exists chain :: Carries(c, x, h, header, chain)
  }

  ghost predicate Carries(c: Crypto, x: Block, h: nat, header: BlockHeader, chain: seq<Block>) {
    && Linked(c, chain) && h < |chain| && BlockHash(c, chain[h]) == BlockHash(c, x)
    && header.parentHash == BlockHash(c, chain[|chain| - 1]) && header.height == |chain|
  }

  /** The hash is that of a block seen on top of `x`. */
  ghost predicate NamesAbove(c: Crypto, seen: set<BlockHeader>, x: Block, h: nat, hash: Digest) {
    exists header | header in seen :: c.hash(HeaderBytes(header)) == hash && OnTopOf(c, x, h, header)
  }

  lemma SeenMore(c: Crypto, seen: set<BlockHeader>, more: set<BlockHeader>, x: Block, h: nat, hash: Digest)
    requires seen <= more && NamesAbove(c, seen, x, h, hash)
    ensures NamesAbove(c, more, x, h, hash)
  {
    hide OnTopOf, HeaderBytes;
  }

  lemma ExtensionIsAbove(c: Crypto, seen: set<BlockHeader>, chain: seq<Block>, h: nat, block: Block)
    requires Linked(c, chain) && h < |chain| && Extends(c, block, chain[|chain| - 1]) && block.header in seen
    ensures NamesAbove(c, seen, chain[h], h, BlockHash(c, block))
  {
    hide HeaderBytes;
    assert Carries(c, chain[h], h, block.header, chain);
  }

  // ---- what a node's votes say about its chain ----

  function CommitRound(block: Block): nat {
    if block.qc.Some? then block.qc.value.round else 0
  }

  ghost predicate Recorded(seen: set<BlockHeader>, s: State) {
    && (s.pending.Some? ==> s.pending.value.header in seen)
    && (forall i | 0 < i < |s.committed| ::
          s.committed[i].header in seen && s.committed[i].qc.Some? && CommitRound(s.committed[i]) <= s.round)
  }

  ghost predicate VotesSoFar(signed: set<Signed>, a: Address, s: State) {
    forall m | m in signed && m.voter == a :: m.round <= s.round
  }

  /** Once it has committed a block, a node signs only above it. */
  ghost predicate VotesAbove(c: Crypto, seen: set<BlockHeader>, signed: set<Signed>, a: Address, s: State) {
    forall i, m | 0 < i < |s.committed| && m in signed && m.voter == a && m.round > CommitRound(s.committed[i]) ::
      NamesAbove(c, seen, s.committed[i], i, m.blockHash)
  }

  /** Once locked off its tip, it signs nothing in later rounds. */
  ghost predicate VotesLocked(c: Crypto, signed: set<Signed>, a: Address, s: State)
    requires s.committed != []
  {
    !LockOnTip(c, s) ==> forall m | m in signed && m.voter == a :: m.round <= s.lockedQc.value.round
  }

  ghost predicate Bound(c: Crypto, seen: set<BlockHeader>, signed: set<Signed>, a: Address, s: State) {
    && s.committed != []
    && Recorded(seen, s) && VotesSoFar(signed, a, s) && VotesAbove(c, seen, signed, a, s)
    && VotesLocked(c, signed, a, s)
  }

  /** How a step can change chain and lock: by a vote that commits what is pending, or one that locks. */
  ghost predicate Finalizes(s: State, t: State) {
    && s.pending.Some? && t.pending == None && s.phase == Commit && t.lockedQc == s.lockedQc
    && |t.committed| == |s.committed| + 1 && s.committed == t.committed[..|s.committed|]
    && t.committed[|s.committed|].qc.Some? && CommitRound(t.committed[|s.committed|]) == s.round
    && t.committed[|s.committed|] == s.pending.value.(qc := t.committed[|s.committed|].qc)
  }

  ghost predicate Locks(s: State, t: State) {
    t.committed == s.committed && t.lockedQc.Some? && t.lockedQc.value.round == s.round
  }

  lemma EndPhaseChanges(s: State, qc: QuorumCert)
    requires qc.round == s.round
    ensures var t := EndPhase(s, qc).state;
      Finalizes(s, t) || Locks(s, t) || (t.committed == s.committed && t.lockedQc == s.lockedQc)
  {
  }

  lemma StepChanges(id: Identity, s: State, e: Event)
    requires Enabled(id, s, e)
    ensures var t := Next(id, s, e);
      Finalizes(s, t) || Locks(s, t) || (t.committed == s.committed && t.lockedQc == s.lockedQc)
  {
    if e.Voting? {
      hide Insert, EndPhase, VerifyVote, Finalizes, Locks;
      if Counts(id, s, e.vote) {
        InsertOnlyAddsVotes(s, e.vote);
        if Completes(id, s, e.vote) {
          var votes := VotesIn(Collected(s, e.vote), e.order);
          CertificateRound(votes, s.round);
          EndPhaseChanges(Insert(s, e.vote), Certificate(votes, s.round));
          SameChanges(s, Insert(s, e.vote), Next(id, s, e));
        }
      }
    } else {
      hide Step, Enabled;
      OtherStepsKeepLock(id, s, e);
    }
  }

  lemma SameChanges(s: State, inserted: State, t: State)
    requires inserted.round == s.round && inserted.phase == s.phase && inserted.lockedQc == s.lockedQc
    requires inserted.committed == s.committed && inserted.pending == s.pending
    ensures Finalizes(inserted, t) ==> Finalizes(s, t)
    ensures Locks(inserted, t) ==> Locks(s, t)
  {
  }

  // ---- one step of one node ----

  ghost predicate SignsOnly(id: Identity, s: State, e: Event, a: Address, signed: set<Signed>, after: set<Signed>)
    requires Enabled(id, s, e)
  {
    && signed <= after
    && forall m | m in after && m !in signed && m.voter == a ::
         && Step(id, s, e).reply.Some? && Step(id, s, e).reply.value.VoteMsg?
         && m.blockHash == Step(id, s, e).reply.value.vote.blockHash
         && m.round == Step(id, s, e).reply.value.vote.round
  }

  /** What is newly signed names what is pending afterwards, in an unmoved round, with chain and lock unmoved. */
  lemma NewlySigned(id: Identity, s: State, e: Event, a: Address, signed: set<Signed>, after: set<Signed>, m: Signed)
    requires Enabled(id, s, e) && SignsOnly(id, s, e, a, signed, after)
    requires m in after && m !in signed && m.voter == a
    ensures var t := Next(id, s, e);
      && t.pending.Some? && m.blockHash == BlockHash(id.crypto, t.pending.value) && m.round == t.round == s.round
      && t.committed == s.committed && t.lockedQc == s.lockedQc
  {
    StepSignsPending(id, s, e);
    hide Step, Enabled, BlockHash, VoteSigningBytes;
  }

  lemma StepRecords(id: Identity, s: State, e: Event, seen: set<BlockHeader>, more: set<BlockHeader>)
    requires Ordered(s) && Enabled(id, s, e) && Recorded(seen, s) && seen <= more
    requires TakenUp(id, s, e).Some? ==> TakenUp(id, s, e).value.header in more
    ensures Recorded(more, Next(id, s, e))
  {
    StepSignsPending(id, s, e);
    StepChanges(id, s, e);
    StepKeepsOrder(id, s, e);
    hide Step, Enabled, TakenUp, Ordered, BlockHash;
    var t := Next(id, s, e);
    forall i | 0 < i < |t.committed|
      ensures t.committed[i].header in more && t.committed[i].qc.Some? && CommitRound(t.committed[i]) <= t.round
    {
      if i < |s.committed| { assert t.committed[i] == s.committed[i]; }
    }
  }

  lemma StepVotesSoFar(id: Identity, s: State, e: Event, a: Address, signed: set<Signed>, after: set<Signed>)
    requires Ordered(s) && Enabled(id, s, e) && SignsOnly(id, s, e, a, signed, after) && VotesSoFar(signed, a, s)
    ensures VotesSoFar(after, a, Next(id, s, e))
  {
    StepKeepsOrder(id, s, e);
    hide Step, Enabled, Ordered, BlockHash;
    forall m | m in after && m.voter == a ensures m.round <= Next(id, s, e).round {
      if m !in signed { NewlySigned(id, s, e, a, signed, after, m); }
    }
  }

  lemma StepVotesAbove(id: Identity, s: State, e: Event, a: Address, signed: set<Signed>, after: set<Signed>,
                       seen: set<BlockHeader>, more: set<BlockHeader>)
    requires Enabled(id, s, e) && SignsOnly(id, s, e, a, signed, after) && seen <= more
    requires VotesSoFar(signed, a, s) && VotesAbove(id.crypto, seen, signed, a, s)
    requires LawfulNode(id, Next(id, s, e)) && Recorded(more, Next(id, s, e))
    ensures VotesAbove(id.crypto, more, after, a, Next(id, s, e))
  {
    StepChanges(id, s, e);
    var t := Next(id, s, e);
    assert Linked(id.crypto, t.committed) && (t.pending.Some? ==> Extends(id.crypto, t.pending.value, Tip(t)));
    hide Step, Enabled, LawfulNode, BlockHash, Linked, Extends, NamesAbove, SignsOnly;
    forall i, m | 0 < i < |t.committed| && m in after && m.voter == a && m.round > CommitRound(t.committed[i])
      ensures NamesAbove(id.crypto, more, t.committed[i], i, m.blockHash)
    {
      if m !in signed {
        NewlySigned(id, s, e, a, signed, after, m);
        ExtensionIsAbove(id.crypto, more, t.committed, i, t.pending.value);
      } else {
        assert i < |s.committed| && t.committed[i] == s.committed[i];
        SeenMore(id.crypto, seen, more, s.committed[i], i, m.blockHash);
      }
    }
  }

  lemma StepVotesLocked(id: Identity, s: State, e: Event, a: Address, signed: set<Signed>, after: set<Signed>)
    requires LawfulNode(id, s) && Enabled(id, s, e) && SignsOnly(id, s, e, a, signed, after)
    requires VotesSoFar(signed, a, s) && VotesLocked(id.crypto, signed, a, s)
    requires LawfulNode(id, Next(id, s, e)) && VotesSoFar(after, a, Next(id, s, e))
    ensures VotesLocked(id.crypto, after, a, Next(id, s, e))
  {
    StepChanges(id, s, e);
    var t := Next(id, s, e);
    assert LockTraced(id.crypto, s) && LockTraced(id.crypto, t);
    hide Step, Enabled, LawfulNode, BlockHash, SignsOnly;
    if !LockOnTip(id.crypto, t) {
      if Finalizes(s, t) {
        CommitMovesTipToLock(id, s, t);
      }
      forall m | m in after && m.voter == a ensures m.round <= t.lockedQc.value.round {
        if m !in signed { NewlySigned(id, s, e, a, signed, after, m); }
      }
    }
  }

  lemma CommitMovesTipToLock(id: Identity, s: State, t: State)
    requires s.committed != [] && LockTraced(id.crypto, s) && Finalizes(s, t)
    ensures LockOnTip(id.crypto, t)
  {
    var block := t.committed[|s.committed|];
    CertifiedBlockKeepsHash(id.crypto, s.pending.value, block.qc.value);
    hide BlockHash;
  }

  lemma StepKeepsBound(id: Identity, s: State, e: Event, a: Address, signed: set<Signed>, after: set<Signed>,
                       seen: set<BlockHeader>, more: set<BlockHeader>)
    requires LawfulNode(id, s) && Enabled(id, s, e) && Abides(id, s, e)
    requires Bound(id.crypto, seen, signed, a, s) && SignsOnly(id, s, e, a, signed, after) && seen <= more
    requires TakenUp(id, s, e).Some? ==> TakenUp(id, s, e).value.header in more
    ensures Bound(id.crypto, more, after, a, Next(id, s, e))
  {
    assert Ordered(s);
    hide LawfulNode, Step, Enabled, Abides, Ordered, Recorded, VotesSoFar, VotesAbove, VotesLocked, TakenUp, SignsOnly;
    StepIsLawful(id, s, e);
    StepRecords(id, s, e, seen, more);
    StepVotesSoFar(id, s, e, a, signed, after);
    StepVotesAbove(id, s, e, a, signed, after, seen, more);
    StepVotesLocked(id, s, e, a, signed, after);
    NodeHasChain(id, Next(id, s, e));
  }

  /** Nodes that do not act have at most seen more. */
  lemma OthersKeepBound(c: Crypto, seen: set<BlockHeader>, more: set<BlockHeader>, signed: set<Signed>,
                        after: set<Signed>, b: Address, s: State)
    requires Bound(c, seen, signed, b, s) && seen <= more && signed <= after
    requires forall m | m in after && m !in signed :: m.voter != b
    ensures Bound(c, more, after, b, s)
  {
    hide NamesAbove, BlockHash;
    forall i, m | 0 < i < |s.committed| && m in after && m.voter == b && m.round > CommitRound(s.committed[i])
      ensures NamesAbove(c, more, s.committed[i], i, m.blockHash)
    {
      SeenMore(c, seen, more, s.committed[i], i, m.blockHash);
    }
  }

  // ---- commits carry certificates ----

  /** Every committed block carries a certificate for itself that the network's votes bear out. */
  ghost predicate CommitsCertify(w: World, pool: set<Vote>, s: State) {
    forall i | 0 < i < |s.committed| ::
      && s.committed[i].qc.Some? && Certifies(w, pool, s.committed[i].qc.value)
      && s.committed[i].qc.value.blockHash == BlockHash(w.crypto, s.committed[i])
  }

  lemma MatchingUniform(id: Identity, m: VoteMap, order: seq<string>, block: Block, round: u64)
    requires m != map[] && Enumerates(order, m) && AllMatch(id, m, block, round)
    ensures Uniform(id.config, Certificate(VotesIn(m, order), round))
    ensures Certificate(VotesIn(m, order), round).blockHash == BlockHash(id.crypto, block)
  {
    MatchingCertificate(id, m, order, block, round);
    hide BlockHash, VoterKey;
    var votes := VotesIn(m, order);
    forall v | v in votes
      ensures v.blockHash == BlockHash(id.crypto, block) && v.round == round && v.voter in id.config.Members()
    {
      var i :| 0 <= i < |votes| && votes[i] == v;
      assert order[i] in m && Matches(id, m[order[i]], block, round);
    }
  }

  /** A commit is by a full map of matching votes from the network. */
  lemma VoteCommits(w: World, id: Identity, s: State, vote: Vote, order: seq<string>, pool: set<Vote>)
    requires id.crypto == w.crypto && id.config == w.config && LawfulNode(id, s)
    requires HoldsFromPool(w.crypto, pool, s) && vote in pool && OrderFits(id, s, vote, order)
    requires Completes(id, s, vote) && s.phase == Commit
    requires s.pending.Some? && Matches(id, vote, s.pending.value, s.round)
    ensures var t, qc := OnHandleVote(id, s, vote, order).state,
                         Certificate(VotesIn(Collected(s, vote), order), s.round);
      && t.committed == s.committed + [s.pending.value.(qc := Some(qc))]
      && Certifies(w, pool, qc) && qc.blockHash == BlockHash(w.crypto, s.pending.value.(qc := Some(qc)))
  {
    hide LawfulNode, HoldsFromPool, VerifyVote, Matches, AllMatch, BlockHash, Certificate, VotesIn, Insert, VoterKey;
    hide FromPool, EndPhase;
    var m := Collected(s, vote);
    var qc := Certificate(VotesIn(m, order), s.round);
    InsertIsLawful(id, s, vote);
    InsertOnlyAddsVotes(s, vote);
    InsertHoldsFromPool(w.crypto, s, vote, pool);
    assert VoterKey(vote) in m;
    MatchingUniform(id, m, order, s.pending.value, s.round);
    FullMapFormsQuorum(w, m, order, s.round, pool);
    CertifiedBlockKeepsHash(w.crypto, s.pending.value, qc);
    hide Uniform, QuorumFormed;
    assert OnHandleVote(id, s, vote, order) == EndPhase(Insert(s, vote), qc);
    EndPhaseCommits(Insert(s, vote), qc);
  }

  lemma EndPhaseCommits(s: State, qc: QuorumCert)
    requires s.phase == Commit && s.pending.Some?
    ensures EndPhase(s, qc).state.committed == s.committed + [s.pending.value.(qc := Some(qc))]
  {
  }

  lemma VoteCommitsOnlyThen(id: Identity, s: State, e: Event)
    requires Enabled(id, s, e) && Finalizes(s, Next(id, s, e))
    ensures e.Voting? && Completes(id, s, e.vote) && s.phase == Commit && s.pending.Some?
  {
    if e.Voting? {
      hide VerifyVote, Insert, EndPhase;
      if Counts(id, s, e.vote) { InsertOnlyAddsVotes(s, e.vote); }
    } else {
      OtherStepsKeepLock(id, s, e);
      hide Step, Enabled;
    }
  }

  lemma StepKeepsCertified(w: World, id: Identity, s: State, e: Event, pool: set<Vote>, larger: set<Vote>)
    requires id.crypto == w.crypto && id.config == w.config && LawfulNode(id, s) && pool <= larger
    requires Enabled(id, s, e) && Abides(id, s, e) && (e.Voting? ==> e.vote in pool)
    requires HoldsFromPool(w.crypto, pool, s) && CommitsCertify(w, pool, s)
    ensures CommitsCertify(w, larger, Next(id, s, e))
  {
    StepChanges(id, s, e);
    var t := Next(id, s, e);
    if Finalizes(s, t) {
      VoteCommitsOnlyThen(id, s, e);
      assert Matches(id, e.vote, s.pending.value, s.round) && OrderFits(id, s, e.vote, e.order);
      hide Matches, Finalizes;
      VoteCommits(w, id, s, e.vote, e.order, pool);
    }
    hide Step, Enabled, Abides, LawfulNode, HoldsFromPool, BlockHash, Uniform, OnHandleVote;
    forall i | 0 < i < |t.committed|
      ensures && t.committed[i].qc.Some? && Certifies(w, larger, t.committed[i].qc.value)
              && t.committed[i].qc.value.blockHash == BlockHash(w.crypto, t.committed[i])
    {
      if i < |s.committed| { assert t.committed[i] == s.committed[i]; }
      PoolGrowsQuorum(w, pool, larger, t.committed[i].qc.value);
    }
  }

  lemma PoolGrowsCertified(w: World, pool: set<Vote>, larger: set<Vote>, s: State)
    requires pool <= larger && CommitsCertify(w, pool, s)
    ensures CommitsCertify(w, larger, s)
  {
    hide QuorumFormed, Uniform, BlockHash;
    forall i | 0 < i < |s.committed| ensures QuorumFormed(w, larger, s.committed[i].qc.value) {
      PoolGrowsQuorum(w, pool, larger, s.committed[i].qc.value);
    }
  }

  // ---- the network ----

  ghost predicate NodeSettled(w: World, n: Network, seen: set<BlockHeader>, a: Address) {
    && a in w.keys && a in n.nodes
    && LawfulNode(w.Id(a), n.nodes[a]) && Bound(w.crypto, seen, n.signed, a, n.nodes[a])
    && CommitsCertify(w, n.pool, n.nodes[a])
  }

  ghost predicate Settled(w: World, n: Network, seen: set<BlockHeader>) {
    && n.nodes.Keys == w.keys.Keys && OneHashPerRound(w, n) && WellFormed(w, n)
    && forall a | a in n.nodes :: NodeSettled(w, n, seen, a)
  }

  lemma DeliverSettles(w: World, n: Network, seen: set<BlockHeader>, a: Address, e: Event)
    requires w.Valid() && Settled(w, n, seen) && LawfulAct(w, n, Deliver(a, e))
    ensures NodeSettled(w, Act(w, n, Deliver(a, e)), seen + Taken(w, n, Deliver(a, e)), a)
  {
    var id, s, act := w.Id(a), n.nodes[a], Deliver(a, e);
    assert NodeSettled(w, n, seen, a) && HoldsFromPool(w.crypto, n.pool, s);
    DeliverShape(w, n, a, e);
    var m, more := Act(w, n, act), seen + Taken(w, n, act);
    hide LawfulNode, Bound, CommitsCertify, HoldsFromPool, OneHashPerRound, WellFormed, Step, Enabled, Abides, TakenUp;
    StepIsLawful(id, s, e);
    StepKeepsBound(id, s, e, a, n.signed, m.signed, seen, more);
    StepKeepsCertified(w, id, s, e, n.pool, m.pool);
  }

  lemma OthersStaySettled(w: World, n: Network, seen: set<BlockHeader>, a: Address, e: Event, b: Address)
    requires Settled(w, n, seen) && LawfulAct(w, n, Deliver(a, e)) && b in n.nodes && b != a
    ensures NodeSettled(w, Act(w, n, Deliver(a, e)), seen + Taken(w, n, Deliver(a, e)), b)
  {
    assert NodeSettled(w, n, seen, b);
    DeliverShape(w, n, a, e);
    var m, more := Act(w, n, Deliver(a, e)), seen + Taken(w, n, Deliver(a, e));
    hide LawfulNode, Bound, CommitsCertify, OneHashPerRound, WellFormed, Step, Enabled, Abides, TakenUp;
    OthersKeepBound(w.crypto, seen, more, n.signed, m.signed, b, n.nodes[b]);
    PoolGrowsCertified(w, n.pool, m.pool, n.nodes[b]);
  }

  lemma InjectStaysSettled(w: World, n: Network, seen: set<BlockHeader>, v: Vote, b: Address)
    requires Settled(w, n, seen) && LawfulAct(w, n, Inject(v)) && b in n.nodes
    ensures NodeSettled(w, Act(w, n, Inject(v)), seen, b)
  {
    assert NodeSettled(w, n, seen, b);
    hide LawfulNode, Bound, CommitsCertify, OneHashPerRound, WellFormed;
    PoolGrowsCertified(w, n.pool, n.pool + {v}, n.nodes[b]);
  }

  lemma InjectSettles(w: World, n: Network, seen: set<BlockHeader>, v: Vote)
    requires w.Valid() && Settled(w, n, seen) && LawfulAct(w, n, Inject(v))
    ensures Settled(w, Act(w, n, Inject(v)), seen + Taken(w, n, Inject(v)))
  {
    hide NodeSettled, OneHashPerRound, WellFormed;
    ActKeepsOneHash(w, n, Inject(v));
    ActKeepsWellFormed(w, n, Inject(v));
    assert seen + Taken(w, n, Inject(v)) == seen;
    forall b | b in n.nodes ensures NodeSettled(w, Act(w, n, Inject(v)), seen, b) {
      InjectStaysSettled(w, n, seen, v, b);
    }
  }

  lemma DeliverKeepsSettled(w: World, n: Network, seen: set<BlockHeader>, a: Address, e: Event)
    requires w.Valid() && Settled(w, n, seen) && LawfulAct(w, n, Deliver(a, e))
    ensures Settled(w, Act(w, n, Deliver(a, e)), seen + Taken(w, n, Deliver(a, e)))
  {
    hide NodeSettled, OneHashPerRound, WellFormed, Step, Enabled, Abides, TakenUp, OneBlock;
    ActIsPossible(w, n, Deliver(a, e));
    ActKeepsOneHash(w, n, Deliver(a, e));
    ActKeepsWellFormed(w, n, Deliver(a, e));
    DeliverShape(w, n, a, e);
    var m, more := Act(w, n, Deliver(a, e)), seen + Taken(w, n, Deliver(a, e));
    assert m.nodes.Keys == n.nodes.Keys;
    hide Act, Taken, Possible, CanAct;
    forall b | b in m.nodes ensures NodeSettled(w, m, more, b) {
      if b == a { DeliverSettles(w, n, seen, a, e); } else { OthersStaySettled(w, n, seen, a, e, b); }
    }
  }

  lemma ActSettles(w: World, n: Network, seen: set<BlockHeader>, act: Action)
    requires w.Valid() && Settled(w, n, seen) && LawfulAct(w, n, act)
    ensures Settled(w, Act(w, n, act), seen + Taken(w, n, act))
  {
    hide Settled, LawfulAct, Act, Taken;
    match act
    case Inject(v) => InjectSettles(w, n, seen, v);
    case Deliver(a, e) => DeliverKeepsSettled(w, n, seen, a, e);
  }

  lemma {:induction false} RunSettles(w: World, n: Network, seen: set<BlockHeader>, acts: seq<Action>)
    requires w.Valid() && Settled(w, n, seen) && LawfulRun(w, n, acts)
    ensures Settled(w, RunNet(w, n, acts), seen + Seen(w, n, acts))
    decreases |acts|
  {
    hide Settled, LawfulAct, Act, Taken;
    if acts == [] {
      assert seen + {} == seen;
    } else {
      ActIsPossible(w, n, acts[0]);
      ActSettles(w, n, seen, acts[0]);
      var next, more := Act(w, n, acts[0]), seen + Taken(w, n, acts[0]);
      RunSettles(w, next, more, acts[1..]);
      assert more + Seen(w, next, acts[1..]) == seen + Seen(w, n, acts);
    }
  }

  lemma StartIsSettled(w: World)
    ensures Settled(w, Start(w), {})
  {
    StartInOrder(w);
    var n := Start(w);
    hide OneHashPerRound, WellFormed;
    forall a | a in n.nodes ensures NodeSettled(w, n, {}, a) {
      InitIsLawful(w.Id(a));
    }
  }

  // ---- support lasts ----

  lemma ActKeepsSupport(w: World, n: Network, seen: set<BlockHeader>, act: Action,
                        a: Address, x: Block, h: nat, bound: nat)
    requires Settled(w, n, seen) && LawfulAct(w, n, act) && a in n.nodes
    requires Supports(w.crypto, n.nodes[a], x, h, bound)
    ensures var m := Act(w, n, act);
      a in m.nodes && Supports(w.crypto, m.nodes[a], x, h, bound) && n.nodes[a].committed <= m.nodes[a].committed
  {
    assert NodeSettled(w, n, seen, a);
    if act.Deliver? {
      var id, s := w.Id(act.node), n.nodes[act.node];
      DeliverShape(w, n, act.node, act.event);
      if act.node == a {
        StepKeepsCommitted(id, s, act.event);
        hide Act, LawfulNode, Supports, Step, Enabled, Abides, Settled;
        StepKeepsSupport(id, s, act.event, x, h, bound);
      }
    }
  }

  lemma {:induction false} RunKeepsSupport(w: World, n: Network, seen: set<BlockHeader>, acts: seq<Action>,
                                           a: Address, x: Block, h: nat, bound: nat)
    requires w.Valid() && Settled(w, n, seen) && LawfulRun(w, n, acts) && a in n.nodes
    requires Supports(w.crypto, n.nodes[a], x, h, bound)
    ensures var m := RunNet(w, n, acts); a in m.nodes && Supports(w.crypto, m.nodes[a], x, h, bound)
    decreases |acts|
  {
    hide Settled, LawfulAct, Act, Taken, Supports;
    if acts == [] {
    } else {
      ActIsPossible(w, n, acts[0]);
      ActKeepsSupport(w, n, seen, acts[0], a, x, h, bound);
      ActSettles(w, n, seen, acts[0]);
      RunKeepsSupport(w, Act(w, n, acts[0]), seen + Taken(w, n, acts[0]), acts[1..], a, x, h, bound);
    }
  }

  // ---- finality ----

  /** A supporter's vote in a later round names a block on top of the one it supports. */
  lemma SupporterVotesAbove(c: Crypto, seen: set<BlockHeader>, signed: set<Signed>, a: Address, s: State,
                            x: Block, h: nat, bound: nat, m: Signed)
    requires Bound(c, seen, signed, a, s) && Supports(c, s, x, h, bound) && h > 0
    requires m in signed && m.voter == a && m.round > bound
    ensures NamesAbove(c, seen, x, h, m.blockHash)
  {
    if h < |s.committed| {
      assert CommitRound(s.committed[h]) <= bound;
      hide BlockHash, HeaderBytes;
      assert NamesAbove(c, seen, s.committed[h], h, m.blockHash);
      SameHashSameAbove(c, seen, s.committed[h], x, h, m.blockHash);
    } else {
      assert false;
    }
  }

  lemma SameHashSameAbove(c: Crypto, seen: set<BlockHeader>, x: Block, y: Block, h: nat, hash: Digest)
    requires BlockHash(c, x) == BlockHash(c, y) && NamesAbove(c, seen, x, h, hash)
    ensures NamesAbove(c, seen, y, h, hash)
  {
    hide BlockHash, HeaderBytes, Linked;
    var header :| header in seen && c.hash(HeaderBytes(header)) == hash && OnTopOf(c, x, h, header);
    var chain :| Carries(c, x, h, header, chain);
    assert Carries(c, y, h, header, chain);
  }

  /** f+1 validators that are honest and stand behind `x`. */
  ghost predicate Backers(w: World, n: Network, backers: set<Address>, x: Block, h: nat, bound: nat) {
    && backers <= w.config.Members() && |backers| >= w.config.f + 1
    && forall a | a in backers :: a in w.keys && a in n.nodes && Supports(w.crypto, n.nodes[a], x, h, bound)
  }

  /** Certificates of rounds after the support name blocks on top of the supported one. */
  lemma LaterCertificateIsAbove(w: World, n: Network, seen: set<BlockHeader>, backers: set<Address>,
                                x: Block, h: nat, bound: nat, qc: QuorumCert)
    requires Tolerant(w) && Settled(w, n, seen) && Backers(w, n, backers, x, h, bound) && h > 0
    requires Certifies(w, n.pool, qc) && qc.round > bound && w.crypto.CollisionFreeOn(VoteInputs(n, qc, qc))
    ensures NamesAbove(w.crypto, seen, x, h, qc.blockHash)
  {
    MembersSize(w.config.validators, w.config.f);
    var a := SharedBacker(w.config.Members(), QcVoters(qc), backers, w.config.f);
    HonestVoterSigned(w, n, qc, a, VoteInputs(n, qc, qc));
    assert NodeSettled(w, n, seen, a);
    SupporterVotesAbove(w.crypto, seen, n.signed, a, n.nodes[a], x, h, bound, Signed(a, qc.blockHash, qc.round));
  }

  lemma SharedBacker(all: set<Address>, voters: set<Address>, backers: set<Address>, f: nat) returns (a: Address)
    requires |all| == 3 * f + 1 && voters <= all && backers <= all && |voters| >= 2 * f + 1 && |backers| >= f + 1
    ensures a in voters && a in backers
  {
    if voters * backers == {} {
      SubsetSize(voters + backers, all);
    }
    a :| a in voters * backers;
  }

  ghost predicate NoHeaderClash(c: Crypto, seen: set<BlockHeader>) {
    c.CollisionFreeOn(set header | header in seen :: HeaderBytes(header))
  }

  /** A block named above height `h` is not itself at height `h`. */
  lemma AboveIsHigher(c: Crypto, seen: set<BlockHeader>, x: Block, h: nat, header: BlockHeader)
    requires NoHeaderClash(c, seen) && header in seen && NamesAbove(c, seen, x, h, c.hash(HeaderBytes(header)))
    ensures header.height > h
  {
    hide HeaderBytes, OnTopOf;
    var above :| above in seen && c.hash(HeaderBytes(above)) == c.hash(HeaderBytes(header)) && OnTopOf(c, x, h, above);
    Encoding.HeaderBytesInjective(above, header);
    TopIsHigher(c, x, h, above);
  }

  lemma TopIsHigher(c: Crypto, x: Block, h: nat, header: BlockHeader)
    requires OnTopOf(c, x, h, header)
    ensures header.height > h
  {
    var chain :| Carries(c, x, h, header, chain);
  }

  /** The vote encodings ever signed by an honest node or standing in a commit. */
  ghost function CommitInputs(n: Network): set<bytes> {
    (set m | m in n.signed :: VotePreimage(m.blockHash, m.round))
    + (set b, i | b in n.nodes && 0 < i < |n.nodes[b].committed| && n.nodes[b].committed[i].qc.Some? ::
         var qc := n.nodes[b].committed[i].qc.value; VotePreimage(qc.blockHash, qc.round))
  }

  ghost predicate NoVoteClash(w: World, n: Network) {
    w.crypto.CollisionFreeOn(CommitInputs(n))
  }

  lemma NoClashInCommit(w: World, n: Network, b: Address, i: nat)
    requires NoVoteClash(w, n) && b in n.nodes && 0 < i < |n.nodes[b].committed| && n.nodes[b].committed[i].qc.Some?
    ensures var qc := n.nodes[b].committed[i].qc.value; w.crypto.CollisionFreeOn(VoteInputs(n, qc, qc))
  {
    hide VotePreimage;
    var qc := n.nodes[b].committed[i].qc.value;
    assert VoteInputs(n, qc, qc) <= CommitInputs(n);
  }

  /** No honest node commits at or below the height of `x` by a certificate of a later round. */
  lemma LaterCommitIsHigher(w: World, n: Network, seen: set<BlockHeader>, backers: set<Address>,
                            x: Block, h: nat, bound: nat, b: Address, i: nat)
    requires Tolerant(w) && Settled(w, n, seen) && Backers(w, n, backers, x, h, bound) && h > 0
    requires NoHeaderClash(w.crypto, seen) && NoVoteClash(w, n)
    requires b in n.nodes && 0 < i < |n.nodes[b].committed| && CommitRound(n.nodes[b].committed[i]) > bound
    ensures i > h
  {
    hide Tolerant, Backers, NoHeaderClash, NoVoteClash, NamesAbove, Certifies, LawfulNode;
    var block := n.nodes[b].committed[i];
    CommittedBlock(w, n, seen, b, i);
    NoClashInCommit(w, n, b, i);
    hide Settled, VoteInputs;
    LaterCertificateIsAbove(w, n, seen, backers, x, h, bound, block.qc.value);
    AboveIsHigher(w.crypto, seen, x, h, block.header);
  }

  lemma CommittedBlock(w: World, n: Network, seen: set<BlockHeader>, b: Address, i: nat)
    requires Settled(w, n, seen) && b in n.nodes && 0 < i < |n.nodes[b].committed|
    ensures var block := n.nodes[b].committed[i];
      && block.qc.Some? && Certifies(w, n.pool, block.qc.value) && block.header in seen && block.header.height == i
      && block.qc.value.blockHash == w.crypto.hash(HeaderBytes(block.header))
      && CommitRound(block) <= n.nodes[b].round
  {
    hide OneHashPerRound, WellFormed, HeaderBytes;
    assert NodeSettled(w, n, seen, b);
    NodeHasChain(w.Id(b), n.nodes[b]);
  }

  /** What later rounds may bring: certificates on top of `x`, and commits above its height. */
  ghost predicate Final(w: World, n: Network, seen: set<BlockHeader>, x: Block, h: nat, bound: nat) {
    && (forall qc | Certifies(w, n.pool, qc) && qc.round > bound && w.crypto.CollisionFreeOn(VoteInputs(n, qc, qc)) ::
          NamesAbove(w.crypto, seen, x, h, qc.blockHash))
    && (NoHeaderClash(w.crypto, seen) && NoVoteClash(w, n) ==>
          forall b, i | b in n.nodes && 0 < i < |n.nodes[b].committed|
                        && CommitRound(n.nodes[b].committed[i]) > bound :: i > h)
  }

  lemma BackedIsFinal(w: World, n: Network, seen: set<BlockHeader>, backers: set<Address>, x: Block, h: nat, bound: nat)
    requires Tolerant(w) && Settled(w, n, seen) && Backers(w, n, backers, x, h, bound) && h > 0
    ensures Final(w, n, seen, x, h, bound)
  {
    hide Tolerant, Settled, Backers, Certifies, NamesAbove, VoteInputs, Crypto.CollisionFreeOn;
    hide NoHeaderClash, NoVoteClash;
    forall qc | Certifies(w, n.pool, qc) && qc.round > bound && w.crypto.CollisionFreeOn(VoteInputs(n, qc, qc))
      ensures NamesAbove(w.crypto, seen, x, h, qc.blockHash)
    {
      LaterCertificateIsAbove(w, n, seen, backers, x, h, bound, qc);
    }
    if NoHeaderClash(w.crypto, seen) && NoVoteClash(w, n) {
      forall b, i | b in n.nodes && 0 < i < |n.nodes[b].committed| && CommitRound(n.nodes[b].committed[i]) > bound
        ensures i > h
      {
        LaterCommitIsHigher(w, n, seen, backers, x, h, bound, b, i);
      }
    }
  }

  /** Where a lawful past and a lawful future lead, and the headers seen on the way. */
  lemma PastAndFuture(w: World, past: seq<Action>, future: seq<Action>) returns (n: Network, seen: set<BlockHeader>)
    requires w.Valid() && LawfulRun(w, Start(w), past) && LawfulRun(w, RunNet(w, Start(w), past), future)
    ensures n == RunNet(w, RunNet(w, Start(w), past), future)
    ensures seen == Seen(w, Start(w), past) + Seen(w, RunNet(w, Start(w), past), future)
    ensures Settled(w, RunNet(w, Start(w), past), Seen(w, Start(w), past)) && Settled(w, n, seen)
  {
    hide Settled, LawfulRun, RunNet, Seen;
    StartIsSettled(w);
    RunSettles(w, Start(w), {}, past);
    assert {} + Seen(w, Start(w), past) == Seen(w, Start(w), past);
    RunSettles(w, RunNet(w, Start(w), past), Seen(w, Start(w), past), future);
    n := RunNet(w, RunNet(w, Start(w), past), future);
    seen := Seen(w, Start(w), past) + Seen(w, RunNet(w, Start(w), past), future);
  }

  /**
    Finality. Once f+1 honest validators stand behind `x` at height `h`, by certificates of
    rounds up to `bound`, it is final in every continuation: certificates of later rounds are
    for blocks seen on top of `x`, and honest nodes commit by them above `h` only.
   */
  lemma SupportIsFinal(w: World, past: seq<Action>, future: seq<Action>, backers: set<Address>,
                       x: Block, h: nat, bound: nat)
    requires Tolerant(w) && LawfulRun(w, Start(w), past) && h > 0
    requires LawfulRun(w, RunNet(w, Start(w), past), future)
    requires Backers(w, RunNet(w, Start(w), past), backers, x, h, bound)
    ensures Final(w, RunNet(w, RunNet(w, Start(w), past), future),
                  Seen(w, Start(w), past) + Seen(w, RunNet(w, Start(w), past), future), x, h, bound)
  {
    hide Settled, LawfulRun, RunNet, Seen, Final, Supports;
    var n, seen := PastAndFuture(w, past, future);
    var n0 := RunNet(w, Start(w), past);
    forall a | a in backers ensures a in n.nodes && Supports(w.crypto, n.nodes[a], x, h, bound) {
      RunKeepsSupport(w, n0, Seen(w, Start(w), past), future, a, x, h, bound);
    }
    BackedIsFinal(w, n, seen, backers, x, h, bound);
  }

  // ---- nodes that are past the round ----

  lemma ActCommitsLate(w: World, n: Network, act: Action, b: Address, from: nat, round: nat)
    requires LawfulAct(w, n, act) && b in n.nodes && CommitsLate(n.nodes[b], from, round)
    ensures b in Act(w, n, act).nodes && CommitsLate(Act(w, n, act).nodes[b], from, round)
    ensures n.nodes[b].committed <= Act(w, n, act).nodes[b].committed
  {
    if act.Deliver? {
      DeliverShape(w, n, act.node, act.event);
      if act.node == b { StepCommitsLate(w.Id(b), n.nodes[b], act.event, from, round); }
    }
  }

  /** Blocks committed since the chain had `from` blocks were committed in `round` or later. */
  ghost predicate CommitsLate(s: State, from: nat, round: nat) {
    && round <= s.round && 0 < from <= |s.committed|
    && forall i | from <= i < |s.committed| :: CommitRound(s.committed[i]) >= round
  }

  lemma StepCommitsLate(id: Identity, s: State, e: Event, from: nat, round: nat)
    requires Enabled(id, s, e) && CommitsLate(s, from, round)
    ensures CommitsLate(Next(id, s, e), from, round) && s.committed <= Next(id, s, e).committed
  {
    StepChanges(id, s, e);
    StepKeepsCommitted(id, s, e);
    StepRoundGrows(id, s, e);
    hide Step, Enabled;
    var t := Next(id, s, e);
    forall i | from <= i < |t.committed| ensures CommitRound(t.committed[i]) >= round {
      if i < |s.committed| { assert t.committed[i] == s.committed[i]; }
    }
  }

  lemma StepRoundGrows(id: Identity, s: State, e: Event)
    requires Enabled(id, s, e)
    ensures s.round <= Next(id, s, e).round
  {
    if e.Voting? { VoteEffect(id, s, e.vote, e.order); }
    hide OnHandleVote, BlockHash, NewBlock, SignVote;
  }

  lemma {:induction false} RunCommitsLate(w: World, n: Network, acts: seq<Action>, b: Address, from: nat, round: nat)
    requires LawfulRun(w, n, acts) && b in n.nodes && CommitsLate(n.nodes[b], from, round)
    ensures b in RunNet(w, n, acts).nodes && CommitsLate(RunNet(w, n, acts).nodes[b], from, round)
    ensures n.nodes[b].committed <= RunNet(w, n, acts).nodes[b].committed
    decreases |acts|
  {
    hide LawfulAct, Act, CommitsLate;
    if acts == [] {
    } else {
      ActIsPossible(w, n, acts[0]);
      ActCommitsLate(w, n, acts[0], b, from, round);
      RunCommitsLate(w, Act(w, n, acts[0]), acts[1..], b, from, round);
    }
  }

  lemma LateCommitIsHigher(w: World, n: Network, seen: set<BlockHeader>, x: Block, h: nat, bound: nat,
                           b: Address, from: nat, round: nat, i: nat)
    requires Final(w, n, seen, x, h, bound) && NoHeaderClash(w.crypto, seen) && NoVoteClash(w, n)
    requires b in n.nodes && CommitsLate(n.nodes[b], from, round) && round > bound
    requires from <= i < |n.nodes[b].committed|
    ensures i > h
  {
    hide NoHeaderClash, NoVoteClash, Certifies;
    assert CommitRound(n.nodes[b].committed[i]) >= round;
  }

  /** An honest node already past the round, with no block at the height, commits nothing more there. */
  lemma NothingBeside(w: World, past: seq<Action>, future: seq<Action>, backers: set<Address>,
                      x: Block, h: nat, bound: nat, b: Address)
    requires Tolerant(w) && LawfulRun(w, Start(w), past) && h > 0
    requires LawfulRun(w, RunNet(w, Start(w), past), future)
    requires Backers(w, RunNet(w, Start(w), past), backers, x, h, bound)
    requires var n0 := RunNet(w, Start(w), past);
      b in n0.nodes && 0 < |n0.nodes[b].committed| <= h && n0.nodes[b].round > bound
    requires var n := RunNet(w, RunNet(w, Start(w), past), future);
      && NoHeaderClash(w.crypto, Seen(w, Start(w), past) + Seen(w, RunNet(w, Start(w), past), future))
      && NoVoteClash(w, n)
    ensures var n0 := RunNet(w, Start(w), past);
      var n := RunNet(w, n0, future);
      b in n.nodes && n.nodes[b].committed == n0.nodes[b].committed
  {
    hide LawfulRun, RunNet, Seen, Supports, Backers, NoHeaderClash, NoVoteClash;
    SupportIsFinal(w, past, future, backers, x, h, bound);
    var n0 := RunNet(w, Start(w), past);
    var from := |n0.nodes[b].committed|;
    RunCommitsLate(w, n0, future, b, from, n0.nodes[b].round);
    var n := RunNet(w, n0, future);
    hide Final, CommitsLate;
    if from < |n.nodes[b].committed| {
      var seen := Seen(w, Start(w), past) + Seen(w, n0, future);
      LateCommitIsHigher(w, n, seen, x, h, bound, b, from, n0.nodes[b].round, from);
    }
  }

  // ---- commits of one round ----

  /** Two honest commits of one round are of one block; lawful nodes see to their certificates themselves. */
  lemma CommitAgreement(w: World, acts: seq<Action>, a: Address, i: nat, b: Address, j: nat)
    requires Tolerant(w) && LawfulRun(w, Start(w), acts) && NoVoteClash(w, RunNet(w, Start(w), acts))
    requires var n := RunNet(w, Start(w), acts);
      && a in n.nodes && b in n.nodes && 0 < i < |n.nodes[a].committed| && 0 < j < |n.nodes[b].committed|
      && CommitRound(n.nodes[a].committed[i]) == CommitRound(n.nodes[b].committed[j])
    ensures var n := RunNet(w, Start(w), acts);
      && BlockHash(w.crypto, n.nodes[a].committed[i]) == BlockHash(w.crypto, n.nodes[b].committed[j])
      && (NoHeaderClash(w.crypto, Seen(w, Start(w), acts)) ==>
            i == j && n.nodes[a].committed[i].header == n.nodes[b].committed[j].header)
  {
    hide Settled, LawfulRun, CanRun, RunNet, Seen, Start, Tolerant, NoVoteClash, HeaderBytes, VoteInputs;
    assert w.Valid() by { TolerantWorld(w); }
    StartIsSettled(w);
    RunSettles(w, Start(w), {}, acts);
    assert {} + Seen(w, Start(w), acts) == Seen(w, Start(w), acts);
    var n, seen := RunNet(w, Start(w), acts), Seen(w, Start(w), acts);
    CommittedBlock(w, n, seen, a, i);
    CommittedBlock(w, n, seen, b, j);
    var p, q := n.nodes[a].committed[i], n.nodes[b].committed[j];
    NoClashInCommits(w, n, a, i, b, j);
    LawfulCanRun(w, acts);
    QcAgreement(w, acts, p.qc.value, q.qc.value);
    if NoHeaderClash(w.crypto, seen) { Encoding.HeaderBytesInjective(p.header, q.header); }
  }

  lemma TolerantWorld(w: World)
    requires Tolerant(w)
    ensures w.Valid()
  {
  }

  lemma LawfulCanRun(w: World, acts: seq<Action>)
    requires LawfulRun(w, Start(w), acts)
    ensures CanRun(w, Start(w), acts)
  {
    hide LawfulAct;
  }

  lemma NoClashInCommits(w: World, n: Network, a: Address, i: nat, b: Address, j: nat)
    requires NoVoteClash(w, n) && a in n.nodes && 0 < i < |n.nodes[a].committed| && n.nodes[a].committed[i].qc.Some?
    requires b in n.nodes && 0 < j < |n.nodes[b].committed| && n.nodes[b].committed[j].qc.Some?
    ensures w.crypto.CollisionFreeOn(VoteInputs(n, n.nodes[a].committed[i].qc.value, n.nodes[b].committed[j].qc.value))
  {
    hide VotePreimage;
    var p, q := n.nodes[a].committed[i].qc.value, n.nodes[b].committed[j].qc.value;
    assert VoteInputs(n, p, q) <= CommitInputs(n);
  }
}
