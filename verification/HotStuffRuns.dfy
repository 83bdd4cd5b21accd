/**
  Whole runs of one HotStuff node: calls arrive in any order, with any arguments.
 */
module HotStuffRuns {
  import opened Wrappers
  import opened Bytes
  import opened Types
  import opened Quorum
  import opened HotStuff
  import Merkle

  datatype Event =
    | Proposing(transactions: seq<Transaction>, now: i64)
    | Proposal(block: Block)
    | Voting(vote: Vote, order: seq<string>)
    | Viewing(round: u64, qc: QuorumCert)

  ghost predicate Enabled(id: Identity, s: State, e: Event) {
    match e
    case Proposing(_, _) => id.config.validators != [] && s.committed != [] && MayPropose(id, s)
    case Voting(vote, order) => OrderFits(id, s, vote, order)
    case _ => true
  }

  ghost function Step(id: Identity, s: State, e: Event): Outcome
    requires Enabled(id, s, e)
  {
    match e
    case Proposing(transactions, now) => OnPropose(id, s, transactions, now)
    case Proposal(block) => OnHandlePropose(id, s, block)
    case Voting(vote, order) => OnHandleVote(id, s, vote, order)
    case Viewing(round, qc) => OnHandleNewView(id, s, round, qc)
  }

  ghost function Next(id: Identity, s: State, e: Event): State
    requires Enabled(id, s, e)
  {
    Step(id, s, e).state
  }

  ghost predicate Admissible(id: Identity, s: State, es: seq<Event>)
    decreases |es|
  {
    es != [] ==> Enabled(id, s, es[0]) && Admissible(id, Next(id, s, es[0]), es[1..])
  }

  ghost function Run(id: Identity, s: State, es: seq<Event>): State
    requires Admissible(id, s, es)
    decreases |es|
  {
    if es == [] then s else Run(id, Next(id, s, es[0]), es[1..])
  }

  /** The block a call makes pending, if any: a node's own proposal, or a proposal its lock lets through. */
  ghost function TakenUp(id: Identity, s: State, e: Event): Option<Block>
    requires Enabled(id, s, e)
  {
    match e
    case Proposing(transactions, now) => Some(ProposedBlock(id, s, transactions, now))
    case Proposal(block) => if PassesLock(s, block) then Some(block) else None
    case _ => None
  }

  /** Pending is the block taken up or the one there was, and a vote of this step names what is pending after it. */
  lemma StepSignsPending(id: Identity, s: State, e: Event)
    requires Enabled(id, s, e)
    ensures var t, taken := Next(id, s, e), TakenUp(id, s, e);
      && (t.pending.Some? ==> t.round == s.round && (t.pending == s.pending || t.pending == taken))
      && (taken.Some? ==> t.pending == taken && t.committed == s.committed)
    ensures var t, reply := Next(id, s, e), Step(id, s, e).reply;
      reply.Some? && reply.value.VoteMsg? ==>
        && t.pending.Some? && reply.value.vote == OwnVote(id, s, t.pending.value)
        && t.committed == s.committed && t.lockedQc == s.lockedQc && t.round == s.round
  {
    match e
    case Proposing(transactions, now) => { hide BlockHash, NewBlock; }
    case Proposal(block) => { hide BlockHash, VoteSigningBytes; }
    case Viewing(round, qc) => { hide BlockHash, VoteSigningBytes; }
    case Voting(vote, order) => {
      VoteEffect(id, s, vote, order);
      hide OnHandleVote, BlockHash;
    }
  }

  predicate NoVotes(s: State) {
    s.prepareVotes == map[] && s.precommitVotes == map[] && s.commitVotes == map[]
  }

  /** Attaching a certificate does not move a block's hash. */
  lemma CertifiedBlockKeepsHash(c: Crypto, block: Block, qc: QuorumCert)
    ensures BlockHash(c, block.(qc := Some(qc))) == BlockHash(c, block)
  {
  }

  // ---- what every step keeps ----

  /** Holds of every node, whatever it is sent. */
  ghost predicate Ordered(s: State) {
    && s.committed != [] && s.committed[0] == Genesis()
    && (s.lockedQc.Some? ==> s.lockedQc.value.round <= s.round)
  }

  /** Rounds and locks only grow, and committed blocks are never dropped or changed. */
  ghost predicate Grows(s: State, t: State) {
    && s.round <= t.round
    && (s.lockedQc.Some? ==> t.lockedQc.Some? && s.lockedQc.value.round <= t.lockedQc.value.round)
    && s.committed <= t.committed
  }

  lemma InsertOnlyAddsVotes(s: State, vote: Vote)
    ensures var t := Insert(s, vote);
      && t.round == s.round && t.phase == s.phase && t.lockedQc == s.lockedQc && t.highQc == s.highQc
      && t.committed == s.committed && t.pending == s.pending
  {
  }

  /** A completed phase stays in its round and announces a certificate of that round. */
  lemma EndPhaseEffect(s: State, qc: QuorumCert)
    ensures var t, reply := EndPhase(s, qc).state, EndPhase(s, qc).reply;
      && t.round == s.round && (t.pending == s.pending || t.pending == None)
      && (t.highQc == s.highQc || t.highQc == Some(qc))
      && (reply == None || reply == Some(NewView(s.round, qc)) || reply == Some(NewView(s.round + 1, qc)))
  {
  }

  lemma VoteEffect(id: Identity, s: State, vote: Vote, order: seq<string>)
    requires OrderFits(id, s, vote, order)
    ensures var t, reply := OnHandleVote(id, s, vote, order).state, OnHandleVote(id, s, vote, order).reply;
      && t.round == s.round && (t.pending == s.pending || t.pending == None)
      && (t.highQc == s.highQc || (t.highQc.Some? && t.highQc.value.round == s.round))
      && (reply == None ||
          (reply.value.NewView? && reply.value.qc.round == s.round && s.round <= reply.value.round <= s.round + 1))
  {
    hide Insert, EndPhase, VerifyVote;
    if Counts(id, s, vote) {
      InsertOnlyAddsVotes(s, vote);
      if Completes(id, s, vote) {
        EndPhaseEffect(Insert(s, vote), Certificate(VotesIn(Collected(s, vote), order), s.round));
      }
    }
  }

  lemma EndPhaseKeepsOrder(s: State, qc: QuorumCert)
    requires Ordered(s) && qc.round == s.round
    ensures Ordered(EndPhase(s, qc).state) && Grows(s, EndPhase(s, qc).state)
  {
  }

  lemma VoteKeepsOrder(id: Identity, s: State, vote: Vote, order: seq<string>)
    requires Ordered(s) && OrderFits(id, s, vote, order)
    ensures var t := OnHandleVote(id, s, vote, order).state; Ordered(t) && Grows(s, t)
  {
    hide Insert, EndPhase, VerifyVote;
    if Counts(id, s, vote) {
      InsertOnlyAddsVotes(s, vote);
      if Completes(id, s, vote) {
        EndPhaseKeepsOrder(Insert(s, vote), Certificate(VotesIn(Collected(s, vote), order), s.round));
      }
    }
  }

  lemma StepKeepsOrder(id: Identity, s: State, e: Event)
    requires Ordered(s) && Enabled(id, s, e)
    ensures Ordered(Next(id, s, e)) && Grows(s, Next(id, s, e))
  {
    hide OnHandleVote, BlockHash, NewBlock, VerifyVote;
    if e.Voting? { VoteKeepsOrder(id, s, e.vote, e.order); }
  }

  /** Locked round at most the current round, everything only grows: in every run, unconditionally. */
  lemma {:induction false} RunKeepsOrder(id: Identity, s: State, es: seq<Event>)
    requires Ordered(s) && Admissible(id, s, es)
    ensures Ordered(Run(id, s, es)) && Grows(s, Run(id, s, es))
    decreases |es|
  {
    if es == [] {
    } else {
      StepKeepsOrder(id, s, es[0]);
      RunKeepsOrder(id, Next(id, s, es[0]), es[1..]);
    }
  }

  /** The highest certificate's round goes back exactly when a prepare quorum closes in a round below it. */
  lemma HighRoundKeptIff(id: Identity, s: State, e: Event)
    requires Enabled(id, s, e)
    ensures HighRound(s) <= HighRound(Next(id, s, e)) <==>
            !(e.Voting? && s.phase == Prepare && Completes(id, s, e.vote) && HighRound(s) > s.round)
  {
    hide BlockHash, NewBlock, SignVote, VerifyVote, Insert;
    if e.Voting? && Counts(id, s, e.vote) { InsertOnlyAddsVotes(s, e.vote); }
  }

  /** A node votes for every block that passes its lock, so two blocks in one round get two votes of that round. */
  lemma TwoProposalsTwoVotes(id: Identity, s: State, a: Block, b: Block)
    requires PassesLock(s, a) && PassesLock(s, b) && BlockHash(id.crypto, a) != BlockHash(id.crypto, b)
    ensures var first := Step(id, s, Proposal(a));
      && var second := Step(id, first.state, Proposal(b));
      && first.reply.Some? && first.reply.value.VoteMsg? && second.reply.Some? && second.reply.value.VoteMsg?
      && first.reply.value.vote.round == second.reply.value.vote.round
      && first.reply.value.vote.voter == second.reply.value.vote.voter
      && first.reply.value.vote.blockHash != second.reply.value.vote.blockHash
  {
    hide BlockHash, VoteSigningBytes;
  }

  // ---- voting off the lock ----

  /** The lock, if there is one, is on the tip. */
  ghost predicate LockOnTip(c: Crypto, s: State)
    requires s.committed != []
  {
    s.lockedQc.Some? ==> s.lockedQc.value.blockHash == BlockHash(c, Tip(s))
  }

  /** The block a step signs, if any. */
  function SignedBlock(s: State, e: Event): Option<Block> {
    match e
    case Proposal(block) => if PassesLock(s, block) then Some(block) else None
    case Viewing(round, _) => if round <= s.round then s.pending else None
    case _ => None
  }

  /** It votes for that block, and votes in no other case. */
  lemma RepliesToSigned(id: Identity, s: State, e: Event)
    requires Enabled(id, s, e)
    ensures var block, reply := SignedBlock(s, e), Step(id, s, e).reply;
      && (reply.Some? && reply.value.VoteMsg? <==> block.Some?)
      && (block.Some? ==> reply == Some(VoteMsg(OwnVote(id, s, block.value))))
  {
    hide Insert, EndPhase, VerifyVote, BlockHash, NewBlock, SignVote;
    if e.Voting? { VoteEffect(id, s, e.vote, e.order); }
  }

  /** A step signs a block off the lock exactly when a view change of no later round finds such a block pending. */
  lemma SignsOffLockIff(id: Identity, s: State, e: Event)
    requires Enabled(id, s, e)
    ensures SignedBlock(s, e).Some? ==> Step(id, s, e).reply == Some(VoteMsg(OwnVote(id, s, SignedBlock(s, e).value)))
    ensures SignedBlock(s, e).Some? && !PassesLock(s, SignedBlock(s, e).value) <==>
            && e.Viewing? && e.round <= s.round && s.pending.Some? && s.lockedQc.Some?
            && s.pending.value.header.parentHash != s.lockedQc.value.blockHash
  {
    hide Step, BlockHash, Enabled;
    RepliesToSigned(id, s, e);
  }

  ghost predicate PendingOffLock(s: State) {
    s.pending.Some? && !PassesLock(s, s.pending.value)
  }

  /** The certificate with which this vote would lock the node. */
  ghost predicate LocksOffParent(id: Identity, s: State, vote: Vote, order: seq<string>)
    requires OrderFits(id, s, vote, order)
  {
    && Completes(id, s, vote) && s.phase == PreCommit && s.pending.Some?
    && s.pending.value.header.parentHash != Certificate(VotesIn(Collected(s, vote), order), s.round).blockHash
  }

  /**
    A block comes to be pending off the lock in two ways: a leader locked off its tip
    proposes, which consults no lock; or the lock moves, as it does to the pending block itself.
   */
  lemma PendingOffLockIff(id: Identity, s: State, e: Event)
    requires Enabled(id, s, e) && !PendingOffLock(s)
    ensures PendingOffLock(Next(id, s, e)) <==>
            || (e.Proposing? && s.lockedQc.Some? && s.lockedQc.value.blockHash != BlockHash(id.crypto, Tip(s)))
            || (e.Voting? && LocksOffParent(id, s, e.vote, e.order))
  {
    hide BlockHash, VerifyVote, Insert, SignVote, Certificate, VotesIn, Merkle.Root;
    if e.Voting? && Counts(id, s, e.vote) { InsertOnlyAddsVotes(s, e.vote); }
  }

  /** A locked leader can propose off its lock and then, on a view change of its round, sign that block. */
  lemma LeaderSignsOffLock(id: Identity, s: State, transactions: seq<Transaction>, now: i64, qc: QuorumCert)
    requires id.config.validators != [] && s.committed != [] && MayPropose(id, s)
    requires s.lockedQc.Some? && s.lockedQc.value.blockHash != BlockHash(id.crypto, Tip(s))
    ensures var block := ProposedBlock(id, s, transactions, now);
      var t := Next(id, s, Proposing(transactions, now));
      && !PassesLock(t, block) && Step(id, t, Viewing(s.round, qc)).reply == Some(VoteMsg(OwnVote(id, t, block)))
  {
    hide BlockHash, SignVote, Merkle.Root;
  }

  // ---- calls without view changes ----

  /** The two calls the running node makes. */
  predicate IsProposalOrVote(e: Event) {
    e.Proposal? || e.Voting?
  }

  lemma StepWithoutViews(id: Identity, s: State, e: Event)
    requires Enabled(id, s, e) && IsProposalOrVote(e)
    ensures var t := Next(id, s, e);
      && t.round == s.round && (s.phase == Decide ==> t.phase == Decide && t.committed == s.committed)
      && (t.committed == s.committed || (|t.committed| == |s.committed| + 1 && t.phase == Decide))
  {
    hide BlockHash, VerifyVote, Insert, SignVote, Certificate, VotesIn;
    if e.Voting? && Counts(id, s, e.vote) { InsertOnlyAddsVotes(s, e.vote); }
  }

  /** Fed only proposals and votes a node commits at most once, and then stays decided in its round for good. */
  lemma {:induction false} WithoutViewsOneCommit(id: Identity, s: State, es: seq<Event>)
    requires Admissible(id, s, es) && forall i | 0 <= i < |es| :: IsProposalOrVote(es[i])
    ensures var t := Run(id, s, es);
      && t.round == s.round && |s.committed| <= |t.committed| <= |s.committed| + 1
      && (|t.committed| > |s.committed| || s.phase == Decide ==> t.phase == Decide)
      && (s.phase == Decide ==> t.committed == s.committed)
    decreases |es|
  {
    if es == [] {
    } else {
      StepWithoutViews(id, s, es[0]);
      hide Step, Enabled;
      WithoutViewsOneCommit(id, Next(id, s, es[0]), es[1..]);
    }
  }

  // ---- the committed chain ----

  ghost predicate Extends(c: Crypto, block: Block, tip: Block) {
    block.header.parentHash == BlockHash(c, tip) && block.header.height == tip.header.height + 1
  }

  ghost predicate Linked(c: Crypto, chain: seq<Block>) {
    && chain != [] && chain[0] == Genesis()
    && (forall i | 0 <= i < |chain| :: chain[i].header.height == i)
    && (forall i | 0 < i < |chain| :: chain[i].header.parentHash == BlockHash(c, chain[i - 1]))
  }

  /** The chain is linked, and so it will stay when the pending block joins it. */
  ghost predicate ChainSound(c: Crypto, s: State) {
    Linked(c, s.committed) && (s.pending.Some? ==> Extends(c, s.pending.value, Tip(s)))
  }

  /** A proposal the node would take up extends its tip. */
  ghost predicate OnTip(id: Identity, s: State, e: Event) {
    e.Proposal? && PassesLock(s, e.block) && s.committed != [] ==> Extends(id.crypto, e.block, Tip(s))
  }

  lemma LinkedSnoc(c: Crypto, chain: seq<Block>, block: Block, qc: QuorumCert)
    requires Linked(c, chain) && Extends(c, block, chain[|chain| - 1])
    ensures Linked(c, chain + [block.(qc := Some(qc))])
  {
  }

  lemma EndPhaseKeepsChain(c: Crypto, s: State, qc: QuorumCert)
    requires ChainSound(c, s)
    ensures ChainSound(c, EndPhase(s, qc).state)
  {
    hide BlockHash;
    if s.phase == Commit && s.pending.Some? {
      LinkedSnoc(c, s.committed, s.pending.value, qc);
    }
  }

  lemma VoteKeepsChain(id: Identity, s: State, vote: Vote, order: seq<string>)
    requires ChainSound(id.crypto, s) && OrderFits(id, s, vote, order)
    ensures ChainSound(id.crypto, OnHandleVote(id, s, vote, order).state)
  {
    hide Insert, EndPhase, VerifyVote, BlockHash;
    if Counts(id, s, vote) {
      InsertOnlyAddsVotes(s, vote);
      if Completes(id, s, vote) {
        EndPhaseKeepsChain(id.crypto, Insert(s, vote), Certificate(VotesIn(Collected(s, vote), order), s.round));
      }
    }
  }

  /** Proposals on the tip are exactly what keeps the chain sound. */
  lemma StepKeepsChainIff(id: Identity, s: State, e: Event)
    requires ChainSound(id.crypto, s) && Enabled(id, s, e)
    ensures ChainSound(id.crypto, Next(id, s, e)) <==> OnTip(id, s, e)
  {
    hide OnHandleVote, BlockHash;
    if e.Voting? { VoteKeepsChain(id, s, e.vote, e.order); }
  }

  ghost predicate AllOnTip(id: Identity, s: State, es: seq<Event>)
    requires Admissible(id, s, es)
    decreases |es|
  {
    es != [] ==> OnTip(id, s, es[0]) && AllOnTip(id, Next(id, s, es[0]), es[1..])
  }

  ghost predicate SoundThroughout(id: Identity, s: State, es: seq<Event>)
    requires Admissible(id, s, es)
    decreases |es|
  {
    ChainSound(id.crypto, s) && (es != [] ==> SoundThroughout(id, Next(id, s, es[0]), es[1..]))
  }

  /** In every run from a sound state the chain stays linked throughout, iff all proposals are on the tip. */
  lemma {:induction false} ChainLinkedIff(id: Identity, s: State, es: seq<Event>)
    requires ChainSound(id.crypto, s) && Admissible(id, s, es)
    ensures SoundThroughout(id, s, es) <==> AllOnTip(id, s, es)
    decreases |es|
  {
    if es == [] {
    } else {
      StepKeepsChainIff(id, s, es[0]);
      if OnTip(id, s, es[0]) {
        ChainLinkedIff(id, Next(id, s, es[0]), es[1..]);
      }
    }
  }

  lemma StepKeepsCommitted(id: Identity, s: State, e: Event)
    requires s.committed != [] && Enabled(id, s, e)
    ensures s.committed <= Next(id, s, e).committed
  {
    hide OnHandleVote, BlockHash, NewBlock, SignVote;
    if e.Voting? { VoteKeepsCommitted(id, s, e.vote, e.order); }
  }

  lemma VoteKeepsCommitted(id: Identity, s: State, vote: Vote, order: seq<string>)
    requires OrderFits(id, s, vote, order)
    ensures s.committed <= OnHandleVote(id, s, vote, order).state.committed
  {
    hide Insert, EndPhase, VerifyVote, Certificate;
    if Counts(id, s, vote) {
      InsertOnlyAddsVotes(s, vote);
      if Completes(id, s, vote) {
        EndPhaseKeepsCommitted(Insert(s, vote), Certificate(VotesIn(Collected(s, vote), order), s.round));
      }
    }
  }

  lemma EndPhaseKeepsCommitted(s: State, qc: QuorumCert)
    ensures s.committed <= EndPhase(s, qc).state.committed
  {
  }

  /** From the start: heights are positions, every parent hash is that of the predecessor, nothing is lost. */
  lemma {:induction false} CommittedChainIsLinked(id: Identity, s: State, es: seq<Event>)
    requires ChainSound(id.crypto, s) && Admissible(id, s, es) && AllOnTip(id, s, es)
    ensures Linked(id.crypto, Run(id, s, es).committed)
    ensures s.committed <= Run(id, s, es).committed
    decreases |es|
  {
    if es == [] {
    } else {
      hide Linked;
      StepKeepsChainIff(id, s, es[0]);
      StepKeepsCommitted(id, s, es[0]);
      CommittedChainIsLinked(id, Next(id, s, es[0]), es[1..]);
    }
  }

  lemma InitIsSound(id: Identity)
    ensures ChainSound(id.crypto, Init()) && Ordered(Init())
  {
  }

  // ---- certificates and map order ----

  lemma {:induction false} EnumerationFrom(first: string, keys: set<string>) returns (order: seq<string>)
    requires first in keys
    ensures order != [] && order[0] == first
    ensures forall i, j | 0 <= i < j < |order| :: order[i] != order[j]
    ensures forall k :: k in order <==> k in keys
    decreases keys
  {
    if keys == {first} {
      order := [first];
    } else {
      assert exists k :: k in keys - {first} by {
        assert keys == (keys - {first}) + {first};
      }
      var second :| second in keys - {first};
      var rest := EnumerationFrom(second, keys - {first});
      order := [first] + rest;
    }
  }

  /** A certificate's hash depends on the listing order unless all votes held name one hash. */
  lemma CertificateHashFixedIff(m: VoteMap, round: u64)
    requires m != map[]
    ensures (forall o, p | Enumerates(o, m) && Enumerates(p, m) ::
               Certificate(VotesIn(m, o), round).blockHash == Certificate(VotesIn(m, p), round).blockHash)
       <==> (forall k, l | k in m && l in m :: m[k].blockHash == m[l].blockHash)
  {
    if forall k, l | k in m && l in m :: m[k].blockHash == m[l].blockHash {
      forall o, p | Enumerates(o, m) && Enumerates(p, m)
        ensures Certificate(VotesIn(m, o), round).blockHash == Certificate(VotesIn(m, p), round).blockHash
      {
        var k :| k in m;
        assert k in o && k in p;
        assert o[0] in m && p[0] in m;
      }
    } else {
      var k, l :| k in m && l in m && m[k].blockHash != m[l].blockHash;
      var o := EnumerationFrom(k, m.Keys);
      var p := EnumerationFrom(l, m.Keys);
      assert Enumerates(o, m) && Enumerates(p, m);
      assert Certificate(VotesIn(m, o), round).blockHash == m[k].blockHash;
      assert Certificate(VotesIn(m, p), round).blockHash == m[l].blockHash;
    }
  }
}
