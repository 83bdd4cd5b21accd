/**
  What a node keeps while its caller abides by three rules it can check before each
  call: proposals taken up extend the tip, votes and replacements are screened, and the
  node's own proposals respect its lock as those of others must.
 */
module Lawful {
  import opened Wrappers
  import opened Bytes
  import opened Types
  import opened HotStuff
  import opened HotStuffRuns
  import opened CommitBacking

  ghost predicate Abides(id: Identity, s: State, e: Event)
    requires Enabled(id, s, e)
  {
    && OnTip(id, s, e) && Screened(id, s, e)
    && (e.Proposing? ==> PassesLock(s, ProposedBlock(id, s, e.transactions, e.now)))
  }

  ghost predicate LockedAs(s: State, hash: Digest, round: u64) {
    s.lockedQc.Some? && s.lockedQc.value.blockHash == hash && s.lockedQc.value.round == round
  }

  /** About to commit, or locked off its tip, a node has nothing pending but the block it locked on in this round. */
  ghost predicate LockTraced(c: Crypto, s: State)
    requires s.committed != []
  {
    s.pending.Some? && (s.phase == Commit || !LockOnTip(c, s)) ==>
      LockedAs(s, BlockHash(c, s.pending.value), s.round)
  }

  ghost predicate LawfulNode(id: Identity, s: State) {
    && Ordered(s) && ChainSound(id.crypto, s) && HeldMatch(id, s) && PhasesEarned(id, s) && LockTraced(id.crypto, s)
  }

  lemma InitIsLawful(id: Identity)
    ensures LawfulNode(id, Init())
  {
  }

  /** A block taken up lawfully extends the tip, and a node that takes one up is not locked off its tip. */
  lemma TakenUpOnTip(id: Identity, s: State, e: Event)
    requires s.committed != [] && Enabled(id, s, e) && Abides(id, s, e) && TakenUp(id, s, e).Some?
    ensures Extends(id.crypto, TakenUp(id, s, e).value, Tip(s)) && LockOnTip(id.crypto, s)
  {
    hide BlockHash, Screened;
  }

  // ---- votes ----

  lemma InsertIsLawful(id: Identity, s: State, vote: Vote)
    requires LawfulNode(id, s) && Counts(id, s, vote)
    requires s.pending.Some? && Matches(id, vote, s.pending.value, s.round)
    ensures LawfulNode(id, Insert(s, vote)) && HeldNonempty(Insert(s, vote))
    ensures AllMatch(id, Collected(s, vote), s.pending.value, s.round)
  {
    hide VerifyVote, VoterKey, Matches, BlockHash, Linked, Extends;
    InsertOnlyAddsVotes(s, vote);
    InsertedSize(Held(s, s.phase), VoterKey(vote), vote);
    var t := Insert(s, vote);
    assert VoterKey(vote) in Held(t, t.phase);
  }

  predicate HeldNonempty(s: State) {
    !NoVotes(s)
  }

  /** A certificate formed of matching votes is for the pending block and the current round. */
  lemma MatchingCertificate(id: Identity, m: VoteMap, order: seq<string>, block: Block, round: u64)
    requires m != map[] && Enumerates(order, m) && AllMatch(id, m, block, round)
    ensures Certificate(VotesIn(m, order), round).blockHash == BlockHash(id.crypto, block)
  {
    hide BlockHash, VoterKey;
    var k :| k in m;
    assert k in order;
    assert order[0] in m && Matches(id, m[order[0]], block, round);
  }

  /** Ending a phase with such a certificate keeps a node lawful; the lock moves only to the pending block. */
  lemma EndPhaseIsLawful(id: Identity, s: State, qc: QuorumCert)
    requires LawfulNode(id, s) && s.pending.Some? && HeldNonempty(s) && s.phase != Decide
    requires |Held(s, s.phase)| >= id.config.QuorumSize()
    requires qc.blockHash == BlockHash(id.crypto, s.pending.value) && qc.round == s.round
    ensures LawfulNode(id, EndPhase(s, qc).state)
  {
    EndPhaseKeepsOrder(s, qc);
    EndPhaseKeepsChain(id.crypto, s, qc);
    hide BlockHash, Linked, Extends, AllMatch;
    if s.phase == Commit { CertifiedBlockKeepsHash(id.crypto, s.pending.value, qc); }
  }

  lemma VoteIsLawful(id: Identity, s: State, vote: Vote, order: seq<string>)
    requires LawfulNode(id, s) && OrderFits(id, s, vote, order)
    requires Counts(id, s, vote) ==> s.pending.Some? && Matches(id, vote, s.pending.value, s.round)
    ensures LawfulNode(id, OnHandleVote(id, s, vote, order).state)
  {
    hide LawfulNode, Insert, EndPhase, VerifyVote, Matches, AllMatch, Certificate, VotesIn, BlockHash;
    if Counts(id, s, vote) {
      InsertIsLawful(id, s, vote);
      InsertOnlyAddsVotes(s, vote);
      if Completes(id, s, vote) {
        assert VoterKey(vote) in Collected(s, vote);
        MatchingCertificate(id, Collected(s, vote), order, s.pending.value, s.round);
        CertificateRound(VotesIn(Collected(s, vote), order), s.round);
        HeldAfterInsert(s, vote);
        EndPhaseIsLawful(id, Insert(s, vote), Certificate(VotesIn(Collected(s, vote), order), s.round));
      }
    }
  }

  lemma CertificateRound(votes: seq<Vote>, round: u64)
    ensures Certificate(votes, round).round == round && Certificate(votes, round).votes == votes
  {
  }

  lemma HeldAfterInsert(s: State, vote: Vote)
    requires s.phase != Decide
    ensures Held(Insert(s, vote), s.phase) == Collected(s, vote) && Insert(s, vote).phase == s.phase
  {
    hide VoterKey;
  }

  // ---- every step ----

  lemma ReplaceIsLawful(id: Identity, s: State, block: Block, phase: Phase)
    requires LawfulNode(id, s) && MayReplacePending(id, s, block) && Extends(id.crypto, block, Tip(s))
    requires LockOnTip(id.crypto, s) && (phase == s.phase || phase == Prepare)
    ensures LawfulNode(id, s.(pending := Some(block), phase := phase))
  {
    hide BlockHash, Linked, Extends;
  }

  lemma TakingUpIsLawful(id: Identity, s: State, e: Event)
    requires LawfulNode(id, s) && Enabled(id, s, e) && Abides(id, s, e) && (e.Proposing? || e.Proposal?)
    ensures LawfulNode(id, Next(id, s, e))
  {
    hide LawfulNode, BlockHash, NewBlock, Extends, SignVote, VerifyVote;
    if TakenUp(id, s, e).Some? {
      assert s.committed != [] by { NodeHasChain(id, s); }
      TakenUpOnTip(id, s, e);
      ReplaceIsLawful(id, s, TakenUp(id, s, e).value, if e.Proposing? then Prepare else s.phase);
    }
  }

  lemma NodeHasChain(id: Identity, s: State)
    requires LawfulNode(id, s)
    ensures s.committed != [] && Linked(id.crypto, s.committed)
  {
    hide BlockHash;
  }

  lemma ViewIsLawful(id: Identity, s: State, round: u64, qc: QuorumCert)
    requires LawfulNode(id, s)
    ensures LawfulNode(id, OnHandleNewView(id, s, round, qc).state)
  {
    hide BlockHash, SignVote, Linked, Extends, AllMatch;
  }

  /** Abiding by the rules keeps a node lawful, whatever it is sent. */
  lemma StepIsLawful(id: Identity, s: State, e: Event)
    requires LawfulNode(id, s) && Enabled(id, s, e) && Abides(id, s, e)
    ensures LawfulNode(id, Next(id, s, e))
  {
    hide LawfulNode, OnHandleVote, OnHandleNewView;
    match e
    case Voting(vote, order) => VoteIsLawful(id, s, vote, order);
    case Viewing(round, qc) => ViewIsLawful(id, s, round, qc);
    case _ => TakingUpIsLawful(id, s, e);
  }

  // ---- standing behind a block ----

  /**
    A node stands behind `x` at height `h` when it has committed it there, or is
    locked on it with its tip just below; in either case by a certificate of a round
    no later than `bound`.
   */
  ghost predicate Supports(c: Crypto, s: State, x: Block, h: nat, bound: nat) {
    || (h < |s.committed| && BlockHash(c, s.committed[h]) == BlockHash(c, x)
        && s.committed[h].qc.Some? && s.committed[h].qc.value.round <= bound)
    || (|s.committed| == h > 0 && !LockOnTip(c, s)
        && s.lockedQc.value.blockHash == BlockHash(c, x) && s.lockedQc.value.round <= bound)
  }

  lemma EndPhaseKeepsSupport(id: Identity, s: State, qc: QuorumCert, x: Block, h: nat, bound: nat)
    requires LawfulNode(id, s) && s.pending.Some? && s.phase != Decide && Supports(id.crypto, s, x, h, bound)
    requires qc.blockHash == BlockHash(id.crypto, s.pending.value) && qc.round == s.round
    ensures Supports(id.crypto, EndPhase(s, qc).state, x, h, bound)
  {
    hide BlockHash, Linked, Extends, AllMatch;
    if s.phase == Commit { CertifiedBlockKeepsHash(id.crypto, s.pending.value, qc); }
  }

  lemma VoteKeepsSupport(id: Identity, s: State, vote: Vote, order: seq<string>, x: Block, h: nat, bound: nat)
    requires LawfulNode(id, s) && OrderFits(id, s, vote, order) && Supports(id.crypto, s, x, h, bound)
    requires Counts(id, s, vote) ==> s.pending.Some? && Matches(id, vote, s.pending.value, s.round)
    ensures Supports(id.crypto, OnHandleVote(id, s, vote, order).state, x, h, bound)
  {
    hide LawfulNode, Insert, EndPhase, VerifyVote, Matches, AllMatch, Certificate, VotesIn, BlockHash;
    if Counts(id, s, vote) {
      InsertIsLawful(id, s, vote);
      InsertOnlyAddsVotes(s, vote);
      if Completes(id, s, vote) {
        assert VoterKey(vote) in Collected(s, vote);
        MatchingCertificate(id, Collected(s, vote), order, s.pending.value, s.round);
        CertificateRound(VotesIn(Collected(s, vote), order), s.round);
        var qc := Certificate(VotesIn(Collected(s, vote), order), s.round);
        EndPhaseKeepsSupport(id, Insert(s, vote), qc, x, h, bound);
      }
    }
  }

  lemma OtherStepsKeepLock(id: Identity, s: State, e: Event)
    requires Enabled(id, s, e) && !e.Voting?
    ensures Next(id, s, e).committed == s.committed && Next(id, s, e).lockedQc == s.lockedQc
  {
    hide BlockHash, SignVote, NewBlock;
  }

  /** Support once given is never withdrawn. */
  lemma StepKeepsSupport(id: Identity, s: State, e: Event, x: Block, h: nat, bound: nat)
    requires LawfulNode(id, s) && Enabled(id, s, e) && Abides(id, s, e) && Supports(id.crypto, s, x, h, bound)
    ensures Supports(id.crypto, Next(id, s, e), x, h, bound)
  {
    hide LawfulNode, OnHandleVote;
    if e.Voting? {
      VoteKeepsSupport(id, s, e.vote, e.order, x, h, bound);
    } else {
      hide Step, Enabled, BlockHash;
      OtherStepsKeepLock(id, s, e);
    }
  }
}
