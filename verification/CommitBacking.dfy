/**
  What stands behind a committed block: the votes of three quorums.

  `Audit` is bookkeeping beside the node: every vote that was ever counted, and
  for every commit the three vote maps it was made with.
 */
module CommitBacking {
  import opened Wrappers
  import opened Bytes
  import opened Types
  import opened Quorum
  import opened HotStuff
  import opened HotStuffRuns
  import Encoding
  import Merkle

  datatype Backing = Backing(prepare: VoteMap, precommit: VoteMap, commit: VoteMap, order: seq<string>, round: u64)

  datatype Audit = Audit(counted: seq<Vote>, backings: seq<Backing>)

  predicate Commits(id: Identity, s: State, vote: Vote) {
    Completes(id, s, vote) && s.phase == Commit && s.pending.Some?
  }

  function Record(id: Identity, s: State, a: Audit, vote: Vote, order: seq<string>): Audit {
    if !Counts(id, s, vote) then a
    else Audit(a.counted + [vote],
               if Commits(id, s, vote)
               then a.backings + [Backing(s.prepareVotes, s.precommitVotes, Collected(s, vote), order, s.round)]
               else a.backings)
  }

  function NextAudit(id: Identity, s: State, a: Audit, e: Event): Audit {
    if e.Voting? then Record(id, s, a, e.vote, e.order) else a
  }

  ghost function RunAudit(id: Identity, s: State, a: Audit, es: seq<Event>): Audit
    requires Admissible(id, s, es)
    decreases |es|
  {
    if es == [] then a else RunAudit(id, Next(id, s, es[0]), NextAudit(id, s, a, es[0]), es[1..])
  }

  // ---- three quorums behind every commit, in every run ----

  /** Votes counted, each under its own voter, whose key accepts the signature over block hash and round. */
  ghost predicate Genuine(id: Identity, m: VoteMap, counted: seq<Vote>) {
    forall k | k in m ::
      && VoterKey(m[k]) == k && m[k] in counted
      && id.crypto.accepts(m[k].voter, id.crypto.hash(VotePreimage(m[k].blockHash, m[k].round)), m[k].signature)
  }

  ghost predicate QuorumOf(id: Identity, m: VoteMap, counted: seq<Vote>) {
    Genuine(id, m, counted) && |m| >= id.config.QuorumSize()
  }

  ghost predicate Backs(id: Identity, b: Backing, block: Block, counted: seq<Vote>) {
    && QuorumOf(id, b.prepare, counted)
    && QuorumOf(id, b.precommit, counted)
    && QuorumOf(id, b.commit, counted)
    && Enumerates(b.order, b.commit)
    && block.qc == Some(Certificate(VotesIn(b.commit, b.order), b.round))
  }

  function HeldVotes(s: State): nat {
    |s.prepareVotes| + |s.precommitVotes| + |s.commitVotes|
  }

  ghost predicate PhasesEarned(id: Identity, s: State) {
    && (s.phase == PreCommit || s.phase == Commit ==> |s.prepareVotes| >= id.config.QuorumSize())
    && (s.phase == Commit ==> |s.precommitVotes| >= id.config.QuorumSize())
  }

  ghost predicate HeldGenuine(id: Identity, s: State, counted: seq<Vote>) {
    && Genuine(id, s.prepareVotes, counted)
    && Genuine(id, s.precommitVotes, counted)
    && Genuine(id, s.commitVotes, counted)
  }

  ghost predicate CommitsBacked(id: Identity, s: State, a: Audit) {
    && |s.committed| == |a.backings| + 1
    && forall i | 0 <= i < |a.backings| :: Backs(id, a.backings[i], s.committed[i + 1], a.counted)
  }

  /** No vote is spent twice: commits use up three quorums' worth of counted votes each. */
  ghost predicate Paid(id: Identity, s: State, a: Audit) {
    3 * id.config.QuorumSize() * |a.backings| + HeldVotes(s) <= |a.counted|
  }

  ghost predicate Backed(id: Identity, s: State, a: Audit) {
    PhasesEarned(id, s) && HeldGenuine(id, s, a.counted) && CommitsBacked(id, s, a) && Paid(id, s, a)
  }

  lemma CountingMore(id: Identity, s: State, a: Audit, vote: Vote)
    requires CommitsBacked(id, s, a) && HeldGenuine(id, s, a.counted)
    ensures CommitsBacked(id, s, a.(counted := a.counted + [vote])) && HeldGenuine(id, s, a.counted + [vote])
  {
    hide VotePreimage, Enumerates, Certificate, VotesIn, VoterKey;
    forall i | 0 <= i < |a.backings|
      ensures Backs(id, a.backings[i], s.committed[i + 1], a.counted + [vote])
    {
      var b := a.backings[i];
      assert Backs(id, b, s.committed[i + 1], a.counted);
    }
  }

  lemma CountedIsGenuine(id: Identity, m: VoteMap, counted: seq<Vote>, vote: Vote)
    requires Genuine(id, m, counted) && VerifyVote(id.crypto, vote) && vote in counted
    ensures Genuine(id, m[VoterKey(vote) := vote], counted)
  {
    Encoding.VoteVerifiesIff(id.crypto, vote);
    hide VerifyVote, VoterKey, VotePreimage;
  }

  lemma InsertKeepsBacking(id: Identity, s: State, a: Audit, vote: Vote)
    requires Backed(id, s, a) && Counts(id, s, vote)
    ensures Backed(id, Insert(s, vote), a.(counted := a.counted + [vote]))
  {
    hide VerifyVote, VoterKey, Genuine;
    var t := Insert(s, vote);
    CountingMore(id, s, a, vote);
    var m := Held(s, s.phase);
    CountedIsGenuine(id, m, a.counted + [vote], vote);
    InsertedSize(m, VoterKey(vote), vote);
    assert HeldVotes(t) - HeldVotes(s) == |Collected(s, vote)| - |m|;
  }

  lemma InsertedSize(m: VoteMap, k: string, vote: Vote)
    ensures |m| <= |m[k := vote]| <= |m| + 1
  {
    assert m[k := vote].Keys == m.Keys + {k};
    if k !in m { assert |m.Keys + {k}| == |m.Keys| + 1; }
  }

  lemma EndPhaseKeepsBacking(id: Identity, s: State, a: Audit, order: seq<string>)
    requires Backed(id, s, a) && s.phase != Decide
    requires |Held(s, s.phase)| >= id.config.QuorumSize() && Enumerates(order, Held(s, s.phase))
    ensures var t := EndPhase(s, Certificate(VotesIn(Held(s, s.phase), order), s.round)).state;
      var b := if s.phase == Commit && s.pending.Some?
               then a.(backings := a.backings
                         + [Backing(s.prepareVotes, s.precommitVotes, s.commitVotes, order, s.round)])
               else a;
      Backed(id, t, b)
  {
    hide Certificate, VotesIn, Genuine;
    NoneIsGenuine(id, a.counted);
    if s.phase == Commit && s.pending.Some? {
      var q := id.config.QuorumSize();
      var n := |a.backings|;
      assert 3 * q * (n + 1) == 3 * q * n + 3 * q;
    }
  }

  lemma NoneIsGenuine(id: Identity, counted: seq<Vote>)
    ensures Genuine(id, map[], counted)
  {
  }

  lemma VoteKeepsBacking(id: Identity, s: State, a: Audit, vote: Vote, order: seq<string>)
    requires Backed(id, s, a) && OrderFits(id, s, vote, order)
    ensures Backed(id, OnHandleVote(id, s, vote, order).state, Record(id, s, a, vote, order))
  {
    hide VerifyVote, Backed, EndPhase;
    if Counts(id, s, vote) {
      InsertKeepsBacking(id, s, a, vote);
      if Completes(id, s, vote) {
        EndPhaseKeepsBacking(id, Insert(s, vote), a.(counted := a.counted + [vote]), order);
      }
    }
  }

  lemma OtherStepsKeepVotes(id: Identity, s: State, e: Event)
    requires Enabled(id, s, e) && !e.Voting?
    ensures var t := Next(id, s, e);
      && t.committed == s.committed
      && ((NoVotes(t) && t.phase == Prepare)
          || (t.prepareVotes == s.prepareVotes && t.precommitVotes == s.precommitVotes
              && t.commitVotes == s.commitVotes && (t.phase == s.phase || t.phase == Prepare)))
  {
    hide BlockHash, NewBlock, SignVote;
  }

  lemma StepKeepsBacking(id: Identity, s: State, a: Audit, e: Event)
    requires Backed(id, s, a) && Enabled(id, s, e)
    ensures Backed(id, Next(id, s, e), NextAudit(id, s, a, e))
  {
    if e.Voting? {
      hide Backed, OnHandleVote, Record;
      VoteKeepsBacking(id, s, a, e.vote, e.order);
    } else {
      hide Step, Enabled, Genuine, Backs;
      NoneIsGenuine(id, a.counted);
      OtherStepsKeepVotes(id, s, e);
    }
  }

  /** Every commit is backed by three quorums of verified votes, and no vote pays twice: in every run. */
  lemma {:induction false} RunKeepsBacking(id: Identity, s: State, a: Audit, es: seq<Event>)
    requires Backed(id, s, a) && Admissible(id, s, es)
    ensures Backed(id, Run(id, s, es), RunAudit(id, s, a, es))
    decreases |es|
  {
    if es == [] {
    } else {
      StepKeepsBacking(id, s, a, es[0]);
      RunKeepsBacking(id, Next(id, s, es[0]), NextAudit(id, s, a, es[0]), es[1..]);
    }
  }

  lemma InitIsBacked(id: Identity)
    ensures Backed(id, Init(), Audit([], []))
  {
  }

  // ---- distinct voters ----

  ghost function Voters(m: VoteMap): set<Address> {
    set k | k in m :: m[k].voter
  }

  /** A map of genuine votes holds as many votes as it has voters. */
  lemma {:induction false} VotersAreDistinct(m: VoteMap)
    requires forall k | k in m :: VoterKey(m[k]) == k
    ensures |Voters(m)| == |m|
    decreases |m|
  {
    if m == map[] {
    } else {
      var k :| k in m;
      var rest := m - {k};
      VotersAreDistinct(rest);
      assert m.Keys == rest.Keys + {k};
      assert Voters(m) == Voters(rest) + {m[k].voter};
      assert forall l | l in rest :: VoterKey(rest[l]) != VoterKey(m[k]);
      assert m[k].voter !in Voters(rest);
    }
  }

  // ---- when the quorums are validators voting for the block ----

  /** A validator's vote for this block in this round. */
  predicate Matches(id: Identity, vote: Vote, block: Block, round: u64) {
    vote.blockHash == BlockHash(id.crypto, block) && vote.round == round && vote.voter in id.config.Members()
  }

  ghost predicate AllMatch(id: Identity, m: VoteMap, block: Block, round: u64) {
    forall k | k in m :: Matches(id, m[k], block, round)
  }

  ghost predicate HeldMatch(id: Identity, s: State) {
    NoVotes(s) || (s.pending.Some?
      && AllMatch(id, s.prepareVotes, s.pending.value, s.round)
      && AllMatch(id, s.precommitVotes, s.pending.value, s.round)
      && AllMatch(id, s.commitVotes, s.pending.value, s.round))
  }

  ghost predicate BackingMatches(id: Identity, b: Backing, block: Block) {
    AllMatch(id, b.prepare, block, b.round) && AllMatch(id, b.precommit, block, b.round)
    && AllMatch(id, b.commit, block, b.round)
  }

  /** Every vote held is a validator's vote for the pending block, and so was every vote behind a commit. */
  ghost predicate Proper(id: Identity, s: State, a: Audit) {
    && HeldMatch(id, s)
    && |s.committed| == |a.backings| + 1
    && forall i | 0 <= i < |a.backings| :: BackingMatches(id, a.backings[i], s.committed[i + 1])
  }

  predicate MayReplacePending(id: Identity, s: State, block: Block) {
    NoVotes(s) || (s.pending.Some? && BlockHash(id.crypto, block) == BlockHash(id.crypto, s.pending.value))
  }

  /**
    What a caller can check before a call: a vote is a validator's vote for the
    pending block in the current round, and a new block replaces the pending one
    only while no votes are held for it.
   */
  predicate Screened(id: Identity, s: State, e: Event)
    requires e.Proposing? ==> id.config.validators != [] && s.committed != [] && MayPropose(id, s)
  {
    match e
    case Proposing(transactions, now) => MayReplacePending(id, s, ProposedBlock(id, s, transactions, now))
    case Proposal(block) => PassesLock(s, block) ==> MayReplacePending(id, s, block)
    case Voting(vote, _) =>
      Counts(id, s, vote) ==> s.pending.Some? && Matches(id, vote, s.pending.value, s.round)
    case Viewing(_, _) => true
  }

  lemma InsertProperIff(id: Identity, s: State, a: Audit, vote: Vote)
    requires Proper(id, s, a) && Counts(id, s, vote)
    ensures Proper(id, Insert(s, vote), a) <==>
            s.pending.Some? && Matches(id, vote, s.pending.value, s.round)
  {
    hide VerifyVote, VoterKey, Matches, BackingMatches;
    var t := Insert(s, vote);
    var k := VoterKey(vote);
    assert k in Held(t, t.phase) && Held(t, t.phase)[k] == vote;
    assert !NoVotes(t);
    InsertOnlyAddsVotes(s, vote);
  }

  lemma CommitProperIff(id: Identity, s: State, a: Audit, order: seq<string>, qc: QuorumCert)
    requires |s.committed| == |a.backings| + 1 && s.phase == Commit && s.pending.Some? && !NoVotes(s)
    requires forall i | 0 <= i < |a.backings| :: BackingMatches(id, a.backings[i], s.committed[i + 1])
    ensures var b := Backing(s.prepareVotes, s.precommitVotes, s.commitVotes, order, s.round);
      Proper(id, EndPhase(s, qc).state, a.(backings := a.backings + [b])) <==> HeldMatch(id, s)
  {
    hide BlockHash;
    var b := Backing(s.prepareVotes, s.precommitVotes, s.commitVotes, order, s.round);
    var t := EndPhase(s, qc).state;
    var block := s.pending.value.(qc := Some(qc));
    CertifiedBlockKeepsHash(id.crypto, s.pending.value, qc);
    assert t.committed == s.committed + [block];
    assert t.committed[|a.backings| + 1] == block && (a.backings + [b])[|a.backings|] == b;
  }

  lemma EndPhaseOtherwiseKeepsVotes(s: State, qc: QuorumCert)
    requires !(s.phase == Commit && s.pending.Some?)
    ensures var t := EndPhase(s, qc).state;
      && t.committed == s.committed && t.pending == s.pending && t.round == s.round
      && t.prepareVotes == s.prepareVotes && t.precommitVotes == s.precommitVotes && t.commitVotes == s.commitVotes
  {
  }

  lemma VoteProperIff(id: Identity, s: State, a: Audit, vote: Vote, order: seq<string>)
    requires Proper(id, s, a) && OrderFits(id, s, vote, order)
    ensures Proper(id, OnHandleVote(id, s, vote, order).state, Record(id, s, a, vote, order)) <==>
            (Counts(id, s, vote) ==> s.pending.Some? && Matches(id, vote, s.pending.value, s.round))
  {
    hide VerifyVote, VoterKey, Matches, BackingMatches, EndPhase, Certificate, VotesIn;
    if Counts(id, s, vote) {
      InsertProperIff(id, s, a, vote);
      InsertOnlyAddsVotes(s, vote);
      if Completes(id, s, vote) {
        var t := Insert(s, vote);
        var qc := Certificate(VotesIn(Collected(s, vote), order), s.round);
        if Commits(id, s, vote) {
          assert VoterKey(vote) in t.commitVotes;
          CommitProperIff(id, t, a.(counted := a.counted + [vote]), order, qc);
        } else {
          EndPhaseOtherwiseKeepsVotes(t, qc);
        }
      }
    }
  }

  lemma ReplaceProperIff(id: Identity, s: State, a: Audit, block: Block, phase: Phase)
    requires Proper(id, s, a)
    ensures Proper(id, s.(pending := Some(block), phase := phase), a) <==> MayReplacePending(id, s, block)
  {
    hide BlockHash, BackingMatches;
    var t := s.(pending := Some(block), phase := phase);
    if !NoVotes(s) && BlockHash(id.crypto, block) != BlockHash(id.crypto, s.pending.value) {
      if s.prepareVotes != map[] {
        var k :| k in s.prepareVotes;
        assert !Matches(id, t.prepareVotes[k], block, s.round);
      }
      if s.precommitVotes != map[] {
        var k :| k in s.precommitVotes;
        assert !Matches(id, t.precommitVotes[k], block, s.round);
      }
      if s.commitVotes != map[] {
        var k :| k in s.commitVotes;
        assert !Matches(id, t.commitVotes[k], block, s.round);
      }
    }
  }

  /** Screening a call is exactly what keeps the quorums proper. */
  lemma StepProperIff(id: Identity, s: State, a: Audit, e: Event)
    requires Proper(id, s, a) && Enabled(id, s, e)
    ensures Proper(id, Next(id, s, e), NextAudit(id, s, a, e)) <==> Screened(id, s, e)
  {
    match e
    case Proposing(transactions, now) =>
      ReplaceProperIff(id, s, a, ProposedBlock(id, s, transactions, now), Prepare);
    case Proposal(block) =>
      ReplaceProperIff(id, s, a, block, s.phase);
      assert s.(pending := Some(block), phase := s.phase) == s.(pending := Some(block));
    case Voting(vote, order) =>
      VoteProperIff(id, s, a, vote, order);
    case Viewing(round, qc) =>
  }

  ghost predicate ScreenedRun(id: Identity, s: State, es: seq<Event>)
    requires Admissible(id, s, es)
    decreases |es|
  {
    es != [] ==> Screened(id, s, es[0]) && ScreenedRun(id, Next(id, s, es[0]), es[1..])
  }

  ghost predicate ProperThroughout(id: Identity, s: State, a: Audit, es: seq<Event>)
    requires Admissible(id, s, es)
    decreases |es|
  {
    && Proper(id, s, a)
    && (es != [] ==> ProperThroughout(id, Next(id, s, es[0]), NextAudit(id, s, a, es[0]), es[1..]))
  }

  /** Over whole runs: all votes counted and spent are validators' votes for the block, iff every call was screened. */
  lemma {:induction false} ProperIffScreened(id: Identity, s: State, a: Audit, es: seq<Event>)
    requires Proper(id, s, a) && Admissible(id, s, es)
    ensures ProperThroughout(id, s, a, es) <==> ScreenedRun(id, s, es)
    decreases |es|
  {
    if es == [] {
    } else {
      hide Proper, Screened;
      StepProperIff(id, s, a, es[0]);
      if Screened(id, s, es[0]) {
        ProperIffScreened(id, Next(id, s, es[0]), NextAudit(id, s, a, es[0]), es[1..]);
      }
    }
  }

  lemma {:induction false} ProperAtEnd(id: Identity, s: State, a: Audit, es: seq<Event>)
    requires Admissible(id, s, es) && ProperThroughout(id, s, a, es)
    ensures Proper(id, Run(id, s, es), RunAudit(id, s, a, es))
    decreases |es|
  {
    if es == [] {
    } else {
      ProperAtEnd(id, Next(id, s, es[0]), NextAudit(id, s, a, es[0]), es[1..]);
    }
  }

  /** The validators whose verified vote for this block is in the map. */
  ghost function ValidatorsFor(id: Identity, m: VoteMap, block: Block): set<Address> {
    set k | k in m && m[k].voter in id.config.Members()
            && id.crypto.accepts(m[k].voter, id.crypto.hash(VotePreimage(m[k].blockHash, m[k].round)), m[k].signature)
            && m[k].blockHash == BlockHash(id.crypto, block) :: m[k].voter
  }

  lemma MatchingQuorum(id: Identity, m: VoteMap, counted: seq<Vote>, block: Block, round: u64)
    requires QuorumOf(id, m, counted) && AllMatch(id, m, block, round)
    ensures |ValidatorsFor(id, m, block)| >= id.config.QuorumSize()
  {
    VotersAreDistinct(m);
    assert ValidatorsFor(id, m, block) == Voters(m);
  }

  /**
    The safety intent: in a screened run from the start, every committed block had
    the verified votes of 2f+1 validators, cast for that very block, in each phase.
   */
  lemma CommitsNeedValidators(id: Identity, es: seq<Event>, i: nat)
    requires Admissible(id, Init(), es) && ScreenedRun(id, Init(), es)
    requires 0 < i < |Run(id, Init(), es).committed|
    ensures var backings := RunAudit(id, Init(), Audit([], []), es).backings;
      i - 1 < |backings|
      && var block, b := Run(id, Init(), es).committed[i], backings[i - 1];
      && |ValidatorsFor(id, b.prepare, block)| >= 2 * id.config.f + 1
      && |ValidatorsFor(id, b.precommit, block)| >= 2 * id.config.f + 1
      && |ValidatorsFor(id, b.commit, block)| >= 2 * id.config.f + 1
  {
    hide Proper, Screened, Run, RunAudit, Admissible, Backs, BackingMatches, Backed;
    var s, a := Init(), Audit([], []);
    InitIsBacked(id);
    InitIsProper(id);
    RunKeepsBacking(id, s, a, es);
    ProperIffScreened(id, s, a, es);
    ProperAtEnd(id, s, a, es);
    BackedByValidators(id, Run(id, s, es), RunAudit(id, s, a, es), i);
  }

  lemma InitIsProper(id: Identity)
    ensures Proper(id, Init(), Audit([], []))
  {
  }

  lemma BackedByValidators(id: Identity, s: State, a: Audit, i: nat)
    requires Backed(id, s, a) && Proper(id, s, a) && 0 < i < |s.committed|
    ensures |s.committed| == |a.backings| + 1
      && var block, b := s.committed[i], a.backings[i - 1];
      && |ValidatorsFor(id, b.prepare, block)| >= 2 * id.config.f + 1
      && |ValidatorsFor(id, b.precommit, block)| >= 2 * id.config.f + 1
      && |ValidatorsFor(id, b.commit, block)| >= 2 * id.config.f + 1
  {
    hide AllMatch, QuorumOf, Certificate, VotesIn, Enumerates;
    var block, b := s.committed[i], a.backings[i - 1];
    assert BackingMatches(id, b, block) && Backs(id, b, block, a.counted);
    MatchingQuorum(id, b.prepare, a.counted, block, b.round);
    MatchingQuorum(id, b.precommit, a.counted, block, b.round);
    MatchingQuorum(id, b.commit, a.counted, block, b.round);
  }

  /**
    Without screening the intent fails: with fewer than four validators one vote is
    a quorum, and a stranger's vote naming another block commits whatever is pending.
   */
  lemma StrangerCommits(id: Identity, block: Block, vote: Vote) returns (es: seq<Event>)
    requires id.config.f == 0
    requires id.crypto.accepts(vote.voter, id.crypto.hash(VotePreimage(vote.blockHash, vote.round)), vote.signature)
    requires vote.voter !in id.config.Members() && vote.blockHash != BlockHash(id.crypto, block)
    ensures Admissible(id, Init(), es)
    ensures |Run(id, Init(), es).committed| == 2
    ensures BlockHash(id.crypto, Run(id, Init(), es).committed[1]) == BlockHash(id.crypto, block)
    ensures var b := RunAudit(id, Init(), Audit([], []), es).backings;
      && |b| == 1
      && ValidatorsFor(id, b[0].prepare, block) == ValidatorsFor(id, b[0].precommit, block)
         == ValidatorsFor(id, b[0].commit, block) == {}
  {
    Encoding.VoteVerifiesIff(id.crypto, vote);
    hide BlockHash, VerifyVote, VoterKey, OnHandleVote, Merkle.Root;
    var e := Voting(vote, [VoterKey(vote)]);
    es := [Proposal(block), e, e, e];
    var s0, a0 := Init(), Audit([], []);
    var s1 := Next(id, s0, es[0]);
    LoneVote(id, s1, vote);
    var s2 := Next(id, s1, e);
    LoneVote(id, s2, vote);
    var s3 := Next(id, s2, e);
    LoneVote(id, s3, vote);
    var s4 := Next(id, s3, e);
    FourSteps(id, s0, a0, es, s1, s2, s3, s4);
    CertifiedBlockKeepsHash(id.crypto, block, QuorumCert(vote.blockHash, s3.round, [vote]));
  }

  lemma LoneVote(id: Identity, s: State, vote: Vote)
    requires id.config.f == 0 && VerifyVote(id.crypto, vote)
    requires s.phase != Decide && Held(s, s.phase) == map[]
    ensures OrderFits(id, s, vote, [VoterKey(vote)])
    ensures OnHandleVote(id, s, vote, [VoterKey(vote)]) ==
            EndPhase(Insert(s, vote), QuorumCert(vote.blockHash, s.round, [vote]))
  {
    hide VerifyVote, EndPhase, Insert, VoterKey;
    var m := Collected(s, vote);
    var k := VoterKey(vote);
    assert m == map[k := vote] && |m| == 1;
    assert VotesIn(m, [k]) == [vote];
  }

  lemma FourSteps(id: Identity, s: State, a: Audit, es: seq<Event>, s1: State, s2: State, s3: State, s4: State)
    requires |es| == 4
    requires Enabled(id, s, es[0]) && s1 == Next(id, s, es[0])
    requires Enabled(id, s1, es[1]) && s2 == Next(id, s1, es[1])
    requires Enabled(id, s2, es[2]) && s3 == Next(id, s2, es[2])
    requires Enabled(id, s3, es[3]) && s4 == Next(id, s3, es[3])
    ensures Admissible(id, s, es) && Run(id, s, es) == s4
    ensures RunAudit(id, s, a, es) ==
            NextAudit(id, s3, NextAudit(id, s2, NextAudit(id, s1, NextAudit(id, s, a, es[0]), es[1]), es[2]), es[3])
  {
    hide Enabled, Step, NextAudit;
    var r1, r2, r3, r4 := es[1..], es[2..], es[3..], es[4..];
    assert r1[1..] == r2 && r2[1..] == r3 && r3[1..] == r4 == [];
    var a1 := NextAudit(id, s, a, es[0]);
    var a2 := NextAudit(id, s1, a1, es[1]);
    var a3 := NextAudit(id, s2, a2, es[2]);
    assert Admissible(id, s3, r3) && Run(id, s3, r3) == s4 && RunAudit(id, s3, a3, r3) == NextAudit(id, s3, a3, es[3]);
    assert Admissible(id, s2, r2) && Run(id, s2, r2) == s4 && RunAudit(id, s2, a2, r2) == NextAudit(id, s3, a3, es[3]);
    assert Admissible(id, s1, r1) && Run(id, s1, r1) == s4 && RunAudit(id, s1, a1, r1) == NextAudit(id, s3, a3, es[3]);
  }
}
