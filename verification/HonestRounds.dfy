/**
  Progress: a round that hands the node one block on its tip and then three full
  segments of matching votes commits that block, and leaves the node ready for the
  next round.
 */
module HonestRounds {
  import opened Wrappers
  import opened Bytes
  import opened Types
  import opened Quorum
  import opened HotStuff
  import opened HotStuffRuns
  import Merkle

  lemma {:induction false} RunConcat(id: Identity, s: State, a: seq<Event>, b: seq<Event>)
    ensures Admissible(id, s, a + b) <==> Admissible(id, s, a) && Admissible(id, Run(id, s, a), b)
    ensures Admissible(id, s, a + b) ==> Run(id, s, a + b) == Run(id, Run(id, s, a), b)
    decreases |a|
  {
    if a == [] {
      assert a + b == b;
    } else {
      hide Enabled, Step;
      assert (a + b)[0] == a[0] && (a + b)[1..] == a[1..] + b;
      if Enabled(id, s, a[0]) {
        RunConcat(id, Next(id, s, a[0]), a[1..], b);
      }
    }
  }

  // ---- one segment of votes ----

  ghost predicate IsVoteFor(id: Identity, e: Event, hash: Digest, round: u64) {
    e.Voting? && VerifyVote(id.crypto, e.vote) && e.vote.blockHash == hash && e.vote.round == round
  }

  /** Votes for one block in one round, from voters not heard in this phase. */
  ghost predicate Segment(id: Identity, held: VoteMap, es: seq<Event>, hash: Digest, round: u64) {
    && (forall i | 0 <= i < |es| :: IsVoteFor(id, es[i], hash, round))
    && (forall i, j | 0 <= i < j < |es| :: es[i].vote.voter != es[j].vote.voter)
    && (forall i | 0 <= i < |es| :: VoterKey(es[i].vote) !in held)
  }

  ghost predicate AllName(m: VoteMap, hash: Digest) {
    forall k | k in m :: m[k].blockHash == hash
  }

  lemma SegmentTail(id: Identity, held: VoteMap, es: seq<Event>, hash: Digest, round: u64)
    requires es != [] && Segment(id, held, es, hash, round)
    ensures Segment(id, held[VoterKey(es[0].vote) := es[0].vote], es[1..], hash, round)
  {
    forall i | 0 <= i < |es[1..]|
      ensures VoterKey(es[1..][i].vote) != VoterKey(es[0].vote)
    {
      if VoterKey(es[1..][i].vote) == VoterKey(es[0].vote) {
        HexInjective(es[i + 1].vote.voter, es[0].vote.voter);
      }
    }
  }

  function VoterKeys(es: seq<Event>): set<string> {
    set e | e in es && e.Voting? :: VoterKey(e.vote)
  }

  lemma VoterKeysCons(es: seq<Event>, n: nat)
    requires n <= |es| && (n > 0 ==> es[0].Voting?)
    ensures VoterKeys(es[..n]) == if n == 0 then {} else {VoterKey(es[0].vote)} + VoterKeys(es[1..][..n - 1])
  {
    hide VoterKey;
    if n > 0 { TakeCons(es, n); }
  }

  lemma TakeCons(es: seq<Event>, n: nat)
    requires 0 < n <= |es|
    ensures es[..n] == [es[0]] + es[1..][..n - 1]
  {
    var front, rest := es[..n], es[1..][..n - 1];
    forall i | 0 <= i < |rest| ensures front[i + 1] == rest[i] {
    }
  }

  /** Before the quorum is full, votes are only collected. */
  lemma {:induction false} Collecting(id: Identity, s: State, es: seq<Event>, n: nat, hash: Digest, round: u64)
      returns (held: VoteMap)
    requires s.phase != Decide && Segment(id, Held(s, s.phase), es, hash, round) && AllName(Held(s, s.phase), hash)
    requires n <= |es| && |Held(s, s.phase)| + n < id.config.QuorumSize()
    ensures Admissible(id, s, es[..n]) && Run(id, s, es[..n]) == WithHeld(s, held)
    ensures |held| == |Held(s, s.phase)| + n && AllName(held, hash)
    ensures held.Keys == Held(s, s.phase).Keys + VoterKeys(es[..n])
    ensures Segment(id, held, es[n..], hash, round)
    decreases n
  {
    hide VoterKeys, VoterKey, VerifyVote, Segment, Enabled, Step, AllName, WithHeld, Held, Admissible, Run;
    if n == 0 {
      held := Held(s, s.phase);
      VoterKeysCons(es, 0);
      HeldStays(s);
      RunNothing(id, s);
      assert es[0..] == es && es[..0] == [];
    } else {
      var t, first := Collect(id, s, es, hash, round);
      VoterKeysCons(es, n);
      held := Collecting(id, t, es[1..], n - 1, hash, round);
      HeldTwice(s, first, held);
      FirstAndRest(es, n);
      UnionOfThree(Held(s, s.phase).Keys, {VoterKey(es[0].vote)}, VoterKeys(es[1..][..n - 1]));
      RunFirst(id, s, es[..n]);
    }
  }

  lemma FirstAndRest(es: seq<Event>, n: nat)
    requires 0 < n <= |es|
    ensures es[..n] != [] && es[..n][0] == es[0] && es[..n][1..] == es[1..][..n - 1] && es[1..][n - 1..] == es[n..]
  {
  }

  lemma UnionOfThree(a: set<string>, b: set<string>, c: set<string>)
    ensures (a + b) + c == a + (b + c)
  {
  }

  lemma RunNothing(id: Identity, s: State)
    ensures Admissible(id, s, []) && Run(id, s, []) == s
  {
  }

  lemma RunFirst(id: Identity, s: State, es: seq<Event>)
    requires es != [] && Enabled(id, s, es[0]) && Admissible(id, Next(id, s, es[0]), es[1..])
    ensures Admissible(id, s, es) && Run(id, s, es) == Run(id, Next(id, s, es[0]), es[1..])
  {
  }

  lemma HeldStays(s: State)
    ensures WithHeld(s, Held(s, s.phase)) == s
  {
  }

  lemma HeldTwice(s: State, first: VoteMap, second: VoteMap)
    ensures WithHeld(WithHeld(s, first), second) == WithHeld(s, second)
  {
  }

  lemma Collect(id: Identity, s: State, es: seq<Event>, hash: Digest, round: u64)
      returns (t: State, first: VoteMap)
    requires s.phase != Decide && es != [] && Segment(id, Held(s, s.phase), es, hash, round)
    requires AllName(Held(s, s.phase), hash) && |Held(s, s.phase)| + 1 < id.config.QuorumSize()
    ensures Enabled(id, s, es[0]) && t == Next(id, s, es[0])
    ensures es[0].Voting? && t.phase == s.phase && t == WithHeld(s, first)
    ensures |Held(t, t.phase)| == |Held(s, s.phase)| + 1 && AllName(Held(t, t.phase), hash)
    ensures Held(t, t.phase).Keys == Held(s, s.phase).Keys + {VoterKey(es[0].vote)}
    ensures Segment(id, Held(t, t.phase), es[1..], hash, round)
  {
    var vote := es[0].vote;
    assert IsVoteFor(id, es[0], hash, round);
    assert VoterKey(vote) !in Held(s, s.phase);
    SegmentTail(id, Held(s, s.phase), es, hash, round);
    hide Segment, VerifyVote, VoterKey;
    t, first := Insert(s, vote), Collected(s, vote);
    assert first.Keys == Held(s, s.phase).Keys + {VoterKey(vote)};
  }

  /** The vote that fills the quorum ends the phase with a certificate for the block voted on. */
  lemma LastVote(id: Identity, s: State, e: Event, hash: Digest) returns (full: VoteMap, qc: QuorumCert)
    requires s.phase != Decide && IsVoteFor(id, e, hash, s.round) && AllName(Held(s, s.phase), hash)
    requires VoterKey(e.vote) !in Held(s, s.phase) && |Held(s, s.phase)| + 1 == id.config.QuorumSize()
    requires Enabled(id, s, e)
    ensures Step(id, s, e) == EndPhase(WithHeld(s, full), qc)
    ensures qc.blockHash == hash && qc.round == s.round
  {
    hide VerifyVote, VoterKey, EndPhase;
    full := Collected(s, e.vote);
    assert full.Keys == Held(s, s.phase).Keys + {VoterKey(e.vote)};
    assert Completes(id, s, e.vote);
    qc := Certificate(VotesIn(full, e.order), s.round);
    assert VoterKey(e.vote) in e.order;
    assert e.order[0] in full;
  }

  /** One whole segment, from an empty map: nothing but collecting until its last vote. */
  lemma FullSegment(id: Identity, s: State, es: seq<Event>, hash: Digest)
      returns (held: VoteMap, full: VoteMap, qc: QuorumCert)
    requires s.phase != Decide && Held(s, s.phase) == map[]
    requires |es| == id.config.QuorumSize() && Segment(id, map[], es, hash, s.round)
    requires Admissible(id, s, es)
    ensures var last := |es| - 1;
      && Admissible(id, s, es[..last])
      && Run(id, s, es[..last]) == WithHeld(s, held)
      && Enabled(id, WithHeld(s, held), es[last])
      && Step(id, WithHeld(s, held), es[last]) == EndPhase(WithHeld(s, full), qc)
      && Run(id, s, es) == EndPhase(WithHeld(s, full), qc).state
    ensures qc.blockHash == hash && qc.round == s.round
  {
    hide VerifyVote, VoterKey, VoterKeys, Enabled, Step, EndPhase, Segment, IsVoteFor, Admissible, Run;
    var last := |es| - 1;
    held := Collecting(id, s, es, last, hash, s.round);
    var t := WithHeld(s, held);
    assert es == es[..last] + [es[last]] && es[last..] == [es[last]];
    RunConcat(id, s, es[..last], [es[last]]);
    LoneEvent(id, t, es[last]);
    SegmentHead(id, held, es[last..], hash, s.round);
    full, qc := FillSegment(id, s, held, es[last], hash);
  }

  lemma SegmentHead(id: Identity, held: VoteMap, es: seq<Event>, hash: Digest, round: u64)
    requires es != [] && Segment(id, held, es, hash, round)
    ensures IsVoteFor(id, es[0], hash, round) && es[0].Voting? && VoterKey(es[0].vote) !in held
  {
    hide VerifyVote, VoterKey;
  }

  lemma LoneEvent(id: Identity, s: State, e: Event)
    ensures Admissible(id, s, [e]) <==> Enabled(id, s, e)
    ensures Enabled(id, s, e) ==> Run(id, s, [e]) == Next(id, s, e)
  {
    hide Enabled, Step;
    assert [e][1..] == [];
  }

  lemma FillSegment(id: Identity, s: State, held: VoteMap, e: Event, hash: Digest)
      returns (full: VoteMap, qc: QuorumCert)
    requires s.phase != Decide && IsVoteFor(id, e, hash, s.round) && AllName(held, hash)
    requires VoterKey(e.vote) !in held && |held| + 1 == id.config.QuorumSize()
    requires Enabled(id, WithHeld(s, held), e)
    ensures Step(id, WithHeld(s, held), e) == EndPhase(WithHeld(s, full), qc)
    ensures qc.blockHash == hash && qc.round == s.round
  {
    hide VerifyVote, VoterKey, EndPhase, Enabled, Step;
    var t := WithHeld(s, held);
    full, qc := LastVote(id, t, e, hash);
    assert WithHeld(t, full) == WithHeld(s, full);
  }

  // ---- one round ----

  /** One block, three segments of votes, and the view change at the end. */
  datatype Round = Round(open: Event, prepare: seq<Event>, precommit: seq<Event>, commit: seq<Event>, view: Event)
  {
    function Events(): seq<Event> {
      [open] + (prepare + (precommit + (commit + [view])))
    }

    /** The round up to, but without, its last commit vote. */
    function BeforeLast(): seq<Event>
      requires commit != []
    {
      [open] + (prepare + (precommit + commit[..|commit| - 1]))
    }
  }

  /** At the start of a round: nothing collected. */
  ghost predicate Ready(s: State) {
    s.committed != [] && s.phase == Prepare && NoVotes(s)
  }

  ghost predicate Opens(id: Identity, s: State, e: Event)
    requires s.committed != []
  {
    (e.Proposing? && Enabled(id, s, e)) || (e.Proposal? && Extends(id.crypto, e.block, Tip(s)))
  }

  ghost function Opened(id: Identity, s: State, e: Event): Block
    requires s.committed != [] && Opens(id, s, e)
  {
    if e.Proposing? then ProposedBlock(id, s, e.transactions, e.now) else e.block
  }

  ghost predicate FullRound(id: Identity, s: State, r: Round)
    requires s.committed != []
  {
    && Opens(id, s, r.open) && s.round + 1 < TWO_64
    && (var hash := BlockHash(id.crypto, Opened(id, s, r.open));
        forall es | es in {r.prepare, r.precommit, r.commit} ::
          |es| == id.config.QuorumSize() && Segment(id, map[], es, hash, s.round))
    && r.view.Viewing? && r.view.round == s.round + 1
    && Admissible(id, s, r.Events())
  }

  /** A node's own proposal consults no lock; another's has to pass it. */
  ghost predicate TakesUp(s: State, e: Event) {
    e.Proposing? || (e.Proposal? && PassesLock(s, e.block))
  }

  /** The lock lets a block on the tip through exactly when it is itself on the tip. */
  lemma TipAcceptedIff(id: Identity, s: State, block: Block)
    requires s.committed != [] && Extends(id.crypto, block, Tip(s))
    ensures OnHandlePropose(id, s, block).reply.Some? <==> LockOnTip(id.crypto, s)
    ensures PassesLock(s, block) <==> LockOnTip(id.crypto, s)
  {
    hide BlockHash;
  }

  lemma OpenRound(id: Identity, s: State, e: Event)
    requires Ready(s) && Opens(id, s, e)
    ensures Enabled(id, s, e)
    ensures Next(id, s, e) == if TakesUp(s, e) then s.(pending := Some(Opened(id, s, e))) else s
    ensures Extends(id.crypto, Opened(id, s, e), Tip(s))
  {
    hide BlockHash, Merkle.Root;
  }

  ghost predicate CertifiedIn(qc: Option<QuorumCert>, hash: Digest, round: u64) {
    qc.Some? && qc.value.blockHash == hash && qc.value.round == round
  }

  /** The first two segments: certificate raised, then locked on the block; nothing committed yet. */
  lemma TwoPhases(id: Identity, s: State, prepare: seq<Event>, precommit: seq<Event>, rest: seq<Event>, hash: Digest)
      returns (t: State)
    requires s.phase == Prepare && s.prepareVotes == map[] && s.precommitVotes == map[]
    requires |prepare| == |precommit| == id.config.QuorumSize()
    requires Segment(id, map[], prepare, hash, s.round) && Segment(id, map[], precommit, hash, s.round)
    requires Admissible(id, s, prepare + (precommit + rest))
    ensures t.phase == Commit && t.round == s.round && t.pending == s.pending && t.committed == s.committed
    ensures t.commitVotes == s.commitVotes && t.lockedQc.Some? && t.lockedQc.value.blockHash == hash
    ensures CertifiedIn(t.highQc, hash, s.round)
    ensures RunsTo(id, s, prepare, precommit, t) && Admissible(id, t, rest)
  {
    hide Segment, Step, Enabled;
    RunConcat(id, s, prepare, precommit + rest);
    var _, full, qc := FullSegment(id, s, prepare, hash);
    var u := Run(id, s, prepare);
    RunConcat(id, u, precommit, rest);
    var _, full', qc' := FullSegment(id, u, precommit, hash);
    t := Run(id, u, precommit);
  }

  ghost predicate RunsTo(id: Identity, s: State, prepare: seq<Event>, precommit: seq<Event>, t: State) {
    && Admissible(id, s, prepare)
    && Admissible(id, Run(id, s, prepare), precommit)
    && Run(id, Run(id, s, prepare), precommit) == t
  }

  lemma RunOn(id: Identity, s: State, prepare: seq<Event>, precommit: seq<Event>, t: State, tail: seq<Event>)
    requires RunsTo(id, s, prepare, precommit, t) && Admissible(id, t, tail)
    ensures Admissible(id, s, prepare + (precommit + tail))
    ensures Run(id, s, prepare + (precommit + tail)) == Run(id, t, tail)
  {
    hide Admissible, Run;
    RunConcat(id, Run(id, s, prepare), precommit, tail);
    RunConcat(id, s, prepare, precommit + tail);
  }

  /** What committing the pending block, if there is one, adds to the chain. */
  function Commitment(pending: Option<Block>, qc: QuorumCert): seq<Block> {
    match pending
    case None => []
    case Some(block) => [block.(qc := Some(qc))]
  }

  /**
    At exactly its last commit vote a full round commits what is pending, announces the
    next round with a certificate for the block voted on, and is locked on that block;
    after the view change the node is ready again.
   */
  lemma RoundEffect(id: Identity, s: State, r: Round) returns (qc: QuorumCert)
    requires Ready(s) && FullRound(id, s, r)
    ensures qc.round == s.round && qc.blockHash == BlockHash(id.crypto, Opened(id, s, r.open))
    ensures Enabled(id, s, r.open) && Admissible(id, s, r.BeforeLast())
    ensures var before, last := Run(id, s, r.BeforeLast()), r.commit[|r.commit| - 1];
      var added := Commitment(Next(id, s, r.open).pending, qc);
      && before.committed == s.committed
      && Enabled(id, before, last)
      && Step(id, before, last).reply == Some(NewView(s.round + 1, qc))
      && Step(id, before, last).state.committed == s.committed + added
    ensures var t, added := Run(id, s, r.Events()), Commitment(Next(id, s, r.open).pending, qc);
      && Ready(t) && t.round == s.round + 1 && t.committed == s.committed + added
      && t.lockedQc.Some? && t.lockedQc.value.blockHash == qc.blockHash
      && (r.view.qc == qc ==> t.highQc == Some(qc))
  {
    var block := Opened(id, s, r.open);
    var hash := BlockHash(id.crypto, block);
    hide *;
    var begun := BeginRound(id, s, r);
    qc := FinishRound(id, s, begun, r, block);
  }

  /** A round whose block is taken up commits exactly that block, and leaves the lock on it. */
  lemma RoundCommits(id: Identity, s: State, r: Round) returns (qc: QuorumCert)
    requires Ready(s) && FullRound(id, s, r) && TakesUp(s, r.open)
    ensures qc.round == s.round && qc.blockHash == BlockHash(id.crypto, Opened(id, s, r.open))
    ensures Admissible(id, s, r.BeforeLast())
    ensures var before, last := Run(id, s, r.BeforeLast()), r.commit[|r.commit| - 1];
      && before.committed == s.committed
      && Enabled(id, before, last)
      && Step(id, before, last).reply == Some(NewView(s.round + 1, qc))
      && Step(id, before, last).state.committed == s.committed + [Opened(id, s, r.open).(qc := Some(qc))]
    ensures var t := Run(id, s, r.Events());
      && Ready(t) && LockOnTip(id.crypto, t) && t.round == s.round + 1
      && t.committed == s.committed + [Opened(id, s, r.open).(qc := Some(qc))]
      && (r.view.qc == qc ==> t.highQc == Some(qc))
  {
    assert s.committed != [] && Opens(id, s, r.open);
    hide *;
    qc := RoundEffect(id, s, r);
    OpenRound(id, s, r.open);
    var block := Opened(id, s, r.open);
    OneCommitted(Next(id, s, r.open), block, qc);
    LockedOnNew(id.crypto, s.committed, block, qc, Run(id, s, r.Events()));
  }

  lemma OneCommitted(s: State, block: Block, qc: QuorumCert)
    requires s.pending == Some(block)
    ensures Commitment(s.pending, qc) == [block.(qc := Some(qc))]
  {
  }

  lemma LockedOnNew(c: Crypto, chain: seq<Block>, block: Block, qc: QuorumCert, s: State)
    requires s.committed == chain + [block.(qc := Some(qc))]
    requires s.lockedQc.Some? && s.lockedQc.value.blockHash == BlockHash(c, block)
    ensures LockOnTip(c, s)
  {
    CertifiedBlockKeepsHash(c, block, qc);
    hide BlockHash;
  }

  predicate SameContent(pending: Option<Block>, block: Block) {
    pending.Some? && pending.value.header == block.header && pending.value.transactions == block.transactions
  }

  /**
    Exactly when a full round commits its block: when the node proposed it, when the lock
    let it through, or when it was pending already.
   */
  lemma RoundCommitsIff(id: Identity, s: State, r: Round)
    requires Ready(s) && FullRound(id, s, r)
    ensures var block := Opened(id, s, r.open);
      (exists qc :: Run(id, s, r.Events()).committed == s.committed + [block.(qc := Some(qc))]) <==>
      TakesUp(s, r.open) || SameContent(s.pending, block)
  {
    OpenRound(id, s, r.open);
    hide FullRound, Run, Admissible, Step, Enabled, BlockHash, Opens, Opened, Round.Events, Round.BeforeLast;
    var qc := RoundEffect(id, s, r);
    var block, after := Opened(id, s, r.open), Run(id, s, r.Events()).committed;
    if TakesUp(s, r.open) || SameContent(s.pending, block) {
      assert after == s.committed + [block.(qc := Some(qc))];
    } else {
      forall qc' ensures after != s.committed + [block.(qc := Some(qc'))] {
        assert (s.committed + [block.(qc := Some(qc'))])[|s.committed|] == block.(qc := Some(qc'));
      }
    }
  }

  lemma FinishRound(id: Identity, s: State, begun: State, r: Round, block: Block) returns (qc: QuorumCert)
    requires begun == s.(pending := begun.pending) && begun.phase == Prepare && NoVotes(begun) && s.committed != []
    requires s.round + 1 < TWO_64 && r.view.Viewing? && r.view.round == s.round + 1
    requires Admissible(id, s, [r.open]) && Run(id, s, [r.open]) == begun
    requires |r.prepare| == |r.precommit| == |r.commit| == id.config.QuorumSize()
    requires forall es | es in {r.prepare, r.precommit, r.commit} ::
      Segment(id, map[], es, BlockHash(id.crypto, block), s.round)
    requires Admissible(id, begun, r.prepare + (r.precommit + (r.commit + [r.view])))
    ensures qc.round == s.round && qc.blockHash == BlockHash(id.crypto, block)
    ensures Admissible(id, s, r.BeforeLast())
    ensures var before, last := Run(id, s, r.BeforeLast()), r.commit[|r.commit| - 1];
      && before.committed == s.committed
      && Enabled(id, before, last)
      && Step(id, before, last).reply == Some(NewView(s.round + 1, qc))
      && Step(id, before, last).state.committed == s.committed + Commitment(begun.pending, qc)
    ensures var t := Run(id, begun, r.prepare + (r.precommit + (r.commit + [r.view])));
      && Ready(t) && t.round == s.round + 1
      && t.committed == s.committed + Commitment(begun.pending, qc)
      && t.lockedQc.Some? && t.lockedQc.value.blockHash == qc.blockHash
      && (r.view.qc == qc ==> t.highQc == Some(qc))
  {
    hide Segment, Step, Enabled, BlockHash, Ready, Run, Admissible, RunsTo;
    var locked := TwoPhases(id, begun, r.prepare, r.precommit, r.commit + [r.view], BlockHash(id.crypto, block));
    qc := CommitPhase(id, locked, r.commit, r.view, block);
    var init := r.commit[..|r.commit| - 1];
    RunOn(id, begun, r.prepare, r.precommit, locked, init);
    RunOn(id, begun, r.prepare, r.precommit, locked, r.commit + [r.view]);
    RunConcat(id, s, [r.open], r.prepare + (r.precommit + init));
  }

  lemma BeginRound(id: Identity, s: State, r: Round) returns (begun: State)
    requires Ready(s) && FullRound(id, s, r)
    ensures Enabled(id, s, r.open) && begun == Next(id, s, r.open) == s.(pending := begun.pending)
    ensures begun.phase == Prepare && NoVotes(begun)
    ensures s.round + 1 < TWO_64 && r.view.Viewing? && r.view.round == s.round + 1
    ensures Admissible(id, s, [r.open]) && Run(id, s, [r.open]) == begun
    ensures var hash := BlockHash(id.crypto, Opened(id, s, r.open));
      && |r.prepare| == |r.precommit| == |r.commit| == id.config.QuorumSize()
      && forall es | es in {r.prepare, r.precommit, r.commit} :: Segment(id, map[], es, hash, s.round)
    ensures var tail := r.prepare + (r.precommit + (r.commit + [r.view]));
      && Admissible(id, begun, tail) && Run(id, s, r.Events()) == Run(id, begun, tail)
  {
    hide Segment, Step, Enabled, BlockHash, Opened, Opens, Extends;
    OpenRound(id, s, r.open);
    begun := Next(id, s, r.open);
    LoneEvent(id, s, r.open);
    RunConcat(id, s, [r.open], r.prepare + (r.precommit + (r.commit + [r.view])));
  }

  lemma CommitPhase(id: Identity, s: State, commit: seq<Event>, view: Event, block: Block) returns (qc: QuorumCert)
    requires s.phase == Commit && s.commitVotes == map[]
    requires s.committed != [] && s.round + 1 < TWO_64
    requires s.lockedQc.Some? && s.lockedQc.value.blockHash == BlockHash(id.crypto, block)
    requires CertifiedIn(s.highQc, BlockHash(id.crypto, block), s.round)
    requires |commit| == id.config.QuorumSize()
    requires Segment(id, map[], commit, BlockHash(id.crypto, block), s.round)
    requires view.Viewing? && view.round == s.round + 1
    requires Admissible(id, s, commit + [view])
    ensures qc.round == s.round && qc.blockHash == BlockHash(id.crypto, block)
    ensures var init, last := commit[..|commit| - 1], commit[|commit| - 1];
      && Admissible(id, s, init)
      && var before := Run(id, s, init);
      && before.committed == s.committed
      && Enabled(id, before, last)
      && Step(id, before, last).reply == Some(NewView(s.round + 1, qc))
      && Step(id, before, last).state.committed == s.committed + Commitment(s.pending, qc)
    ensures var t := Run(id, s, commit + [view]);
      && Ready(t) && t.round == s.round + 1
      && t.committed == s.committed + Commitment(s.pending, qc) && t.lockedQc == s.lockedQc
      && (view.qc == qc ==> t.highQc == Some(qc))
  {
    var hash := BlockHash(id.crypto, block);
    RunConcat(id, s, commit, [view]);
    var held, full;
    held, full, qc := FullSegment(id, s, commit, hash);
    var t := Run(id, s, commit);
    LoneEvent(id, t, view);
    Decided(s, held, full, qc);
    hide Segment, BlockHash, VerifyVote, Admissible, EndPhase;
    ViewChange(id, t, view);
  }

  lemma Decided(s: State, held: VoteMap, full: VoteMap, qc: QuorumCert)
    requires s.phase == Commit
    ensures WithHeld(s, held).committed == s.committed
    ensures var t := EndPhase(WithHeld(s, full), qc);
      && t.state.committed == s.committed + Commitment(s.pending, qc) && t.state.round == s.round
      && t.state.lockedQc == s.lockedQc && t.state.highQc == s.highQc && t.reply == Some(NewView(s.round + 1, qc))
  {
  }

  lemma ViewChange(id: Identity, s: State, view: Event)
    requires view.Viewing? && view.round > s.round
    ensures var t := Next(id, s, view);
      && t.round == view.round && t.phase == Prepare && NoVotes(t)
      && t.committed == s.committed && t.lockedQc == s.lockedQc
      && (view.qc.round >= HighRound(s) ==> t.highQc == Some(view.qc))
  {
  }

  // ---- many rounds ----

  ghost predicate FullRounds(id: Identity, s: State, rs: seq<Round>)
    decreases |rs|
  {
    rs != [] ==>
      && s.committed != [] && FullRound(id, s, rs[0])
      && FullRounds(id, Run(id, s, rs[0].Events()), rs[1..])
  }

  ghost function AllEvents(rs: seq<Round>): seq<Event> {
    if rs == [] then [] else rs[0].Events() + AllEvents(rs[1..])
  }

  /** The blocks the rounds hand to the node. */
  ghost function Blocks(id: Identity, s: State, rs: seq<Round>): (blocks: seq<Block>)
    requires FullRounds(id, s, rs)
    ensures |blocks| == |rs|
    decreases |rs|
  {
    if rs == [] then []
    else [Opened(id, s, rs[0].open)] + Blocks(id, Run(id, s, rs[0].Events()), rs[1..])
  }

  /** The block as handed over, now carrying a certificate for itself. */
  ghost predicate CertifiedForm(c: Crypto, b: Block, block: Block) {
    b.qc.Some? && b.header == block.header && b.transactions == block.transactions
    && b.qc.value.blockHash == BlockHash(c, block)
  }

  /** `chain` continues `base` with exactly these blocks, certified. */
  ghost predicate Continues(c: Crypto, base: seq<Block>, blocks: seq<Block>, chain: seq<Block>) {
    && |chain| == |base| + |blocks| && base <= chain
    && forall i | 0 <= i < |blocks| :: CertifiedForm(c, chain[|base| + i], blocks[i])
  }

  lemma ContinuesCons(c: Crypto, base: seq<Block>, block: Block, qc: QuorumCert, blocks: seq<Block>, chain: seq<Block>)
    requires qc.blockHash == BlockHash(c, block) && Continues(c, base + [block.(qc := Some(qc))], blocks, chain)
    ensures Continues(c, base, [block] + blocks, chain)
  {
    hide BlockHash;
    var longer := base + [block.(qc := Some(qc))];
    assert chain[|base|] == longer[|base|];
    forall i | 0 <= i < |[block] + blocks|
      ensures CertifiedForm(c, chain[|base| + i], ([block] + blocks)[i])
    {
      if i > 0 {
        assert chain[|longer| + (i - 1)] == chain[|base| + i] && ([block] + blocks)[i] == blocks[i - 1];
      }
    }
  }

  lemma NextTakesUp(id: Identity, s: State, r: Round)
    requires s.committed != [] && LockOnTip(id.crypto, s) && FullRound(id, s, r)
    ensures TakesUp(s, r.open)
  {
    hide BlockHash, Segment;
    if r.open.Proposal? { TipAcceptedIff(id, s, r.open.block); }
  }

  /** Once the first is taken up, k full rounds commit their k blocks in order, and the node is ready k rounds on. */
  lemma {:induction false} RoundsBuildChain(id: Identity, s: State, rs: seq<Round>)
    requires Ready(s) && FullRounds(id, s, rs) && (rs != [] ==> TakesUp(s, rs[0].open))
    ensures Admissible(id, s, AllEvents(rs))
    ensures var t := Run(id, s, AllEvents(rs));
      && Ready(t)
      && t.round == s.round + |rs|
      && Continues(id.crypto, s.committed, Blocks(id, s, rs), t.committed)
      && (Linked(id.crypto, s.committed) ==> Linked(id.crypto, t.committed))
    decreases |rs|
  {
    hide FullRound, FullRounds, Ready, Opened, BlockHash, Continues, Linked, Extends, TakesUp, Run, Admissible;
    if rs == [] {
      NoRounds(id, s);
    } else {
      var r := rs[0];
      var qc := FirstRound(id, s, rs);
      var t := Run(id, s, r.Events());
      RoundsBuildChain(id, t, rs[1..]);
      RunConcat(id, s, r.Events(), AllEvents(rs[1..]));
      ContinuesCons(id.crypto, s.committed, Opened(id, s, r.open), qc, Blocks(id, t, rs[1..]),
                    Run(id, s, AllEvents(rs)).committed);
    }
  }

  lemma NoRounds(id: Identity, s: State)
    ensures Admissible(id, s, []) && Run(id, s, []) == s
    ensures FullRounds(id, s, []) && Continues(id.crypto, s.committed, [], s.committed)
  {
  }

  lemma FirstRound(id: Identity, s: State, rs: seq<Round>) returns (qc: QuorumCert)
    requires Ready(s) && rs != [] && FullRounds(id, s, rs) && TakesUp(s, rs[0].open)
    ensures s.committed != [] && FullRound(id, s, rs[0]) && Opens(id, s, rs[0].open)
    ensures Admissible(id, s, rs[0].Events())
    ensures qc.blockHash == BlockHash(id.crypto, Opened(id, s, rs[0].open))
    ensures var t := Run(id, s, rs[0].Events());
      && Ready(t) && t.round == s.round + 1 && FullRounds(id, t, rs[1..])
      && t.committed == s.committed + [Opened(id, s, rs[0].open).(qc := Some(qc))]
      && (|rs| > 1 ==> TakesUp(t, rs[1..][0].open))
      && (Linked(id.crypto, s.committed) ==> Linked(id.crypto, t.committed))
  {
    var r := rs[0];
    assert FullRound(id, s, r) && Opens(id, s, r.open);
    hide FullRound, Opened, Opens, BlockHash, Linked, Extends, TakesUp, Run, Admissible, Step, Enabled;
    qc := RoundCommits(id, s, r);
    var t := Run(id, s, r.Events());
    OpenRound(id, s, r.open);
    if Linked(id.crypto, s.committed) { LinkedSnoc(id.crypto, s.committed, Opened(id, s, r.open), qc); }
    if |rs| > 1 { NextTakesUp(id, t, rs[1]); }
  }

  lemma InitIsReady(id: Identity)
    ensures Ready(Init()) && LockOnTip(id.crypto, Init())
  {
  }

  /** From a fresh node, k full rounds give a linked chain of height k. */
  lemma FreshNodeReachesHeight(id: Identity, rs: seq<Round>)
    requires FullRounds(id, Init(), rs)
    ensures Admissible(id, Init(), AllEvents(rs))
    ensures var chain := Run(id, Init(), AllEvents(rs)).committed;
      && |chain| - 1 == |rs| && Linked(id.crypto, chain)
      && Continues(id.crypto, [Genesis()], Blocks(id, Init(), rs), chain)
  {
    InitIsSound(id);
    InitIsReady(id);
    if rs != [] { NextTakesUp(id, Init(), rs[0]); }
    hide FullRounds, Ready, Admissible, Run, Linked, Blocks, AllEvents, BlockHash, TakesUp;
    RoundsBuildChain(id, Init(), rs);
  }
}
