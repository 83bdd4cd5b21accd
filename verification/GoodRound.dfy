/**
  The good case from both sides: 2f+1 replicas answer one proposal and the view
  changes of its round, and their answers are the votes a collecting node commits on.
 */
module GoodRound {
  import opened Wrappers
  import opened Bytes
  import opened Types
  import opened HotStuff
  import opened HotStuffRuns
  import opened HonestRounds

  datatype Replica = Replica(id: Identity, state: State)

  /** In the collector's round, holding the key of its own address, and not locked against the block. */
  ghost predicate Serves(id: Identity, s: State, block: Block, r: Replica) {
    && r.id.crypto == id.crypto && r.id.crypto.publicKey(r.id.key) == r.id.address
    && r.state.round == s.round && PassesLock(r.state, block)
  }

  ghost function Replies(id: Identity, s: State, es: seq<Event>): seq<Option<Msg>>
    requires Admissible(id, s, es)
    decreases |es|
  {
    if es == [] then [] else [Step(id, s, es[0]).reply] + Replies(id, Next(id, s, es[0]), es[1..])
  }

  /** Proposal and two view changes of one round draw the same vote from a replica, once for each phase. */
  lemma ReplicaVotesThrice(id: Identity, s: State, block: Block, first: QuorumCert, second: QuorumCert)
    requires id.crypto.Sound() && PassesLock(s, block)
    ensures var es := [Proposal(block), Viewing(s.round, first), Viewing(s.round, second)];
      var vote := OwnVote(id, s, block);
      && Admissible(id, s, es)
      && Replies(id, s, es) == [Some(VoteMsg(vote)), Some(VoteMsg(vote)), Some(VoteMsg(vote))]
      && VerifyVote(id.crypto, vote) && vote.voter == id.crypto.publicKey(id.key)
      && vote.blockHash == BlockHash(id.crypto, block) && vote.round == s.round
      && Run(id, s, es).pending == Some(block) && Run(id, s, es).round == s.round
      && Run(id, s, es).committed == s.committed && Run(id, s, es).lockedQc == s.lockedQc
  {
    hide BlockHash, VoteSigningBytes, VerifyVote, SignVote, Run, Admissible, Replies;
    OwnVoteVerifies(id, s, block);
    var proposal, view, again := Proposal(block), Viewing(s.round, first), Viewing(s.round, second);
    var t := Next(id, s, proposal);
    var u := Next(id, t, view);
    ThreeSteps(id, s, t, u, proposal, view, again);
  }

  lemma OneStep(id: Identity, s: State, e: Event, rest: seq<Event>)
    requires Enabled(id, s, e) && Admissible(id, Next(id, s, e), rest)
    ensures Admissible(id, s, [e] + rest) && Run(id, s, [e] + rest) == Run(id, Next(id, s, e), rest)
    ensures Replies(id, s, [e] + rest) == [Step(id, s, e).reply] + Replies(id, Next(id, s, e), rest)
  {
    hide Enabled, Step;
    assert ([e] + rest)[0] == e && ([e] + rest)[1..] == rest;
  }

  lemma ThreeSteps(id: Identity, s: State, t: State, u: State, a: Event, b: Event, c: Event)
    requires Enabled(id, s, a) && Next(id, s, a) == t
    requires Enabled(id, t, b) && Next(id, t, b) == u && Enabled(id, u, c)
    ensures Admissible(id, s, [a, b, c]) && Run(id, s, [a, b, c]) == Next(id, u, c)
    ensures Replies(id, s, [a, b, c]) == [Step(id, s, a).reply, Step(id, t, b).reply, Step(id, u, c).reply]
  {
    hide Enabled, Step;
    var v := Next(id, u, c);
    assert Admissible(id, v, []) && Run(id, v, []) == v && Replies(id, v, []) == [];
    hide Admissible, Run, Replies;
    OneStep(id, u, c, []);
    OneStep(id, t, b, [c] + []);
    OneStep(id, s, a, [b] + ([c] + []));
    assert [a, b, c] == [a] + ([b] + ([c] + []));
  }

  lemma OwnVoteVerifies(id: Identity, s: State, block: Block)
    requires id.crypto.Sound()
    ensures var vote := OwnVote(id, s, block);
      && VerifyVote(id.crypto, vote) && vote.voter == id.crypto.publicKey(id.key)
      && vote.blockHash == BlockHash(id.crypto, block) && vote.round == s.round
  {
    hide BlockHash, VoteSigningBytes;
    var bytes := VoteSigningBytes(id.crypto, BlockHash(id.crypto, block), s.round);
    assert id.crypto.accepts(id.crypto.publicKey(id.key), bytes, id.crypto.sign(id.key, bytes));
  }

  // ---- the replicas' votes, delivered ----

  function Ballots(replicas: seq<Replica>, block: Block): (votes: seq<Vote>)
    ensures |votes| == |replicas|
  {
    seq(|replicas|, i requires 0 <= i < |replicas| => OwnVote(replicas[i].id, replicas[i].state, block))
  }

  function Voters(votes: seq<Vote>): (keys: seq<string>)
    ensures |keys| == |votes| && forall i | 0 <= i < |keys| :: keys[i] == VoterKey(votes[i])
  {
    seq(|votes|, i requires 0 <= i < |votes| => VoterKey(votes[i]))
  }

  /** Each vote delivered once; a full map lists its votes in the order they came in. */
  function Delivered(votes: seq<Vote>): (es: seq<Event>)
    ensures |es| == |votes| && forall i | 0 <= i < |es| :: es[i] == Voting(votes[i], Voters(votes))
  {
    seq(|votes|, i requires 0 <= i < |votes| => Voting(votes[i], Voters(votes)))
  }

  ghost predicate Quorate(id: Identity, s: State, block: Block, replicas: seq<Replica>) {
    && |replicas| == id.config.QuorumSize()
    && (forall i | 0 <= i < |replicas| :: Serves(id, s, block, replicas[i]))
    && (forall i, j | 0 <= i < j < |replicas| :: replicas[i].id.address != replicas[j].id.address)
  }

  lemma BallotsFormSegment(id: Identity, s: State, block: Block, replicas: seq<Replica>)
    requires id.crypto.Sound() && Quorate(id, s, block, replicas)
    ensures Segment(id, map[], Delivered(Ballots(replicas, block)), BlockHash(id.crypto, block), s.round)
  {
    var es := Delivered(Ballots(replicas, block));
    hide BlockHash, VerifyVote, SignVote, VoterKey, Crypto.Sound;
    forall i | 0 <= i < |es|
      ensures IsVoteFor(id, es[i], BlockHash(id.crypto, block), s.round)
      ensures es[i].vote.voter == replicas[i].id.address
    {
      assert Serves(id, s, block, replicas[i]);
      OwnVoteVerifies(replicas[i].id, replicas[i].state, block);
    }
  }

  /** The keys of the votes, listed as they come in, enumerate any map holding exactly those votes. */
  lemma VotersEnumerate(votes: seq<Vote>, m: VoteMap)
    requires votes != [] && forall i, j | 0 <= i < j < |votes| :: votes[i].voter != votes[j].voter
    requires m.Keys == VoterKeys(Delivered(votes)[..|votes| - 1]) + {VoterKey(votes[|votes| - 1])}
    ensures Enumerates(Voters(votes), m)
  {
    hide Delivered, VoterKeys, HexEncode;
    var order := Voters(votes);
    forall i, j | 0 <= i < j < |order| ensures order[i] != order[j] {
      if order[i] == order[j] { HexInjective(votes[i].voter, votes[j].voter); }
    }
    KeysListed(votes, votes[..|votes| - 1]);
    assert order == Voters(votes[..|votes| - 1]) + [VoterKey(votes[|votes| - 1])];
  }

  lemma KeysListed(votes: seq<Vote>, front: seq<Vote>)
    requires front <= votes
    ensures forall k :: k in Voters(front) <==> k in VoterKeys(Delivered(votes)[..|front|])
  {
    hide VoterKey;
    var es := Delivered(votes)[..|front|];
    forall k ensures k in Voters(front) <==> k in VoterKeys(es) {
      if k in Voters(front) {
        var i :| 0 <= i < |front| && Voters(front)[i] == k;
        assert es[i].Voting? && VoterKey(es[i].vote) == k;
      }
      if k in VoterKeys(es) {
        var e :| e in es && e.Voting? && VoterKey(e.vote) == k;
        var i :| 0 <= i < |es| && es[i] == e;
        assert Voters(front)[i] == k;
      }
    }
  }

  lemma SegmentVoters(id: Identity, votes: seq<Vote>, hash: Digest, round: u64)
    requires Segment(id, map[], Delivered(votes), hash, round)
    ensures forall i, j | 0 <= i < j < |votes| :: votes[i].voter != votes[j].voter
  {
    hide VerifyVote, VoterKey;
    var es := Delivered(votes);
    forall i, j | 0 <= i < j < |votes| ensures votes[i].voter != votes[j].voter {
      assert es[i].vote.voter != es[j].vote.voter;
    }
  }

  lemma LastIsEnabled(id: Identity, t: State, votes: seq<Vote>)
    requires votes != [] && forall i, j | 0 <= i < j < |votes| :: votes[i].voter != votes[j].voter
    requires Held(t, t.phase).Keys == VoterKeys(Delivered(votes)[..|votes| - 1])
    ensures Enabled(id, t, Delivered(votes)[|votes| - 1])
  {
    hide VoterKey, VoterKeys, VerifyVote, Enumerates;
    var vote := votes[|votes| - 1];
    assert Collected(t, vote).Keys == Held(t, t.phase).Keys + {VoterKey(vote)};
    VotersEnumerate(votes, Collected(t, vote));
  }

  lemma DeliveryIsAdmissible(id: Identity, s: State, votes: seq<Vote>, hash: Digest)
    requires s.phase != Decide && Held(s, s.phase) == map[]
    requires |votes| == id.config.QuorumSize() && Segment(id, map[], Delivered(votes), hash, s.round)
    ensures Admissible(id, s, Delivered(votes))
  {
    hide Segment, VoterKeys, VerifyVote, Enabled, Step;
    var es, last := Delivered(votes), |votes| - 1;
    var held := Collecting(id, s, es, last, hash, s.round);
    var t := WithHeld(s, held);
    SegmentVoters(id, votes, hash, s.round);
    assert Held(t, t.phase).Keys == VoterKeys(es[..last]);
    LastIsEnabled(id, t, votes);
    LoneEvent(id, t, es[last]);
    RunConcat(id, s, es[..last], [es[last]]);
    assert es == es[..last] + [es[last]];
  }

  /** Delivering the votes ends the phase and leaves the later phases' maps as they were. */
  lemma PhaseDelivered(id: Identity, s: State, votes: seq<Vote>, hash: Digest) returns (t: State)
    requires s.phase != Decide && Held(s, s.phase) == map[]
    requires |votes| == id.config.QuorumSize() && Segment(id, map[], Delivered(votes), hash, s.round)
    ensures Admissible(id, s, Delivered(votes)) && t == Run(id, s, Delivered(votes))
    ensures t.round == s.round
    ensures s.phase == Prepare ==>
      t.phase == PreCommit && t.precommitVotes == s.precommitVotes && t.commitVotes == s.commitVotes
    ensures s.phase == PreCommit ==> t.phase == Commit && t.commitVotes == s.commitVotes
  {
    hide Segment, Admissible, Run, Step, Enabled;
    DeliveryIsAdmissible(id, s, votes, hash);
    var held, full, qc := FullSegment(id, s, Delivered(votes), hash);
    t := Run(id, s, Delivered(votes));
  }

  lemma ThreeDeliveries(id: Identity, s: State, votes: seq<Vote>, hash: Digest, view: Event)
    requires s.phase == Prepare && NoVotes(s) && view.Viewing?
    requires |votes| == id.config.QuorumSize() && Segment(id, map[], Delivered(votes), hash, s.round)
    ensures var es := Delivered(votes); Admissible(id, s, es + (es + (es + [view])))
  {
    hide Segment, Admissible, Run, Step;
    var es := Delivered(votes);
    var t := PhaseDelivered(id, s, votes, hash);
    var u := PhaseDelivered(id, t, votes, hash);
    var v := PhaseDelivered(id, u, votes, hash);
    LoneEvent(id, v, view);
    RunConcat(id, u, es, [view]);
    RunConcat(id, t, es, es + [view]);
    RunConcat(id, s, es, es + (es + [view]));
  }

  // ---- the round ----

  ghost function RoundOf(id: Identity, s: State, open: Event, replicas: seq<Replica>, qc: QuorumCert): Round
    requires s.committed != [] && Opens(id, s, open) && s.round + 1 < TWO_64
  {
    var es := Delivered(Ballots(replicas, Opened(id, s, open)));
    Round(open, es, es, es, Viewing(s.round + 1, qc))
  }

  /** A quorum of serving replicas makes a full round. */
  lemma ReplicasFillRound(id: Identity, s: State, open: Event, replicas: seq<Replica>, qc: QuorumCert)
    requires Ready(s) && Opens(id, s, open) && s.round + 1 < TWO_64
    requires id.crypto.Sound() && Quorate(id, s, Opened(id, s, open), replicas)
    ensures FullRound(id, s, RoundOf(id, s, open, replicas, qc))
  {
    assert s.committed != [];
    hide BlockHash, Segment, Enabled, Step, Opened, Opens, Quorate, Crypto.Sound, Admissible, Run, Extends, TakesUp;
    hide FullRound, Ballots, Delivered, Voters;
    OpenRound(id, s, open);
    var block := Opened(id, s, open);
    var votes, hash := Ballots(replicas, block), BlockHash(id.crypto, block);
    var r := RoundOf(id, s, open, replicas, qc);
    BallotsFormSegment(id, s, block, replicas);
    var begun := Next(id, s, open);
    assert |votes| == id.config.QuorumSize() by { QuorateSize(id, s, block, replicas); }
    ThreeDeliveries(id, begun, votes, hash, r.view);
    LoneEvent(id, s, open);
    RunConcat(id, s, [open], r.prepare + (r.precommit + (r.commit + [r.view])));
    RoundIsFull(id, s, r);
  }

  lemma RoundIsFull(id: Identity, s: State, r: Round)
    requires s.committed != [] && Opens(id, s, r.open) && s.round + 1 < TWO_64 && Admissible(id, s, r.Events())
    requires r.prepare == r.precommit == r.commit && |r.prepare| == id.config.QuorumSize()
    requires Segment(id, map[], r.prepare, BlockHash(id.crypto, Opened(id, s, r.open)), s.round)
    requires r.view.Viewing? && r.view.round == s.round + 1
    ensures FullRound(id, s, r)
  {
    hide Segment, BlockHash, Opened, Opens, Admissible;
  }

  lemma QuorateSize(id: Identity, s: State, block: Block, replicas: seq<Replica>)
    requires Quorate(id, s, block, replicas)
    ensures |replicas| == id.config.QuorumSize()
  {
  }

  /**
    The good case: when 2f+1 distinct replicas serve a round it takes up, the collecting node
    commits the proposed block on their answers and stands ready for the next round.
   */
  lemma GoodRoundCommits(id: Identity, s: State, open: Event, replicas: seq<Replica>) returns (qc: QuorumCert)
    requires Ready(s) && Opens(id, s, open) && TakesUp(s, open) && s.round + 1 < TWO_64
    requires id.crypto.Sound() && Quorate(id, s, Opened(id, s, open), replicas)
    ensures qc.round == s.round && qc.blockHash == BlockHash(id.crypto, Opened(id, s, open))
    ensures var r := RoundOf(id, s, open, replicas, qc);
      && Admissible(id, s, r.Events())
      && var t := Run(id, s, r.Events());
      && t.committed == s.committed + [Opened(id, s, open).(qc := Some(qc))]
      && Ready(t) && LockOnTip(id.crypto, t) && t.round == s.round + 1 && t.highQc == Some(qc)
  {
    assert s.committed != [];
    hide *;
    var none := QuorumCert(ZERO_32, 0, []);
    ReplicasFillRound(id, s, open, replicas, none);
    RoundOfParts(id, s, open, replicas, none, none);
    qc := RoundCommits(id, s, RoundOf(id, s, open, replicas, none));
    ReplicasFillRound(id, s, open, replicas, qc);
    RoundOfParts(id, s, open, replicas, none, qc);
    var again := RoundCommits(id, s, RoundOf(id, s, open, replicas, qc));
  }

  /** Until its last commit vote a round does not depend on the view change that ends it. */
  lemma RoundOfParts(id: Identity, s: State, open: Event, replicas: seq<Replica>, p: QuorumCert, q: QuorumCert)
    requires s.committed != [] && Opens(id, s, open) && s.round + 1 < TWO_64
    requires Quorate(id, s, Opened(id, s, open), replicas)
    ensures var r, t := RoundOf(id, s, open, replicas, p), RoundOf(id, s, open, replicas, q);
      && r.open == t.open == open && r.commit == t.commit != [] && r.BeforeLast() == t.BeforeLast()
      && t.view.Viewing? && t.view.qc == q
  {
    hide Opens, Opened;
  }

  // ---- two rounds ----

  /** What a replica sees of a round in which `block` is committed elsewhere with certificate `qc`. */
  function RoundSeen(block: Block, round: u64, qc: QuorumCert): seq<Event>
    requires round + 1 < TWO_64
  {
    [Proposal(block), Viewing(round, qc), Viewing(round, qc)] + [Viewing(round + 1, qc)]
  }

  /** A replica leaves the round as unlocked as it entered it: only who collects votes ever locks. */
  lemma ReplicaMovesOn(id: Identity, s: State, block: Block, qc: QuorumCert)
    requires id.crypto.Sound() && PassesLock(s, block) && s.round + 1 < TWO_64
    ensures Admissible(id, s, RoundSeen(block, s.round, qc))
    ensures var t := Run(id, s, RoundSeen(block, s.round, qc));
      t.round == s.round + 1 && t.lockedQc == s.lockedQc && t.committed == s.committed
  {
    ReplicaVotesThrice(id, s, block, qc, qc);
    hide PassesLock, OwnVote, Replies, VerifyVote, BlockHash, Crypto.Sound;
    var es, last := [Proposal(block), Viewing(s.round, qc), Viewing(s.round, qc)], Viewing(s.round + 1, qc);
    RunConcat(id, s, es, [last]);
    LoneEvent(id, Run(id, s, es), last);
    hide Run, Admissible;
    ViewChange(id, Run(id, s, es), last);
  }
}
