/**
  A whole round on the network: 2f+1 validators move to a fresh round and vote for a
  block, and one honest validator among them collects the votes and commits it.
 */
module NetworkRound {
  import opened Wrappers
  import opened Bytes
  import opened Types
  import opened Quorum
  import opened HotStuff
  import opened HotStuffRuns
  import opened CommitBacking
  import opened Agreement
  import opened Lawful
  import opened Finality
  import HonestRounds
  import GoodRound

  // ---- votes ----

  /** `all` holds a signing key for every validator, those of the honest ones being their own. */
  ghost predicate HoldsKeys(w: World, all: map<Address, bytes>) {
    && (forall a | a in w.config.Members() :: a in all && w.crypto.publicKey(all[a]) == a)
    && (forall a | a in w.keys :: a in all && all[a] == w.keys[a])
  }

  function VoteFor(w: World, all: map<Address, bytes>, a: Address, block: Block, round: u64): Vote
    requires a in all
  {
    SignVote(w.crypto, BlockHash(w.crypto, block), round, all[a])
  }

  /** Honest nodes that the block suits: below the round, on its parent, and not locked against it. */
  ghost predicate Suits(c: Crypto, s: State, block: Block) {
    s.committed != [] && Extends(c, block, Tip(s)) && PassesLock(s, block)
  }

  ghost predicate Open(w: World, n: Network, a: Address, block: Block, round: u64) {
    a in w.keys ==>
      && a in n.nodes && n.nodes[a].round < round && Suits(w.crypto, n.nodes[a], block)
      && VotesSoFar(n.signed, a, n.nodes[a])
  }

  /** The node after it has moved to the round and taken up the block. */
  ghost function Moved(id: Identity, s: State, block: Block, round: u64, qc: QuorumCert): State {
    OnHandlePropose(id, OnHandleNewView(id, s, round, qc).state, block).state
  }

  lemma MovedShape(id: Identity, s: State, block: Block, round: u64, qc: QuorumCert)
    requires s.round < round && PassesLock(s, block)
    ensures var t := OnHandleNewView(id, s, round, qc).state;
      && t.round == round && t.phase == Prepare && NoVotes(t) && t.pending == None
      && t.committed == s.committed && t.lockedQc == s.lockedQc
      && OnHandlePropose(id, t, block).reply == Some(VoteMsg(OwnVote(id, t, block)))
      && Moved(id, s, block, round, qc) == t.(pending := Some(block))
  {
    hide BlockHash, SignVote;
  }

  ghost function VotingOne(w: World, all: map<Address, bytes>, a: Address, block: Block, round: u64,
                           qc: QuorumCert): seq<Action>
    requires a in all
  {
    if a in w.keys then [Deliver(a, Viewing(round, qc))] + [Deliver(a, Proposal(block))]
    else [Inject(VoteFor(w, all, a, block, round))]
  }

  lemma OneAct(w: World, n: Network, act: Action)
    requires LawfulAct(w, n, act)
    ensures LawfulRun(w, n, [act]) && RunNet(w, n, [act]) == Act(w, n, act) && Seen(w, n, [act]) == Taken(w, n, act)
  {
    hide LawfulAct, Act, Taken;
    ActIsPossible(w, n, act);
    assert [act][1..] == [];
  }

  lemma NodeMoves(w: World, n: Network, a: Address, round: u64, qc: QuorumCert)
    requires a in w.keys && a in n.nodes && n.nodes[a].round < round
    ensures LawfulAct(w, n, Deliver(a, Viewing(round, qc)))
    ensures Taken(w, n, Deliver(a, Viewing(round, qc))) == {}
    ensures Act(w, n, Deliver(a, Viewing(round, qc))) ==
            n.(nodes := n.nodes[a := OnHandleNewView(w.Id(a), n.nodes[a], round, qc).state])
  {
    hide BlockHash, SignVote;
  }

  lemma NodeVotes(w: World, n: Network, all: map<Address, bytes>, a: Address, block: Block)
    requires w.Valid() && HoldsKeys(w, all) && a in w.keys && a in n.nodes && NoVotes(n.nodes[a])
    requires Suits(w.crypto, n.nodes[a], block)
    requires forall m | m in n.signed && m.voter == a :: m.round < n.nodes[a].round
    ensures LawfulAct(w, n, Deliver(a, Proposal(block)))
    ensures Taken(w, n, Deliver(a, Proposal(block))) == {block.header}
    ensures Act(w, n, Deliver(a, Proposal(block))) ==
            n.(nodes := n.nodes[a := n.nodes[a].(pending := Some(block))],
               signed := n.signed + {Signed(a, BlockHash(w.crypto, block), n.nodes[a].round)},
               pool := n.pool + {VoteFor(w, all, a, block, n.nodes[a].round)})
  {
    hide BlockHash, VoteSigningBytes, Extends;
  }

  lemma ValidatorVotes(w: World, n: Network, all: map<Address, bytes>, a: Address, block: Block, round: u64,
                       qc: QuorumCert)
    requires w.Valid() && HoldsKeys(w, all) && a in w.config.Members() && Open(w, n, a, block, round)
    ensures var acts := VotingOne(w, all, a, block, round, qc);
      && LawfulRun(w, n, acts) && (a in w.keys ==> a in n.nodes)
      && RunNet(w, n, acts).pool == n.pool + {VoteFor(w, all, a, block, round)}
      && RunNet(w, n, acts).views == n.views
      && (if a in w.keys
          then RunNet(w, n, acts).nodes == n.nodes[a := Moved(w.Id(a), n.nodes[a], block, round, qc)]
               && RunNet(w, n, acts).signed == n.signed + {Signed(a, BlockHash(w.crypto, block), round)}
          else RunNet(w, n, acts).nodes == n.nodes && RunNet(w, n, acts).signed == n.signed)
      && Seen(w, n, acts) <= {block.header}
  {
    if a in w.keys {
      var move, take := Deliver(a, Viewing(round, qc)), Deliver(a, Proposal(block));
      MovedShape(w.Id(a), n.nodes[a], block, round, qc);
      NodeMoves(w, n, a, round, qc);
      OneAct(w, n, move);
      var next := Act(w, n, move);
      assert NoVotes(next.nodes[a]) && Suits(w.crypto, next.nodes[a], block);
      hide LawfulAct, Act, Taken, BlockHash, SignVote, OnHandleNewView, OnHandlePropose, Suits, LawfulRun, RunNet, Seen;
      NodeVotes(w, next, all, a, block);
      OneAct(w, next, take);
      NetConcat(w, n, [move], [take]);
    } else {
      var inject := Inject(VoteFor(w, all, a, block, round));
      assert LawfulAct(w, n, inject) && Taken(w, n, inject) == {};
      OneAct(w, n, inject);
    }
  }

  ghost function VotingAll(w: World, all: map<Address, bytes>, members: seq<Address>, block: Block, round: u64,
                           qc: QuorumCert): seq<Action>
    requires forall i | 0 <= i < |members| :: members[i] in all
  {
    if members == [] then []
    else VotingOne(w, all, members[0], block, round, qc) + VotingAll(w, all, members[1..], block, round, qc)
  }

  ghost predicate AllOpen(w: World, n: Network, all: map<Address, bytes>, members: seq<Address>, block: Block,
                          round: u64)
  {
    && (forall i | 0 <= i < |members| :: members[i] in w.config.Members() && members[i] in all)
    && (forall i | 0 <= i < |members| :: Open(w, n, members[i], block, round))
    && (forall i, j | 0 <= i < j < |members| :: members[i] != members[j])
  }

  /** What the votes of these members leave behind. */
  ghost predicate AllVoted(w: World, n: Network, all: map<Address, bytes>, members: seq<Address>, block: Block,
                           round: u64, qc: QuorumCert, m: Network) {
    && m.nodes.Keys == n.nodes.Keys && n.pool <= m.pool && m.views == n.views && n.signed <= m.signed
    && (forall i | 0 <= i < |members| :: members[i] in all && VoteFor(w, all, members[i], block, round) in m.pool)
    && (forall a | a in n.nodes :: m.nodes[a] ==
          if a in members && a in w.keys then Moved(w.Id(a), n.nodes[a], block, round, qc) else n.nodes[a])
    && (forall x | x in m.signed && x !in n.signed :: x.blockHash == BlockHash(w.crypto, block) && x.round == round)
  }

  lemma StaysOpen(w: World, n: Network, m: Network, a: Address, b: Address, block: Block, round: u64)
    requires Open(w, n, b, block, round) && b != a
    requires b in n.nodes ==> b in m.nodes && m.nodes[b] == n.nodes[b]
    requires forall x | x in m.signed && x !in n.signed :: x.voter == a
    ensures Open(w, m, b, block, round)
  {
    hide Suits;
  }

  lemma RestStaysOpen(w: World, n: Network, next: Network, all: map<Address, bytes>, members: seq<Address>,
                      block: Block, round: u64)
    requires members != [] && AllOpen(w, n, all, members, block, round)
    requires forall b | b in n.nodes && b != members[0] :: b in next.nodes && next.nodes[b] == n.nodes[b]
    requires forall x | x in next.signed && x !in n.signed :: x.voter == members[0]
    ensures AllOpen(w, next, all, members[1..], block, round)
  {
    hide Open;
    var rest := members[1..];
    forall i | 0 <= i < |rest| ensures Open(w, next, rest[i], block, round) {
      assert rest[i] == members[i + 1];
      StaysOpen(w, n, next, members[0], rest[i], block, round);
    }
  }

  lemma {:induction false} MembersVote(w: World, n: Network, all: map<Address, bytes>, members: seq<Address>,
                                       block: Block, round: u64, qc: QuorumCert)
    requires w.Valid() && HoldsKeys(w, all) && AllOpen(w, n, all, members, block, round)
    ensures var acts := VotingAll(w, all, members, block, round, qc);
      && LawfulRun(w, n, acts) && AllVoted(w, n, all, members, block, round, qc, RunNet(w, n, acts))
      && Seen(w, n, acts) <= {block.header}
    decreases |members|
  {
    hide Open, HoldsKeys, Moved, BlockHash, LawfulAct, Act, Taken, VotingOne, VoteFor;
    if members == [] {
    } else {
      var a, rest := members[0], members[1..];
      assert Open(w, n, a, block, round) && a in w.config.Members();
      ValidatorVotes(w, n, all, a, block, round, qc);
      var first := VotingOne(w, all, a, block, round, qc);
      hide LawfulRun, RunNet, Seen;
      var next := RunNet(w, n, first);
      RestStaysOpen(w, n, next, all, members, block, round);
      hide AllOpen, AllVoted;
      MembersVote(w, next, all, rest, block, round, qc);
      var others := VotingAll(w, all, rest, block, round, qc);
      NetConcat(w, n, first, others);
      JoinVotes(w, n, next, RunNet(w, next, others), all, members, block, round, qc);
    }
  }

  lemma JoinVotes(w: World, n: Network, next: Network, m: Network, all: map<Address, bytes>, members: seq<Address>,
                  block: Block, round: u64, qc: QuorumCert)
    requires members != [] && members[0] in all && (members[0] in w.keys ==> members[0] in n.nodes)
    requires forall i, j | 0 <= i < j < |members| :: members[i] != members[j]
    requires next.pool == n.pool + {VoteFor(w, all, members[0], block, round)} && next.views == n.views
    requires if members[0] in w.keys
             then next.nodes == n.nodes[members[0] := Moved(w.Id(members[0]), n.nodes[members[0]], block, round, qc)]
                  && next.signed == n.signed + {Signed(members[0], BlockHash(w.crypto, block), round)}
             else next.nodes == n.nodes && next.signed == n.signed
    requires AllVoted(w, next, all, members[1..], block, round, qc, m)
    ensures AllVoted(w, n, all, members, block, round, qc, m)
  {
    hide Moved, BlockHash, VoteFor;
    var a, rest := members[0], members[1..];
    assert members == [a] + rest;
    forall i | 0 <= i < |members| ensures members[i] in all && VoteFor(w, all, members[i], block, round) in m.pool {
      if i > 0 { assert members[i] == rest[i - 1]; }
    }
    assert a !in rest;
  }

  // ---- collecting ----

  ghost function Feeding(b: Address, es: seq<Event>): (acts: seq<Action>)
    ensures |acts| == |es|
  {
    seq(|es|, i requires 0 <= i < |es| => Deliver(b, es[i]))
  }

  lemma FeedOne(w: World, n: Network, b: Address, e: Event)
    requires b in w.keys && b in n.nodes && e.Voting? && e.vote in n.pool && Enabled(w.Id(b), n.nodes[b], e)
    requires Screened(w.Id(b), n.nodes[b], e)
    ensures LawfulAct(w, n, Deliver(b, e)) && Taken(w, n, Deliver(b, e)) == {}
    ensures var m := Act(w, n, Deliver(b, e));
      && m.nodes == n.nodes[b := Next(w.Id(b), n.nodes[b], e)] && m.pool == n.pool && m.signed == n.signed
      && n.views <= m.views
    ensures var reply := Step(w.Id(b), n.nodes[b], e).reply;
      reply.Some? && reply.value.NewView? ==>
        View(reply.value.round, reply.value.qc) in Act(w, n, Deliver(b, e)).views
  {
    VoteEffect(w.Id(b), n.nodes[b], e.vote, e.order);
    hide OnHandleVote, Screened, OrderFits;
  }

  lemma {:induction false} FeedAll(w: World, n: Network, b: Address, es: seq<Event>)
    requires b in w.keys && b in n.nodes && Admissible(w.Id(b), n.nodes[b], es) && ScreenedRun(w.Id(b), n.nodes[b], es)
    requires forall i | 0 <= i < |es| :: es[i].Voting? && es[i].vote in n.pool
    ensures LawfulRun(w, n, Feeding(b, es)) && Seen(w, n, Feeding(b, es)) == {}
    ensures var m := RunNet(w, n, Feeding(b, es));
      && m.nodes == n.nodes[b := Run(w.Id(b), n.nodes[b], es)] && m.pool == n.pool && m.signed == n.signed
      && n.views <= m.views
    decreases |es|
  {
    hide LawfulAct, Act, Taken, Step, Enabled, Screened;
    var acts := Feeding(b, es);
    if es == [] {
    } else {
      FeedOne(w, n, b, es[0]);
      ActIsPossible(w, n, acts[0]);
      assert acts[1..] == Feeding(b, es[1..]);
      FeedAll(w, Act(w, n, acts[0]), b, es[1..]);
    }
  }

  lemma VoteKeepsOrDecides(id: Identity, s: State, vote: Vote, order: seq<string>)
    requires OrderFits(id, s, vote, order)
    ensures var t := OnHandleVote(id, s, vote, order).state;
      t.phase == Decide || (t.pending == s.pending && t.round == s.round)
  {
    hide VerifyVote, Insert, Certificate, VotesIn;
    if Counts(id, s, vote) { InsertOnlyAddsVotes(s, vote); }
  }

  /** Validators' votes for the pending block and round stay screened to the commit and beyond. */
  lemma {:induction false} VotesStayScreened(id: Identity, s: State, es: seq<Event>, block: Block, round: u64)
    requires Admissible(id, s, es)
    requires forall i | 0 <= i < |es| :: es[i].Voting? && Matches(id, es[i].vote, block, round)
    requires s.phase == Decide || (s.pending == Some(block) && s.round == round)
    ensures ScreenedRun(id, s, es)
    decreases |es|
  {
    hide Matches, OnHandleVote, VerifyVote, OrderFits;
    if es == [] {
    } else {
      VoteKeepsOrDecides(id, s, es[0].vote, es[0].order);
      assert Matches(id, es[0].vote, block, round);
      DecidedStays(id, s, es[0].vote, es[0].order);
      VotesStayScreened(id, Next(id, s, es[0]), es[1..], block, round);
    }
  }

  lemma DecidedStays(id: Identity, s: State, vote: Vote, order: seq<string>)
    requires OrderFits(id, s, vote, order)
    ensures s.phase == Decide ==> OnHandleVote(id, s, vote, order).state == s
  {
  }

  /** Three deliveries of the votes, short of the last vote. */
  function AllButLast(votes: seq<Vote>): seq<Event>
    requires votes != []
  {
    var es := GoodRound.Delivered(votes);
    es + (es + es[..|es| - 1])
  }

  function LastOf(votes: seq<Vote>): Event
    requires votes != []
  {
    GoodRound.Delivered(votes)[|votes| - 1]
  }

  /** Where three deliveries of a quorum's votes lead, up to and including the last vote. */
  lemma CollectorCommits(id: Identity, s: State, votes: seq<Vote>, block: Block) returns (qc: QuorumCert)
    requires s.phase == Prepare && NoVotes(s) && s.pending == Some(block)
    requires votes != [] && |votes| == id.config.QuorumSize()
    requires HonestRounds.Segment(id, map[], GoodRound.Delivered(votes), BlockHash(id.crypto, block), s.round)
    ensures qc.round == s.round && qc.blockHash == BlockHash(id.crypto, block)
    ensures var most, last := AllButLast(votes), LastOf(votes);
      && Admissible(id, s, most) && Enabled(id, Run(id, s, most), last)
      && var out := Step(id, Run(id, s, most), last);
      && out.reply == Some(NewView(s.round + 1, qc))
      && out.state.committed == s.committed + [block.(qc := Some(qc))] && out.state.round == s.round
      && LockedAs(out.state, BlockHash(id.crypto, block), s.round)
  {
    var hash := BlockHash(id.crypto, block);
    hide BlockHash, HonestRounds.Segment, Admissible, Run, Step, Enabled;
    var es := GoodRound.Delivered(votes);
    var t, _ := OnePhase(id, s, votes, hash);
    var u, lock := OnePhase(id, t, votes, hash);
    GoodRound.DeliveryIsAdmissible(id, u, votes, hash);
    var held, full;
    held, full, qc := HonestRounds.FullSegment(id, u, es, hash);
    HonestRounds.RunConcat(id, t, es, es[..|es| - 1]);
    HonestRounds.RunConcat(id, s, es, es + es[..|es| - 1]);
    HonestRounds.Decided(u, held, full, qc);
  }

  lemma OnePhase(id: Identity, s: State, votes: seq<Vote>, hash: Digest) returns (t: State, qc: QuorumCert)
    requires s.phase == Prepare || s.phase == PreCommit
    requires Held(s, s.phase) == map[] && (s.phase == Prepare ==> s.precommitVotes == map[]) && s.commitVotes == map[]
    requires |votes| == id.config.QuorumSize()
    requires HonestRounds.Segment(id, map[], GoodRound.Delivered(votes), hash, s.round)
    ensures Admissible(id, s, GoodRound.Delivered(votes)) && t == Run(id, s, GoodRound.Delivered(votes))
    ensures qc.blockHash == hash && qc.round == s.round
    ensures t.round == s.round && t.pending == s.pending && t.committed == s.committed && t.commitVotes == map[]
    ensures s.phase == Prepare ==> t.phase == PreCommit && t.precommitVotes == map[]
    ensures s.phase == PreCommit ==> t.phase == Commit && t.lockedQc == Some(qc)
  {
    hide HonestRounds.Segment, Admissible, Run, Step, Enabled;
    GoodRound.DeliveryIsAdmissible(id, s, votes, hash);
    var held, full;
    held, full, qc := HonestRounds.FullSegment(id, s, GoodRound.Delivered(votes), hash);
    t := Run(id, s, GoodRound.Delivered(votes));
  }

  // ---- the round ----

  function VotesOf(w: World, all: map<Address, bytes>, members: seq<Address>, block: Block,
                   round: u64): (votes: seq<Vote>)
    requires forall i | 0 <= i < |members| :: members[i] in all
    ensures |votes| == |members|
    ensures forall i | 0 <= i < |members| :: votes[i] == VoteFor(w, all, members[i], block, round)
  {
    seq(|members|, i requires 0 <= i < |members| => VoteFor(w, all, members[i], block, round))
  }

  lemma VoteForIsGood(w: World, all: map<Address, bytes>, a: Address, block: Block, round: u64)
    requires w.crypto.Sound() && HoldsKeys(w, all) && a in w.config.Members()
    ensures var v := VoteFor(w, all, a, block, round);
      && v.voter == a && v.blockHash == BlockHash(w.crypto, block) && v.round == round && VerifyVote(w.crypto, v)
  {
    hide BlockHash, VoteSigningBytes;
    var bytes := VoteSigningBytes(w.crypto, BlockHash(w.crypto, block), round);
    assert w.crypto.accepts(w.crypto.publicKey(all[a]), bytes, w.crypto.sign(all[a], bytes));
  }

  lemma VotesFormSegment(w: World, id: Identity, all: map<Address, bytes>, members: seq<Address>, block: Block,
                         round: u64)
    requires w.crypto.Sound() && HoldsKeys(w, all) && id.crypto == w.crypto && id.config == w.config
    requires forall i | 0 <= i < |members| :: members[i] in w.config.Members() && members[i] in all
    requires forall i, j | 0 <= i < j < |members| :: members[i] != members[j]
    ensures var votes := VotesOf(w, all, members, block, round);
      && HonestRounds.Segment(id, map[], GoodRound.Delivered(votes), BlockHash(w.crypto, block), round)
      && forall i | 0 <= i < |votes| :: Matches(id, votes[i], block, round)
  {
    hide BlockHash, VerifyVote, VoteFor, VoterKey, Crypto.Sound, HoldsKeys;
    var votes := VotesOf(w, all, members, block, round);
    var es := GoodRound.Delivered(votes);
    forall i | 0 <= i < |members|
      ensures HonestRounds.IsVoteFor(id, es[i], BlockHash(w.crypto, block), round)
      ensures es[i].vote == votes[i] && votes[i].voter == members[i] && Matches(id, votes[i], block, round)
    {
      VoteForIsGood(w, all, members[i], block, round);
    }
  }

  /** Who holds what after a round for `block`: the collector has committed it, the others have just voted. */
  ghost predicate RoundDone(w: World, n: Network, m: Network, members: seq<Address>, b: Address, block: Block,
                            round: u64, qc: QuorumCert) {
    && m.nodes.Keys == n.nodes.Keys && b in n.nodes
    && qc.round == round && qc.blockHash == BlockHash(w.crypto, block)
    && m.nodes[b].committed == n.nodes[b].committed + [block.(qc := Some(qc))] && m.nodes[b].round == round
    && LockedAs(m.nodes[b], qc.blockHash, round)
    && View(round + 1, qc) in m.views
    && (forall a | a in n.nodes && a != b ::
          if a in members && a in w.keys
          then m.nodes[a].round == round && m.nodes[a].committed == n.nodes[a].committed
               && m.nodes[a].lockedQc == n.nodes[a].lockedQc
          else m.nodes[a] == n.nodes[a])
    && (forall x | x in m.signed && x !in n.signed :: x.blockHash == qc.blockHash && x.round == round)
    && n.signed <= m.signed && n.pool <= m.pool
  }

  lemma Collect(w: World, n: Network, all: map<Address, bytes>, members: seq<Address>, b: Address, block: Block,
                round: u64)
      returns (acts: seq<Action>, qc: QuorumCert)
    requires w.Valid() && w.crypto.Sound() && HoldsKeys(w, all) && |members| == w.config.QuorumSize()
    requires forall i | 0 <= i < |members| :: members[i] in w.config.Members() && members[i] in all
    requires forall i, j | 0 <= i < j < |members| :: members[i] != members[j]
    requires forall i | 0 <= i < |members| :: VoteFor(w, all, members[i], block, round) in n.pool
    requires b in w.keys && b in n.nodes
    requires n.nodes[b].phase == Prepare && NoVotes(n.nodes[b]) && n.nodes[b].pending == Some(block)
    requires n.nodes[b].round == round
    ensures LawfulRun(w, n, acts) && Seen(w, n, acts) == {}
    ensures qc.round == round && qc.blockHash == BlockHash(w.crypto, block)
    ensures var m := RunNet(w, n, acts);
      && b in m.nodes && m.nodes == n.nodes[b := m.nodes[b]] && m.pool == n.pool && m.signed == n.signed
      && m.nodes[b].committed == n.nodes[b].committed + [block.(qc := Some(qc))] && m.nodes[b].round == round
      && LockedAs(m.nodes[b], qc.blockHash, round) && View(round + 1, qc) in m.views
  {
    hide VoteFor, BlockHash, HoldsKeys, Crypto.Sound, LawfulRun, RunNet, Seen, Run, Admissible, ScreenedRun, Matches;
    hide Step, Enabled, HonestRounds.Segment, Act, Taken, LawfulAct, Screened;
    var id, s := w.Id(b), n.nodes[b];
    var votes := VotesOf(w, all, members, block, round);
    VotesFormSegment(w, id, all, members, block, round);
    qc := CollectorCommits(id, s, votes, block);
    var most, last := AllButLast(votes), LastOf(votes);
    AllVotingFor(id, n, votes, most, block, round);
    HonestRounds.LoneEvent(id, Run(id, s, most), last);
    HonestRounds.RunConcat(id, s, most, [last]);
    AllVotingFor(id, n, votes, most + [last], block, round);
    VotesStayScreened(id, s, most + [last], block, round);
    ScreenedSplit(id, s, most, last);
    FeedAll(w, n, b, most);
    var next := RunNet(w, n, Feeding(b, most));
    FeedOne(w, next, b, last);
    OneAct(w, next, Deliver(b, last));
    acts := Feeding(b, most) + [Deliver(b, last)];
    NetConcat(w, n, Feeding(b, most), [Deliver(b, last)]);
  }

  lemma AllVotingFor(id: Identity, n: Network, votes: seq<Vote>, es: seq<Event>, block: Block, round: u64)
    requires forall i | 0 <= i < |votes| :: Matches(id, votes[i], block, round) && votes[i] in n.pool
    requires forall e | e in es :: e in GoodRound.Delivered(votes)
    ensures forall i | 0 <= i < |es| ::
      es[i].Voting? && es[i].vote in n.pool && Matches(id, es[i].vote, block, round)
  {
    hide Matches;
    forall i | 0 <= i < |es|
      ensures es[i].Voting? && es[i].vote in n.pool && Matches(id, es[i].vote, block, round)
    {
      assert es[i] in GoodRound.Delivered(votes);
      var j :| 0 <= j < |votes| && GoodRound.Delivered(votes)[j] == es[i];
    }
  }

  lemma {:induction false} ScreenedSplit(id: Identity, s: State, es: seq<Event>, last: Event)
    requires Admissible(id, s, es + [last]) && ScreenedRun(id, s, es + [last]) && Admissible(id, s, es)
    requires Enabled(id, Run(id, s, es), last)
    ensures ScreenedRun(id, s, es) && Screened(id, Run(id, s, es), last)
    decreases |es|
  {
    hide Enabled, Step, Screened;
    if es == [] {
      assert es + [last] == [last];
    } else {
      assert (es + [last])[0] == es[0] && (es + [last])[1..] == es[1..] + [last];
      ScreenedSplit(id, Next(id, s, es[0]), es[1..], last);
    }
  }

  /** 2f+1 validators the block suits, honest or not, certify it in a fresh round, and one of them commits it. */
  lemma RoundOnNetwork(w: World, n: Network, all: map<Address, bytes>, members: seq<Address>, b: Address,
                       block: Block, round: u64)
      returns (acts: seq<Action>, qc: QuorumCert)
    requires w.Valid() && w.crypto.Sound() && HoldsKeys(w, all) && |members| == w.config.QuorumSize()
    requires AllOpen(w, n, all, members, block, round) && b in members && b in w.keys
    ensures LawfulRun(w, n, acts) && Seen(w, n, acts) <= {block.header}
    ensures RoundDone(w, n, RunNet(w, n, acts), members, b, block, round, qc)
  {
    var none := QuorumCert(ZERO_32, 0, []);
    MembersVote(w, n, all, members, block, round, none);
    var first := VotingAll(w, all, members, block, round, none);
    assert Open(w, n, b, block, round);
    MovedShape(w.Id(b), n.nodes[b], block, round, none);
    hide VoteFor, BlockHash, HoldsKeys, Crypto.Sound, LawfulRun, RunNet, Seen, Moved, VotingAll, Open;
    var next := RunNet(w, n, first);
    assert next.nodes[b] == Moved(w.Id(b), n.nodes[b], block, round, none);
    var second;
    second, qc := Collect(w, next, all, members, b, block, round);
    NetConcat(w, n, first, second);
    acts := first + second;
    RoundIsDone(w, n, next, RunNet(w, next, second), all, members, b, block, round, none, qc);
  }

  lemma RoundIsDone(w: World, n: Network, next: Network, m: Network, all: map<Address, bytes>, members: seq<Address>,
                    b: Address, block: Block, round: u64, none: QuorumCert, qc: QuorumCert)
    requires AllOpen(w, n, all, members, block, round) && AllVoted(w, n, all, members, block, round, none, next)
    requires b in members && b in w.keys && b in n.nodes && b in m.nodes
    requires qc.round == round && qc.blockHash == BlockHash(w.crypto, block)
    requires m.nodes == next.nodes[b := m.nodes[b]] && m.pool == next.pool && m.signed == next.signed
    requires next.nodes[b].committed == n.nodes[b].committed
    requires m.nodes[b].committed == next.nodes[b].committed + [block.(qc := Some(qc))] && m.nodes[b].round == round
    requires LockedAs(m.nodes[b], qc.blockHash, round) && View(round + 1, qc) in m.views
    ensures RoundDone(w, n, m, members, b, block, round, qc)
  {
    hide BlockHash, VoteFor, Moved, AllOpen, LockedAs;
    forall a | a in n.nodes && a != b
      ensures if a in members && a in w.keys
              then m.nodes[a].round == round && m.nodes[a].committed == n.nodes[a].committed
                   && m.nodes[a].lockedQc == n.nodes[a].lockedQc
              else m.nodes[a] == n.nodes[a]
    {
      assert m.nodes[a] == next.nodes[a];
      if a in members && a in w.keys { VoterMoved(w, n, all, members, a, block, round, none); }
    }
  }

  lemma VoterMoved(w: World, n: Network, all: map<Address, bytes>, members: seq<Address>, a: Address, block: Block,
                   round: u64, none: QuorumCert)
    requires AllOpen(w, n, all, members, block, round) && a in members && a in w.keys && a in n.nodes
    ensures var t := Moved(w.Id(a), n.nodes[a], block, round, none);
      t.round == round && t.committed == n.nodes[a].committed && t.lockedQc == n.nodes[a].lockedQc
  {
    assert Open(w, n, a, block, round);
    hide AllOpen, BlockHash, Moved;
    MovedShape(w.Id(a), n.nodes[a], block, round, none);
  }
}
