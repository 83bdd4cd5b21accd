/**
  The HotStuff node: its state, what each call does to it, and the class whose
  methods carry those calls out in place.

  The order in which the votes of a hash map are listed is not fixed by the
  program; here it is an explicit enumeration of the map's keys.
 */
module HotStuff {
  import opened Wrappers
  import opened Bytes
  import opened Types
  import opened Quorum
  import Merkle

  datatype Phase = Prepare | PreCommit | Commit | Decide

  datatype Msg =
    | Propose(block: Block, highQc: Option<QuorumCert>)
    | VoteMsg(vote: Vote)
    | NewView(round: nat, qc: QuorumCert)

  /** What never changes about a node. */
  datatype Identity = Identity(crypto: Crypto, address: Address, key: bytes, config: Config)

  type VoteMap = map<string, Vote>

  datatype State = State(
    round: u64,
    phase: Phase,
    lockedQc: Option<QuorumCert>,
    highQc: Option<QuorumCert>,
    prepareVotes: VoteMap,
    precommitVotes: VoteMap,
    commitVotes: VoteMap,
    committed: seq<Block>,
    pending: Option<Block>)

  datatype Outcome = Outcome(state: State, reply: Option<Msg>)

  function Init(): State {
    State(0, Prepare, None, None, map[], map[], map[], [Genesis()], None)
  }

  function Tip(s: State): Block
    requires s.committed != []
  {
    s.committed[|s.committed| - 1]
  }

  // ---- proposals ----

  function NewBlock(c: Crypto, height: u64, parentHash: Digest, transactions: seq<Transaction>,
                    proposer: Address, round: u64, now: i64): Block
  {
    Block(BlockHeader(height, parentHash, Merkle.Root(c, transactions), ZERO_32, now, proposer, round),
          transactions, None)
  }

  /** Only the round's leader may propose, and the next height must be a machine word. */
  predicate MayPropose(id: Identity, s: State)
    requires id.config.validators != [] && s.committed != []
  {
    id.config.IsLeader(s.round, id.address) && Tip(s).header.height < TWO_64 - 1
  }

  function ProposedBlock(id: Identity, s: State, transactions: seq<Transaction>, now: i64): Block
    requires id.config.validators != [] && s.committed != [] && MayPropose(id, s)
  {
    var parent := Tip(s);
    NewBlock(id.crypto, parent.header.height + 1, BlockHash(id.crypto, parent), transactions,
             id.address, s.round, now)
  }

  function OnPropose(id: Identity, s: State, transactions: seq<Transaction>, now: i64): Outcome
    requires id.config.validators != [] && s.committed != [] && MayPropose(id, s)
  {
    var block := ProposedBlock(id, s, transactions, now);
    Outcome(s.(pending := Some(block), phase := Prepare), Some(Propose(block, s.highQc)))
  }

  /** A locked node takes up no proposal of others whose parent is not the locked block. */
  predicate PassesLock(s: State, block: Block) {
    s.lockedQc.Some? ==> block.header.parentHash == s.lockedQc.value.blockHash
  }

  function OwnVote(id: Identity, s: State, block: Block): Vote {
    SignVote(id.crypto, BlockHash(id.crypto, block), s.round, id.key)
  }

  function OnHandlePropose(id: Identity, s: State, block: Block): Outcome {
    if !PassesLock(s, block) then Outcome(s, None)
    else Outcome(s.(pending := Some(block)), Some(VoteMsg(OwnVote(id, s, block))))
  }

  // ---- votes ----

  function VoterKey(v: Vote): string {
    HexEncode(v.voter)
  }

  /** The votes of the current phase. */
  function Held(s: State, phase: Phase): VoteMap {
    match phase
    case Prepare => s.prepareVotes
    case PreCommit => s.precommitVotes
    case Commit => s.commitVotes
    case Decide => map[]
  }

  predicate Counts(id: Identity, s: State, vote: Vote) {
    VerifyVote(id.crypto, vote) && s.phase != Decide
  }

  function Collected(s: State, vote: Vote): VoteMap {
    Held(s, s.phase)[VoterKey(vote) := vote]
  }

  predicate Completes(id: Identity, s: State, vote: Vote) {
    Counts(id, s, vote) && |Collected(s, vote)| >= id.config.QuorumSize()
  }

  /** `order` lists the keys of `m`, each once. */
  ghost predicate Enumerates(order: seq<string>, m: VoteMap) {
    && (forall i, j | 0 <= i < j < |order| :: order[i] != order[j])
    && (forall k :: k in order <==> k in m)
  }

  function VotesIn(m: VoteMap, order: seq<string>): (votes: seq<Vote>)
    requires forall k | k in order :: k in m
    ensures |votes| == |order|
    ensures forall i | 0 <= i < |order| :: votes[i] == m[order[i]]
  {
    seq(|order|, i requires 0 <= i < |order| => m[order[i]])
  }

  /** A certificate takes its block hash from whichever vote is listed first. */
  function Certificate(votes: seq<Vote>, round: u64): QuorumCert {
    QuorumCert(if votes == [] then ZERO_32 else votes[0].blockHash, round, votes)
  }

  function CommitBlock(s: State, qc: QuorumCert): State {
    match s.pending
    case None => s
    case Some(block) =>
      s.(committed := s.committed + [block.(qc := Some(qc))], pending := None,
         prepareVotes := map[], precommitVotes := map[], commitVotes := map[])
  }

  ghost predicate OrderFits(id: Identity, s: State, vote: Vote, order: seq<string>) {
    Completes(id, s, vote) ==> Enumerates(order, Collected(s, vote))
  }

  function WithHeld(s: State, votes: VoteMap): State {
    match s.phase
    case Prepare => s.(prepareVotes := votes)
    case PreCommit => s.(precommitVotes := votes)
    case Commit => s.(commitVotes := votes)
    case Decide => s
  }

  function Insert(s: State, vote: Vote): State {
    WithHeld(s, Collected(s, vote))
  }

  /** What a completed quorum does: raise the high certificate, lock, or commit. */
  function EndPhase(s: State, qc: QuorumCert): Outcome {
    match s.phase
    case Prepare => Outcome(s.(highQc := Some(qc), phase := PreCommit), Some(NewView(s.round, qc)))
    case PreCommit => Outcome(s.(lockedQc := Some(qc), phase := Commit), Some(NewView(s.round, qc)))
    case Commit => Outcome(CommitBlock(s.(phase := Decide), qc), Some(NewView(s.round + 1, qc)))
    case Decide => Outcome(s, None)
  }

  function OnHandleVote(id: Identity, s: State, vote: Vote, order: seq<string>): Outcome
    requires OrderFits(id, s, vote, order)
  {
    if !Counts(id, s, vote) then Outcome(s, None)
    else if !Completes(id, s, vote) then Outcome(Insert(s, vote), None)
    else EndPhase(Insert(s, vote), Certificate(VotesIn(Collected(s, vote), order), s.round))
  }

  // ---- views ----

  function HighRound(s: State): u64 {
    if s.highQc.Some? then s.highQc.value.round else 0
  }

  function AdvanceRound(s: State, round: u64): State {
    s.(round := round, phase := Prepare, pending := None,
       prepareVotes := map[], precommitVotes := map[], commitVotes := map[])
  }

  function OnHandleNewView(id: Identity, s: State, round: u64, qc: QuorumCert): Outcome {
    var s1 := if qc.round >= HighRound(s) then s.(highQc := Some(qc)) else s;
    if round > s.round then Outcome(AdvanceRound(s1, round), None)
    else if s.pending.Some? then Outcome(s1, Some(VoteMsg(OwnVote(id, s, s.pending.value))))
    else Outcome(s1, None)
  }

  // ---- the node ----

  class HotStuffNode {
    const id: Identity

    var round: u64
    var phase: Phase
    var lockedQc: Option<QuorumCert>
    var highQc: Option<QuorumCert>
    var prepareVotes: VoteMap
    var precommitVotes: VoteMap
    var commitVotes: VoteMap
    var committedBlocks: seq<Block>
    var pendingBlock: Option<Block>

    ghost predicate Valid()
      reads this
    {
      id.config.validators != [] && committedBlocks != []
    }

    function Abs(): State
      reads this
    {
      State(round, phase, lockedQc, highQc, prepareVotes, precommitVotes, commitVotes,
            committedBlocks, pendingBlock)
    }

    constructor (id: Identity)
      requires id.config.validators != []
      ensures Valid() && this.id == id
      ensures Abs() == Init()
    {
      this.id := id;
      round, phase, lockedQc, highQc := 0, Prepare, None, None;
      prepareVotes, precommitVotes, commitVotes := map[], map[], map[];
      committedBlocks, pendingBlock := [Genesis()], None;
    }

    predicate IsLeader()
      requires Valid()
      reads this
    {
      id.config.IsLeader(round, id.address)
    }

    method ProposeBlock(transactions: seq<Transaction>, now: i64) returns (msg: Msg)
      requires Valid() && MayPropose(id, Abs())
      modifies this
      ensures Valid()
      ensures Outcome(Abs(), Some(msg)) == OnPropose(id, old(Abs()), transactions, now)
    {
      var parent := committedBlocks[|committedBlocks| - 1];
      var txRoot, _ := Merkle.MerkleRoot(id.crypto, transactions);
      var header := BlockHeader(parent.header.height + 1, BlockHash(id.crypto, parent), txRoot, ZERO_32, now,
                                id.address, round);
      var block := Block(header, transactions, None);
      pendingBlock := Some(block);
      phase := Prepare;
      msg := Propose(block, highQc);
    }

    method HandlePropose(block: Block) returns (reply: Option<Msg>)
      requires Valid()
      modifies this
      ensures Valid()
      ensures Outcome(Abs(), reply) == OnHandlePropose(id, old(Abs()), block)
    {
      if lockedQc.Some? {
        if block.header.parentHash != lockedQc.value.blockHash {
          return None;
        }
      }
      pendingBlock := Some(block);
      reply := Some(VoteMsg(SignVote(id.crypto, BlockHash(id.crypto, block), round, id.key)));
    }

    /** Lists the votes held for a phase, in an order the program does not choose. */
    method FormQc(p: Phase) returns (qc: QuorumCert, ghost order: seq<string>)
      ensures qc.round == round && |qc.votes| == |Held(Abs(), p)|
      ensures Enumerates(order, Held(Abs(), p))
      ensures qc == Certificate(VotesIn(Held(Abs(), p), order), round)
    {
      var held := match p
        case Prepare => prepareVotes
        case PreCommit => precommitVotes
        case Commit => commitVotes
        case Decide => map[];
      var left := held.Keys;
      var votes: seq<Vote> := [];
      order := [];
      while left != {}
        invariant left <= held.Keys
        invariant |votes| + |left| == |held|
        invariant forall i, j | 0 <= i < j < |order| :: order[i] != order[j]
        invariant forall k :: k in order <==> k in held && k !in left
        invariant votes == VotesIn(held, order)
        decreases left
      {
        var k :| k in left;
        votes := votes + [held[k]];
        order := order + [k];
        left := left - {k};
      }
      qc := QuorumCert(if votes == [] then ZERO_32 else votes[0].blockHash, round, votes);
    }

    method HandleVote(vote: Vote) returns (reply: Option<Msg>, ghost order: seq<string>)
      requires Valid()
      modifies this
      ensures Valid()
      ensures OrderFits(id, old(Abs()), vote, order)
      ensures Outcome(Abs(), reply) == OnHandleVote(id, old(Abs()), vote, order)
    {
      reply, order := None, [];
      if !VerifyVote(id.crypto, vote) {
        return;
      }
      var voterHex := HexEncode(vote.voter);
      var held;
      match phase {
        case Prepare =>
          prepareVotes := prepareVotes[voterHex := vote];
          held := |prepareVotes|;
        case PreCommit =>
          precommitVotes := precommitVotes[voterHex := vote];
          held := |precommitVotes|;
        case Commit =>
          commitVotes := commitVotes[voterHex := vote];
          held := |commitVotes|;
        case Decide =>
          return;
      }
      assert Abs() == Insert(old(Abs()), vote);
      assert Held(Abs(), phase) == Collected(old(Abs()), vote);
      if held >= id.config.QuorumSize() {
        var qc;
        qc, order := FormQc(phase);
        reply := ClosePhase(qc);
      }
    }

    method ClosePhase(qc: QuorumCert) returns (reply: Option<Msg>)
      requires Valid()
      modifies this
      ensures Valid()
      ensures Outcome(Abs(), reply) == EndPhase(old(Abs()), qc)
    {
      match phase {
        case Prepare =>
          highQc := Some(qc);
          phase := PreCommit;
          reply := Some(NewView(round, qc));
        case PreCommit =>
          lockedQc := Some(qc);
          phase := Commit;
          reply := Some(NewView(round, qc));
        case Commit =>
          phase := Decide;
          CommitPending(qc);
          reply := Some(NewView(round + 1, qc));
        case Decide =>
          reply := None;
      }
    }

    method CommitPending(qc: QuorumCert)
      requires Valid()
      modifies this
      ensures Valid()
      ensures Abs() == CommitBlock(old(Abs()), qc)
    {
      if pendingBlock.Some? {
        var block := pendingBlock.value.(qc := Some(qc));
        pendingBlock := None;
        committedBlocks := committedBlocks + [block];
        prepareVotes, precommitVotes, commitVotes := map[], map[], map[];
      }
    }

    method HandleNewView(newRound: u64, qc: QuorumCert) returns (reply: Option<Msg>)
      requires Valid()
      modifies this
      ensures Valid()
      ensures Outcome(Abs(), reply) == OnHandleNewView(id, old(Abs()), newRound, qc)
    {
      var highRound := if highQc.Some? then highQc.value.round else 0;
      if qc.round >= highRound {
        highQc := Some(qc);
      }
      if newRound > round {
        Advance(newRound);
        return None;
      }
      if pendingBlock.Some? {
        var vote := SignVote(id.crypto, BlockHash(id.crypto, pendingBlock.value), round, id.key);
        return Some(VoteMsg(vote));
      }
      reply := None;
    }

    method Advance(newRound: u64)
      requires Valid()
      modifies this
      ensures Valid()
      ensures Abs() == AdvanceRound(old(Abs()), newRound)
    {
      round := newRound;
      phase := Prepare;
      pendingBlock := None;
      prepareVotes, precommitVotes, commitVotes := map[], map[], map[];
    }
  }
}
