/**
  The transitions of the HotStuff node branch by branch, in the node's fields and the
  two primitives alone: who is answered, what is signed, and which fields move.
 */
module HotStuffCases {
  import opened Wrappers
  import opened Bytes
  import opened Types
  import opened HotStuff
  import Merkle

  /** A validator leads the rounds that fall on its place in the list, by turns. */
  lemma MayProposeIff(id: Identity, s: State)
    requires id.config.validators != [] && s.committed != []
    ensures MayPropose(id, s) <==>
      && id.config.validators[s.round % |id.config.validators|].address == id.address
      && s.committed[|s.committed| - 1].header.height + 1 < TWO_64
  {
  }

  /** The leader's block: one above the tip, linked to it, in the node's round and name, at the clock's time. */
  lemma ProposalMade(id: Identity, s: State, transactions: seq<Transaction>, now: i64)
    requires id.config.validators != [] && s.committed != [] && MayPropose(id, s)
    ensures var tip, zero: Digest := s.committed[|s.committed| - 1], Zeros(32);
      tip.header.height + 1 < TWO_64 &&
      var block := Block(BlockHeader(tip.header.height + 1, id.crypto.hash(HeaderBytes(tip.header)),
                                     Merkle.Root(id.crypto, transactions), zero, now, id.address, s.round),
                         transactions, None);
      OnPropose(id, s, transactions, now) ==
      Outcome(s.(pending := Some(block), phase := Prepare), Some(Propose(block, s.highQc)))
  {
    hide Merkle.Root, HeaderBytes;
  }

  /** A proposal is refused iff the node is locked on a block other than its parent; else it is pending and signed. */
  lemma ProposalAnswered(id: Identity, s: State, block: Block)
    ensures var hash := id.crypto.hash(HeaderBytes(block.header));
      var vote := Vote(hash, s.round, id.crypto.publicKey(id.key),
                       id.crypto.sign(id.key, id.crypto.hash(VotePreimage(hash, s.round))));
      OnHandlePropose(id, s, block) ==
      if s.lockedQc.Some? && s.lockedQc.value.blockHash != block.header.parentHash then Outcome(s, None)
      else Outcome(s.(pending := Some(block)), Some(VoteMsg(vote)))
  {
    hide HeaderBytes, VotePreimage;
  }

  // ---- votes ----

  /** A vote its voter's key does not accept changes nothing and is not answered; nor is any vote once decided. */
  lemma VoteIgnored(id: Identity, s: State, vote: Vote, order: seq<string>)
    requires s.phase == Decide ||
      !id.crypto.accepts(vote.voter, id.crypto.hash(VotePreimage(vote.blockHash, vote.round)), vote.signature)
    ensures OrderFits(id, s, vote, order) && OnHandleVote(id, s, vote, order) == Outcome(s, None)
  {
    hide VotePreimage;
  }

  /** The certificate holds every vote of the map once, in some order of the keys, and takes its first vote's hash. */
  ghost predicate CertificateOf(qc: QuorumCert, m: VoteMap, order: seq<string>, round: u64) {
    && (forall k :: k in order <==> k in m)
    && (forall i, j | 0 <= i < j < |order| :: order[i] != order[j])
    && |qc.votes| == |order| > 0 && (forall i | 0 <= i < |order| :: qc.votes[i] == m[order[i]])
    && qc.blockHash == qc.votes[0].blockHash && qc.round == round
  }

  /** A verified prepare vote is filed under its voter; the one that makes 2f+1 raises the high certificate. */
  lemma PrepareVoteCounted(id: Identity, s: State, vote: Vote, order: seq<string>)
    requires s.phase == Prepare && OrderFits(id, s, vote, order)
    requires id.crypto.accepts(vote.voter, id.crypto.hash(VotePreimage(vote.blockHash, vote.round)), vote.signature)
    ensures var m, out := s.prepareVotes[HexEncode(vote.voter) := vote], OnHandleVote(id, s, vote, order);
      if |m| < 2 * id.config.f + 1 then out == Outcome(s.(prepareVotes := m), None)
      else
        && out.reply.Some? && out.reply.value.NewView?
        && var qc := out.reply.value.qc;
        && CertificateOf(qc, m, order, s.round) && out.reply == Some(NewView(s.round, qc))
        && out.state == s.(prepareVotes := m, highQc := Some(qc), phase := PreCommit)
  {
    hide VotePreimage, HexEncode;
    FullMapCertified(s.prepareVotes[VoterKey(vote) := vote], VoterKey(vote), order, s.round);
  }

  /** A verified precommit vote likewise; 2f+1 of them lock the node. */
  lemma PrecommitVoteCounted(id: Identity, s: State, vote: Vote, order: seq<string>)
    requires s.phase == PreCommit && OrderFits(id, s, vote, order)
    requires id.crypto.accepts(vote.voter, id.crypto.hash(VotePreimage(vote.blockHash, vote.round)), vote.signature)
    ensures var m, out := s.precommitVotes[HexEncode(vote.voter) := vote], OnHandleVote(id, s, vote, order);
      if |m| < 2 * id.config.f + 1 then out == Outcome(s.(precommitVotes := m), None)
      else
        && out.reply.Some? && out.reply.value.NewView?
        && var qc := out.reply.value.qc;
        && CertificateOf(qc, m, order, s.round) && out.reply == Some(NewView(s.round, qc))
        && out.state == s.(precommitVotes := m, lockedQc := Some(qc), phase := Commit)
  {
    hide VotePreimage, HexEncode;
    FullMapCertified(s.precommitVotes[VoterKey(vote) := vote], VoterKey(vote), order, s.round);
  }

  /**
    2f+1 commit votes decide: what is pending joins the chain with their certificate and all votes
    go, or, with nothing pending, only the phase ends; either way the next round is announced.
   */
  lemma CommitVoteCounted(id: Identity, s: State, vote: Vote, order: seq<string>)
    requires s.phase == Commit && OrderFits(id, s, vote, order)
    requires id.crypto.accepts(vote.voter, id.crypto.hash(VotePreimage(vote.blockHash, vote.round)), vote.signature)
    ensures var m, out := s.commitVotes[HexEncode(vote.voter) := vote], OnHandleVote(id, s, vote, order);
      if |m| < 2 * id.config.f + 1 then out == Outcome(s.(commitVotes := m), None)
      else
        && out.reply.Some? && out.reply.value.NewView?
        && var qc := out.reply.value.qc;
        && CertificateOf(qc, m, order, s.round) && out.reply == Some(NewView(s.round + 1, qc))
        && out.state ==
           if s.pending == None then s.(commitVotes := m, phase := Decide)
           else s.(committed := s.committed + [s.pending.value.(qc := Some(qc))], pending := None, phase := Decide,
                   prepareVotes := map[], precommitVotes := map[], commitVotes := map[])
  {
    hide VotePreimage, HexEncode;
    FullMapCertified(s.commitVotes[VoterKey(vote) := vote], VoterKey(vote), order, s.round);
  }

  lemma FullMapCertified(m: VoteMap, k: string, order: seq<string>, round: u64)
    requires k in m
    ensures Enumerates(order, m) ==> CertificateOf(Certificate(VotesIn(m, order), round), m, order, round)
  {
    if Enumerates(order, m) {
      assert k in order;
      assert order[0] in m;
    }
  }

  /** Without votes a certificate would name the zero hash. */
  lemma EmptyCertificate(round: u64)
    ensures var zero: Digest := Zeros(32); Certificate([], round) == QuorumCert(zero, round, [])
  {
  }

  // ---- views ----

  /** In every round: a view change's certificate is adopted iff it is no older than the one held, or none is. */
  lemma AdoptsIff(id: Identity, s: State, round: u64, qc: QuorumCert)
    ensures var t := OnHandleNewView(id, s, round, qc).state;
      t.highQc == if s.highQc == None || qc.round >= s.highQc.value.round then Some(qc) else s.highQc
  {
  }

  /** A later round starts afresh and silently; otherwise what is pending is signed for the round the node is in. */
  lemma ViewChangeAnswered(id: Identity, s: State, round: u64, qc: QuorumCert)
    ensures var out := OnHandleNewView(id, s, round, qc);
      && (round > s.round ==> out.reply == None)
      && (round > s.round ==>
            out.state == State(round, Prepare, s.lockedQc, out.state.highQc, map[], map[], map[], s.committed, None))
      && (round <= s.round ==> out.state == s.(highQc := out.state.highQc))
      && (round <= s.round && s.pending == None ==> out.reply == None)
      && (round <= s.round && s.pending.Some? ==>
            var hash := id.crypto.hash(HeaderBytes(s.pending.value.header));
            out.reply == Some(VoteMsg(Vote(hash, s.round, id.crypto.publicKey(id.key),
                                           id.crypto.sign(id.key, id.crypto.hash(VotePreimage(hash, s.round)))))))
  {
    hide HeaderBytes, VotePreimage;
  }

  /** A new node: round 0, nothing locked, seen or pending, and the genesis block alone committed. */
  lemma StartState()
    ensures var zero: Digest := Zeros(32);
      Init() == State(0, Prepare, None, None, map[], map[], map[],
                      [Block(BlockHeader(0, zero, zero, zero, 1_700_000_000_000, zero, 0), [], None)], None)
  {
  }
}
