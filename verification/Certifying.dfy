/**
  Certificates come about: whenever 2f+1 honest validators are handed one block at the
  start, the network holds a certificate for it, so agreement is about something.
 */
module Certifying {
  import opened Wrappers
  import opened Bytes
  import opened Types
  import opened Quorum
  import opened HotStuff
  import opened HotStuffRuns
  import opened Agreement
  import Encoding
  import GoodRound

  function Handing(members: seq<Address>, block: Block): (acts: seq<Action>)
    ensures |acts| == |members|
  {
    seq(|members|, i requires 0 <= i < |members| => Deliver(members[i], Proposal(block)))
  }

  ghost predicate Fresh(w: World, n: Network, a: Address) {
    a in w.keys && a in n.nodes && n.nodes[a] == Init() && forall m | m in n.signed :: m.voter != a
  }

  function FirstVote(w: World, a: Address, block: Block): Vote
    requires a in w.keys
  {
    OwnVote(w.Id(a), Init(), block)
  }

  lemma HandOne(w: World, n: Network, a: Address, block: Block)
    requires w.Valid() && Fresh(w, n, a)
    ensures CanAct(w, n, Deliver(a, Proposal(block)))
    ensures var m := Act(w, n, Deliver(a, Proposal(block)));
      && m.pool == n.pool + {FirstVote(w, a, block)}
      && m.signed == n.signed + {Signed(a, BlockHash(w.crypto, block), 0)}
      && forall b | b != a && Fresh(w, n, b) :: Fresh(w, m, b)
  {
    hide BlockHash, VoteSigningBytes, ProposedBlock;
  }

  /** Handing a block to fresh nodes one after another puts all their votes on the network and signs nothing else. */
  lemma {:induction false} HandAll(w: World, n: Network, members: seq<Address>, block: Block)
    requires w.Valid() && forall i | 0 <= i < |members| :: Fresh(w, n, members[i])
    requires forall i, j | 0 <= i < j < |members| :: members[i] != members[j]
    ensures CanRun(w, n, Handing(members, block))
    ensures var m := RunNet(w, n, Handing(members, block));
      && n.pool <= m.pool
      && (forall i | 0 <= i < |members| :: members[i] in w.keys && FirstVote(w, members[i], block) in m.pool)
      && (forall x | x in m.signed :: x in n.signed || (x.blockHash == BlockHash(w.crypto, block) && x.round == 0))
    decreases |members|
  {
    hide Act, CanAct, FirstVote, BlockHash;
    var acts := Handing(members, block);
    if members == [] {
    } else {
      HandOne(w, n, members[0], block);
      var next := Act(w, n, acts[0]);
      var rest := members[1..];
      assert acts[1..] == Handing(rest, block);
      HandAll(w, next, rest, block);
      forall i | 0 <= i < |members| ensures FirstVote(w, members[i], block) in RunNet(w, n, acts).pool {
        if i > 0 { assert members[i] == rest[i - 1]; }
      }
    }
  }

  lemma {:induction false} SizeOfDistinct(members: seq<Address>, s: set<Address>)
    requires forall i, j | 0 <= i < j < |members| :: members[i] != members[j]
    requires forall a :: a in s <==> a in members
    ensures |s| == |members|
    decreases |members|
  {
    if members == [] {
      assert s == {};
    } else {
      var front, last := members[..|members| - 1], members[|members| - 1];
      assert members == front + [last];
      SizeOfDistinct(front, s - {last});
    }
  }

  function CertificateOf(w: World, members: seq<Address>, block: Block): (qc: QuorumCert)
    requires forall i | 0 <= i < |members| :: members[i] in w.keys
    ensures |qc.votes| == |members| && forall i | 0 <= i < |members| :: qc.votes[i] == FirstVote(w, members[i], block)
  {
    QuorumCert(BlockHash(w.crypto, block), 0,
               seq(|members|, i requires 0 <= i < |members| => FirstVote(w, members[i], block)))
  }

  lemma FirstVoteIsGood(w: World, a: Address, block: Block)
    requires w.Valid() && w.crypto.Sound() && a in w.keys
    ensures var v := FirstVote(w, a, block);
      v.voter == a && v.blockHash == BlockHash(w.crypto, block) && v.round == 0 && VerifyVote(w.crypto, v)
  {
    GoodRound.OwnVoteVerifies(w.Id(a), Init(), block);
  }

  /** 2f+1 honest validators handed one block in the first round certify it, collision-free hashing included. */
  lemma HonestQuorumCertifies(w: World, members: seq<Address>, block: Block)
    requires w.Valid() && w.crypto.Sound() && |members| >= w.config.QuorumSize()
    requires forall i | 0 <= i < |members| :: members[i] in w.keys && members[i] in w.config.Members()
    requires forall i, j | 0 <= i < j < |members| :: members[i] != members[j]
    ensures CanRun(w, Start(w), Handing(members, block))
    ensures var n, qc := RunNet(w, Start(w), Handing(members, block)), CertificateOf(w, members, block);
      && Certifies(w, n.pool, qc) && qc.round == 0 && qc.blockHash == BlockHash(w.crypto, block)
      && w.crypto.CollisionFreeOn(VoteInputs(n, qc, qc))
  {
    hide Crypto.Sound, Act, CanAct, RunNet, CanRun, FirstVote, BlockHash, VerifyVote, VotePreimage;
    HandAll(w, Start(w), members, block);
    var qc := CertificateOf(w, members, block);
    forall i | 0 <= i < |members|
      ensures FirstVote(w, members[i], block).voter == members[i]
      ensures qc.votes[i].blockHash == qc.blockHash && qc.votes[i].round == 0
      ensures w.crypto.accepts(qc.votes[i].voter,
                               w.crypto.hash(VotePreimage(qc.votes[i].blockHash, qc.votes[i].round)),
                               qc.votes[i].signature)
    {
      FirstVoteIsGood(w, members[i], block);
      Encoding.VoteVerifiesIff(w.crypto, qc.votes[i]);
    }
    VotersAreMembers(qc, members);
    SizeOfDistinct(members, QcVoters(qc));
    var n := RunNet(w, Start(w), Handing(members, block));
    assert VoteInputs(n, qc, qc) == {VotePreimage(qc.blockHash, 0)};
  }

  lemma VotersAreMembers(qc: QuorumCert, members: seq<Address>)
    requires |qc.votes| == |members| && forall i | 0 <= i < |members| :: qc.votes[i].voter == members[i]
    ensures forall a :: a in QcVoters(qc) <==> a in members
  {
    forall a ensures a in QcVoters(qc) <==> a in members {
      if a in members {
        var i :| 0 <= i < |members| && members[i] == a;
        assert qc.votes[i] in qc.votes;
      }
    }
  }
}
