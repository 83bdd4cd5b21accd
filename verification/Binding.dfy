/**
  What a block hash pins down: header, transactions, and, along parent hashes, the
  whole history of a linked chain.
 */
module Binding {
  import opened Wrappers
  import opened Bytes
  import opened Types
  import opened HotStuff
  import HotStuffRuns
  import Agreement
  import Storage
  import Encoding
  import Ledger
  import Merkle
  import Node
  import Gossip

  /** The header's transaction root is that of the block's transactions. */
  ghost predicate RootMatches(c: Crypto, b: Block) {
    b.header.txRoot == Merkle.Root(c, b.transactions)
  }

  ghost function HashInputs(c: Crypto, b: Block): set<bytes> {
    {HeaderBytes(b.header)} + Merkle.RootInputs(c, b.transactions)
  }

  /** Blocks with honest roots and no repeated transaction: same hash iff same header and same transactions. */
  lemma HashDeterminesBlock(c: Crypto, a: Block, b: Block)
    requires RootMatches(c, a) && RootMatches(c, b)
    requires Merkle.Distinct(Merkle.Contents(a.transactions)) && Merkle.Distinct(Merkle.Contents(b.transactions))
    requires Merkle.Ideal(c, HashInputs(c, a) + HashInputs(c, b))
    ensures BlockHash(c, a) == BlockHash(c, b) <==>
            a.header == b.header && Merkle.Contents(a.transactions) == Merkle.Contents(b.transactions)
  {
    hide HeaderBytes, Merkle.RootInputs, Merkle.Root;
    Encoding.HeaderBytesInjective(a.header, b.header);
    assert Merkle.Ideal(c, Merkle.RootInputs(c, a.transactions) + Merkle.RootInputs(c, b.transactions));
    Merkle.RootDeterminesList(c, a.transactions, b.transactions);
  }

  /**
    A leader's block sits on its tip, has an honest root, and names the validator whose turn the
    round is; it carries the clock's time, no state root and no certificate.
   */
  lemma ProposalIsSound(id: Identity, s: State, transactions: seq<Transaction>, now: i64)
    requires id.config.validators != [] && s.committed != [] && MayPropose(id, s)
    ensures var out := OnPropose(id, s, transactions, now);
      && out.reply.Some? && out.reply.value.Propose? && out.reply.value.highQc == s.highQc
      && var block := out.reply.value.block;
      && out.state == s.(pending := Some(block), phase := Prepare) && block.header.round == s.round
      && HotStuffRuns.Extends(id.crypto, block, s.committed[|s.committed| - 1]) && RootMatches(id.crypto, block)
      && block.transactions == transactions && block.header.timestamp == now
      && block.header.stateRoot == Zeros(32) && block.qc == None
      && id.config.validators[block.header.round % |id.config.validators|].address == block.header.proposer
  {
    hide Merkle.Root, BlockHash;
  }

  /** The production loop makes a block exactly in the rounds of its index; in others only the round is counted. */
  lemma ProducesIff(setup: Node.Setup, n: Node.NodeState, now: i64)
    requires Node.MayProduce(n)
    ensures var next := Node.OnTick(setup, n, now);
      && |next.blocks| == |n.blocks| + (if n.round % 3 == setup.index then 1 else 0)
      && (n.round % 3 != setup.index ==> next == n.(round := n.round + 1))
  {
    hide Merkle.Root, BlockHash, Ledger.AfterBlock;
  }

  /**
    The block extends the tip and has an honest root too, over the first hundred queued transactions,
    after which the pool is empty; it names the round and the time, and neither proposer nor state root.
   */
  lemma ProductIsSound(setup: Node.Setup, n: Node.NodeState, now: i64)
    requires Node.Consistent(setup.mint, n) && Node.MayProduce(n) && n.round % 3 == setup.index
    ensures var next := Node.OnTick(setup, n, now);
      && |next.blocks| == |n.blocks| + 1 && next.mempool == [] && next.round == n.round + 1
      && var block, tip := next.blocks[|n.blocks|], n.blocks[|n.blocks| - 1];
      && next.blocks == n.blocks + [block] && next.ledger == Ledger.AfterBlock(setup.mint, n.ledger, block)
      && next.store == n.store[BigEndian(8, block.header.height) := block]
      && HotStuffRuns.Extends(setup.crypto, block, tip) && RootMatches(setup.crypto, block)
      && block.header.round == n.round && block.header.timestamp == now
      && block.header.proposer == block.header.stateRoot == Zeros(32) && block.qc == None
      && block.transactions == (if |n.mempool| <= 100 then n.mempool else n.mempool[..100])
  {
    hide Merkle.Root, BlockHash, Node.Consistent, Ledger.AfterBlock;
  }

  /** The vote a node sends for a block it takes up: for the block's own round, not the node's. */
  function UptakeVote(setup: Node.Setup, block: Block): Vote {
    SignVote(setup.crypto, BlockHash(setup.crypto, block), block.header.round, setup.key)
  }

  /** Taking up two blocks of a chain puts out conflicting votes of one round exactly when their rounds coincide. */
  lemma UptakeVotesConflictIff(setup: Node.Setup, chain: seq<Block>, i: nat, j: nat)
    requires Storage.HeightsArePositions(chain) && i < j < |chain|
    requires setup.crypto.CollisionFreeOn({HeaderBytes(chain[i].header), HeaderBytes(chain[j].header)})
    ensures var v, w := UptakeVote(setup, chain[i]), UptakeVote(setup, chain[j]);
      v.voter == w.voter && v.round == w.round && v.blockHash != w.blockHash <==>
      chain[i].header.round == chain[j].header.round
  {
    hide HeaderBytes, VoteSigningBytes;
    Encoding.HeaderBytesInjective(chain[i].header, chain[j].header);
  }

  /** A fresh node that receives two next blocks of one round takes both up, and so sends conflicting votes. */
  lemma UptakeVotesCanConflict(setup: Node.Setup, a: Block, b: Block)
    requires a.header.height == 1 && b.header.height == 2 && a.header.round == b.header.round
    requires setup.crypto.CollisionFreeOn({HeaderBytes(a.header), HeaderBytes(b.header)})
    ensures var es := [Node.Received(a), Node.Received(b)];
      var n := Node.OnStart(setup.mint, map[]);
      && Node.Admissible(setup, n, es) && Node.Run(setup, n, es).blocks == [Genesis(), a, b]
    ensures var v, w := UptakeVote(setup, a), UptakeVote(setup, b);
      v.voter == w.voter && v.round == w.round && v.blockHash != w.blockHash
  {
    hide HeaderBytes, VoteSigningBytes;
    var n := Node.OnStart(setup.mint, map[]);
    Node.StartIsConsistent(setup.mint);
    assert n.blocks == [Genesis()] by { Gossip.StartHasOneBlock(setup.mint); }
    var m := Node.Next(setup, n, Node.Received(a));
    assert m.blocks == [Genesis(), a] && Node.Next(setup, m, Node.Received(b)).blocks == [Genesis(), a, b];
    Node.TwoEvents(setup, n, Node.Received(a), Node.Received(b));
    UptakeVotesConflictIff(setup, [Genesis(), a, b], 1, 2);
  }

  /** Two certificates of one round never certify blocks that differ in header or transactions. */
  lemma CertifiedBlocksEqual(w: Agreement.World, acts: seq<Agreement.Action>,
                             p: QuorumCert, a: Block, q: QuorumCert, b: Block)
    requires Agreement.Tolerant(w) && Agreement.CanRun(w, Agreement.Start(w), acts)
    requires var n := Agreement.RunNet(w, Agreement.Start(w), acts);
      Agreement.Certifies(w, n.pool, p) && Agreement.Certifies(w, n.pool, q)
      && w.crypto.CollisionFreeOn(Agreement.VoteInputs(n, p, q))
    requires p.round == q.round
    requires p.blockHash == BlockHash(w.crypto, a) && q.blockHash == BlockHash(w.crypto, b)
    requires RootMatches(w.crypto, a) && RootMatches(w.crypto, b)
    requires Merkle.Distinct(Merkle.Contents(a.transactions)) && Merkle.Distinct(Merkle.Contents(b.transactions))
    requires Merkle.Ideal(w.crypto, HashInputs(w.crypto, a) + HashInputs(w.crypto, b))
    ensures a.header == b.header && Merkle.Contents(a.transactions) == Merkle.Contents(b.transactions)
  {
    hide Agreement.Certifies, Agreement.VoteInputs, Merkle.Ideal, HashInputs, RootMatches, BlockHash;
    Agreement.QcAgreement(w, acts, p, q);
    HashDeterminesBlock(w.crypto, a, b);
  }

  // ---- histories ----

  ghost function ChainInputs(chain: seq<Block>): set<bytes> {
    set i | 0 <= i < |chain| :: HeaderBytes(chain[i].header)
  }

  /** Linked chains that end in blocks of the same hash are the same history, header by header. */
  lemma {:induction false} TipDeterminesHistory(c: Crypto, a: seq<Block>, b: seq<Block>)
    requires HotStuffRuns.Linked(c, a) && HotStuffRuns.Linked(c, b)
    requires c.CollisionFreeOn(ChainInputs(a) + ChainInputs(b))
    requires BlockHash(c, a[|a| - 1]) == BlockHash(c, b[|b| - 1])
    ensures |a| == |b| && forall i | 0 <= i < |a| :: a[i].header == b[i].header
    decreases |a|
  {
    hide HeaderBytes, BlockHash;
    var x, y := a[|a| - 1], b[|b| - 1];
    SameHashSameHeader(c, x, y, ChainInputs(a) + ChainInputs(b));
    assert |a| - 1 == x.header.height == y.header.height == |b| - 1;
    if |a| == 1 {
    } else {
      var a', b' := a[..|a| - 1], b[..|b| - 1];
      FewerHeaders(c, a, b);
      LinkedFront(c, a);
      LinkedFront(c, b);
      hide HotStuffRuns.Linked, ChainInputs, Crypto.CollisionFreeOn;
      TipDeterminesHistory(c, a', b');
      forall i | 0 <= i < |a| ensures a[i].header == b[i].header {
        if i < |a| - 1 { assert a'[i].header == b'[i].header; }
      }
    }
  }

  lemma LinkedFront(c: Crypto, chain: seq<Block>)
    requires HotStuffRuns.Linked(c, chain) && |chain| > 1
    ensures HotStuffRuns.Linked(c, chain[..|chain| - 1])
    ensures BlockHash(c, chain[|chain| - 2]) == chain[|chain| - 1].header.parentHash
  {
    hide BlockHash;
  }

  lemma SameHashSameHeader(c: Crypto, x: Block, y: Block, inputs: set<bytes>)
    requires c.CollisionFreeOn(inputs) && HeaderBytes(x.header) in inputs && HeaderBytes(y.header) in inputs
    requires BlockHash(c, x) == BlockHash(c, y)
    ensures x.header == y.header
  {
    hide HeaderBytes;
    Encoding.HeaderBytesInjective(x.header, y.header);
  }

  lemma FewerHeaders(c: Crypto, a: seq<Block>, b: seq<Block>)
    requires a != [] && b != [] && c.CollisionFreeOn(ChainInputs(a) + ChainInputs(b))
    ensures c.CollisionFreeOn(ChainInputs(a[..|a| - 1]) + ChainInputs(b[..|b| - 1]))
  {
    hide HeaderBytes;
    assert ChainInputs(a[..|a| - 1]) <= ChainInputs(a) && ChainInputs(b[..|b| - 1]) <= ChainInputs(b);
  }
}
