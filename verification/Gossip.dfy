/**
  Several running nodes on one gossip network. Messages stay on the network once
  sent: they may be delivered any number of times, in any order, or never.
 */
module Gossip {
  import opened Wrappers
  import opened Bytes
  import opened Types
  import opened Storage
  import opened Node
  import Ledger
  import Merkle

  datatype Message = NewBlock(block: Block) | SyncResponse(blocks: seq<Block>)

  /** `produced` collects every block a leader ever made. */
  datatype Network = Network(nodes: seq<NodeState>, sent: set<Message>, produced: set<Block>)

  datatype Action =
    | DeliverBlock(to: nat, block: Block)
    | DeliverSync(to: nat, blocks: seq<Block>)
    | AnswerSync(from: nat, height: u64)
    | Tick(at: nat, now: i64)
    | AnnounceQuorum
    | QueueTx(at: nat, tx: Transaction)
    | Restart(at: nat)

  /** One setup per node; the nodes share the mint addresses. */
  datatype World = World(setups: seq<Setup>, mint: Ledger.Mint) {
    ghost predicate Valid() {
      forall i | 0 <= i < |setups| :: setups[i].mint == mint
    }
  }

  ghost function Start(w: World): Network {
    Network(seq(|w.setups|, _ => OnStart(w.mint, map[])), {}, {})
  }

  ghost predicate CanAct(w: World, n: Network, act: Action) {
    match act
    case DeliverBlock(to, block) => to < |n.nodes| && NewBlock(block) in n.sent
    case DeliverSync(to, blocks) => to < |n.nodes| && SyncResponse(blocks) in n.sent
    case AnswerSync(from, _) => from < |n.nodes|
    case Tick(at, _) => at < |n.nodes| == |w.setups| && MayProduce(n.nodes[at])
    case AnnounceQuorum => true
    case QueueTx(at, _) => at < |n.nodes|
    case Restart(at) => at < |n.nodes|
  }

  ghost function Act(w: World, n: Network, act: Action): Network
    requires CanAct(w, n, act)
  {
    match act
    case DeliverBlock(to, block) => n.(nodes := n.nodes[to := OnBlock(w.mint, n.nodes[to], block)])
    case DeliverSync(to, blocks) => n.(nodes := n.nodes[to := OnSync(w.mint, n.nodes[to], blocks)])
    case AnswerSync(from, height) =>
      var reply := Above(n.nodes[from].blocks, height);
      if reply == [] then n else n.(sent := n.sent + {SyncResponse(reply)})
    case Tick(at, now) =>
      var node := n.nodes[at];
      var m := n.(nodes := n.nodes[at := OnTick(w.setups[at], node, now)]);
      if node.round % 3 != w.setups[at].index then m
      else
        var block := BuildBlock(w.setups[at].crypto, node, now);
        m.(sent := m.sent + {NewBlock(block)}, produced := m.produced + {block})
    case AnnounceQuorum => n.(sent := n.sent + {NewBlock(Genesis())})
    case QueueTx(at, tx) =>
      n.(nodes := n.nodes[at := n.nodes[at].(mempool := n.nodes[at].mempool + [tx])])
    case Restart(at) => n.(nodes := n.nodes[at := OnStart(w.mint, n.nodes[at].store)])
  }

  ghost predicate CanRun(w: World, n: Network, acts: seq<Action>)
    decreases |acts|
  {
    acts != [] ==> CanAct(w, n, acts[0]) && CanRun(w, Act(w, n, acts[0]), acts[1..])
  }

  ghost function Run(w: World, n: Network, acts: seq<Action>): Network
    requires CanRun(w, n, acts)
    decreases |acts|
  {
    if acts == [] then n else Run(w, Act(w, n, acts[0]), acts[1..])
  }

  // ---- every block has a producer, and every product a home ----

  /** Above genesis, a chain holds produced blocks only. */
  ghost predicate ChainTraced(produced: set<Block>, blocks: seq<Block>) {
    forall i | 0 < i < |blocks| :: blocks[i] in produced
  }

  ghost predicate MessageTraced(produced: set<Block>, m: Message) {
    match m
    case NewBlock(block) => block == Genesis() || block in produced
    case SyncResponse(blocks) => forall i | 0 <= i < |blocks| :: blocks[i] in produced
  }

  /** Whoever produced the block has it in its chain, at its height. */
  ghost predicate Kept(nodes: seq<NodeState>, block: Block) {
    exists i | 0 <= i < |nodes| ::
      0 < block.header.height < |nodes[i].blocks| && nodes[i].blocks[block.header.height] == block
  }

  ghost predicate NodesTraced(w: World, nodes: seq<NodeState>, produced: set<Block>) {
    forall i | 0 <= i < |nodes| :: Consistent(w.mint, nodes[i]) && ChainTraced(produced, nodes[i].blocks)
  }

  ghost predicate Traced(w: World, n: Network) {
    && |n.nodes| == |w.setups|
    && NodesTraced(w, n.nodes, n.produced)
    && (forall m | m in n.sent :: MessageTraced(n.produced, m))
    && (forall b | b in n.produced :: Kept(n.nodes, b))
  }

  /** Replacing a node by one with the same or a longer chain loses no product. */
  lemma KeptStays(nodes: seq<NodeState>, at: nat, node: NodeState, block: Block)
    requires at < |nodes| && nodes[at].blocks <= node.blocks && Kept(nodes, block)
    ensures Kept(nodes[at := node], block)
  {
    var i :| 0 <= i < |nodes| && 0 < block.header.height < |nodes[i].blocks|
      && nodes[i].blocks[block.header.height] == block;
    assert nodes[at := node][i].blocks[block.header.height] == block;
  }

  /** Any step that gives one node a consistent, traced, at least as long chain keeps the network traced. */
  lemma NodeStepKeepsTraced(w: World, n: Network, at: nat, node: NodeState)
    requires Traced(w, n) && at < |n.nodes|
    requires Consistent(w.mint, node) && ChainTraced(n.produced, node.blocks) && n.nodes[at].blocks <= node.blocks
    ensures Traced(w, n.(nodes := n.nodes[at := node]))
  {
    hide Consistent, MessageTraced, Kept;
    forall b | b in n.produced ensures Kept(n.nodes[at := node], b) {
      KeptStays(n.nodes, at, node, b);
    }
  }

  lemma {:induction false} SyncStaysTraced(w: World, node: NodeState, blocks: seq<Block>, produced: set<Block>)
    requires Consistent(w.mint, node) && ChainTraced(produced, node.blocks)
    requires forall i | 0 <= i < |blocks| :: blocks[i] in produced
    ensures ChainTraced(produced, OnSync(w.mint, node, blocks).blocks)
    decreases |blocks|
  {
    if blocks == [] {
    } else {
      if IsNext(node.blocks, blocks[0]) { AppendKeepsConsistent(w.mint, node, blocks[0]); }
      SyncStaysTraced(w, OnBlock(w.mint, node, blocks[0]), blocks[1..], produced);
    }
  }

  lemma {:induction false} AnswerIsTraced(blocks: seq<Block>, height: u64, produced: set<Block>)
    requires forall i | 0 <= i < |blocks| :: blocks[i].header.height > 0 ==> blocks[i] in produced
    ensures forall i | 0 <= i < |Above(blocks, height)| :: Above(blocks, height)[i] in produced
    decreases |blocks|
  {
    if blocks == [] {
    } else {
      AnswerIsTraced(blocks[1..], height, produced);
    }
  }

  lemma MoreProduced(w: World, n: Network, block: Block)
    requires NodesTraced(w, n.nodes, n.produced) && forall m | m in n.sent :: MessageTraced(n.produced, m)
    ensures NodesTraced(w, n.nodes, n.produced + {block})
    ensures forall m | m in n.sent :: MessageTraced(n.produced + {block}, m)
  {
    hide Consistent;
    forall m | m in n.sent ensures MessageTraced(n.produced + {block}, m) {
      assert MessageTraced(n.produced, m);
    }
  }

  lemma TracedNode(w: World, n: Network, i: nat)
    requires Traced(w, n) && i < |n.nodes|
    ensures Consistent(w.mint, n.nodes[i]) && ChainTraced(n.produced, n.nodes[i].blocks)
  {
  }

  /** What one turn of the production loop does to the chain. */
  lemma TickBlocks(setup: Setup, node: NodeState, now: i64)
    requires Consistent(setup.mint, node) && MayProduce(node)
    ensures var next := OnTick(setup, node, now);
      if node.round % 3 == setup.index
      then
        var block := BuildBlock(setup.crypto, node, now);
        next.blocks == node.blocks + [block] && block.header.height == |node.blocks| > 0
      else next.blocks == node.blocks
  {
    hide BlockHash, Merkle.Root;
  }

  lemma TickIsStep(setup: Setup, node: NodeState, now: i64)
    requires MayProduce(node)
    ensures Node.Enabled(node, Ticked(now)) && Node.Next(setup, node, Ticked(now)) == OnTick(setup, node, now)
  {
    hide OnTick, MayProduce;
  }

  lemma TickKeepsTraced(w: World, n: Network, at: nat, now: i64)
    requires w.Valid() && Traced(w, n) && CanAct(w, n, Tick(at, now))
    ensures Traced(w, Act(w, n, Tick(at, now)))
  {
    hide Consistent, ChainTraced, Traced, OnTick, BuildBlock, MayProduce, Node.Next;
    TracedNode(w, n, at);
    var setup, node := w.setups[at], n.nodes[at];
    assert setup.mint == w.mint;
    TickIsStep(setup, node, now);
    StepKeepsConsistent(setup, node, Ticked(now));
    TickBlocks(setup, node, now);
    var next := OnTick(setup, node, now);
    if node.round % 3 == setup.index {
      ProductKeepsTraced(w, n, at, next, BuildBlock(setup.crypto, node, now));
    } else {
      NodeStepKeepsTraced(w, n, at, next);
    }
  }

  lemma ProductKeepsTraced(w: World, n: Network, at: nat, next: NodeState, block: Block)
    requires Traced(w, n) && at < |n.nodes| && Consistent(w.mint, next)
    requires next.blocks == n.nodes[at].blocks + [block] && block.header.height == |n.nodes[at].blocks| > 0
    ensures Traced(w, Network(n.nodes[at := next], n.sent + {NewBlock(block)}, n.produced + {block}))
  {
    hide Consistent;
    MoreProduced(w, n, block);
    var nodes := n.nodes[at := next];
    assert nodes[at].blocks[block.header.height] == block;
    assert Kept(nodes, block);
    assert ChainTraced(n.produced + {block}, next.blocks);
    hide MessageTraced, ChainTraced, Kept;
    forall b | b in n.produced + {block} ensures Kept(nodes, b) {
      if b in n.produced { KeptStays(n.nodes, at, next, b); }
    }
    assert MessageTraced(n.produced + {block}, NewBlock(block)) by { NewBlockTraced(n.produced, block); }
  }

  lemma NewBlockTraced(produced: set<Block>, block: Block)
    ensures MessageTraced(produced + {block}, NewBlock(block))
  {
  }

  lemma BlockStaysTraced(w: World, node: NodeState, block: Block, produced: set<Block>)
    requires Consistent(w.mint, node) && ChainTraced(produced, node.blocks)
    requires MessageTraced(produced, NewBlock(block))
    ensures var next := OnBlock(w.mint, node, block);
      Consistent(w.mint, next) && ChainTraced(produced, next.blocks) && node.blocks <= next.blocks
  {
    if IsNext(node.blocks, block) {
      AppendKeepsConsistent(w.mint, node, block);
      assert block in produced;
    }
    hide Consistent;
  }

  lemma BlockKeepsTraced(w: World, n: Network, to: nat, block: Block)
    requires Traced(w, n) && CanAct(w, n, DeliverBlock(to, block))
    ensures Traced(w, Act(w, n, DeliverBlock(to, block)))
  {
    TracedNode(w, n, to);
    assert MessageTraced(n.produced, NewBlock(block));
    hide Traced, Kept, MessageTraced, Consistent, ChainTraced, OnBlock;
    var node := n.nodes[to];
    BlockStaysTraced(w, node, block, n.produced);
    NodeStepKeepsTraced(w, n, to, OnBlock(w.mint, node, block));
  }

  lemma SyncKeepsTraced(w: World, n: Network, to: nat, blocks: seq<Block>)
    requires Traced(w, n) && CanAct(w, n, DeliverSync(to, blocks))
    ensures Traced(w, Act(w, n, DeliverSync(to, blocks)))
  {
    TracedNode(w, n, to);
    assert MessageTraced(n.produced, SyncResponse(blocks));
    hide Traced, Kept, Consistent, ChainTraced;
    var node := n.nodes[to];
    SyncKeepsConsistent(w.mint, node, blocks);
    SyncStaysTraced(w, node, blocks, n.produced);
    NodeStepKeepsTraced(w, n, to, OnSync(w.mint, node, blocks));
  }

  lemma AnswerOfNode(w: World, node: NodeState, height: u64, produced: set<Block>)
    requires Consistent(w.mint, node) && ChainTraced(produced, node.blocks)
    ensures MessageTraced(produced, SyncResponse(Above(node.blocks, height)))
  {
    AnswerIsTraced(node.blocks, height, produced);
  }

  lemma AnswerKeepsTraced(w: World, n: Network, from: nat, height: u64)
    requires Traced(w, n) && CanAct(w, n, AnswerSync(from, height))
    ensures Traced(w, Act(w, n, AnswerSync(from, height)))
  {
    hide Kept, Consistent, ChainTraced, MessageTraced;
    TracedNode(w, n, from);
    AnswerOfNode(w, n.nodes[from], height, n.produced);
  }

  lemma RestartKeepsTraced(w: World, n: Network, at: nat)
    requires Traced(w, n) && at < |n.nodes|
    ensures Traced(w, Act(w, n, Restart(at)))
  {
    hide Traced, ChainTraced, OnStart, Consistent;
    TracedNode(w, n, at);
    RestartRebuilds(w.mint, n.nodes[at]);
    NodeStepKeepsTraced(w, n, at, OnStart(w.mint, n.nodes[at].store));
  }

  lemma QueueKeepsTraced(w: World, n: Network, at: nat, tx: Transaction)
    requires Traced(w, n) && at < |n.nodes|
    ensures Traced(w, Act(w, n, QueueTx(at, tx)))
  {
    hide Traced, ChainTraced;
    TracedNode(w, n, at);
    var node := n.nodes[at];
    NodeStepKeepsTraced(w, n, at, node.(mempool := node.mempool + [tx]));
  }

  lemma ActKeepsTraced(w: World, n: Network, act: Action)
    requires w.Valid() && Traced(w, n) && CanAct(w, n, act)
    ensures Traced(w, Act(w, n, act))
  {
    match act
    case DeliverBlock(to, block) => BlockKeepsTraced(w, n, to, block);
    case DeliverSync(to, blocks) => SyncKeepsTraced(w, n, to, blocks);
    case AnswerSync(from, height) => AnswerKeepsTraced(w, n, from, height);
    case Tick(at, now) => TickKeepsTraced(w, n, at, now);
    case AnnounceQuorum => { hide Kept, NodesTraced; }
    case QueueTx(at, tx) => QueueKeepsTraced(w, n, at, tx);
    case Restart(at) => RestartKeepsTraced(w, n, at);
  }

  lemma {:induction false} RunKeepsTraced(w: World, n: Network, acts: seq<Action>)
    requires w.Valid() && Traced(w, n) && CanRun(w, n, acts)
    ensures Traced(w, Run(w, n, acts))
    decreases |acts|
  {
    if acts == [] {
    } else {
      ActKeepsTraced(w, n, acts[0]);
      hide Traced;
      RunKeepsTraced(w, Act(w, n, acts[0]), acts[1..]);
    }
  }

  lemma StartIsTraced(w: World)
    ensures Traced(w, Start(w))
  {
    StartIsConsistent(w.mint);
    assert |OnStart(w.mint, map[]).blocks| == 1 by { StartHasOneBlock(w.mint); }
  }

  lemma StartHasOneBlock(mint: Ledger.Mint)
    ensures |OnStart(mint, map[]).blocks| == 1
  {
    var store: Store := map[];
    assert InKeyOrder(store, store.Keys) == [];
  }

  // ---- agreement ----

  /** Any two chains are prefixes of one another. */
  ghost predicate ChainsAgree(nodes: seq<NodeState>) {
    forall i, j | 0 <= i < |nodes| && 0 <= j < |nodes| ::
      nodes[i].blocks <= nodes[j].blocks || nodes[j].blocks <= nodes[i].blocks
  }

  ghost predicate OnePerHeight(produced: set<Block>) {
    forall b, c | b in produced && c in produced && b.header.height == c.header.height :: b == c
  }

  lemma TracedChainsComparable(mint: Ledger.Mint, p: NodeState, q: NodeState, produced: set<Block>)
    requires Consistent(mint, p) && ChainTraced(produced, p.blocks)
    requires Consistent(mint, q) && ChainTraced(produced, q.blocks)
    requires OnePerHeight(produced) && |p.blocks| <= |q.blocks|
    ensures p.blocks <= q.blocks
  {
    forall i | 0 <= i < |p.blocks| ensures p.blocks[i] == q.blocks[i] {
      if i > 0 {
        assert p.blocks[i] in produced && q.blocks[i] in produced;
      }
    }
  }

  /**
    Prefix agreement, exactly: after any run the nodes' chains are prefixes of one
    another iff no two different blocks were produced for one height.
   */
  lemma ChainsAgreeIff(w: World, acts: seq<Action>)
    requires w.Valid() && CanRun(w, Start(w), acts)
    ensures var n := Run(w, Start(w), acts); ChainsAgree(n.nodes) <==> OnePerHeight(n.produced)
  {
    StartIsTraced(w);
    RunKeepsTraced(w, Start(w), acts);
    TracedAgreeIff(w, Run(w, Start(w), acts));
  }

  lemma TracedAgreeIff(w: World, n: Network)
    requires Traced(w, n)
    ensures ChainsAgree(n.nodes) <==> OnePerHeight(n.produced)
  {
    hide Consistent, ChainTraced, MessageTraced;
    if OnePerHeight(n.produced) {
      forall i, j | 0 <= i < |n.nodes| && 0 <= j < |n.nodes|
        ensures n.nodes[i].blocks <= n.nodes[j].blocks || n.nodes[j].blocks <= n.nodes[i].blocks
      {
        var p, q := n.nodes[i], n.nodes[j];
        if |p.blocks| <= |q.blocks| {
          TracedChainsComparable(w.mint, p, q, n.produced);
        } else {
          TracedChainsComparable(w.mint, q, p, n.produced);
        }
      }
    }
    if ChainsAgree(n.nodes) {
      forall b, c | b in n.produced && c in n.produced && b.header.height == c.header.height
        ensures b == c
      {
        KeptBlocksEqual(n.nodes, b, c);
      }
    }
  }

  lemma KeptBlocksEqual(nodes: seq<NodeState>, b: Block, c: Block)
    requires ChainsAgree(nodes) && Kept(nodes, b) && Kept(nodes, c) && b.header.height == c.header.height
    ensures b == c
  {
    var h := b.header.height;
    var i :| 0 <= i < |nodes| && 0 < h < |nodes[i].blocks| && nodes[i].blocks[h] == b;
    var j :| 0 <= j < |nodes| && 0 < h < |nodes[j].blocks| && nodes[j].blocks[h] == c;
    assert nodes[i].blocks <= nodes[j].blocks || nodes[j].blocks <= nodes[i].blocks;
  }

  /** Agreeing nodes of equal height have equal chains, hence equal balances, nonces and totals. */
  lemma EqualHeightEqualLedger(w: World, acts: seq<Action>, i: nat, j: nat)
    requires w.Valid() && CanRun(w, Start(w), acts)
    requires var n := Run(w, Start(w), acts);
      OnePerHeight(n.produced) && i < |n.nodes| && j < |n.nodes|
      && TipHeight(n.nodes[i].blocks) == TipHeight(n.nodes[j].blocks)
    ensures var n := Run(w, Start(w), acts);
      n.nodes[i].blocks == n.nodes[j].blocks && n.nodes[i].ledger == n.nodes[j].ledger
  {
    var n := Run(w, Start(w), acts);
    StartIsTraced(w);
    RunKeepsTraced(w, Start(w), acts);
    TracedAgreeIff(w, n);
    TracedNode(w, n, i);
    TracedNode(w, n, j);
    Comparable(n.nodes, i, j);
    SameLengthSameChain(w.mint, n.nodes[i], n.nodes[j]);
  }

  lemma Comparable(nodes: seq<NodeState>, i: nat, j: nat)
    requires ChainsAgree(nodes) && i < |nodes| && j < |nodes|
    ensures nodes[i].blocks <= nodes[j].blocks || nodes[j].blocks <= nodes[i].blocks
  {
  }

  lemma SameLengthSameChain(mint: Ledger.Mint, p: NodeState, q: NodeState)
    requires Consistent(mint, p) && Consistent(mint, q) && TipHeight(p.blocks) == TipHeight(q.blocks)
    requires p.blocks <= q.blocks || q.blocks <= p.blocks
    ensures p.blocks == q.blocks && p.ledger == q.ledger
  {
    assert |p.blocks| == |q.blocks|;
  }

  /** The genesis block that is broadcast in place of a certified one changes nobody. */
  lemma PlaceholderChangesNobody(mint: Ledger.Mint, node: NodeState)
    ensures OnBlock(mint, node, Genesis()) == node
  {
  }
}
