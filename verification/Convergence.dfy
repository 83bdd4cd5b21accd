/**
  What the gossip can still achieve: a product that is delivered is taken up, an answered
  sync request brings a node to the chain of whoever answered, and so, unless two blocks
  were produced for one height, all nodes to one chain.
 */
module Convergence {
  import opened Wrappers
  import opened Bytes
  import opened Types
  import opened Storage
  import opened Node
  import opened Gossip
  import Ledger
  import Binding
  import Merkle

  // ---- one block, one request ----

  lemma OnBlockTakesNext(mint: Ledger.Mint, node: NodeState, block: Block)
    requires Consistent(mint, node) && block.header.height == |node.blocks|
    ensures OnBlock(mint, node, block).blocks == node.blocks + [block]
  {
  }

  /** A leader's product reaches the network, and whoever has the chain it was built on takes it up on delivery. */
  lemma ProductIsTakenUp(w: World, n: Network, at: nat, now: i64, to: nat) returns (block: Block)
    requires CanAct(w, n, Tick(at, now)) && n.nodes[at].round % 3 == w.setups[at].index
    requires Consistent(w.mint, n.nodes[at]) && w.setups[at].mint == w.mint
    requires to < |n.nodes| && to != at && Consistent(w.mint, n.nodes[to]) && n.nodes[to].blocks == n.nodes[at].blocks
    ensures var m := Act(w, n, Tick(at, now));
      && m.produced == n.produced + {block} && CanAct(w, m, DeliverBlock(to, block))
      && var next := Act(w, m, DeliverBlock(to, block)).nodes;
      |next| == |n.nodes| && next[to].blocks == next[at].blocks == n.nodes[at].blocks + [block]
  {
    hide Consistent, OnTick, BuildBlock, OnBlock;
    var setup, node := w.setups[at], n.nodes[at];
    block := BuildBlock(setup.crypto, node, now);
    TickBlocks(setup, node, now);
    OnBlockTakesNext(w.mint, n.nodes[to], block);
  }

  /** A request for what lies above one's tip, answered and delivered. */
  function Asking(n: Network, from: nat, to: nat): (acts: seq<Action>)
    requires from < |n.nodes| && to < |n.nodes| && 0 < |n.nodes[to].blocks| <= TWO_64
  {
    var height: u64 := |n.nodes[to].blocks| - 1;
    [AnswerSync(from, height), DeliverSync(to, Above(n.nodes[from].blocks, height))]
  }

  ghost predicate Behind(n: Network, from: nat, to: nat) {
    from < |n.nodes| && to < |n.nodes| && n.nodes[to].blocks <= n.nodes[from].blocks
    && n.nodes[to].blocks != n.nodes[from].blocks
  }

  lemma ReplyIsThere(mint: Ledger.Mint, p: NodeState, q: NodeState)
    requires Consistent(mint, p) && Consistent(mint, q) && p.blocks <= q.blocks && p.blocks != q.blocks
    ensures 0 < |p.blocks| <= TWO_64
    ensures var reply := Above(q.blocks, |p.blocks| - 1);
      reply != [] && OnSync(mint, p, reply).blocks == q.blocks
  {
    assert q.blocks[|p.blocks|].header.height == |p.blocks|;
    hide Above, OnSync, Ledger.Replay, StoreOf;
    SyncConvergesIff(mint, p, q.blocks, |p.blocks| - 1);
    AboveMeaning(q.blocks, |p.blocks| - 1);
  }

  lemma TwoActs(w: World, n: Network, first: Action, second: Action)
    requires CanAct(w, n, first) && CanAct(w, Act(w, n, first), second)
    ensures CanRun(w, n, [first, second]) && Gossip.Run(w, n, [first, second]) == Act(w, Act(w, n, first), second)
  {
    hide Act, CanAct;
    var m, rest := Act(w, n, first), [second];
    assert [first, second][1..] == rest && rest[1..] == [];
    assert CanRun(w, m, rest) && Gossip.Run(w, m, rest) == Act(w, m, second);
  }

  /** It leaves the asking node with the chain of the answering one and changes nobody else. */
  lemma AnswerCatchesUp(w: World, n: Network, from: nat, to: nat)
    requires Traced(w, n) && Behind(n, from, to)
    ensures 0 < |n.nodes[to].blocks| <= TWO_64
    ensures CanRun(w, n, Asking(n, from, to))
    ensures var m := Gossip.Run(w, n, Asking(n, from, to));
      && m.produced == n.produced && |m.nodes| == |n.nodes| && m.nodes[to].blocks == n.nodes[from].blocks
      && forall i | 0 <= i < |n.nodes| && i != to :: m.nodes[i] == n.nodes[i]
  {
    hide Traced, Consistent, ChainTraced, OnSync, Above;
    TracedNode(w, n, from);
    TracedNode(w, n, to);
    ReplyIsThere(w.mint, n.nodes[to], n.nodes[from]);
    var acts := Asking(n, from, to);
    var m := Act(w, n, acts[0]);
    assert SyncResponse(acts[1].blocks) in m.sent;
    TwoActs(w, n, acts[0], acts[1]);
  }

  // ---- everybody ----

  ghost predicate AllOn(n: Network, chain: seq<Block>) {
    forall i | 0 <= i < |n.nodes| :: n.nodes[i].blocks == chain
  }

  lemma {:induction false} RunConcat(w: World, n: Network, a: seq<Action>, b: seq<Action>)
    requires CanRun(w, n, a) && CanRun(w, Gossip.Run(w, n, a), b)
    ensures CanRun(w, n, a + b) && Gossip.Run(w, n, a + b) == Gossip.Run(w, Gossip.Run(w, n, a), b)
    decreases |a|
  {
    hide Act, CanAct;
    if a == [] {
      assert a + b == b;
    } else {
      assert (a + b)[0] == a[0] && (a + b)[1..] == a[1..] + b;
      RunConcat(w, Act(w, n, a[0]), a[1..], b);
    }
  }

  /** Node by node, everybody is brought to the chain of a node nobody is ahead of. */
  lemma {:induction false} BringAll(w: World, n: Network, from: nat, k: nat) returns (acts: seq<Action>)
    requires w.Valid() && Traced(w, n) && from < |n.nodes| && k <= |n.nodes|
    requires forall i | 0 <= i < |n.nodes| :: n.nodes[i].blocks <= n.nodes[from].blocks
    ensures CanRun(w, n, acts)
    ensures var m := Gossip.Run(w, n, acts);
      && Traced(w, m) && m.produced == n.produced && |m.nodes| == |n.nodes|
      && (forall i | 0 <= i < k :: m.nodes[i].blocks == n.nodes[from].blocks)
      && (forall i | k <= i < |n.nodes| :: m.nodes[i] == n.nodes[i])
      && m.nodes[from].blocks == n.nodes[from].blocks
  {
    hide Traced, Act, CanAct, Asking;
    if k == 0 {
      acts := [];
    } else {
      acts := BringAll(w, n, from, k - 1);
      var m := Gossip.Run(w, n, acts);
      if m.nodes[k - 1].blocks != n.nodes[from].blocks {
        AnswerCatchesUp(w, m, from, k - 1);
        RunKeepsTraced(w, m, Asking(m, from, k - 1));
        RunConcat(w, n, acts, Asking(m, from, k - 1));
        acts := acts + Asking(m, from, k - 1);
      }
    }
  }

  lemma {:induction false} LongestChain(nodes: seq<NodeState>) returns (at: nat)
    requires nodes != []
    ensures at < |nodes| && forall i | 0 <= i < |nodes| :: |nodes[i].blocks| <= |nodes[at].blocks|
  {
    if |nodes| == 1 {
      at := 0;
    } else {
      var front := nodes[..|nodes| - 1];
      at := LongestChain(front);
      assert forall i | 0 <= i < |front| :: nodes[i] == front[i];
      if |nodes[at].blocks| < |nodes[|nodes| - 1].blocks| { at := |nodes| - 1; }
    }
  }

  lemma AgreeingLongest(nodes: seq<NodeState>, at: nat)
    requires ChainsAgree(nodes) && at < |nodes|
    requires forall i | 0 <= i < |nodes| :: |nodes[i].blocks| <= |nodes[at].blocks|
    ensures forall i | 0 <= i < |nodes| :: nodes[i].blocks <= nodes[at].blocks
  {
    forall i | 0 <= i < |nodes| ensures nodes[i].blocks <= nodes[at].blocks {
      Comparable(nodes, i, at);
    }
  }

  lemma {:induction false} ProducedGrows(w: World, n: Network, acts: seq<Action>)
    requires CanRun(w, n, acts)
    ensures n.produced <= Gossip.Run(w, n, acts).produced
    decreases |acts|
  {
    if acts == [] {
    } else {
      ActKeepsProduced(w, n, acts[0]);
      hide Act, CanAct;
      ProducedGrows(w, Act(w, n, acts[0]), acts[1..]);
    }
  }

  lemma ActKeepsProduced(w: World, n: Network, act: Action)
    requires CanAct(w, n, act)
    ensures n.produced <= Act(w, n, act).produced
  {
    hide OnTick, OnSync, OnBlock, OnStart, BuildBlock;
  }

  ghost predicate Converges(w: World, n: Network, acts: seq<Action>) {
    CanRun(w, n, acts) && exists chain :: AllOn(Gossip.Run(w, n, acts), chain)
  }

  /**
    Whatever was lost, repeated or restarted so far, the nodes can still all come to hold one
    chain, iff no two different blocks were produced for one height.
   */
  lemma CanConvergeIff(w: World, before: seq<Action>)
    requires w.Valid() && CanRun(w, Start(w), before)
    ensures var n := Gossip.Run(w, Start(w), before);
      (exists acts :: Converges(w, n, acts)) <==> OnePerHeight(n.produced)
  {
    hide Traced, Act, CanAct, OnePerHeight, Start, AllOn;
    var n := Gossip.Run(w, Start(w), before);
    StartIsTraced(w);
    RunKeepsTraced(w, Start(w), before);
    TracedAgreeIff(w, n);
    if acts :| Converges(w, n, acts) {
      var m := Gossip.Run(w, n, acts);
      RunKeepsTraced(w, n, acts);
      ProducedGrows(w, n, acts);
      TracedAgreeIff(w, m);
      var chain :| AllOn(m, chain);
      OneChainAgrees(m, chain);
      FewerPerHeight(n.produced, m.produced);
    }
    if OnePerHeight(n.produced) {
      var acts := BringTogether(w, n);
      assert Converges(w, n, acts);
    }
  }

  lemma OneChainAgrees(n: Network, chain: seq<Block>)
    requires AllOn(n, chain)
    ensures ChainsAgree(n.nodes)
  {
  }

  lemma FewerPerHeight(produced: set<Block>, more: set<Block>)
    requires produced <= more && OnePerHeight(more)
    ensures OnePerHeight(produced)
  {
  }

  lemma BringTogether(w: World, n: Network) returns (acts: seq<Action>)
    requires w.Valid() && Traced(w, n) && ChainsAgree(n.nodes)
    ensures CanRun(w, n, acts) && exists chain :: AllOn(Gossip.Run(w, n, acts), chain)
  {
    hide Traced, Act, CanAct;
    if n.nodes == [] {
      acts := [];
      assert AllOn(Gossip.Run(w, n, acts), []);
    } else {
      var at := LongestChain(n.nodes);
      AgreeingLongest(n.nodes, at);
      acts := BringAll(w, n, at, |n.nodes|);
      assert AllOn(Gossip.Run(w, n, acts), n.nodes[at].blocks);
    }
  }
}
