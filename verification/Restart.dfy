/**
  The round in which a node resumes after a restart, and what it produces from then on.
 */
module Restart {
  import opened Bytes
  import opened Types
  import opened Ledger
  import opened Storage
  import opened Node
  import Binding
  import Gossip
  import Merkle

  function TipRound(blocks: seq<Block>): u64
    requires blocks != []
  {
    blocks[|blocks| - 1].header.round
  }

  ghost predicate StaysUp(es: seq<Event>) {
    forall i | 0 <= i < |es| :: !es[i].Restarted?
  }

  function Ticks(es: seq<Event>): nat {
    if es == [] then 0 else (if es[0].Ticked? then 1 else 0) + Ticks(es[1..])
  }

  lemma {:induction false} SyncKeepsRound(mint: Mint, n: NodeState, blocks: seq<Block>)
    ensures OnSync(mint, n, blocks).round == n.round
    decreases |blocks|
  {
    if blocks == [] {
    } else {
      SyncKeepsRound(mint, OnBlock(mint, n, blocks[0]), blocks[1..]);
    }
  }

  lemma StepCountsTicks(setup: Setup, n: NodeState, e: Event)
    requires Enabled(n, e) && !e.Restarted?
    ensures Next(setup, n, e).round == n.round + (if e.Ticked? then 1 else 0)
  {
    hide AfterBlock, BuildBlock;
    if e.Synced? { SyncKeepsRound(setup.mint, n, e.blocks); }
  }

  /** While a node stays up its round counts the turns of its production loop, and nothing else moves it. */
  lemma {:induction false} RoundCountsTicks(setup: Setup, n: NodeState, es: seq<Event>)
    requires Admissible(setup, n, es) && StaysUp(es)
    ensures Run(setup, n, es).round == n.round + Ticks(es)
    decreases |es|
  {
    hide Next, Enabled;
    if es == [] {
    } else {
      StepCountsTicks(setup, n, es[0]);
      RoundCountsTicks(setup, Next(setup, n, es[0]), es[1..]);
    }
  }

  /** After these events, without a further restart, the next turn produces a block of round `q`. */
  ghost predicate ComesToProduce(setup: Setup, n: NodeState, es: seq<Event>, q: u64) {
    && StaysUp(es) && Admissible(setup, n, es)
    && var m := Run(setup, n, es);
    && MayProduce(m) && forall now: i64 ::
         var next := OnTick(setup, m, now);
         |next.blocks| == |m.blocks| + 1 && next.blocks[|m.blocks|].header.round == q
  }

  /** Whatever reaches a restarted node, the blocks it produces name rounds above that of the tip it restarted on. */
  lemma ProducesAboveTip(setup: Setup, n: NodeState, es: seq<Event>, q: u64)
    requires Consistent(setup.mint, n) && ComesToProduce(setup, OnStart(setup.mint, n.store), es, q)
    ensures q == TipRound(n.blocks) + 1 + Ticks(es) && q % 3 == setup.index
  {
    hide Consistent, Run, Admissible, MayProduce, Merkle.Root, BlockHash, AfterBlock, OnStart;
    var r := OnStart(setup.mint, n.store);
    RestartRebuilds(setup.mint, n);
    RoundCountsTicks(setup, r, es);
    var m := Run(setup, r, es);
    Binding.ProducesIff(setup, m, 0);
    TickNamesRound(setup, m, 0);
  }

  lemma TickNamesRound(setup: Setup, n: NodeState, now: i64)
    requires MayProduce(n) && n.round % 3 == setup.index
    ensures var next := OnTick(setup, n, now);
      |next.blocks| == |n.blocks| + 1 && next.blocks[|n.blocks|].header.round == n.round
  {
    hide Merkle.Root, BlockHash, AfterBlock;
  }

  // ---- every such round is reached ----

  function Idle(k: nat): (es: seq<Event>)
    ensures |es| == k && forall i | 0 <= i < k :: es[i] == Ticked(0)
  {
    seq(k, _ => Ticked(0))
  }

  lemma {:induction false} IdleTicks(k: nat)
    ensures Ticks(Idle(k)) == k
  {
    if k > 0 {
      assert Idle(k)[1..] == Idle(k - 1);
      IdleTicks(k - 1);
    }
  }

  /** A node left to itself keeps turning while rounds and heights are machine words. */
  lemma {:induction false} IdleRuns(setup: Setup, n: NodeState, k: nat)
    requires Consistent(setup.mint, n) && n.round + k <= TWO_64 && |n.blocks| + k <= TWO_64
    ensures Admissible(setup, n, Idle(k))
    ensures |Run(setup, n, Idle(k)).blocks| <= |n.blocks| + k
    decreases k
  {
    hide Consistent, Next;
    if k > 0 {
      var e := Ticked(0);
      assert Idle(k)[0] == e && Idle(k)[1..] == Idle(k - 1);
      ConsistentMayProduce(setup.mint, n);
      StepKeepsConsistent(setup, n, e);
      StepCountsTicks(setup, n, e);
      assert |Next(setup, n, e).blocks| <= |n.blocks| + 1 by { OneTick(setup, n); }
      IdleRuns(setup, Next(setup, n, e), k - 1);
    }
  }

  lemma OneTick(setup: Setup, n: NodeState)
    requires MayProduce(n)
    ensures |Next(setup, n, Ticked(0)).blocks| <= |n.blocks| + 1
  {
    Binding.ProducesIff(setup, n, 0);
  }

  lemma ConsistentMayProduce(mint: Mint, n: NodeState)
    requires Consistent(mint, n)
    ensures MayProduce(n) <==> |n.blocks| < TWO_64 && n.round < TWO_64
  {
  }

  /** The rounds of its index in which a restarted node can come to produce are those above the round of its tip. */
  lemma ProducesAfterRestartIff(setup: Setup, n: NodeState, q: u64)
    requires Consistent(setup.mint, n) && q % 3 == setup.index && |n.blocks| + q < TWO_64
    ensures (exists es :: ComesToProduce(setup, OnStart(setup.mint, n.store), es, q)) <==> q > TipRound(n.blocks)
  {
    hide Consistent, Run, Admissible, MayProduce, OnStart, OnTick;
    var r := OnStart(setup.mint, n.store);
    RestartRebuilds(setup.mint, n);
    if es :| ComesToProduce(setup, r, es, q) {
      ProducesAboveTip(setup, n, es, q);
    }
    if q > TipRound(n.blocks) {
      var k := q - TipRound(n.blocks) - 1;
      IdleRuns(setup, r, k);
      IdleTicks(k);
      RoundCountsTicks(setup, r, Idle(k));
      NodeIsReplay(setup, r, Idle(k));
      var m := Run(setup, r, Idle(k));
      ConsistentMayProduce(setup.mint, m);
      forall now: i64
        ensures var next := OnTick(setup, m, now);
          |next.blocks| == |m.blocks| + 1 && next.blocks[|m.blocks|].header.round == q
      {
        TickNamesRound(setup, m, now);
      }
      assert ComesToProduce(setup, r, Idle(k), q);
    }
  }

  /**
    That can be a round it has produced in before: here the tip it restarts on came from elsewhere and names
    an earlier round, and the node adds a second block of round 1 to a chain that holds its first.
   */
  lemma RoundRepeats(setup: Setup, b: Block, now: i64)
    requires setup.index == 1 && b.header.height == 2 && b.header.round == 0
    ensures var n, es := OnStart(setup.mint, map[]), [Ticked(now), Received(b), Restarted, Ticked(now)];
      && Admissible(setup, n, es)
      && var chain := Run(setup, n, es).blocks;
      && |chain| == 4 && chain[..1] == [Genesis()] && chain[2] == b
      && chain[1].header.round == chain[3].header.round == 1
  {
    hide Consistent, StoreOf, Replay, AfterBlock, Merkle.Root, BlockHash, OnStart, HeightsArePositions;
    var n := OnStart(setup.mint, map[]);
    StartIsConsistent(setup.mint);
    Gossip.StartHasOneBlock(setup.mint);
    StartsAtGenesis(setup.mint);
    var n1 := ProducingStep(setup, n, now);
    var n2 := Next(setup, n1, Received(b));
    StepKeepsConsistent(setup, n1, Received(b));
    assert n2.blocks == n1.blocks + [b];
    RestartRebuilds(setup.mint, n2);
    var n3 := OnStart(setup.mint, n2.store);
    var n4 := ProducingStep(setup, n3, now);
    ThenTwo(setup, n, Ticked(now), Received(b), Restarted, Ticked(now));
  }

  lemma StartsAtGenesis(mint: Mint)
    ensures OnStart(mint, map[]).blocks == [Genesis()] && OnStart(mint, map[]).round == 1
  {
    Gossip.StartHasOneBlock(mint);
    StartIsConsistent(mint);
  }

  lemma ProducingStep(setup: Setup, n: NodeState, now: i64) returns (m: NodeState)
    requires Consistent(setup.mint, n) && |n.blocks| < TWO_64 - 1 && n.round < TWO_64 && n.round % 3 == setup.index
    ensures Enabled(n, Ticked(now)) && m == Next(setup, n, Ticked(now)) && Consistent(setup.mint, m)
    ensures |m.blocks| == |n.blocks| + 1 && n.blocks <= m.blocks && m.round == n.round + 1
    ensures m.blocks[|n.blocks|].header.round == n.round
    ensures TipHeight(m.blocks) == |n.blocks|
  {
    ConsistentMayProduce(setup.mint, n);
    StepKeepsConsistent(setup, n, Ticked(now));
    TickNamesRound(setup, n, now);
    m := Next(setup, n, Ticked(now));
    StepCountsTicks(setup, n, Ticked(now));
    hide OnTick, StoreOf, Replay;
  }

  lemma ThenTwo(setup: Setup, n: NodeState, e: Event, f: Event, g: Event, h: Event)
    requires Enabled(n, e) && Enabled(Next(setup, n, e), f)
    requires var m := Next(setup, Next(setup, n, e), f); Enabled(m, g) && Enabled(Next(setup, m, g), h)
    ensures Admissible(setup, n, [e, f, g, h])
    ensures Run(setup, n, [e, f, g, h]) == Next(setup, Next(setup, Next(setup, Next(setup, n, e), f), g), h)
  {
    hide Next, Enabled;
    TwoEvents(setup, Next(setup, Next(setup, n, e), f), g, h);
    assert [e, f, g, h][1..] == [f, g, h] && [f, g, h][1..] == [g, h];
    assert Admissible(setup, Next(setup, n, e), [f, g, h]);
  }
}
