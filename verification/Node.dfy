/**
  The running node: its chain in memory, the block store on disk and the world
  state, kept in step by the block handlers, block production and start-up.
 */
module Node {
  import opened Wrappers
  import opened Bytes
  import opened Types
  import opened Ledger
  import opened Storage
  import LedgerInvariants
  import Merkle

  /** What a node is started with: the mint addresses and its index in the leader rotation. */
  datatype Setup = Setup(crypto: Crypto, mint: Mint, key: bytes, index: nat)

  datatype NodeState = NodeState(
    blocks: seq<Block>,
    store: Store,
    ledger: State,
    mempool: seq<Transaction>,
    round: nat)

  function TipHeight(blocks: seq<Block>): u64 {
    if blocks == [] then 0 else blocks[|blocks| - 1].header.height
  }

  /** A block is taken up only when it is exactly one higher than the tip. */
  predicate IsNext(blocks: seq<Block>, block: Block) {
    block.header.height == TipHeight(blocks) + 1
  }

  function Append(mint: Mint, n: NodeState, block: Block): NodeState {
    n.(ledger := AfterBlock(mint, n.ledger, block), store := Save(n.store, block), blocks := n.blocks + [block])
  }

  function OnBlock(mint: Mint, n: NodeState, block: Block): NodeState {
    if IsNext(n.blocks, block) then Append(mint, n, block) else n
  }

  function OnSync(mint: Mint, n: NodeState, blocks: seq<Block>): NodeState
    decreases |blocks|
  {
    if blocks == [] then n else OnSync(mint, OnBlock(mint, n, blocks[0]), blocks[1..])
  }

  /** The blocks above a height, in chain order. */
  function Above(blocks: seq<Block>, height: u64): seq<Block> {
    if blocks == [] then []
    else (if blocks[0].header.height > height then [blocks[0]] else []) + Above(blocks[1..], height)
  }

  /** The first hundred queued transactions; the others are dropped when the pool is drained. */
  function Drained(mempool: seq<Transaction>): seq<Transaction> {
    if |mempool| <= 100 then mempool else mempool[..100]
  }

  function BuildBlock(c: Crypto, n: NodeState, now: i64): Block
    requires MayProduce(n)
  {
    var tip := n.blocks[|n.blocks| - 1];
    var txs := Drained(n.mempool);
    Block(BlockHeader(tip.header.height + 1, BlockHash(c, tip), Merkle.Root(c, txs), ZERO_32, now, ZERO_32, n.round),
          txs, None)
  }

  /** Height and round of the next block must be machine words. */
  predicate MayProduce(n: NodeState) {
    n.blocks != [] && TipHeight(n.blocks) + 1 < TWO_64 && n.round < TWO_64
  }

  function OnTick(setup: Setup, n: NodeState, now: i64): NodeState
    requires MayProduce(n)
  {
    var next :=
      if n.round % 3 == setup.index then Append(setup.mint, n, BuildBlock(setup.crypto, n, now)).(mempool := []) else n;
    next.(round := n.round + 1)
  }

  /** Start-up: load the store, write genesis into an empty one, replay what was loaded. */
  ghost function OnStart(mint: Mint, store: Store): NodeState {
    var loaded := Load(store);
    var blocks := if loaded == [] then [Genesis()] else loaded;
    NodeState(blocks, if loaded == [] then Save(store, Genesis()) else store, Replay(mint, blocks), [],
              blocks[|blocks| - 1].header.round + 1)
  }

  /** The world state a loaded log leads to. */
  method Rebuild(mint: Mint, loaded: seq<Block>) returns (state: WorldState)
    ensures fresh(state) && state.mint == mint && state.Abs() == Replay(mint, loaded)
  {
    state := new WorldState(mint);
    hide AfterBlock;
    var i := 0;
    while i < |loaded|
      invariant 0 <= i <= |loaded|
      invariant fresh(state) && state.mint == mint
      invariant state.Abs() == Replay(mint, loaded[..i])
    {
      assert loaded[..i + 1][..i] == loaded[..i];
      state.ApplyBlock(loaded[i]);
      i := i + 1;
    }
    assert loaded[..i] == loaded;
  }

  class FullNode {
    const setup: Setup
    const db: BlockDb
    const worldState: WorldState

    var blocks: seq<Block>
    var mempool: seq<Transaction>
    var round: nat

    ghost predicate Valid()
      reads this
    {
      worldState.mint == setup.mint
    }

    function Abs(): NodeState
      reads this, db, worldState
    {
      NodeState(blocks, db.store, worldState.Abs(), mempool, round)
    }

    constructor (setup: Setup, db: BlockDb)
      modifies db
      ensures Valid() && this.setup == setup && this.db == db && fresh(worldState)
      ensures Abs() == OnStart(setup.mint, old(db.store))
      ensures mempool == [] && blocks != [] && round == blocks[|blocks| - 1].header.round + 1
      ensures blocks == (if Load(old(db.store)) == [] then [Genesis()] else Load(old(db.store)))
      ensures worldState.Abs() == Replay(setup.mint, blocks)
    {
      var loaded := db.LoadAllBlocks();
      if loaded == [] {
        var genesis := Genesis();
        db.SaveBlock(genesis);
        loaded := [genesis];
      }
      var state := Rebuild(setup.mint, loaded);
      this.setup, this.db, this.worldState := setup, db, state;
      blocks, mempool, round := loaded, [], loaded[|loaded| - 1].header.round + 1;
    }

    /** Takes up the next block and answers with this node's vote for it. */
    method HandleNewBlock(block: Block) returns (vote: Option<Vote>)
      requires Valid()
      modifies this`blocks, db, worldState
      ensures Valid() && Abs() == OnBlock(setup.mint, old(Abs()), block)
      ensures vote.Some? <==> block.header.height ==
                              (if old(blocks) == [] then 1 else old(blocks)[|old(blocks)| - 1].header.height + 1)
      ensures vote.Some? ==>
        && blocks == old(blocks) + [block] && worldState.Abs() == AfterBlock(setup.mint, old(worldState.Abs()), block)
        && db.store == old(db.store)[BigEndian(8, block.header.height) := block]
        && vote.value == SignVote(setup.crypto, BlockHash(setup.crypto, block), block.header.round, setup.key)
      ensures vote == None ==> Abs() == old(Abs())
    {
      var tip := if blocks == [] then 0 else blocks[|blocks| - 1].header.height;
      vote := None;
      if block.header.height == tip + 1 {
        worldState.ApplyBlock(block);
        db.SaveBlock(block);
        blocks := blocks + [block];
        vote := Some(SignVote(setup.crypto, BlockHash(setup.crypto, block), block.header.round, setup.key));
      }
    }

    /**
      The reply holds exactly the blocks above the asked height, in chain order, and there is
      one only if there are such blocks; on a chain by height it is the rest of the chain.
     */
    method HandleSyncRequest(fromHeight: u64) returns (reply: Option<seq<Block>>)
      ensures reply.Some? <==> exists b :: b in blocks && b.header.height > fromHeight
      ensures reply.Some? ==>
        && Subsequence(reply.value, blocks)
        && (forall b | b in reply.value :: b.header.height > fromHeight)
        && (forall h: u64 | h > fromHeight :: OfHeight(reply.value, h) == OfHeight(blocks, h))
      ensures HeightsArePositions(blocks) ==>
        reply == if fromHeight + 1 < |blocks| then Some(blocks[fromHeight + 1..]) else None
    {
      var found := Above(blocks, fromHeight);
      AboveMeaning(blocks, fromHeight);
      reply := if found == [] then None else Some(found);
    }

    method HandleSyncResponse(syncBlocks: seq<Block>)
      requires Valid()
      modifies this`blocks, db, worldState
      ensures Valid() && Abs() == OnSync(setup.mint, old(Abs()), syncBlocks)
    {
      var i := 0;
      while i < |syncBlocks|
        invariant 0 <= i <= |syncBlocks| && Valid()
        invariant OnSync(setup.mint, Abs(), syncBlocks[i..]) == OnSync(setup.mint, old(Abs()), syncBlocks)
      {
        assert syncBlocks[i..][0] == syncBlocks[i] && syncBlocks[i..][1..] == syncBlocks[i + 1..];
        var _ := HandleNewBlock(syncBlocks[i]);
        i := i + 1;
      }
    }

    /** One turn of the production loop. */
    method Tick(now: i64) returns (produced: Option<Block>)
      requires Valid() && MayProduce(Abs())
      modifies this, db, worldState
      ensures Valid() && Abs() == OnTick(setup, old(Abs()), now)
      ensures round == old(round) + 1
      ensures old(round) % 3 != setup.index ==>
        produced == None && Abs() == old(Abs()).(round := old(round) + 1)
      ensures old(round) % 3 == setup.index ==>
        && produced == Some(BuildBlock(setup.crypto, old(Abs()), now)) && mempool == []
        && blocks == old(blocks) + [produced.value]
        && db.store == old(db.store)[BigEndian(8, produced.value.header.height) := produced.value]
        && worldState.Abs() == AfterBlock(setup.mint, old(worldState.Abs()), produced.value)
    {
      hide AfterBlock, Merkle.Root, BlockHash;
      produced := None;
      if round % 3 == setup.index {
        var tip := blocks[|blocks| - 1];
        var txs := if |mempool| <= 100 then mempool else mempool[..100];
        mempool := [];
        var txRoot, _ := Merkle.MerkleRoot(setup.crypto, txs);
        var header := BlockHeader(tip.header.height + 1, BlockHash(setup.crypto, tip), txRoot, ZERO_32, now,
                                  ZERO_32, round);
        var block := Block(header, txs, None);
        worldState.ApplyBlock(block);
        db.SaveBlock(block);
        blocks := blocks + [block];
        produced := Some(block);
      }
      round := round + 1;
    }

    method Queue(tx: Transaction)
      requires Valid()
      modifies this`mempool
      ensures Valid() && Abs() == old(Abs()).(mempool := old(mempool) + [tx])
    {
      mempool := mempool + [tx];
    }
  }

  // ---- the node is the replay of its log ----

  /** Chain, store and world state tell the same story, starting at genesis. */
  ghost predicate Consistent(mint: Mint, n: NodeState) {
    && n.blocks != [] && n.blocks[0] == Genesis()
    && HeightsArePositions(n.blocks)
    && n.store == StoreOf(n.blocks)
    && n.ledger == Replay(mint, n.blocks)
  }

  lemma AppendKeepsConsistent(mint: Mint, n: NodeState, block: Block)
    requires Consistent(mint, n) && IsNext(n.blocks, block)
    ensures Consistent(mint, Append(mint, n, block))
  {
    assert (n.blocks + [block])[..|n.blocks|] == n.blocks;
  }

  lemma {:induction false} SyncKeepsConsistent(mint: Mint, n: NodeState, blocks: seq<Block>)
    requires Consistent(mint, n)
    ensures Consistent(mint, OnSync(mint, n, blocks))
    ensures n.blocks <= OnSync(mint, n, blocks).blocks
    decreases |blocks|
  {
    if blocks == [] {
    } else {
      if IsNext(n.blocks, blocks[0]) { AppendKeepsConsistent(mint, n, blocks[0]); }
      SyncKeepsConsistent(mint, OnBlock(mint, n, blocks[0]), blocks[1..]);
    }
  }

  lemma StartIsConsistent(mint: Mint)
    ensures Consistent(mint, OnStart(mint, map[]))
  {
    var blocks := [Genesis()];
    var store: Store := map[];
    assert InKeyOrder(store, store.Keys) == [];
    assert blocks[..0] == [];
    assert Load(store) == [];
    assert StoreOf(blocks) == Save(StoreOf([]), Genesis());
  }

  /** Restarting from the store rebuilds chain, store and world state, whatever happened before. */
  lemma RestartRebuilds(mint: Mint, n: NodeState)
    requires Consistent(mint, n)
    ensures var r := OnStart(mint, n.store);
      && r.blocks == n.blocks && r.store == n.store && r.ledger == n.ledger && Consistent(mint, r)
      && r.mempool == [] && r.round == n.blocks[|n.blocks| - 1].header.round + 1
  {
    LoadRestoresChain(n.blocks);
  }

  datatype Event =
    | Received(block: Block)
    | Synced(blocks: seq<Block>)
    | Ticked(now: i64)
    | Queued(tx: Transaction)
    | Restarted

  ghost predicate Enabled(n: NodeState, e: Event) {
    e.Ticked? ==> MayProduce(n)
  }

  ghost function Next(setup: Setup, n: NodeState, e: Event): NodeState
    requires Enabled(n, e)
  {
    match e
    case Received(block) => OnBlock(setup.mint, n, block)
    case Synced(blocks) => OnSync(setup.mint, n, blocks)
    case Ticked(now) => OnTick(setup, n, now)
    case Queued(tx) => n.(mempool := n.mempool + [tx])
    case Restarted => OnStart(setup.mint, n.store)
  }

  lemma StepKeepsConsistent(setup: Setup, n: NodeState, e: Event)
    requires Consistent(setup.mint, n) && Enabled(n, e)
    ensures Consistent(setup.mint, Next(setup, n, e)) && n.blocks <= Next(setup, n, e).blocks
  {
    match e
    case Received(block) =>
      if IsNext(n.blocks, block) { AppendKeepsConsistent(setup.mint, n, block); }
    case Synced(blocks) =>
      SyncKeepsConsistent(setup.mint, n, blocks);
    case Ticked(now) =>
      if n.round % 3 == setup.index { AppendKeepsConsistent(setup.mint, n, BuildBlock(setup.crypto, n, now)); }
    case Queued(tx) =>
    case Restarted =>
      RestartRebuilds(setup.mint, n);
  }

  ghost predicate Admissible(setup: Setup, n: NodeState, es: seq<Event>)
    decreases |es|
  {
    es != [] ==> Enabled(n, es[0]) && Admissible(setup, Next(setup, n, es[0]), es[1..])
  }

  ghost function Run(setup: Setup, n: NodeState, es: seq<Event>): NodeState
    requires Admissible(setup, n, es)
    decreases |es|
  {
    if es == [] then n else Run(setup, Next(setup, n, es[0]), es[1..])
  }

  lemma TwoEvents(setup: Setup, n: NodeState, e: Event, f: Event)
    requires Enabled(n, e) && Enabled(Next(setup, n, e), f)
    ensures Admissible(setup, n, [e, f]) && Run(setup, n, [e, f]) == Next(setup, Next(setup, n, e), f)
  {
    hide Next, Enabled;
    OneEvent(setup, Next(setup, n, e), f);
    assert [e, f][0] == e && [e, f][1..] == [f];
  }

  lemma OneEvent(setup: Setup, n: NodeState, e: Event)
    requires Enabled(n, e)
    ensures Admissible(setup, n, [e]) && Run(setup, n, [e]) == Next(setup, n, e)
  {
    hide Next, Enabled;
    assert [e][0] == e && [e][1..] == [];
  }

  /** In every interleaving of blocks, syncs, ticks, transactions and restarts the node is the replay of its log. */
  lemma {:induction false} NodeIsReplay(setup: Setup, n: NodeState, es: seq<Event>)
    requires Consistent(setup.mint, n) && Admissible(setup, n, es)
    ensures Consistent(setup.mint, Run(setup, n, es)) && n.blocks <= Run(setup, n, es).blocks
    decreases |es|
  {
    if es == [] {
    } else {
      StepKeepsConsistent(setup, n, es[0]);
      NodeIsReplay(setup, Next(setup, n, es[0]), es[1..]);
    }
  }

  /** So every node's ledger counts its executed transactions and, when costs fit a word, holds the supply. */
  lemma NodeLedgerIsSound(mint: Mint, n: NodeState)
    requires Consistent(mint, n)
    ensures LedgerInvariants.Counts(n.ledger, LedgerInvariants.Executed(mint, n.blocks))
    ensures mint.treasury != mint.faucet
      && (forall i, j | 0 <= i < |n.blocks| && 0 <= j < |n.blocks[i].transactions| ::
            LedgerInvariants.Fits(n.blocks[i].transactions[j]))
      ==> LedgerInvariants.Total(n.ledger) + LedgerInvariants.Burned(mint, n.blocks) == TOTAL_SUPPLY
  {
    LedgerInvariants.LogCounts(mint, n.blocks);
    if mint.treasury != mint.faucet
      && (forall i, j | 0 <= i < |n.blocks| && 0 <= j < |n.blocks[i].transactions| ::
            LedgerInvariants.Fits(n.blocks[i].transactions[j]))
    {
      LedgerInvariants.LogConserves(mint, n.blocks);
    }
  }

  // ---- synchronisation ----

  lemma {:induction false} AboveOfChain(chain: seq<Block>, first: nat, height: u64)
    requires StartsAt(chain, first)
    ensures Above(chain, height) ==
            if height < first then chain else if height - first + 1 <= |chain| then chain[height - first + 1..] else []
    decreases |chain|
  {
    if chain == [] {
    } else {
      AboveOfChain(chain[1..], first + 1, height);
      assert chain == [chain[0]] + chain[1..];
    }
  }

  lemma {:induction false} AboveKeepsHeights(blocks: seq<Block>, height: u64, h: u64)
    requires h > height
    ensures OfHeight(Above(blocks, height), h) == OfHeight(blocks, h)
  {
    if blocks == [] {
    } else {
      AboveKeepsHeights(blocks[1..], height, h);
      OfHeightCons(blocks[0], Above(blocks[1..], height), h);
      if blocks[0].header.height <= height { assert Above(blocks, height) == Above(blocks[1..], height); }
    }
  }

  lemma {:induction false} AboveIsSubsequence(blocks: seq<Block>, height: u64)
    ensures Subsequence(Above(blocks, height), blocks)
    ensures forall b | b in blocks && b.header.height > height :: b in Above(blocks, height)
  {
    if blocks == [] {
    } else {
      AboveIsSubsequence(blocks[1..], height);
      var rest := Above(blocks[1..], height);
      assert blocks == [blocks[0]] + blocks[1..];
      if blocks[0].header.height > height {
        assert Above(blocks, height) == [blocks[0]] + rest && ([blocks[0]] + rest)[1..] == rest;
      } else {
        assert Above(blocks, height) == rest;
      }
    }
  }

  lemma AboveMeaning(blocks: seq<Block>, height: u64)
    ensures var found := Above(blocks, height);
      && (found != [] <==> exists b :: b in blocks && b.header.height > height)
      && Subsequence(found, blocks) && (forall b | b in found :: b.header.height > height)
      && (forall h: u64 | h > height :: OfHeight(found, h) == OfHeight(blocks, h))
      && (HeightsArePositions(blocks) ==> found == if height + 1 < |blocks| then blocks[height + 1..] else [])
  {
    hide Subsequence, OfHeight, Above;
    var found := Above(blocks, height);
    AboveIsHigher(blocks, height);
    AboveIsSubsequence(blocks, height);
    forall h: u64 | h > height ensures OfHeight(found, h) == OfHeight(blocks, h) {
      AboveKeepsHeights(blocks, height, h);
    }
    if found != [] { assert found[0] in found; }
    if HeightsArePositions(blocks) { AboveOfChain(blocks, 0, height); }
  }

  /** What the sync handler does to the chain alone. */
  function Extend(chain: seq<Block>, blocks: seq<Block>): seq<Block>
    decreases |blocks|
  {
    if blocks == [] then chain
    else Extend(if IsNext(chain, blocks[0]) then chain + [blocks[0]] else chain, blocks[1..])
  }

  lemma {:induction false} SyncExtends(mint: Mint, n: NodeState, blocks: seq<Block>)
    ensures OnSync(mint, n, blocks).blocks == Extend(n.blocks, blocks)
    ensures Extend(n.blocks, blocks) == n.blocks ==> OnSync(mint, n, blocks) == n
    decreases |blocks|
  {
    if blocks == [] {
    } else {
      SyncExtends(mint, OnBlock(mint, n, blocks[0]), blocks[1..]);
      ExtendKeeps(OnBlock(mint, n, blocks[0]).blocks, blocks[1..]);
    }
  }

  lemma {:induction false} ExtendKeeps(chain: seq<Block>, blocks: seq<Block>)
    ensures |chain| <= |Extend(chain, blocks)| && Extend(chain, blocks)[..|chain|] == chain
    decreases |blocks|
  {
    if blocks == [] {
    } else {
      var next := if IsNext(chain, blocks[0]) then chain + [blocks[0]] else chain;
      ExtendKeeps(next, blocks[1..]);
      assert chain == next[..|chain|] == Extend(next, blocks[1..])[..|next|][..|chain|];
    }
  }

  ghost predicate StartsAt(blocks: seq<Block>, first: nat) {
    forall i | 0 <= i < |blocks| :: blocks[i].header.height == first + i
  }

  lemma {:induction false} ExtendConcat(chain: seq<Block>, a: seq<Block>, b: seq<Block>)
    ensures Extend(chain, a + b) == Extend(Extend(chain, a), b)
    decreases |a|
  {
    if a == [] {
      assert a + b == b;
    } else {
      assert (a + b)[0] == a[0] && (a + b)[1..] == a[1..] + b;
      ExtendConcat(if IsNext(chain, a[0]) then chain + [a[0]] else chain, a[1..], b);
    }
  }

  /** Blocks none of which is the next one are all refused. */
  lemma {:induction false} ExtendRefuses(chain: seq<Block>, blocks: seq<Block>)
    requires chain != [] && HeightsArePositions(chain)
    requires forall i | 0 <= i < |blocks| :: blocks[i].header.height != |chain|
    ensures Extend(chain, blocks) == chain
    decreases |blocks|
  {
    if blocks == [] {
    } else {
      ExtendRefuses(chain, blocks[1..]);
    }
  }

  /** Consecutive blocks starting with the next one are all taken up. */
  lemma {:induction false} ExtendTakes(chain: seq<Block>, blocks: seq<Block>)
    requires chain != [] && HeightsArePositions(chain) && StartsAt(blocks, |chain|)
    ensures Extend(chain, blocks) == chain + blocks
    decreases |blocks|
  {
    if blocks == [] {
    } else {
      ExtendTakes(chain + [blocks[0]], blocks[1..]);
      assert chain + [blocks[0]] + blocks[1..] == chain + blocks;
    }
  }

  lemma {:induction false} AboveIsHigher(blocks: seq<Block>, height: u64)
    ensures forall b | b in Above(blocks, height) :: b in blocks && b.header.height > height
  {
    if blocks == [] {
    } else {
      AboveIsHigher(blocks[1..], height);
    }
  }

  /** The chain a node ends with, for the reply of a sender whose chain is longer or shorter than its own. */
  lemma ExtendByReply(chain: seq<Block>, full: seq<Block>, height: u64)
    requires chain != [] && HeightsArePositions(chain) && HeightsArePositions(full)
    requires |chain| <= |full| ==> full[..|chain|] == chain
    ensures Extend(chain, Above(full, height)) == if height < |chain| <= |full| then full else chain
  {
    hide Extend, Above;
    if height < |chain| <= |full| {
      AboveOfChain(full, 0, height);
      ExtendToFull(chain, full, height + 1);
    } else {
      var reply := Above(full, height);
      AboveIsHigher(full, height);
      forall i | 0 <= i < |reply| ensures reply[i].header.height != |chain| {
        assert reply[i] in full;
      }
      ExtendRefuses(chain, reply);
    }
  }

  lemma ExtendToFull(chain: seq<Block>, full: seq<Block>, first: nat)
    requires 0 < first <= |chain| <= |full| && full[..|chain|] == chain && HeightsArePositions(full)
    ensures Extend(chain, full[first..]) == full
  {
    hide Extend;
    var known, unknown := full[first..|chain|], full[|chain|..];
    assert full[first..] == known + unknown;
    ExtendConcat(chain, known, unknown);
    ExtendRefuses(chain, known);
    ExtendTakes(chain, unknown);
    assert full == chain + unknown;
  }

  /**
    Convergence: given the reply to `height` from a node with chain `full`, a node on a
    prefix of it ends with exactly that chain, iff the reply starts no higher than its tip.
   */
  lemma SyncConvergesIff(mint: Mint, n: NodeState, full: seq<Block>, height: u64)
    requires Consistent(mint, n) && HeightsArePositions(full) && n.blocks <= full
    ensures OnSync(mint, n, Above(full, height)).blocks == full <==>
            height < |n.blocks| || n.blocks == full
  {
    SyncExtends(mint, n, Above(full, height));
    ExtendByReply(n.blocks, full, height);
  }

  /** A node already past the sender's chain is left as it is, by any reply of the sender. */
  lemma SyncLeavesLongerAlone(mint: Mint, n: NodeState, full: seq<Block>, height: u64)
    requires Consistent(mint, n) && HeightsArePositions(full) && full <= n.blocks
    ensures OnSync(mint, n, Above(full, height)) == n
  {
    SyncExtends(mint, n, Above(full, height));
    ExtendByReply(n.blocks, full, height);
  }

  /** Delivering the reply a second time changes nothing. */
  lemma SyncTwice(mint: Mint, n: NodeState, full: seq<Block>, height: u64)
    requires Consistent(mint, n) && HeightsArePositions(full) && (n.blocks <= full || full <= n.blocks)
    ensures var reply := Above(full, height);
      OnSync(mint, OnSync(mint, n, reply), reply) == OnSync(mint, n, reply)
  {
    var m := OnSync(mint, n, Above(full, height));
    SyncExtends(mint, n, Above(full, height));
    ExtendByReply(n.blocks, full, height);
    SyncExtends(mint, m, Above(full, height));
    ExtendByReply(m.blocks, full, height);
  }

  ghost predicate Subsequence(s: seq<Block>, t: seq<Block>)
    decreases |t|
  {
    s == [] || (t != [] && ((s[0] == t[0] && Subsequence(s[1..], t[1..])) || Subsequence(s, t[1..])))
  }

  lemma {:induction false} ExtendAppendsSubsequence(chain: seq<Block>, blocks: seq<Block>)
    requires chain != [] && HeightsArePositions(chain)
    ensures HeightsArePositions(Extend(chain, blocks))
    ensures |chain| <= |Extend(chain, blocks)|
    ensures Subsequence(Extend(chain, blocks)[|chain|..], blocks)
    decreases |blocks|
  {
    var longer := Extend(chain, blocks);
    ExtendKeeps(chain, blocks);
    if blocks == [] {
      assert longer[|chain|..] == [];
    } else if IsNext(chain, blocks[0]) {
      ExtendAppendsSubsequence(chain + [blocks[0]], blocks[1..]);
      ExtendKeeps(chain + [blocks[0]], blocks[1..]);
      assert longer[|chain|] == (chain + [blocks[0]])[|chain|];
      assert longer[|chain|..][1..] == longer[|chain| + 1..];
    } else {
      ExtendAppendsSubsequence(chain, blocks[1..]);
    }
  }

  /** Any list at all: the old chain stays, and what is added is a subsequence of the list, heights consecutive. */
  lemma SyncAppendsSubsequence(mint: Mint, n: NodeState, blocks: seq<Block>)
    requires Consistent(mint, n)
    ensures var m := OnSync(mint, n, blocks);
      n.blocks <= m.blocks && HeightsArePositions(m.blocks) && Subsequence(m.blocks[|n.blocks|..], blocks)
  {
    SyncExtends(mint, n, blocks);
    ExtendKeeps(n.blocks, blocks);
    ExtendAppendsSubsequence(n.blocks, blocks);
  }
}
