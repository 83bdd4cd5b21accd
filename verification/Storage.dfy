/**
  The block store: an ordered map from big-endian heights to blocks. Iteration
  follows the byte order of the keys; loading then sorts by height.
 */
module Storage {
  import opened Bytes
  import opened Types

  type Store = map<bytes, Block>

  function StoreKey(height: u64): bytes {
    BigEndian(8, height)
  }

  function Save(store: Store, block: Block): Store {
    store[StoreKey(block.header.height) := block]
  }

  // ---- iteration order ----

  ghost predicate IsLeast(keys: set<bytes>, k: bytes) {
    k in keys && forall l | l in keys && l != k :: LexLess(k, l)
  }

  lemma {:induction false} LeastExists(keys: set<bytes>) returns (k: bytes)
    requires keys != {}
    ensures IsLeast(keys, k)
    decreases keys
  {
    k :| k in keys;
    if keys == {k} {
    } else {
      assert keys - {k} != {} by { assert keys == (keys - {k}) + {k}; }
      var l := LeastExists(keys - {k});
      LexLessTotal(k, l);
      if LexLess(l, k) {
        k := l;
      } else {
        forall m | m in keys && m != k ensures LexLess(k, m) {
          if m != l { LexLessTransitive(k, l, m); }
        }
      }
    }
  }

  lemma LeastWitness(keys: set<bytes>)
    requires keys != {}
    ensures exists k :: IsLeast(keys, k)
  {
    var k := LeastExists(keys);
  }

  lemma LeastIsUnique(keys: set<bytes>, k: bytes, l: bytes)
    requires IsLeast(keys, k) && IsLeast(keys, l)
    ensures k == l
  {
    if k != l {
      LexLessTransitive(k, l, k);
      LexLessIrreflexive(k);
    }
  }

  ghost function Least(keys: set<bytes>): (k: bytes)
    requires keys != {}
    ensures IsLeast(keys, k)
  {
    LeastWitness(keys);
    var k :| IsLeast(keys, k);
    k
  }

  /** The stored blocks in the order of their keys. */
  ghost function InKeyOrder(store: Store, keys: set<bytes>): seq<Block>
    requires keys <= store.Keys
    decreases keys
  {
    if keys == {} then []
    else var k := Least(keys); [store[k]] + InKeyOrder(store, keys - {k})
  }

  // ---- sorting by height ----

  /** Puts a block before the first one that is at least as high. */
  function InsertByHeight(block: Block, s: seq<Block>): seq<Block> {
    if s == [] || block.header.height <= s[0].header.height then [block] + s
    else [s[0]] + InsertByHeight(block, s[1..])
  }

  function SortByHeight(s: seq<Block>): seq<Block> {
    if s == [] then [] else InsertByHeight(s[0], SortByHeight(s[1..]))
  }

  ghost predicate Ascending(s: seq<Block>) {
    forall i, j | 0 <= i < j < |s| :: s[i].header.height <= s[j].header.height
  }

  ghost predicate StrictlyAscending(s: seq<Block>) {
    forall i, j | 0 <= i < j < |s| :: s[i].header.height < s[j].header.height
  }

  function OfHeight(s: seq<Block>, h: u64): seq<Block> {
    if s == [] then [] else (if s[0].header.height == h then [s[0]] else []) + OfHeight(s[1..], h)
  }

  lemma {:induction false} InsertKeepsOrder(block: Block, s: seq<Block>)
    requires Ascending(s)
    ensures Ascending(InsertByHeight(block, s))
    ensures forall b | b in InsertByHeight(block, s) :: b == block || b in s
  {
    if s == [] || block.header.height <= s[0].header.height {
    } else {
      InsertKeepsOrder(block, s[1..]);
      var rest := InsertByHeight(block, s[1..]);
      forall j | 0 <= j < |rest| ensures s[0].header.height <= rest[j].header.height {
        assert rest[j] in rest;
      }
    }
  }

  lemma OfHeightCons(b: Block, s: seq<Block>, h: u64)
    ensures OfHeight([b] + s, h) == (if b.header.height == h then [b] else []) + OfHeight(s, h)
  {
    assert ([b] + s)[1..] == s;
  }

  lemma {:induction false} InsertKeepsHeights(block: Block, s: seq<Block>, h: u64)
    ensures OfHeight(InsertByHeight(block, s), h) == (if block.header.height == h then [block] else []) + OfHeight(s, h)
  {
    if s == [] || block.header.height <= s[0].header.height {
      OfHeightCons(block, s, h);
    } else {
      InsertKeepsHeights(block, s[1..], h);
      var rest := InsertByHeight(block, s[1..]);
      assert s == [s[0]] + s[1..];
      OfHeightCons(s[0], s[1..], h);
      OfHeightCons(s[0], rest, h);
      hide OfHeight;
      assert InsertByHeight(block, s) == [s[0]] + rest;
    }
  }

  /** A stable sort: ascending, and the blocks of each height are the same in the same order. */
  lemma {:induction false} SortIsStable(s: seq<Block>, h: u64)
    ensures Ascending(SortByHeight(s))
    ensures OfHeight(SortByHeight(s), h) == OfHeight(s, h)
  {
    if s == [] {
    } else {
      SortIsStable(s[1..], h);
      InsertKeepsOrder(s[0], SortByHeight(s[1..]));
      InsertKeepsHeights(s[0], SortByHeight(s[1..]), h);
    }
  }

  lemma {:induction false} SortOfSorted(s: seq<Block>)
    requires Ascending(s)
    ensures SortByHeight(s) == s
  {
    if s == [] {
    } else {
      SortOfSorted(s[1..]);
      assert s == [s[0]] + s[1..];
    }
  }

  ghost function Load(store: Store): seq<Block> {
    SortByHeight(InKeyOrder(store, store.Keys))
  }

  class BlockDb {
    var store: Store

    constructor ()
      ensures store == map[]
    {
      store := map[];
    }

    method SaveBlock(block: Block)
      modifies this
      ensures store == old(store)[BigEndian(8, block.header.height) := block]
    {
      var key := BigEndian(8, block.header.height);
      store := store[key := block];
    }

    method LoadAllBlocks() returns (blocks: seq<Block>)
      ensures blocks == Load(store)
      ensures Ascending(blocks)
      ensures forall h: u64 :: OfHeight(blocks, h) == OfHeight(InKeyOrder(store, store.Keys), h)
    {
      blocks := [];
      var left := store.Keys;
      while left != {}
        invariant left <= store.Keys
        invariant blocks + InKeyOrder(store, left) == InKeyOrder(store, store.Keys)
        decreases left
      {
        ghost var least := LeastExists(left);
        assert IsLeast(left, least);
        var k :| k in left && forall l | l in left && l != k :: LexLess(k, l);
        LeastIsUnique(left, k, Least(left));
        assert blocks + InKeyOrder(store, left) == blocks + [store[k]] + InKeyOrder(store, left - {k});
        blocks := blocks + [store[k]];
        left := left - {k};
      }
      assert blocks == blocks + InKeyOrder(store, {});
      forall h: u64 {
        SortIsStable(blocks, h);
      }
      SortIsStable(blocks, 0);
      blocks := SortByHeight(blocks);
    }
  }

  // ---- what loading returns ----

  /** Every block lies under the key of its own height. */
  ghost predicate Keyed(store: Store) {
    forall k | k in store :: k == StoreKey(store[k].header.height)
  }

  lemma StoreKeyOrder(x: u64, y: u64)
    ensures x < y <==> LexLess(StoreKey(x), StoreKey(y))
    ensures x == y <==> StoreKey(x) == StoreKey(y)
  {
    Pow256Of8();
    BigEndianOrder(8, x, y);
  }

  lemma {:induction false} KeyOrderIsHeightOrder(store: Store, keys: set<bytes>)
    requires Keyed(store) && keys <= store.Keys
    ensures var s := InKeyOrder(store, keys);
      && StrictlyAscending(s)
      && (forall b :: b in s <==> exists k :: k in keys && store[k] == b)
    decreases keys
  {
    if keys == {} {
    } else {
      var k := Least(keys);
      KeyOrderIsHeightOrder(store, keys - {k});
      var rest := InKeyOrder(store, keys - {k});
      forall b | b in rest ensures store[k].header.height < b.header.height {
        var l :| l in keys - {k} && store[l] == b;
        StoreKeyOrder(store[k].header.height, b.header.height);
      }
    }
  }

  /** Key order already is height order, so the sort changes nothing and each stored block is returned once. */
  lemma LoadInOrder(store: Store)
    requires Keyed(store)
    ensures Load(store) == InKeyOrder(store, store.Keys)
    ensures StrictlyAscending(Load(store))
    ensures forall b :: b in Load(store) <==> b in store.Values
  {
    KeyOrderIsHeightOrder(store, store.Keys);
    SortOfSorted(InKeyOrder(store, store.Keys));
  }

  function StoreOf(saves: seq<Block>): Store {
    if saves == [] then map[] else Save(StoreOf(saves[..|saves| - 1]), saves[|saves| - 1])
  }

  /** The block is the last one saved at its height. */
  ghost predicate LastSaved(saves: seq<Block>, b: Block) {
    exists i | 0 <= i < |saves| :: saves[i] == b
      && forall j | i < j < |saves| :: saves[j].header.height != b.header.height
  }

  lemma {:induction false} StoreHoldsLast(saves: seq<Block>)
    ensures Keyed(StoreOf(saves))
    ensures forall b :: b in StoreOf(saves).Values <==> LastSaved(saves, b)
  {
    if saves == [] {
    } else {
      var front, last := saves[..|saves| - 1], saves[|saves| - 1];
      StoreHoldsLast(front);
      var store, before := StoreOf(saves), StoreOf(front);
      forall b
        ensures b in store.Values <==> LastSaved(saves, b)
      {
        StoredNext(before, last, b);
        LastSavedNext(front, last, b);
        assert saves == front + [last];
      }
    }
  }

  lemma StoredNext(store: Store, last: Block, b: Block)
    requires Keyed(store)
    ensures Keyed(Save(store, last))
    ensures b in Save(store, last).Values <==>
            b == last || (b in store.Values && b.header.height != last.header.height)
  {
    var next := Save(store, last);
    StoreKeyOrder(b.header.height, last.header.height);
    assert next[StoreKey(last.header.height)] == last;
    if b in store.Values && b.header.height != last.header.height {
      var k :| k in store && store[k] == b;
      assert next[k] == b;
    }
  }

  lemma LastSavedNext(front: seq<Block>, last: Block, b: Block)
    ensures LastSaved(front + [last], b) <==>
            b == last || (LastSaved(front, b) && b.header.height != last.header.height)
  {
    var saves := front + [last];
    if LastSaved(saves, b) {
      var i :| 0 <= i < |saves| && saves[i] == b
        && forall j | i < j < |saves| :: saves[j].header.height != b.header.height;
      if i < |front| {
        assert saves[|front|].header.height != b.header.height;
        assert front[i] == b && forall j | i < j < |front| :: front[j].header.height == saves[j].header.height;
      }
    }
    if b == last {
      assert saves[|front|] == b;
    } else if LastSaved(front, b) && b.header.height != last.header.height {
      var i :| 0 <= i < |front| && front[i] == b
        && forall j | i < j < |front| :: front[j].header.height != b.header.height;
      assert saves[i] == b;
      forall j | i < j < |saves| ensures saves[j].header.height != b.header.height {
        if j < |front| { assert saves[j] == front[j]; }
      }
    }
  }

  /** After any saves, loading gives the last block saved at each height, in height order. */
  lemma LoadGivesLastSaves(saves: seq<Block>)
    ensures var r := Load(StoreOf(saves));
      StrictlyAscending(r) && forall b :: b in r <==> LastSaved(saves, b)
  {
    StoreHoldsLast(saves);
    LoadInOrder(StoreOf(saves));
  }

  lemma {:induction false} AscendingUnique(s: seq<Block>, t: seq<Block>)
    requires StrictlyAscending(s) && StrictlyAscending(t) && forall b :: b in s <==> b in t
    ensures s == t
  {
    assert (s != [] ==> s[0] in t) && (t != [] ==> t[0] in s);
    if s == [] || t == [] {
    } else {
      assert s[0] == t[0];
      forall b ensures b in s[1..] <==> b in t[1..] {
        if b in s[1..] { assert b in t && b.header.height > s[0].header.height; }
        if b in t[1..] { assert b in s && b.header.height > t[0].header.height; }
      }
      AscendingUnique(s[1..], t[1..]);
      assert s == [s[0]] + s[1..] && t == [t[0]] + t[1..];
    }
  }

  ghost predicate HeightsArePositions(chain: seq<Block>) {
    forall i | 0 <= i < |chain| :: chain[i].header.height == i
  }

  /** A chain saved block by block is loaded back as it was. */
  lemma LoadRestoresChain(chain: seq<Block>)
    requires HeightsArePositions(chain)
    ensures Load(StoreOf(chain)) == chain
  {
    LoadGivesLastSaves(chain);
    forall b ensures b in chain <==> LastSaved(chain, b) {
    }
    AscendingUnique(Load(StoreOf(chain)), chain);
  }
}
