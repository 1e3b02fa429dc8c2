/**
 One implicit producer as a sequential queue: items in blocks, the blocks in a circular
 index that grows, blocks taken from a pool and given back. Every operation refines a plain
 sequence, and an enqueue that runs out of memory half-way changes nothing.

 `BlockRecycling`, `BlockIndex` and `DequeueCounters` treat the same structure with its
 consumers running at the same time.
 */
module ImplicitProducer {
  import opened Blocks
  import opened CircularIndex
  import opened Optional
  import opened Remainders
  import opened Words

  const IMPLICIT_INITIAL_INDEX_SIZE: nat := 32

  /** `elementsCompletelyDequeued`, the chain pointer and the slots. */
  datatype Block = Block(completed: nat, next: Ptr, cells: seq<Cell>)

  /** What an allocation of an index generation comes back with: nothing, or memory with arbitrary contents. */
  datatype Memory = Memory(granted: bool, garbage: nat -> Ptr)

  function NewBlock(): Block {
    Block(0, Null, seq(BLOCK_SIZE, _ => Raw))
  }

  /** The blocks of a fresh pool. */
  function BlocksUpTo(n: nat): (pool: set<nat>)
    ensures forall b :: b in pool <==> 0 <= b < n
  {
    if n == 0 then {} else BlocksUpTo(n - 1) + {n - 1}
  }

  // ---------------------------------------------------------------- what the structure stands for

  /**
   `popped` items have left and `contents` are waiting; `homes` are the blocks of the slots
   in between, and `origin` places block numbers in the ring. An empty ring is a null index.
   */
  datatype Store = Store(
    ix: Index,
    origin: int,
    blocks: seq<Block>,
    pool: set<nat>,
    popped: nat,
    contents: seq<Value>,
    homes: seq<nat>)

  function Tail(s: Store): nat { s.popped + |s.contents| }

  function Lo(s: Store): nat { s.popped / BLOCK_SIZE }

  function Hi(s: Store): nat { BlocksFor(Tail(s)) }

  function Pointers(homes: seq<nat>): (ps: seq<Ptr>)
    ensures |ps| == |homes| && forall i :: 0 <= i < |ps| ==> ps[i] == At(homes[i])
  {
    seq(|homes|, i requires 0 <= i < |homes| => At(homes[i]))
  }

  /** A block is in use under one number, or in the pool. */
  ghost predicate Partition(s: Store, used: seq<nat>) {
    && (forall i :: 0 <= i < |used| ==> used[i] < |s.blocks|)
    && (forall i, j :: 0 <= i < j < |used| ==> used[i] != used[j])
    && (forall b :: b in s.pool ==> b < |s.blocks|)
    && (forall b :: 0 <= b < |s.blocks| ==> (b in s.pool <==> b !in used) && |s.blocks[b].cells| == BLOCK_SIZE)
  }

  /** Slot `j` holds `v`, in a block of `used`, whose first number is `Lo(s)`. */
  predicate Holds(s: Store, used: seq<nat>, j: nat, v: Value) {
    && Lo(s) <= j / BLOCK_SIZE < Lo(s) + |used|
    && used[j / BLOCK_SIZE - Lo(s)] < |s.blocks|
    && |s.blocks[used[j / BLOCK_SIZE - Lo(s)]].cells| == BLOCK_SIZE
    && s.blocks[used[j / BLOCK_SIZE - Lo(s)]].cells[j % BLOCK_SIZE] == Built(v)
  }

  predicate Item(s: Store, j: nat) {
    s.popped <= j < Tail(s) && Holds(s, s.homes, j, s.contents[j - s.popped])
  }

  /** Only the first block can be partly consumed. */
  predicate Completed(s: Store, used: seq<nat>, i: nat) {
    && i < |used| && used[i] < |s.blocks|
    && s.blocks[used[i]].completed == (if i == 0 then s.popped % BLOCK_SIZE else 0)
  }

  /** The structure with the blocks `extra` allocated behind those of the items. */
  ghost predicate Core(s: Store, extra: seq<nat>) {
    && |s.homes| == Hi(s) - Lo(s)
    && (Hi(s) + |extra|) * BLOCK_SIZE - s.popped < HALF
    && (s.ix.ring == [] ==> s.popped == 0 && s.contents == [] && extra == [])
    && (s.ix.ring != [] ==>
          && Represents(s.ix, s.origin, Lo(s), Pointers(s.homes + extra))
          && TailAt(s.ix, s.origin, Hi(s) + |extra| - 1))
    && Partition(s, s.homes + extra)
    && (forall j :: s.popped <= j < Tail(s) ==> Item(s, j))
    && (forall i :: 0 <= i < |s.homes + extra| ==> Completed(s, s.homes + extra, i))
  }

  // ---------------------------------------------------------------- lemmas about the structure

  /** Block `b`, counted from zero, is taken out of the pool or created; no other block changes. */
  ghost predicate Acquires(bs: seq<Block>, pool: set<nat>, bs': seq<Block>, pool': set<nat>, b: nat) {
    && b < |bs'| && pool' == pool - {b} && (b in pool || b == |bs|)
    && |bs'| == (if b == |bs| then b + 1 else |bs|)
    && (forall c :: 0 <= c < |bs| && c != b ==> bs'[c] == bs[c])
    && |bs'[b].cells| == BLOCK_SIZE && bs'[b].completed == 0
  }

  predicate SameItems(s: Store, s': Store) {
    s'.popped == s.popped && s'.contents == s.contents && s'.homes == s.homes
  }

  lemma {:induction false} AcquiredPartition(s: Store, used: seq<nat>, s': Store, b: nat)
    requires Partition(s, used) && SameItems(s, s') && Acquires(s.blocks, s.pool, s'.blocks, s'.pool, b)
    ensures b !in used && Partition(s', used + [b])
  {
    var used' := used + [b];
    forall c | 0 <= c < |s'.blocks| ensures (c in s'.pool <==> c !in used') && |s'.blocks[c].cells| == BLOCK_SIZE {
      assert c in used' <==> c in used || c == b;
    }
  }

  lemma {:induction false} AcquiredItems(s: Store, used: seq<nat>, s': Store, b: nat)
    requires s.homes <= used && |s.homes| == Hi(s) - Lo(s)
    requires Partition(s, used) && SameItems(s, s') && Acquires(s.blocks, s.pool, s'.blocks, s'.pool, b)
    requires forall j :: s.popped <= j < Tail(s) ==> Item(s, j)
    requires forall i :: 0 <= i < |used| ==> Completed(s, used, i)
    requires s.popped % BLOCK_SIZE != 0 ==> used != []
    ensures forall j :: s'.popped <= j < Tail(s') ==> Item(s', j)
    ensures forall i :: 0 <= i < |used + [b]| ==> Completed(s', used + [b], i)
  {
    var used' := used + [b];
    AcquiredPartition(s, used, s', b);
    forall j | s'.popped <= j < Tail(s') ensures Item(s', j) {
      assert Item(s, j);
      assert s.homes[j / BLOCK_SIZE - Lo(s)] == used[j / BLOCK_SIZE - Lo(s)];
    }
    forall i | 0 <= i < |used'| ensures Completed(s', used', i) {
      if i < |used| {
        assert Completed(s, used, i);
      }
    }
  }

  /** An allocated block: key, tail, block and entry value are in. */
  lemma {:induction false} AcquireKeeps(s: Store, extra: seq<nat>, s': Store, b: nat)
    requires Core(s, extra) && s.ix.ring != [] && |s.homes + extra| < |s.ix.ring|
    requires (Hi(s) + |extra| + 1) * BLOCK_SIZE - s.popped < HALF
    requires SameItems(s, s') && Acquires(s.blocks, s.pool, s'.blocks, s'.pool, b) && s'.origin == s.origin
    requires s.ix.ring[NextTail(s.ix)] < |s.ix.entries|
    requires s'.ix == SetValue(Insert(s.ix, Key(Hi(s) + |extra|)), NextTail(s.ix), At(b))
    ensures Core(s', extra + [b])
  {
    assert s'.homes + (extra + [b]) == (s.homes + extra) + [b];
    IndexAcquires(s, extra, s'.ix, b);
    AcquiredPartition(s, s.homes + extra, s', b);
    AcquiredItems(s, s.homes + extra, s', b);
  }

  lemma {:induction false} IndexAcquires(s: Store, extra: seq<nat>, ix': Index, b: nat)
    requires Core(s, extra) && s.ix.ring != [] && |s.homes + extra| < |s.ix.ring|
    requires s.ix.ring[NextTail(s.ix)] < |s.ix.entries|
    requires ix' == SetValue(Insert(s.ix, Key(Hi(s) + |extra|)), NextTail(s.ix), At(b))
    ensures Represents(ix', s.origin, Lo(s), Pointers(s.homes + (extra + [b])))
    ensures TailAt(ix', s.origin, Hi(s) + |extra|)
  {
    hide Item, Completed, Partition, Represents, TailAt, Key, NextTail;
    var vals := Pointers(s.homes + extra);
    IndexTakes(s.ix, s.origin, Lo(s), vals, b);
    assert vals + [At(b)] == Pointers(s.homes + (extra + [b]));
  }

  lemma {:induction false} IndexTakes(ix: Index, o: int, lo: nat, vals: seq<Ptr>, b: nat)
    requires Represents(ix, o, lo, vals) && TailAt(ix, o, lo + |vals| - 1) && |vals| < |ix.ring|
    ensures ix.ring[NextTail(ix)] < |ix.entries|
    ensures var ix' := SetValue(Insert(ix, Key(lo + |vals|)), NextTail(ix), At(b));
      Represents(ix', o, lo, vals + [At(b)]) && TailAt(ix', o, lo + |vals|)
  {
    hide Represents, Capacity;
    InsertKeeps(ix, o, lo, vals);
    var ix1 := Insert(ix, Key(lo + |vals|));
    var vals1 := vals + [EntryAt(ix, NextTail(ix)).value];
    SetValueKeeps(ix1, o, lo, vals1, |vals|, At(b));
    assert vals1[|vals| := At(b)] == vals + [At(b)];
  }

  lemma {:induction false} IndexTakesBack(ix: Index, o: int, lo: nat, vals: seq<Ptr>)
    requires Represents(ix, o, lo, vals) && TailAt(ix, o, lo + |vals| - 1) && |vals| < |ix.ring|
    ensures ix.ring[NextTail(ix)] < |ix.entries|
    ensures var ix' := SetValue(Rewind(Insert(ix, Key(lo + |vals|))), NextTail(ix), Null);
      Represents(ix', o, lo, vals) && TailAt(ix', o, lo + |vals| - 1)
  {
    hide Represents, Capacity;
    var hi := lo + |vals|;
    InsertKeeps(ix, o, lo, vals);
    var ix1 := Insert(ix, Key(hi));
    var vals1 := vals + [EntryAt(ix, NextTail(ix)).value];
    TailMoves(ix1, o, hi);
    RewindKeeps(ix1, o, lo, vals1);
    SetValueKeeps(Rewind(ix1), o, lo, vals1, |vals|, Null);
    DropEnd(SetValue(Rewind(ix1), NextTail(ix), Null), o, lo, vals1[|vals| := Null], |vals|);
    assert vals1[|vals| := Null][..|vals|] == vals;
  }

  /** The failed block allocation: its entry is taken back. */
  lemma {:induction false} TakeBackKeeps(s: Store, extra: seq<nat>)
    requires Core(s, extra) && s.ix.ring != [] && |s.homes + extra| < |s.ix.ring|
    ensures s.ix.ring[NextTail(s.ix)] < |s.ix.entries|
    ensures var ix' := SetValue(Rewind(Insert(s.ix, Key(Hi(s) + |extra|))), NextTail(s.ix), Null);
      Core(s.(ix := ix'), extra)
  {
    IndexTakesBack(s.ix, s.origin, Lo(s), Pointers(s.homes + extra));
    var ix' := SetValue(Rewind(Insert(s.ix, Key(Hi(s) + |extra|))), NextTail(s.ix), Null);
    OnlyIndex(s, extra, ix', s.origin);
  }

  /** Nothing but the index changes, and the index still stands for the same blocks. */
  lemma {:induction false} OnlyIndex(s: Store, extra: seq<nat>, ix': Index, o': int)
    requires Core(s, extra) && s.ix.ring != [] && ix'.ring != []
    requires Represents(ix', o', Lo(s), Pointers(s.homes + extra)) && TailAt(ix', o', Hi(s) + |extra| - 1)
    ensures Core(s.(ix := ix', origin := o'), extra)
  {
    var s' := s.(ix := ix', origin := o');
    forall j | s'.popped <= j < Tail(s') ensures Item(s', j) {
      assert Item(s, j);
    }
    forall i | 0 <= i < |s.homes + extra| ensures Completed(s', s.homes + extra, i) {
      assert Completed(s, s.homes + extra, i);
    }
  }

  lemma {:induction false} BlockFits(s: Store, extra: seq<nat>)
    requires Core(s, extra)
    ensures s.popped < (Hi(s) + |extra|) * BLOCK_SIZE + BLOCK_SIZE < s.popped + WORD
    ensures s.ix.ring != [] ==> Shape(s.ix)
  {
  }

  lemma {:induction false} WordSlot(x: nat)
    ensures ToWord(x) % BLOCK_SIZE == x % BLOCK_SIZE
  {
  }

  lemma {:induction false} WriteTarget(s: Store, extra: seq<nat>, slot: nat)
    requires Core(s, extra) && Tail(s) <= slot < (Hi(s) + |extra|) * BLOCK_SIZE
    ensures var used := s.homes + extra; var i := slot / BLOCK_SIZE - Lo(s);
      0 <= i < |used| && used[i] < |s.blocks| && |s.blocks[used[i]].cells| == BLOCK_SIZE
  {
  }

  /** A slot other than the one written keeps what it holds. */
  lemma {:induction false} WriteSpares(s: Store, extra: seq<nat>, slot: nat, v: Value, j: nat, w: Value)
    requires Partition(s, s.homes + extra) && 0 <= slot / BLOCK_SIZE - Lo(s) < |s.homes + extra|
    requires j != slot && Holds(s, s.homes + extra, j, w)
    ensures Holds(Written(s, extra, slot, v), s.homes + extra, j, w)
  {
  }

  /** Writing a slot behind the items: the slot holds the value, everything else is as before. */
  lemma {:induction false} WriteKeeps(s: Store, extra: seq<nat>, slot: nat, v: Value)
    requires Core(s, extra) && Tail(s) <= slot < (Hi(s) + |extra|) * BLOCK_SIZE
    ensures var used := s.homes + extra; var i := slot / BLOCK_SIZE - Lo(s);
      0 <= i < |used| && used[i] < |s.blocks| && |s.blocks[used[i]].cells| == BLOCK_SIZE
    ensures var s' := Written(s, extra, slot, v);
      && Core(s', extra) && Holds(s', s.homes + extra, slot, v)
      && (forall j, w :: 0 <= j && j != slot && Holds(s, s.homes + extra, j, w) ==> Holds(s', s.homes + extra, j, w))
  {
    hide Represents, TailAt;
    WriteTarget(s, extra, slot);
    var used := s.homes + extra;
    var s' := Written(s, extra, slot, v);
    forall j, w | 0 <= j && j != slot && Holds(s, used, j, w) ensures Holds(s', used, j, w) {
      WriteSpares(s, extra, slot, v, j, w);
    }
    forall j | s.popped <= j < Tail(s) ensures Item(s', j) {
      assert Item(s, j);
      assert s.homes[j / BLOCK_SIZE - Lo(s)] == used[j / BLOCK_SIZE - Lo(s)];
      assert Holds(s, used, j, s.contents[j - s.popped]);
    }
    forall i | 0 <= i < |used| ensures Completed(s', used, i) {
      assert Completed(s, used, i);
    }
  }

  function Written(s: Store, extra: seq<nat>, slot: nat, v: Value): Store
    requires 0 <= slot / BLOCK_SIZE - Lo(s) < |s.homes + extra|
    requires var b := (s.homes + extra)[slot / BLOCK_SIZE - Lo(s)]; b < |s.blocks| && |s.blocks[b].cells| == BLOCK_SIZE
  {
    var b := (s.homes + extra)[slot / BLOCK_SIZE - Lo(s)];
    s.(blocks := s.blocks[b := s.blocks[b].(cells := s.blocks[b].cells[slot % BLOCK_SIZE := Built(v)])])
  }

  /** Publishing what has been written, with exactly the blocks it needs. */
  lemma {:induction false} PublishKeeps(s: Store, extra: seq<nat>, items: seq<Value>)
    requires Core(s, extra) && Hi(s) + |extra| == BlocksFor(Tail(s) + |items|)
    requires s.ix.ring == [] ==> items == []
    requires forall j :: Tail(s) <= j < Tail(s) + |items| ==> Promised(s, extra, items, j)
    ensures Core(s.(contents := s.contents + items, homes := s.homes + extra), [])
  {
    var s' := s.(contents := s.contents + items, homes := s.homes + extra);
    assert s'.homes + [] == s.homes + extra;
    forall j | s'.popped <= j < Tail(s') ensures Item(s', j) {
      if j < Tail(s) {
        assert Item(s, j);
        assert s.homes[j / BLOCK_SIZE - Lo(s)] == s'.homes[j / BLOCK_SIZE - Lo(s)];
      } else {
        assert Promised(s, extra, items, j);
      }
    }
    forall i | 0 <= i < |s'.homes| ensures Completed(s', s'.homes, i) {
      assert Completed(s, s.homes + extra, i);
    }
  }

  /** The chain pointers are nobody's business but the bulk enqueue's. */
  lemma {:induction false} LinkKeeps(s: Store, extra: seq<nat>, b: nat, next: Ptr)
    requires Core(s, extra) && b < |s.blocks|
    ensures Core(s.(blocks := s.blocks[b := s.blocks[b].(next := next)]), extra)
  {
    var s' := s.(blocks := s.blocks[b := s.blocks[b].(next := next)]);
    forall j | s'.popped <= j < Tail(s') ensures Item(s', j) {
      assert Item(s, j);
    }
    forall i | 0 <= i < |s.homes + extra| ensures Completed(s', s.homes + extra, i) {
      assert Completed(s, s.homes + extra, i);
    }
  }

  /** The i-th block of a chain points to the next one, the last one to nothing. */
  predicate Chained(bs: seq<Block>, chain: seq<nat>, i: nat) {
    && i < |chain| && chain[i] < |bs|
    && bs[chain[i]].next == (if i + 1 < |chain| then At(chain[i + 1]) else Null)
  }

  function FirstOf(chain: seq<nat>): Ptr {
    if chain == [] then Null else At(chain[0])
  }

  function LastOf(chain: seq<nat>, otherwise: Ptr): Ptr {
    if chain == [] then otherwise else At(chain[|chain| - 1])
  }

  /**
   The state of a bulk enqueue that has allocated `extra`: the blocks hang in one chain,
   behind the block with room for the next item if there is one.
   */
  ghost predicate ChainOk(bs: seq<Block>, tail: nat, homes: seq<nat>, extra: seq<nat>, start: Ptr) {
    && (forall i :: 0 <= i < |extra| ==> Chained(bs, extra, i))
    && (tail % BLOCK_SIZE != 0 ==>
          && homes != [] && start == At(homes[|homes| - 1]) && homes[|homes| - 1] < |bs|
          && (extra != [] ==> bs[homes[|homes| - 1]].next == At(extra[0])))
  }

  /** One more block, linked behind the last one. */
  lemma {:induction false} ChainGrows(bs: seq<Block>, pool: set<nat>, bs1: seq<Block>, pool1: set<nat>,
                                      tail: nat, homes: seq<nat>, extra: seq<nat>, start: Ptr, b: nat)
    requires ChainOk(bs, tail, homes, extra, start)
    requires Acquires(bs, pool, bs1, pool1, b) && bs1[b].next == Null && b !in homes + extra
    requires forall i :: 0 <= i < |extra| ==> extra[i] < |bs|
    requires forall i, j :: 0 <= i < j < |homes + extra| ==> (homes + extra)[i] != (homes + extra)[j]
    ensures
      var links := tail % BLOCK_SIZE != 0 || extra != [];
      && (links ==> LastOf(extra, start).At? && LastOf(extra, start).block < |bs1|)
      && ChainOk(if links then var t := LastOf(extra, start).block; bs1[t := bs1[t].(next := At(b))] else bs1,
                 tail, homes, extra + [b], start)
  {
    var used := homes + extra;
    forall i | 0 <= i < |extra| ensures extra[i] != b && extra[i] == used[|homes| + i] {
      assert used[|homes| + i] in used;
    }
    if homes != [] {
      assert homes[|homes| - 1] == used[|homes| - 1];
      assert used[|homes| - 1] in used;
    }
    var links := tail % BLOCK_SIZE != 0 || extra != [];
    if links {
      var t := LastOf(extra, start).block;
      var bs' := bs1[t := bs1[t].(next := At(b))];
      forall i | 0 <= i < |extra + [b]| ensures Chained(bs', extra + [b], i) {
        if i < |extra| {
          assert Chained(bs, extra, i);
          if i < |extra| - 1 {
            assert used[|homes| + i] != used[|homes| + |extra| - 1];
          }
        }
      }
      if tail % BLOCK_SIZE != 0 && extra != [] {
        assert used[|homes| - 1] != used[|homes| + |extra| - 1];
      }
    }
  }

  // ---------------------------------------------------------------- consuming

  /** The lookup for the head finds the first block. */
  lemma {:induction false} FrontFinds(s: Store)
    requires Core(s, []) && s.contents != []
    ensures s.ix.ring != [] && s.ix.tail < |s.ix.ring| && s.ix.ring[s.ix.tail] < |s.ix.entries| && s.homes != []
    ensures Lookup(s.ix, ToWord(s.popped)) == Slot(s.ix, s.origin, Lo(s))
    ensures s.ix.ring[Slot(s.ix, s.origin, Lo(s))] < |s.ix.entries|
    ensures EntryAt(s.ix, Slot(s.ix, s.origin, Lo(s))).value == At(s.homes[0])
  {
    hide Item, Completed, Partition;
    var vals := Pointers(s.homes + []);
    assert Entered(s.ix, s.origin, Lo(s), vals, Hi(s) - 1);
    assert Entered(s.ix, s.origin, Lo(s), vals, Lo(s));
    LookupFinds(s.ix, s.origin, Hi(s) - 1, s.popped);
  }

  /** `n` items of the first block have been moved out and counted. */
  predicate Consumes(s: Store, b: Block, b': Block, n: nat) {
    && |b.cells| == |b'.cells| == BLOCK_SIZE && b'.completed == b.completed + n
    && (forall c :: s.popped % BLOCK_SIZE + n <= c < BLOCK_SIZE ==> b'.cells[c] == b.cells[c])
  }

  /** The structure after that; a completed block leaves the index and goes back to the pool. */
  function Consumed(s: Store, b': Block, n: nat): Store
    requires n <= |s.contents| && s.homes != [] && s.homes[0] < |s.blocks| && s.ix.ring != []
    requires s.ix.ring[Slot(s.ix, s.origin, Lo(s))] < |s.ix.entries|
  {
    var b := s.homes[0];
    var s1 := s.(blocks := s.blocks[b := b'], popped := s.popped + n, contents := s.contents[n..]);
    if b'.completed == BLOCK_SIZE then
      s1.(ix := SetValue(s.ix, Slot(s.ix, s.origin, Lo(s)), Null), pool := s.pool + {b}, homes := s.homes[1..])
    else s1
  }

  lemma {:induction false} ConsumedItems(s: Store, b': Block, n: nat)
    requires Core(s, []) && s.contents != [] && n <= |s.contents| && s.popped % BLOCK_SIZE + n <= BLOCK_SIZE
    requires s.homes != [] && s.homes[0] < |s.blocks| && s.ix.ring != []
    requires s.ix.ring[Slot(s.ix, s.origin, Lo(s))] < |s.ix.entries|
    requires Consumes(s, s.blocks[s.homes[0]], b', n)
    ensures var s' := Consumed(s, b', n);
      forall j :: s'.popped <= j < Tail(s') ==> Item(s', j)
  {
    hide Represents, TailAt;
    assert s.homes + [] == s.homes;
    assert Completed(s, s.homes, 0);
    var s' := Consumed(s, b', n);
    forall j | s'.popped <= j < Tail(s') ensures Item(s', j) {
      assert Item(s, j);
      var i := j / BLOCK_SIZE - Lo(s);
      assert i > 0 ==> s.homes[i] != s.homes[0];
    }
  }

  lemma {:induction false} ConsumedBlocks(s: Store, b': Block, n: nat)
    requires Core(s, []) && s.contents != [] && n <= |s.contents| && s.popped % BLOCK_SIZE + n <= BLOCK_SIZE
    requires s.homes != [] && s.homes[0] < |s.blocks| && s.ix.ring != []
    requires s.ix.ring[Slot(s.ix, s.origin, Lo(s))] < |s.ix.entries|
    requires Consumes(s, s.blocks[s.homes[0]], b', n)
    ensures var s' := Consumed(s, b', n);
      && Partition(s', s'.homes)
      && |s'.homes| == Hi(s') - Lo(s')
      && (forall i :: 0 <= i < |s'.homes| ==> Completed(s', s'.homes, i))
  {
    hide Represents, TailAt, Item, Completed;
    assert s.homes + [] == s.homes;
    var s' := Consumed(s, b', n);
    ConsumedCounts(s, b', n);
    forall c | 0 <= c < |s'.blocks| ensures c in s'.pool <==> c !in s'.homes {
      assert c in s.homes <==> c == s.homes[0] || c in s.homes[1..];
      assert s.homes[0] !in s.homes[1..];
    }
  }

  lemma {:induction false} ConsumedCounts(s: Store, b': Block, n: nat)
    requires Core(s, []) && s.contents != [] && n <= |s.contents| && s.popped % BLOCK_SIZE + n <= BLOCK_SIZE
    requires s.homes != [] && s.homes[0] < |s.blocks| && s.ix.ring != []
    requires s.ix.ring[Slot(s.ix, s.origin, Lo(s))] < |s.ix.entries|
    requires Consumes(s, s.blocks[s.homes[0]], b', n)
    ensures var s' := Consumed(s, b', n);
      && |s'.homes| == Hi(s') - Lo(s')
      && b'.completed == s.popped % BLOCK_SIZE + n
      && (forall i :: 0 <= i < |s'.homes| ==> Completed(s', s'.homes, i))
  {
    hide Represents, TailAt, Item;
    assert s.homes + [] == s.homes;
    assert Completed(s, s.homes, 0);
    var s' := Consumed(s, b', n);
    forall i | 0 <= i < |s'.homes| ensures Completed(s', s'.homes, i) {
      var k := if b'.completed == BLOCK_SIZE then i + 1 else i;
      assert Completed(s, s.homes, k);
      assert k > 0 ==> s.homes[k] != s.homes[0];
    }
  }

  lemma {:induction false} ConsumedIndex(s: Store)
    requires Core(s, []) && s.contents != []
    ensures s.homes != [] && s.ix.ring != [] && s.ix.ring[Slot(s.ix, s.origin, Lo(s))] < |s.ix.entries|
    ensures var ix' := SetValue(s.ix, Slot(s.ix, s.origin, Lo(s)), Null);
      Represents(ix', s.origin, Lo(s) + 1, Pointers(s.homes[1..])) && TailAt(ix', s.origin, Hi(s) - 1)
  {
    assert s.homes + [] == s.homes;
    var vals := Pointers(s.homes);
    SetValueKeeps(s.ix, s.origin, Lo(s), vals, 0, Null);
    var ix' := SetValue(s.ix, Slot(s.ix, s.origin, Lo(s)), Null);
    DropStart(ix', s.origin, Lo(s), vals[0 := Null]);
    assert vals[0 := Null][1..] == Pointers(s.homes[1..]);
  }

  /** Consuming up to the end of the first block keeps everything else in place. */
  lemma {:induction false} ConsumeKeeps(s: Store, b': Block, n: nat)
    requires Core(s, []) && s.contents != [] && n <= |s.contents| && s.popped % BLOCK_SIZE + n <= BLOCK_SIZE
    requires s.homes != [] && s.homes[0] < |s.blocks| && s.ix.ring != []
    requires s.ix.ring[Slot(s.ix, s.origin, Lo(s))] < |s.ix.entries|
    requires Consumes(s, s.blocks[s.homes[0]], b', n)
    ensures Core(Consumed(s, b', n), [])
  {
    hide Represents, TailAt, Item, Partition;
    var s' := Consumed(s, b', n);
    assert s.homes + [] == s.homes && s'.homes + [] == s'.homes;
    assert Completed(s, s.homes, 0);
    ConsumedItems(s, b', n);
    ConsumedBlocks(s, b', n);
    ConsumedIndex(s);
  }

  // ---------------------------------------------------------------- the rollback

  /** The ring while `i` of the entries of `extra` have been cleared. */
  function RolledBack(homes: seq<nat>, extra: seq<nat>, i: nat): (ps: seq<Ptr>)
    requires i <= |extra|
    ensures |ps| == |homes| + |extra|
    ensures forall k :: 0 <= k < |ps| ==>
      ps[k] == (if k < |homes| then At(homes[k]) else if k < |homes| + i then Null else At(extra[k - |homes|]))
  {
    Pointers(homes) + seq(i, _ => Null) + Pointers(extra[i..])
  }

  /** The rollback finds each entry although the tail it looks from has been moved back already. */
  lemma {:induction false} RollFinds(ix: Index, o: int, lo: nat, homes: seq<nat>, extra: seq<nat>, i: nat)
    requires i < |extra| && Represents(ix, o, lo, RolledBack(homes, extra, i))
    requires TailAt(ix, o, lo + |homes| + |extra| - 1 - i) && (|homes| + |extra|) * BLOCK_SIZE < HALF + BLOCK_SIZE
    ensures Lookup(ix, Key(lo + |homes| + i)) == Slot(ix, o, lo + |homes| + i)
  {
    hide RolledBack;
    var m, t := lo + |homes| + i, lo + |homes| + |extra| - 1 - i;
    assert Entered(ix, o, lo, RolledBack(homes, extra, i), t);
    assert m * BLOCK_SIZE / BLOCK_SIZE == m;
    LookupFinds(ix, o, t, m * BLOCK_SIZE);
  }

  lemma {:induction false} RollStep(ix: Index, o: int, lo: nat, homes: seq<nat>, extra: seq<nat>, i: nat)
    requires i < |extra| && Represents(ix, o, lo, RolledBack(homes, extra, i))
    requires TailAt(ix, o, lo + |homes| + |extra| - 1 - i) && (|homes| + |extra|) * BLOCK_SIZE < HALF + BLOCK_SIZE
    ensures var pos := Lookup(ix, Key(lo + |homes| + i));
      && pos < |ix.ring| && ix.ring[pos] < |ix.entries|
      && Represents(Rewind(SetValue(ix, pos, Null)), o, lo, RolledBack(homes, extra, i + 1))
      && TailAt(Rewind(SetValue(ix, pos, Null)), o, lo + |homes| + |extra| - 2 - i)
  {
    hide Represents, Lookup, Capacity;
    var vals := RolledBack(homes, extra, i);
    var m := lo + |homes| + i;
    RollFinds(ix, o, lo, homes, extra, i);
    SetValueKeeps(ix, o, lo, vals, |homes| + i, Null);
    var ix1 := SetValue(ix, Slot(ix, o, m), Null);
    assert vals[|homes| + i := Null] == RolledBack(homes, extra, i + 1);
    RewindKeeps(ix1, o, lo, RolledBack(homes, extra, i + 1));
    TailMoves(ix1, o, lo + |homes| + |extra| - 1 - i);
  }

  lemma {:induction false} RollEnd(ix: Index, o: int, lo: nat, homes: seq<nat>, extra: seq<nat>)
    requires Represents(ix, o, lo, RolledBack(homes, extra, |extra|))
    ensures Represents(ix, o, lo, Pointers(homes))
  {
    var vals := RolledBack(homes, extra, |extra|);
    DropEnd(ix, o, lo, vals, |homes|);
    assert vals[..|homes|] == Pointers(homes);
  }

  /** With the entries cleared, the tail moved back and the blocks in the pool everything is as before. */
  lemma {:induction false} RollbackKeeps(s: Store, extra: seq<nat>, ix': Index, pool': set<nat>)
    requires Core(s, extra) && s.ix.ring != [] && ix'.ring != []
    requires Represents(ix', s.origin, Lo(s), Pointers(s.homes)) && TailAt(ix', s.origin, Hi(s) - 1)
    requires pool' == s.pool + (set b | b in extra)
    ensures Core(s.(ix := ix', pool := pool'), [])
  {
    var s' := s.(ix := ix', pool := pool');
    var used := s.homes + extra;
    assert s.homes + [] == s.homes;
    ReturnedPartition(s, extra, pool');
    forall j | s'.popped <= j < Tail(s') ensures Item(s', j) {
      assert Item(s, j);
    }
    forall i | 0 <= i < |s.homes| ensures Completed(s', s.homes, i) {
      assert Completed(s, used, i);
    }
  }

  lemma {:induction false} ReturnedPartition(s: Store, extra: seq<nat>, pool': set<nat>)
    requires Partition(s, s.homes + extra) && pool' == s.pool + (set b | b in extra)
    ensures Partition(s.(pool := pool'), s.homes)
  {
    var used := s.homes + extra;
    forall i | 0 <= i < |s.homes| ensures s.homes[i] == used[i] && s.homes[i] !in extra {
      assert used[i] == s.homes[i];
      forall k | 0 <= k < |extra| ensures extra[k] != s.homes[i] {
        assert used[|s.homes| + k] == extra[k];
      }
    }
    forall b | 0 <= b < |s.blocks| ensures (b in pool' <==> b !in s.homes) {
      assert b in used <==> b in s.homes || b in extra;
    }
    forall b | b in extra ensures b < |s.blocks| {
      var k :| 0 <= k < |extra| && extra[k] == b;
      assert used[|s.homes| + k] == extra[k];
    }
  }

  predicate Promised(s: Store, extra: seq<nat>, items: seq<Value>, j: nat) {
    Tail(s) <= j < Tail(s) + |items| && Holds(s, s.homes + extra, j, items[j - Tail(s)])
  }

  /** The `full` test: the block would end half a turn or more behind the head. */
  lemma {:induction false} FullTest(popped: nat, next: nat)
    requires popped < next * BLOCK_SIZE + BLOCK_SIZE < popped + WORD
    ensures CircularLess(ToWord(popped), ToWord(Key(next) + BLOCK_SIZE)) <==> next * BLOCK_SIZE + BLOCK_SIZE - popped < HALF
  {
    var end := next * BLOCK_SIZE + BLOCK_SIZE;
    WordAdd(next * BLOCK_SIZE, BLOCK_SIZE);
    if Window(popped, end) {
      CircularIsTrueOrder(popped, end);
    } else {
      CircularFailsOutside(popped, end);
    }
  }

  /** The ring the next block goes into: this one if it has room behind its tail, or the next generation. */
  function RoomFor(ix: Index, memory: Memory): Option<Index>
    requires ix.ring != [] ==> ix.ring[NextTail(ix)] < |ix.entries|
  {
    if ix.ring == [] then None
    else if Vacant(EntryAt(ix, NextTail(ix))) then Some(ix)
    else if memory.granted && 2 * |ix.ring| < WORD then Some(NextRing(ix, memory))
    else None
  }

  /** A new ring places block numbers anew. */
  function RoomOrigin(s: Store, extra: seq<nat>, memory: Memory): int
    requires s.ix.ring != [] ==> s.ix.ring[NextTail(s.ix)] < |s.ix.entries|
  {
    if RoomFor(s.ix, memory) == Some(s.ix) then s.origin else |s.ix.ring| - Lo(s) - |s.homes + extra|
  }

  /** The next generation of the index; the first one has only new entries. */
  function NextRing(ix: Index, memory: Memory): Index {
    if ix.ring == [] then First(IMPLICIT_INITIAL_INDEX_SIZE, seq(IMPLICIT_INITIAL_INDEX_SIZE, memory.garbage))
    else Grow(ix, seq(|ix.ring|, memory.garbage))
  }

  /** The room found is real: no block is lost, and one more fits. */
  lemma {:induction false} RoomKeeps(s: Store, extra: seq<nat>, memory: Memory)
    requires Core(s, extra)
    ensures s.ix.ring != [] ==> s.ix.ring[NextTail(s.ix)] < |s.ix.entries|
    ensures match RoomFor(s.ix, memory)
            case None => s.ix.ring == [] || !memory.granted
            case Some(room) =>
              && room.ring != [] && Shape(room) && room.ring[NextTail(room)] < |room.entries|
              && Core(s.(ix := room, origin := RoomOrigin(s, extra, memory)), extra)
              && |s.homes + extra| < |room.ring|
  {
    if s.ix.ring != [] {
      VacantUnlessFull(s.ix, s.origin, Lo(s), Pointers(s.homes + extra));
      if !Vacant(EntryAt(s.ix, NextTail(s.ix))) && memory.granted && 2 * |s.ix.ring| < WORD {
        GrownRoom(s, extra, memory);
      } else if Vacant(EntryAt(s.ix, NextTail(s.ix))) {
        assert s.(ix := s.ix, origin := s.origin) == s;
      }
    }
  }

  lemma {:induction false} GrownRoom(s: Store, extra: seq<nat>, memory: Memory)
    requires Core(s, extra) && s.ix.ring != [] && 2 * |s.ix.ring| < WORD
    ensures NextRing(s.ix, memory) != s.ix
    ensures |s.homes + extra| < |NextRing(s.ix, memory).ring|
    ensures Core(s.(ix := NextRing(s.ix, memory), origin := |s.ix.ring| - Lo(s) - |s.homes + extra|), extra)
  {
    hide Item, Completed, Partition, Shape, Free, Entered, Slot;
    var vals := Pointers(s.homes + extra);
    var garbage := seq(|s.ix.ring|, memory.garbage);
    GrowKeeps(s.ix, s.origin, Lo(s), vals, garbage);
    assert |Grow(s.ix, garbage).ring| == 2 * |s.ix.ring|;
    OnlyIndex(s, extra, Grow(s.ix, garbage), |s.ix.ring| - Lo(s) - |vals|);
  }

  // ---------------------------------------------------------------- once round the ring

  /** The place `i` steps behind the tail. */
  function Round(tail: nat, i: nat, n: nat): (r: nat)
    requires n > 0
    ensures r < n
  {
    (tail + i) % n
  }

  lemma {:induction false} RoundStep(tail: nat, i: nat, n: nat)
    requires Capacity(n) && n > 0
    ensures Mask(Round(tail, i, n) + 1, n) == Round(tail, i + 1, n) == Mask(tail + 1 + i, n)
  {
    hide Capacity, Mask;
    MaskIsRemainder(Round(tail, i, n) + 1, n);
    MaskIsRemainder(tail + 1 + i, n);
    ModAdd(tail + i, 1, n);
    assert tail + i + 1 == tail + (i + 1) == tail + 1 + i;
  }

  /** The first step that comes back to the tail is the last of the ring. */
  lemma {:induction false} RoundEnds(tail: nat, i: nat, n: nat)
    requires tail < n && i <= n
    ensures Round(tail, i, n) == tail <==> i == 0 || i == n
  {
    ModUnique(tail, n, 0, tail);
    ModShift(tail, 1, n);
    if 0 < i < n {
      ModDistinct(tail, tail + i, n);
    }
  }

  // ---------------------------------------------------------------- the producer

  class Producer {
    var headIndex: nat
    var tailIndex: nat
    var tailBlock: Ptr
    var blockIndex: Index
    var nextBlockIndexCapacity: nat
    var blocks: seq<Block>
    var pool: set<nat>
    ghost var popped: nat
    ghost var contents: seq<Value>
    ghost var origin: int
    ghost var homes: seq<nat>

    ghost function View(): Store
      reads this`blockIndex, this`origin, this`blocks, this`pool, this`popped, this`contents, this`homes
    {
      Store(blockIndex, origin, blocks, pool, popped, contents, homes)
    }

    /** The block with room for the next item is the tail block; a tail block that is full may be anybody's. */
    ghost predicate Valid()
      reads this
    {
      && Core(View(), [])
      && CapacityOk()
      && headIndex == ToWord(popped) && tailIndex == ToWord(popped + |contents|)
      && ((popped + |contents|) % BLOCK_SIZE != 0 ==> homes != [] && tailBlock == At(homes[|homes| - 1]))
    }

    /** A null index has no ring and no entries. */
    ghost predicate CapacityOk()
      reads this
    {
      && nextBlockIndexCapacity == (if blockIndex.ring == [] then IMPLICIT_INITIAL_INDEX_SIZE else 2 * |blockIndex.ring|)
      && (blockIndex.ring == [] ==> blockIndex.entries == [])
    }

    /** A producer over a pool of `initial` blocks; the first index may not be granted. */
    constructor (initial: nat, memory: Memory)
      ensures Valid() && contents == [] && popped == 0 && pool == BlocksUpTo(initial)
      ensures blockIndex.ring == [] <==> !memory.granted
    {
      headIndex, tailIndex, tailBlock := 0, 0, Null;
      blockIndex, nextBlockIndexCapacity := Index([], 0, []), IMPLICIT_INITIAL_INDEX_SIZE;
      blocks := seq(initial, _ => NewBlock());
      pool := BlocksUpTo(initial);
      popped, contents, origin, homes := 0, [], 0, [];
      new;
      InitialCapacity();
      FirstRepresents(IMPLICIT_INITIAL_INDEX_SIZE, seq(IMPLICIT_INITIAL_INDEX_SIZE, memory.garbage));
      var granted := NewBlockIndex(memory);
      assert Pointers([] + []) == [];
    }

    /** Copies the old ring, from the entry behind its tail to the one at its tail, to the start of the new one. */
    method CopyRing(index: array<nat>)
      requires Shape(blockIndex) && index.Length >= |blockIndex.ring|
      modifies index
      ensures forall k :: 0 <= k < |blockIndex.ring| ==> index[k] == Grown(blockIndex, k)
    {
      var n, prevTail := |blockIndex.ring|, blockIndex.tail;
      var prevPos, i := prevTail, 0;
      RoundEnds(prevTail, 0, n);
      hide Round, Mask;
      while i == 0 || prevPos != prevTail
        invariant i <= n && prevPos == Round(prevTail, i, n)
        invariant forall k :: 0 <= k < i ==> index[k] == Grown(blockIndex, k)
        decreases n - i
      {
        RoundEnds(prevTail, i, n);
        RoundStep(prevTail, i, n);
        prevPos := Mask(prevPos + 1, n);
        index[i] := blockIndex.ring[prevPos];
        i := i + 1;
      }
      RoundEnds(prevTail, i, n);
    }

    /** A new generation of the index: the old ring from behind its tail, then as many new entries. */
    method NewBlockIndex(memory: Memory) returns (ok: bool)
      requires CapacityOk() && (blockIndex.ring != [] ==> Shape(blockIndex))
      modifies this`blockIndex, this`nextBlockIndexCapacity
      ensures ok <==> memory.granted && old(nextBlockIndexCapacity) < WORD
      ensures blockIndex == (if ok then NextRing(old(blockIndex), memory) else old(blockIndex))
      ensures CapacityOk()
    {
      ok := memory.granted && nextBlockIndexCapacity < WORD;
      if !ok {
        return;
      }
      var prevCapacity := |blockIndex.ring|;
      var entryCount := if prevCapacity == 0 then nextBlockIndexCapacity else prevCapacity;
      var index := new nat[nextBlockIndexCapacity];
      if prevCapacity > 0 {
        CopyRing(index);
      }
      forall k | 0 <= k < entryCount {
        index[prevCapacity + k] := |blockIndex.entries| + k;
      }
      ghost var was := blockIndex;
      assert index[..] == NextRing(was, memory).ring;
      blockIndex := Index(index[..], Mask(prevCapacity - 1, nextBlockIndexCapacity),
                          blockIndex.entries + NewEntries(seq(entryCount, memory.garbage)));
      nextBlockIndexCapacity := 2 * nextBlockIndexCapacity;
    }

    /** Finds room behind the tail of the ring, in a bigger ring if need be, and enters the base there. */
    method InsertBlockIndexEntry(key: nat, memory: Memory) returns (ok: bool, pos: nat)
      requires CapacityOk() && (blockIndex.ring != [] ==> Shape(blockIndex))
      requires RoomFor(blockIndex, memory).Some? ==> Shape(RoomFor(blockIndex, memory).value)
      modifies this`blockIndex, this`nextBlockIndexCapacity
      ensures CapacityOk()
      ensures ok <==> RoomFor(old(blockIndex), memory).Some?
      ensures ok ==> blockIndex == Insert(RoomFor(old(blockIndex), memory).value, key)
      ensures ok ==> pos == NextTail(RoomFor(old(blockIndex), memory).value)
      ensures !ok ==> blockIndex == old(blockIndex)
    {
      ok, pos := false, 0;
      if blockIndex.ring == [] {
        return;
      }
      pos := Mask(blockIndex.tail + 1, |blockIndex.ring|);
      if !Vacant(EntryAt(blockIndex, pos)) {
        var grown := NewBlockIndex(memory);
        if !grown {
          return;
        }
        pos := Mask(blockIndex.tail + 1, |blockIndex.ring|);
      }
      var entry := blockIndex.ring[pos];
      blockIndex := blockIndex.(entries := blockIndex.entries[entry := blockIndex.entries[entry].(key := key)], tail := pos);
      ok := true;
    }

    method RewindBlockIndexTail()
      requires blockIndex.ring != []
      modifies this`blockIndex
      ensures blockIndex == Rewind(old(blockIndex))
    {
      blockIndex := blockIndex.(tail := Mask(blockIndex.tail - 1, |blockIndex.ring|));
    }

    /** Stores the block of an entry. */
    method StoreValue(pos: nat, v: Ptr)
      requires pos < |blockIndex.ring| && blockIndex.ring[pos] < |blockIndex.entries|
      modifies this`blockIndex
      ensures blockIndex == SetValue(old(blockIndex), pos, v)
    {
      var entry := blockIndex.ring[pos];
      blockIndex := blockIndex.(entries := blockIndex.entries[entry := blockIndex.entries[entry].(value := v)]);
    }

    /** `requisition_block`: a block of the pool, or a new one if the allocator has memory. */
    method RequisitionBlock(canAlloc: bool) returns (b: Ptr)
      modifies this`blocks, this`pool
      ensures b == Null <==> old(pool) == {} && !canAlloc
      ensures b == Null ==> blocks == old(blocks) && pool == old(pool)
      ensures b != Null ==> pool == old(pool) - {b.block} &&
                            (if old(pool) == {} then b == At(|old(blocks)|) && blocks == old(blocks) + [NewBlock()]
                             else b.block in old(pool) && blocks == old(blocks))
    {
      if pool != {} {
        var free :| free in pool;
        pool := pool - {free};
        return At(free);
      }
      if !canAlloc {
        return Null;
      }
      b := At(|blocks|);
      blocks := blocks + [NewBlock()];
      assert pool == pool - {b.block};
    }

    /**
     The base has just been entered in the ring of `roomy`, at `pos`. Gets a block and enters
     it there, or takes the base back.
     */
    method FillEntry(pos: nat, bulk: bool, canAlloc: bool, ghost roomy: Store, ghost extra: seq<nat>) returns (b: Ptr)
      requires Core(roomy, extra) && roomy.ix.ring != [] && |roomy.homes + extra| < |roomy.ix.ring|
      requires (Hi(roomy) + |extra| + 1) * BLOCK_SIZE - popped < HALF
      requires roomy.ix.ring[NextTail(roomy.ix)] < |roomy.ix.entries| && pos == NextTail(roomy.ix)
      requires View() == roomy.(ix := Insert(roomy.ix, Key(Hi(roomy) + |extra|)))
      modifies this`blockIndex, this`blocks, this`pool
      ensures b == Null ==> blocks == old(blocks) && pool == old(pool) && !canAlloc
      ensures blockIndex.ring == old(blockIndex).ring
      ensures b == Null ==> Core(View(), extra)
      ensures b.At? ==> Acquires(old(blocks), old(pool), blocks, pool, b.block) && (bulk ==> blocks[b.block].next == Null)
      ensures b.At? ==> Core(View(), extra + [b.block])
    {
      hide Represents, Vacant;
      ghost var base := Key(Hi(roomy) + |extra|);
      assert blockIndex.ring[pos] < |blockIndex.entries|;
      b := RequisitionBlock(canAlloc);
      if b == Null {
        TakeBackKeeps(roomy, extra);
        RewindBlockIndexTail();
        StoreValue(pos, Null);
        assert View() == roomy.(ix := SetValue(Rewind(Insert(roomy.ix, base)), pos, Null));
        return;
      }
      assert b.block < |blocks|;
      blocks := blocks[b.block := blocks[b.block].(completed := 0, next := if bulk then Null else blocks[b.block].next)];
      StoreValue(pos, b);
      AcquireKeeps(roomy, extra, View(), b.block);
    }

    /**
     What both kinds of enqueue do for each block they need: test for a full queue, enter the
     base in the index, get a block, enter it. When anything fails the entry is taken back.
     */
    method AcquireBlock(base: nat, bulk: bool, memory: Memory, canAlloc: bool, ghost extra: seq<nat>) returns (b: Ptr)
      requires Core(View(), extra) && CapacityOk() && headIndex == ToWord(popped)
      requires base == Key(Hi(View()) + |extra|)
      modifies this`blockIndex, this`nextBlockIndexCapacity, this`blocks, this`pool, this`origin
      ensures CapacityOk()
      ensures b.At? ==> Core(View(), extra + [b.block]) && Acquires(old(blocks), old(pool), blocks, pool, b.block)
      ensures b.At? && bulk ==> blocks[b.block].next == Null
      ensures b == Null ==> Core(View(), extra) && blocks == old(blocks) && pool == old(pool)
      ensures b == Null ==> Starved(extra, memory, canAlloc, old(blockIndex))
    {
      hide Core, Shape, Vacant, Acquires, BlocksFor, ToWord, CircularLess;
      ghost var before := View();
      BlockFits(before, extra);
      FullTest(popped, Hi(before) + |extra|);
      RoomKeeps(before, extra, memory);
      if !CircularLess(headIndex, ToWord(base + BLOCK_SIZE)) {
        return Null;
      }
      var inserted, pos := InsertBlockIndexEntry(base, memory);
      if !inserted {
        assert View() == before;
        return Null;
      }
      ghost var roomy := before.(ix := RoomFor(before.ix, memory).value, origin := RoomOrigin(before, extra, memory));
      origin := roomy.origin;
      b := FillEntry(pos, bulk, canAlloc, roomy, extra);
    }

    /** Writes the item into the slot at the tail and publishes it. */
    method AddItem(v: Value, ghost extra: seq<nat>)
      requires Ready(extra)
      modifies this`tailIndex, this`blocks, this`contents, this`homes
      ensures Core(View(), [])
      ensures contents == old(contents) + [v] && homes == old(homes) + extra && tailIndex == ToWord(popped + |contents|)
    {
      hide Core, BlocksFor, ToWord;
      ghost var tail := popped + |contents|;
      NextSlot(tail, popped);
      NextWord(tail);
      ghost var used := homes + extra;
      assert tail / BLOCK_SIZE - Lo(View()) == |used| - 1;
      WriteKeeps(View(), extra, tail, v);
      ghost var after := Written(View(), extra, tail, v);
      var t := tailBlock.block;
      blocks := blocks[t := blocks[t].(cells := blocks[t].cells[tailIndex % BLOCK_SIZE := Built(v)])];
      assert View() == after;
      PublishKeeps(after, extra, [v]);
      tailIndex := ToWord(tailIndex + 1);
      contents, homes := contents + [v], homes + extra;
    }

    /** Everything about the items, and the number of blocks one more item needs. */
    ghost predicate Ready(extra: seq<nat>)
      reads this
    {
      && Core(View(), extra) && tailIndex == ToWord(popped + |contents|)
      && |homes| == Hi(View()) - Lo(View()) && blockIndex.ring != []
      && BlocksFor(popped + |contents| + 1) == Hi(View()) + |extra|
      && tailBlock == At((homes + extra)[|homes + extra| - 1])
    }

    /** At the end of a block: a new one. */
    method StartBlock(memory: Memory, canAlloc: bool) returns (b: Ptr)
      requires Valid() && tailIndex % BLOCK_SIZE == 0
      modifies this`blockIndex, this`nextBlockIndexCapacity, this`blocks, this`pool,
               this`origin, this`tailBlock
      ensures CapacityOk()
      ensures b.At? ==> Ready([b.block])
      ensures b == Null ==> Core(View(), []) && tailBlock == old(tailBlock) && blocks == old(blocks) && pool == old(pool)
      ensures b == Null ==>
        !(memory.granted && canAlloc && old(blockIndex).ring != [] && |contents| + 2 * BLOCK_SIZE < HALF)
    {
      hide Core, BlocksFor, Key, Acquires, ToWord;
      NextSlot(popped + |contents|, popped);
      NullIndexIsEmpty(View());
      b := AcquireBlock(tailIndex, false, memory, canAlloc, []);
      if b != Null {
        tailBlock := b;
        assert [] + [b.block] == [b.block];
        RingExists(View(), [b.block]);
      }
    }

    /** Appends one item, or nothing when memory runs out or the queue is full. */
    method Enqueue(v: Value, memory: Memory, canAlloc: bool) returns (ok: bool)
      requires Valid()
      modifies this
      ensures Valid() && popped == old(popped)
      ensures contents == old(contents) + (if ok then [v] else [])
      ensures !ok ==> homes == old(homes) && blocks == old(blocks) && pool == old(pool) && tailBlock == old(tailBlock)
      ensures memory.granted && canAlloc && old(blockIndex).ring != [] && |old(contents)| + 2 * BLOCK_SIZE < HALF ==> ok
    {
      hide Core, BlocksFor, ToWord;
      NextSlot(popped + |contents|, popped);
      NullIndexIsEmpty(View());
      ghost var extra: seq<nat> := [];
      if tailIndex % BLOCK_SIZE == 0 {
        var b := StartBlock(memory, canAlloc);
        if b == Null {
          return false;
        }
        extra := [b.block];
      }
      assert homes + [] == homes;
      AddItem(v, extra);
      ok := true;
    }

    /** The state of a bulk enqueue that has allocated `extra`. */
    ghost predicate Allocated(extra: seq<nat>, start: Ptr)
      reads this
    {
      && Core(View(), extra) && CapacityOk()
      && headIndex == ToWord(popped) && tailIndex == ToWord(popped + |contents|)
      && ChainOk(blocks, popped + |contents|, homes, extra, start)
      && tailBlock == LastOf(extra, start)
    }

    /** Links block `b` behind the tail block, which is the last one of the chain. */
    method LinkBlock(b: nat)
      requires tailBlock.At? && tailBlock.block < |blocks|
      modifies this`blocks
      ensures blocks == old(blocks)[old(tailBlock).block := old(blocks)[old(tailBlock).block].(next := At(b))]
    {
      blocks := blocks[tailBlock.block := blocks[tailBlock.block].(next := At(b))];
    }

    /** One turn of the allocation loop. */
    method AllocateBlock(base: nat, startTail: nat, first: Ptr, memory: Memory, canAlloc: bool, ghost extra: seq<nat>, ghost start: Ptr)
      returns (b: Ptr)
      requires Allocated(extra, start) && startTail == tailIndex && first == FirstOf(extra) && base == Key(Hi(View()) + |extra|)
      modifies this`blockIndex, this`nextBlockIndexCapacity, this`blocks, this`pool, this`origin, this`tailBlock
      ensures b.At? ==> Allocated(extra + [b.block], start)
      ensures b == Null ==> Allocated(extra, start) && Starved(extra, memory, canAlloc, old(blockIndex))
    {
      hide Core, Acquires, ChainOk, BlocksFor, Key, ToWord;
      NextSlot(popped + |contents|, popped);
      UsedBlocks(View(), extra);
      b := AcquireBlock(base, true, memory, canAlloc, extra);
      if b == Null {
        return;
      }
      UsedBlocks(View(), extra + [b.block]);
      AcquiredIsNew(old(View()), extra, View(), b.block);
      ChainGrows(old(blocks), old(pool), blocks, pool, popped + |contents|, homes, extra, start, b.block);
      if startTail % BLOCK_SIZE != 0 || first != Null {
        LinkKeeps(View(), extra + [b.block], tailBlock.block, b);
        LinkBlock(b.block);
      }
      tailBlock := b;
    }

    /** The reasons for a failed allocation. */
    ghost predicate Starved(extra: seq<nat>, memory: Memory, canAlloc: bool, ix: Index)
      reads this
    {
      || (Hi(View()) + |extra| + 1) * BLOCK_SIZE - popped >= HALF
      || !memory.granted || !canAlloc || ix.ring == []
    }

    /** Enough memory for every allocation, and a queue that stays far from half a turn long. */
    ghost predicate Plenty(count: nat, memory: nat -> Memory, canAlloc: nat -> bool, ix: Index)
      reads this
    {
      && (forall i: nat :: memory(i).granted && canAlloc(i))
      && ix.ring != [] && |contents| + count + 2 * BLOCK_SIZE < HALF
    }

    /** The allocation loop: as many blocks as there are block starts among the new slots. */
    method AllocateBlocks(count: nat, memory: nat -> Memory, canAlloc: nat -> bool)
      returns (ok: bool, first: Ptr, ghost extra: seq<nat>)
      requires Valid() && count <= HALF
      modifies this`blockIndex, this`nextBlockIndexCapacity, this`blocks, this`pool, this`origin, this`tailBlock
      ensures Allocated(extra, old(tailBlock)) && first == FirstOf(extra)
      ensures ok ==> Hi(View()) + |extra| == BlocksFor(popped + |contents| + count)
      ensures !ok ==> !Plenty(count, memory, canAlloc, old(blockIndex))
    {
      hide Core, Chained, BlocksFor, Key, ToWord, BlockBase, BlockBaseDiff, BlockStarts;
      ghost var tail := popped + |contents|;
      ghost var needed := BlocksFor(tail + count) - BlocksFor(tail);
      BulkWords(tail, count, popped);
      NullIndexIsEmpty(View());
      StartBlockExists(View());
      var startTail: int := tailIndex;
      var diff := BlockBaseDiff(tailIndex, count);
      var cur := BlockBase(ToWord(startTail - 1));
      var i := 0;
      ok, first, extra := true, Null, [];
      while diff > 0
        invariant i == |extra| && first == FirstOf(extra) && Allocated(extra, old(tailBlock))
        invariant diff == BLOCK_SIZE * (needed - |extra|) && |extra| <= needed
        invariant cur == ToWord((Hi(View()) + |extra| - 1) * BLOCK_SIZE)
        invariant extra == [] ==> blockIndex == old(blockIndex)
      {
        diff := diff - BLOCK_SIZE;
        NextBase(Hi(View()) + |extra|);
        cur := ToWord(cur + BLOCK_SIZE);
        UsedBlocks(View(), extra);
        var b := AllocateBlock(cur, startTail, first, memory(i), canAlloc(i), extra, old(tailBlock));
        if b == Null {
          ok := false;
          return;
        }
        extra := extra + [b.block];
        first := if first == Null then b else first;
        i := i + 1;
      }
    }

    /** Takes back everything a failed bulk enqueue has allocated. */
    method RollBack(startTail: nat, first: Ptr, startBlock: Ptr, ghost extra: seq<nat>)
      requires Allocated(extra, startBlock) && startTail == tailIndex && first == FirstOf(extra)
      modifies this`blockIndex, this`pool, this`tailBlock
      ensures Valid() && tailBlock == startBlock
      ensures pool == old(pool) + (set b | b in extra)
    {
      hide Core, BlocksFor, Key, ToWord, BlockBase, Represents, Shape, RolledBack, Cleared;
      if first != Null {
        StartsCleared(extra);
        ClearEntries(startTail, first, extra);
        EndsCleared(extra);
      }
      AddBlocksToFreeList(first, extra);
      if extra != [] {
        RollbackKeeps(old(View()), extra, blockIndex, pool);
      } else {
        assert old(pool) == pool;
      }
      tailBlock := startBlock;
    }

    /** `get_block_index_entry_for_index`. */
    method GetBlockIndexEntryForIndex(slot: nat) returns (pos: nat)
      requires blockIndex.ring != [] && blockIndex.tail < |blockIndex.ring|
      requires blockIndex.ring[blockIndex.tail] < |blockIndex.entries|
      ensures pos == Lookup(blockIndex, slot)
    {
      var tailBase := EntryAt(blockIndex, blockIndex.tail).key;
      var offset := Truncated(Signed((BlockBase(slot) - tailBase) % WORD), BLOCK_SIZE);
      pos := Mask(blockIndex.tail + offset % WORD, |blockIndex.ring|);
    }

    /** The entries of `i` blocks of the chain have been cleared, and the tail moved back as often. */
    ghost predicate Cleared(extra: seq<nat>, i: nat)
      reads this`blockIndex, this`origin, this`popped, this`homes
    {
      && i <= |extra| && (|homes| + |extra|) * BLOCK_SIZE < HALF + BLOCK_SIZE
      && Represents(blockIndex, origin, popped / BLOCK_SIZE, RolledBack(homes, extra, i))
      && TailAt(blockIndex, origin, popped / BLOCK_SIZE + |homes| + |extra| - 1 - i)
    }

    /** Finds the entry of one block, clears it, and moves the tail back by one. */
    method ClearOne(base: nat, ghost extra: seq<nat>, ghost i: nat)
      requires Cleared(extra, i) && i < |extra| && base == Key(popped / BLOCK_SIZE + |homes| + i)
      modifies this`blockIndex
      ensures Cleared(extra, i + 1) && blockIndex.ring == old(blockIndex).ring
    {
      hide Represents, RolledBack, Lookup, Key, Capacity;
      RollStep(blockIndex, origin, popped / BLOCK_SIZE, homes, extra, i);
      var pos := GetBlockIndexEntryForIndex(base);
      StoreValue(pos, Null);
      RewindBlockIndexTail();
    }

    /** Clears the entries of the chain in order. */
    method ClearEntries(startTail: nat, first: Ptr, ghost extra: seq<nat>)
      requires Core(View(), extra) && extra != [] && first == FirstOf(extra)
      requires startTail == ToWord(popped + |contents|)
      requires forall i :: 0 <= i < |extra| ==> Chained(blocks, extra, i)
      modifies this`blockIndex
      ensures blockIndex.ring == old(blockIndex).ring
      ensures Cleared(extra, |extra|)
    {
      hide Core, BlocksFor, Key, ToWord, BlockBase, Cleared;
      StartBase(popped + |contents|);
      StartsCleared(extra);
      var cur, block := BlockBase(ToWord(startTail - 1)), first;
      ghost var hi, i := popped / BLOCK_SIZE + |homes|, 0;
      while block != Null
        invariant i <= |extra| && block == (if i < |extra| then At(extra[i]) else Null)
        invariant blockIndex.ring == old(blockIndex).ring
        invariant cur == ToWord((hi + i - 1) * BLOCK_SIZE)
        invariant Cleared(extra, i)
        decreases |extra| - i
      {
        NextBase(hi + i);
        assert Chained(blocks, extra, i);
        cur := ToWord(cur + BLOCK_SIZE);
        ClearOne(cur, extra, i);
        block := blocks[block.block].next;
        i := i + 1;
      }
    }

    lemma StartsCleared(extra: seq<nat>)
      requires Core(View(), extra) && extra != []
      ensures Cleared(extra, 0) && Hi(View()) == popped / BLOCK_SIZE + |homes|
    {
      RollStart(View(), extra);
    }

    lemma EndsCleared(extra: seq<nat>)
      requires Cleared(extra, |extra|)
      ensures Represents(blockIndex, origin, popped / BLOCK_SIZE, Pointers(homes))
      ensures TailAt(blockIndex, origin, popped / BLOCK_SIZE + |homes| - 1)
    {
      RollEnd(blockIndex, origin, popped / BLOCK_SIZE, homes, extra);
    }

    /** `add_blocks_to_free_list`: the pointer to the next block is read before a block is given away. */
    method AddBlocksToFreeList(first: Ptr, ghost chain: seq<nat>)
      requires first == FirstOf(chain)
      requires forall i :: 0 <= i < |chain| ==> Chained(blocks, chain, i)
      modifies this`pool
      ensures pool == old(pool) + (set b | b in chain)
    {
      var block := first;
      ghost var i := 0;
      while block != Null
        invariant i <= |chain| && block == (if i < |chain| then At(chain[i]) else Null)
        invariant pool == old(pool) + (set b | b in chain[..i])
        decreases |chain| - i
      {
        assert Chained(blocks, chain, i);
        var next := blocks[block.block].next;
        pool := pool + {block.block};
        assert chain[..i + 1] == chain[..i] + [chain[i]];
        block := next;
        i := i + 1;
      }
      assert chain[..i] == chain;
    }

    /** Everything behind the tail up to `i` items further is written. */
    ghost predicate Writing(items: seq<Value>, i: nat, extra: seq<nat>)
      reads this`blockIndex, this`origin, this`blocks, this`pool, this`popped, this`contents, this`homes
    {
      && Core(View(), extra) && i <= |items|
      && Hi(View()) + |extra| == BlocksFor(popped + |contents| + |items|)
      && (forall j :: popped + |contents| <= j < popped + |contents| + i ==> Promised(View(), extra, items, j))
    }

    /** The block of slot `slot` is the tail block. */
    ghost predicate AtBlock(slot: nat, extra: seq<nat>)
      reads this
    {
      && 0 <= slot / BLOCK_SIZE - Lo(View()) < |homes + extra|
      && tailBlock == At((homes + extra)[slot / BLOCK_SIZE - Lo(View())])
    }

    lemma StartsWriting(items: seq<Value>, extra: seq<nat>)
      requires Core(View(), extra) && Hi(View()) + |extra| == BlocksFor(popped + |contents| + |items|)
      ensures Writing(items, 0, extra)
    {
    }

    /** Writes one item into its slot of the tail block. */
    method WriteSlot(cur: nat, items: seq<Value>, i: nat, ghost extra: seq<nat>)
      requires Writing(items, i, extra) && i < |items| && cur == ToWord(popped + |contents| + i)
      requires AtBlock(popped + |contents| + i, extra)
      modifies this`blocks
      ensures Writing(items, i + 1, extra) && SameLinks(old(blocks), blocks)
    {
      hide Core, Holds, BlocksFor, ToWord;
      ghost var slot := popped + |contents| + i;
      WordSlot(slot);
      SlotExists(popped + |contents| + |items|, slot);
      ghost var before := View();
      WriteKeeps(before, extra, slot, items[i]);
      WritePromises(before, extra, items, i);
      var t := tailBlock.block;
      blocks := blocks[t := blocks[t].(cells := blocks[t].cells[cur % BLOCK_SIZE := Built(items[i])])];
      assert View() == Written(before, extra, slot, items[i]);
    }

    /** Fills the tail block from slot `cur` up to `stop`. */
    method FillBlock(cur0: nat, stop: nat, items: seq<Value>, i0: nat, ghost goal: nat, ghost extra: seq<nat>)
      returns (cur: nat, i: nat)
      requires Writing(items, i0, extra) && i0 <= goal <= |items|
      requires cur0 == ToWord(popped + |contents| + i0) && stop == ToWord(popped + |contents| + goal)
      requires i0 < goal ==> AtBlock(popped + |contents| + i0, extra)
      requires popped + |contents| + goal <= BlockBase(popped + |contents| + i0) + BLOCK_SIZE
      modifies this`blocks
      ensures i == goal && cur == stop && Writing(items, goal, extra) && SameLinks(old(blocks), blocks)
    {
      hide Writing, BlockBase, ToWord;
      ghost var tail := popped + |contents|;
      SameBlockSlots(tail + i0, tail + goal);
      cur, i := cur0, i0;
      while cur != stop
        invariant i0 <= i <= goal && cur == ToWord(tail + i)
        invariant Writing(items, i, extra) && SameLinks(old(blocks), blocks)
        decreases goal - i
      {
        assert i < goal;
        assert AtBlock(tail + i, extra);
        WriteSlot(cur, items, i, extra);
        NextWord(tail + i);
        cur := ToWord(cur + 1);
        i := i + 1;
      }
    }

    /** From the block of the tail on, the chain pointers lead through all blocks in use. */
    ghost predicate Threaded(extra: seq<nat>)
      reads this
    {
      forall k :: (popped + |contents|) / BLOCK_SIZE - Lo(View()) <= k < |homes + extra| - 1 ==> Leads(blocks, homes + extra, k)
    }

    /** Behind `i` items: at the end block, or with the chain leading to the block of the next slot. */
    ghost predicate TurnOk(items: seq<Value>, i: nat, extra: seq<nat>)
      reads this
    {
      var used, k := homes + extra, (popped + |contents| + i) / BLOCK_SIZE - Lo(View());
      && (items != [] ==> used != [] && (tailBlock == At(used[|used| - 1]) <==> i == |items|))
      && (i < |items| ==>
            && tailBlock.At? && tailBlock.block < |blocks| && 0 <= k < |used|
            && blocks[tailBlock.block].next == At(used[k]))
    }

    /** Writes what goes into one block, up to its end or to the last item. */
    method WriteBlock(cur0: nat, newTail: nat, items: seq<Value>, i0: nat, ghost extra: seq<nat>) returns (cur: nat, i: nat)
      requires Writing(items, i0, extra) && Threaded(extra) && |items| <= HALF
      requires cur0 == ToWord(popped + |contents| + i0) && newTail == ToWord(popped + |contents| + |items|)
      requires items != [] ==> i0 < |items| && AtBlock(popped + |contents| + i0, extra)
      modifies this`blocks
      ensures Writing(items, i, extra) && Threaded(extra) && TurnOk(items, i, extra)
      ensures cur == ToWord(popped + |contents| + i) && i <= |items| && (items != [] ==> i0 < i)
    {
      hide Core, Leads, BlocksFor, ToWord, Key, CircularLess, Promised, Goal, BlockBase;
      ghost var tail, n := popped + |contents|, |items|;
      var stop := ToWord(BlockBase(cur0) + BLOCK_SIZE);
      StopWord(tail, i0, n);
      if CircularLess(newTail, stop) {
        stop := newTail;
      }
      ghost var goal := Goal(tail, i0, n);
      cur, i := FillBlock(cur0, stop, items, i0, goal, extra);
      LinksKept(old(blocks), blocks, homes + extra, tail / BLOCK_SIZE - Lo(View()));
      if n > 0 {
        GoalEnds(tail, i0, n);
        TurnOrEnd(View(), extra, items, tailBlock, i);
      }
    }

    /** Moves the tail block back to where the writing starts, and remembers where it ends. */
    method PointAtFirst(items: seq<Value>, first: Ptr, startBlock: Ptr, ghost extra: seq<nat>) returns (endBlock: Ptr)
      requires Allocated(extra, startBlock) && first == FirstOf(extra)
      requires Hi(View()) + |extra| == BlocksFor(popped + |contents| + |items|)
      modifies this`tailBlock
      ensures Writing(items, 0, extra) && Threaded(extra)
      ensures items != [] ==> homes + extra != [] && endBlock == At((homes + extra)[|homes + extra| - 1])
      ensures items != [] ==> AtBlock(popped + |contents|, extra)
      ensures items == [] ==> tailBlock == endBlock == startBlock && extra == []
    {
      hide Core, Leads, BlocksFor, ToWord, Promised, Writing;
      StartsWriting(items, extra);
      FirstTarget(View(), extra, startBlock, items);
      BulkTail(popped + |contents|, 0);
      endBlock := tailBlock;
      tailBlock := startBlock;
      if tailIndex % BLOCK_SIZE == 0 && first != Null {
        tailBlock := first;
      }
    }

    /** Writes all items, one block after the other along the chain. */
    method WriteItems(items: seq<Value>, endBlock: Ptr, ghost extra: seq<nat>)
      requires Writing(items, 0, extra) && Threaded(extra) && |items| <= HALF && tailIndex == ToWord(popped + |contents|)
      requires items != [] ==> homes + extra != [] && endBlock == At((homes + extra)[|homes + extra| - 1])
      requires items != [] ==> AtBlock(popped + |contents|, extra)
      requires items == [] ==> tailBlock == endBlock
      modifies this`blocks, this`tailBlock
      ensures Writing(items, |items|, extra) && tailBlock == endBlock
    {
      hide Core, Leads, BlocksFor, ToWord, Promised, Writing;
      ghost var tail, n := popped + |contents|, |items|;
      BulkTail(tail, n);
      var cur, newTail := tailIndex, ToWord(tailIndex + |items|);
      var i, done := 0, false;
      while !done
        invariant Writing(items, i, extra) && Threaded(extra)
        invariant cur == ToWord(tail + i) && i <= n
        invariant done ==> i == n && tailBlock == endBlock
        invariant !done && n > 0 ==> i < n && AtBlock(tail + i, extra)
        invariant n == 0 ==> tailBlock == endBlock
        decreases n - i, !done
      {
        cur, i := WriteBlock(cur, newTail, items, i, extra);
        if tailBlock == endBlock {
          done := true;
        } else {
          tailBlock := blocks[tailBlock.block].next;
        }
      }
    }

    /**
     Appends all items or none. Whichever allocation fails, the index, the tail block and the
     items are as before and every block the call took is in the pool.
     */
    method EnqueueBulk(items: seq<Value>, memory: nat -> Memory, canAlloc: nat -> bool) returns (ok: bool)
      requires Valid() && |items| <= HALF
      modifies this
      ensures Valid() && popped == old(popped)
      ensures contents == old(contents) + (if ok then items else [])
      ensures !ok ==> homes == old(homes) && tailBlock == old(tailBlock)
      ensures forall b :: 0 <= b < |blocks| ==> (b in pool <==> b !in homes)
      ensures old(Plenty(|items|, memory, canAlloc, blockIndex)) ==> ok
    {
      hide Core, Leads, BlocksFor, ToWord, ChainOk, Promised;
      var startTail, startBlock := tailIndex, tailBlock;
      var got, first, extra := AllocateBlocks(|items|, memory, canAlloc);
      if !got {
        RollBack(startTail, first, startBlock, extra);
        PoolIsRest(View());
        return false;
      }
      FillAndPublish(items, first, startBlock, extra);
      PoolIsRest(View());
      ok := true;
    }

    /** With all blocks allocated the rest cannot fail. */
    method FillAndPublish(items: seq<Value>, first: Ptr, startBlock: Ptr, ghost extra: seq<nat>)
      requires Allocated(extra, startBlock) && first == FirstOf(extra) && |items| <= HALF
      requires Hi(View()) + |extra| == BlocksFor(popped + |contents| + |items|)
      requires (popped + |contents|) % BLOCK_SIZE != 0 ==> homes != [] && startBlock == At(homes[|homes| - 1])
      modifies this`tailBlock, this`blocks, this`tailIndex, this`contents, this`homes
      ensures Valid() && contents == old(contents) + items
    {
      hide Core, Leads, BlocksFor, ToWord, ChainOk, Promised;
      var endBlock := PointAtFirst(items, first, startBlock, extra);
      WriteItems(items, endBlock, extra);
      PublishItems(items, extra);
    }

    /** The store of the new tail: all written items become part of the queue. */
    method PublishItems(items: seq<Value>, ghost extra: seq<nat>)
      requires Writing(items, |items|, extra) && tailIndex == ToWord(popped + |contents|)
      modifies this`tailIndex, this`contents, this`homes
      ensures Core(View(), []) && tailIndex == ToWord(popped + |contents|)
      ensures contents == old(contents) + items && homes == old(homes) + extra
      ensures items != [] ==> homes != []
    {
      hide Core, BlocksFor, ToWord, Promised;
      RingForItems(View(), extra, items);
      PublishKeeps(View(), extra, items);
      BulkTail(popped + |contents|, |items|);
      tailIndex := ToWord(tailIndex + |items|);
      contents, homes := contents + items, homes + extra;
    }

    /** `set_empty` and `set_many_empty`. */
    method SetManyEmpty(b: nat, count: nat) returns (empty: bool)
      requires b < |blocks|
      modifies this`blocks
      ensures blocks == old(blocks)[b := old(blocks)[b].(completed := old(blocks)[b].completed + count)]
      ensures empty <==> blocks[b].completed == BLOCK_SIZE
    {
      var prev := blocks[b].completed;
      blocks := blocks[b := blocks[b].(completed := prev + count)];
      empty := prev + count == BLOCK_SIZE;
    }

    /** Moves the elements from slot `index` up to `stop` out of one block. */
    method MoveOut(b: nat, index: nat, stop: nat, ghost from: nat, ghost n: nat, ghost items: seq<Value>) returns (got: seq<Value>)
      requires b < |blocks| && |blocks[b].cells| == BLOCK_SIZE && |items| == n && from % BLOCK_SIZE + n <= BLOCK_SIZE
      requires index == ToWord(from) && stop == ToWord(from + n)
      requires forall k :: 0 <= k < n ==> blocks[b].cells[from % BLOCK_SIZE + k] == Built(items[k])
      modifies this`blocks
      ensures got == items
      ensures |blocks| == |old(blocks)| && blocks == old(blocks)[b := old(blocks)[b].(cells := blocks[b].cells)]
      ensures |blocks[b].cells| == BLOCK_SIZE
      ensures forall c :: from % BLOCK_SIZE + n <= c < BLOCK_SIZE ==> blocks[b].cells[c] == old(blocks)[b].cells[c]
    {
      hide ToWord;
      SameBlockSlots(from, from + n);
      got := [];
      var cur := index;
      ghost var k := 0;
      while cur != stop
        invariant k <= n && cur == ToWord(from + k) && got == items[..k]
        invariant |blocks| == |old(blocks)| && blocks == old(blocks)[b := old(blocks)[b].(cells := blocks[b].cells)]
        invariant |blocks[b].cells| == BLOCK_SIZE
        invariant forall c :: from % BLOCK_SIZE + k <= c < BLOCK_SIZE ==> blocks[b].cells[c] == old(blocks)[b].cells[c]
        decreases n - k
      {
        WordSlot(from + k);
        assert cur % BLOCK_SIZE == from % BLOCK_SIZE + k;
        assert old(blocks[b].cells[from % BLOCK_SIZE + k]) == Built(items[k]);
        got := got + [blocks[b].cells[cur % BLOCK_SIZE].v];
        blocks := blocks[b := blocks[b].(cells := blocks[b].cells[cur % BLOCK_SIZE := Raw])];
        NextWord(from + k);
        cur := ToWord(cur + 1);
        k := k + 1;
      }
    }

    /** Consumes `n` items of the first block, whose entry is at `pos`; a completed block is returned. */
    method TakeFromBlock(pos: nat, index: nat, stop: nat, ghost n: nat) returns (got: seq<Value>)
      requires Core(View(), []) && contents != [] && n <= |contents| && popped % BLOCK_SIZE + n <= BLOCK_SIZE
      requires blockIndex.ring != [] && pos == Slot(blockIndex, origin, Lo(View()))
      requires index == ToWord(popped) && stop == ToWord(popped + n)
      modifies this`blockIndex, this`blocks, this`pool, this`popped, this`contents, this`homes
      ensures Core(View(), []) && got == old(contents)[..n]
      ensures popped == old(popped) + n && contents == old(contents)[n..]
      ensures blockIndex.ring == old(blockIndex).ring && tailBlock == old(tailBlock)
      ensures contents != [] || popped % BLOCK_SIZE != 0 ==> homes != [] && homes[|homes| - 1] == old(homes)[|old(homes)| - 1]
    {
      hide Core, ToWord, Consumes;
      ghost var before := View();
      FrontFinds(before);
      FrontItems(before, n);
      var b := EntryAt(blockIndex, pos).value.block;
      got := MoveOut(b, index, stop, popped, n, contents[..n]);
      ghost var moved := blocks[b];
      var empty := SetManyEmpty(b, WordDistance(index, stop));
      WordsApart(popped, n);
      BlockConsumed(before, moved, blocks[b], n);
      ConsumeKeeps(before, blocks[b], n);
      if empty {
        StoreValue(pos, Null);
        pool := pool + {b};
        homes := homes[1..];
      }
      popped, contents := popped + n, contents[n..];
      assert View() == Consumed(before, blocks[b], n);
      LastStays(before, blocks[b], n);
    }

    /** Removes the first item, if there is one. */
    method Dequeue() returns (r: Option<Value>)
      requires Valid()
      modifies this
      ensures Valid()
      ensures old(contents) == [] ==> r == None && View() == old(View())
      ensures old(contents) != [] ==> r == Some(old(contents)[0]) && contents == old(contents)[1..] && popped == old(popped) + 1
    {
      hide Core, ToWord, CircularLess;
      AvailableWords(View());
      if !CircularLess(headIndex, tailIndex) {
        return None;
      }
      FrontFinds(View());
      NextWord(popped);
      var index := headIndex;
      headIndex := ToWord(headIndex + 1);
      var pos := GetBlockIndexEntryForIndex(index);
      var got := TakeFromBlock(pos, index, headIndex, 1);
      r := Some(got[0]);
    }

    /** The claimed items up to `end` are being taken; `pos` is the entry of the first block. */
    ghost predicate Draining(pos: nat, index: nat, end: nat)
      reads this
    {
      && Core(View(), []) && contents != [] && popped <= end <= popped + |contents| && |contents| < HALF
      && blockIndex.ring != [] && pos == Slot(blockIndex, origin, Lo(View()))
      && index == ToWord(popped) && headIndex == ToWord(end)
    }

    /** Takes the claimed items of one block and moves on to the entry of the next one. */
    method TakeSegment(pos0: nat, index0: nat, ghost end: nat) returns (got: seq<Value>, pos: nat, index: nat)
      requires Draining(pos0, index0, end)
      modifies this`blockIndex, this`blocks, this`pool, this`popped, this`contents, this`homes
      ensures |got| <= |old(contents)| && got == old(contents)[..|got|] && contents == old(contents)[|got|..]
      ensures Core(View(), []) && popped == old(popped) + |got| <= end
      ensures old(popped) < end ==> got != []
      ensures index == headIndex <==> popped == end
      ensures popped < end ==> Draining(pos, index, end)
      ensures blockIndex.ring == old(blockIndex).ring
      ensures contents != [] || popped % BLOCK_SIZE != 0 ==> homes != [] && homes[|homes| - 1] == old(homes)[|old(homes)| - 1]
    {
      hide Core, ToWord, CircularLess, WordDistance;
      ghost var before := View();
      var stop := ToWord(BlockBase(index0) + BLOCK_SIZE);
      StopWord(popped, 0, end - popped);
      if CircularLess(headIndex, stop) {
        stop := headIndex;
      }
      ghost var n := Goal(popped, 0, end - popped);
      InFirstBlock(popped, n, end - popped);
      NextPlace(before, pos0);
      got := TakeFromBlock(pos0, index0, stop, n);
      index := stop;
      pos := Mask(pos0 + 1, |blockIndex.ring|);
      WordsDiffer(popped, end);
    }

    /** All segments of a claim of `n` slots, one block after the other. */
    method TakeSegments(pos0: nat, index0: nat, ghost n: nat) returns (got: seq<Value>)
      requires Draining(pos0, index0, popped + n)
      modifies this`blockIndex, this`blocks, this`pool, this`popped, this`contents, this`homes
      ensures n <= |old(contents)| && got == old(contents)[..n] && contents == old(contents)[n..]
      ensures Core(View(), []) && popped == old(popped) + n
      ensures blockIndex.ring == old(blockIndex).ring
      ensures contents != [] || popped % BLOCK_SIZE != 0 ==> homes != [] && homes[|homes| - 1] == old(homes)[|old(homes)| - 1]
    {
      hide Core, ToWord, CircularLess, WordDistance;
      FrontFinds(View());
      ghost var end := popped + n;
      ghost var was := contents;
      var pos: nat, index: nat;
      got, pos, index := TakeSegment(pos0, index0, end);
      while index != headIndex
        invariant Core(View(), []) && |got| <= n <= |was| && contents == was[|got|..] && got == was[..|got|]
        invariant popped == old(popped) + |got| <= end
        invariant index == headIndex <==> popped == end
        invariant popped < end ==> Draining(pos, index, end)
        invariant blockIndex.ring == old(blockIndex).ring
        invariant contents != [] || popped % BLOCK_SIZE != 0 ==> homes != [] && homes[|homes| - 1] == old(homes)[|old(homes)| - 1]
        decreases end - popped
      {
        var some: seq<Value>;
        some, pos, index := TakeSegment(pos, index, end);
        assert was[|got|..][..|some|] == was[|got|..|got| + |some|];
        got := got + some;
      }
    }

    /** Removes as many items as there are, but at most `max`, in order. */
    method DequeueBulk(max: nat) returns (got: seq<Value>)
      requires Valid()
      modifies this
      ensures Valid()
      ensures got == old(contents)[..Min(max, |old(contents)|)]
      ensures contents == old(contents)[|got|..] && popped == old(popped) + |got|
    {
      hide Core, ToWord, CircularLess, WordDistance;
      AvailableWords(View());
      got := [];
      var desired := WordDistance(headIndex, tailIndex);
      if !CircularLess(0, desired) {
        return;
      }
      var actual := Min(desired, max);
      FrontFinds(View());
      BulkTail(popped, actual);
      var index := headIndex;
      headIndex := ToWord(headIndex + actual);
      var pos := GetBlockIndexEntryForIndex(index);
      got := TakeSegments(pos, index, actual);
      assert popped + |contents| == old(popped + |contents|);
    }
  }

  /** Slot `tail` starts a block, or lies in the last block of the items. */
  lemma {:induction false} NextSlot(tail: nat, popped: nat)
    ensures ToWord(tail) % BLOCK_SIZE == tail % BLOCK_SIZE
    ensures BlocksFor(tail + 1) == BlocksFor(tail) + (if tail % BLOCK_SIZE == 0 then 1 else 0)
    ensures tail % BLOCK_SIZE == 0 ==> Key(BlocksFor(tail)) == ToWord(tail)
    ensures (BlocksFor(tail) + 1) * BLOCK_SIZE <= tail + 2 * BLOCK_SIZE
    ensures BlocksFor(tail + 1) == tail / BLOCK_SIZE + 1
    ensures tail < BlocksFor(tail + 1) * BLOCK_SIZE
  {
    WordSlot(tail);
  }

  lemma {:induction false} NextWord(x: nat)
    ensures ToWord(ToWord(x) + 1) == ToWord(x + 1)
  {
    WordAdd(x, 1);
  }

  lemma {:induction false} UsedBlocks(s: Store, extra: seq<nat>)
    requires Core(s, extra)
    ensures forall i :: 0 <= i < |extra| ==> extra[i] < |s.blocks|
    ensures forall i, j :: 0 <= i < j < |s.homes + extra| ==> (s.homes + extra)[i] != (s.homes + extra)[j]
    ensures extra != [] ==> s.ix.ring != []
  {
    forall i | 0 <= i < |extra| ensures extra[i] < |s.blocks| {
      assert (s.homes + extra)[|s.homes| + i] == extra[i];
    }
  }

  lemma {:induction false} AcquiredIsNew(s: Store, extra: seq<nat>, s': Store, b: nat)
    requires Core(s, extra) && SameItems(s, s') && Acquires(s.blocks, s.pool, s'.blocks, s'.pool, b)
    ensures b !in s.homes + extra
  {
    AcquiredPartition(s, s.homes + extra, s', b);
  }

  lemma {:induction false} BulkWords(tail: nat, count: nat, popped: nat)
    requires count <= HALF && popped <= tail
    ensures BlockBaseDiff(ToWord(tail), count) == BLOCK_SIZE * (BlocksFor(tail + count) - BlocksFor(tail))
    ensures BlocksFor(tail) <= BlocksFor(tail + count)
    ensures BlocksFor(tail + count) * BLOCK_SIZE < tail + count + BLOCK_SIZE
    ensures BlockBase(ToWord(ToWord(tail) - 1)) == ToWord((BlocksFor(tail) - 1) * BLOCK_SIZE)
  {
    BlockBaseDiffCounts(tail, count);
    StartBase(tail);
  }

  /** The base in front of the first new block, from the word of the tail. */
  lemma {:induction false} StartBase(tail: nat)
    ensures BlockBase(ToWord(ToWord(tail) - 1)) == ToWord((BlocksFor(tail) - 1) * BLOCK_SIZE)
  {
    WordAdd(tail, -1);
    BaseBefore(tail);
    WordShift((BlocksFor(tail) - 1) * BLOCK_SIZE, 1);
  }

  lemma {:induction false} NextBase(m: nat)
    ensures ToWord(ToWord((m - 1) * BLOCK_SIZE) + BLOCK_SIZE) == Key(m) == ToWord(m * BLOCK_SIZE)
  {
    WordAdd((m - 1) * BLOCK_SIZE, BLOCK_SIZE);
  }

  lemma {:induction false} StartBlockExists(s: Store)
    requires Core(s, [])
    ensures s.homes != [] ==> s.homes[|s.homes| - 1] < |s.blocks|
  {
    assert s.homes + [] == s.homes;
  }

  lemma {:induction false} RollStart(s: Store, extra: seq<nat>)
    requires Core(s, extra) && extra != []
    ensures s.ix.ring != [] && |s.homes| == Hi(s) - Lo(s)
    ensures Represents(s.ix, s.origin, Lo(s), RolledBack(s.homes, extra, 0))
    ensures TailAt(s.ix, s.origin, Lo(s) + |s.homes| + |extra| - 1)
    ensures (|s.homes| + |extra|) * BLOCK_SIZE < HALF + BLOCK_SIZE
  {
    assert RolledBack(s.homes, extra, 0) == Pointers(s.homes + extra);
  }

  /** The chain pointers of all blocks are the same. */
  ghost predicate SameLinks(bs: seq<Block>, bs': seq<Block>) {
    |bs'| == |bs| && forall b :: 0 <= b < |bs| ==> bs'[b].next == bs[b].next
  }

  lemma {:induction false} SlotExists(end: nat, slot: nat)
    requires slot < end
    ensures slot < BlocksFor(end) * BLOCK_SIZE
  {
  }

  lemma {:induction false} WritePromises(s: Store, extra: seq<nat>, items: seq<Value>, i: nat)
    requires Core(s, extra) && i < |items| && Hi(s) + |extra| == BlocksFor(Tail(s) + |items|)
    requires forall j :: Tail(s) <= j < Tail(s) + i ==> Promised(s, extra, items, j)
    ensures 0 <= (Tail(s) + i) / BLOCK_SIZE - Lo(s) < |s.homes + extra|
    ensures var b := (s.homes + extra)[(Tail(s) + i) / BLOCK_SIZE - Lo(s)];
      b < |s.blocks| && |s.blocks[b].cells| == BLOCK_SIZE
    ensures var s' := Written(s, extra, Tail(s) + i, items[i]);
      forall j :: Tail(s) <= j < Tail(s) + i + 1 ==> Promised(s', extra, items, j)
  {
    hide Core, Holds, BlocksFor;
    SlotExists(Tail(s) + |items|, Tail(s) + i);
    WriteKeeps(s, extra, Tail(s) + i, items[i]);
    var s' := Written(s, extra, Tail(s) + i, items[i]);
    forall j | Tail(s) <= j < Tail(s) + i + 1 ensures Promised(s', extra, items, j) {
      if j < Tail(s) + i {
        assert Promised(s, extra, items, j);
      }
    }
  }

  /** Slots up to the end of a block lie in the same block, and their words differ. */
  lemma {:induction false} SameBlockSlots(from: nat, end: nat)
    requires from <= end <= BlockBase(from) + BLOCK_SIZE
    ensures forall slot :: from <= slot < end ==> slot / BLOCK_SIZE == from / BLOCK_SIZE && ToWord(slot) != ToWord(end)
  {
  }

  predicate Leads(bs: seq<Block>, used: seq<nat>, k: int) {
    0 <= k < |used| - 1 && used[k] < |bs| && bs[used[k]].next == At(used[k + 1])
  }

  lemma {:induction false} LinksKept(bs: seq<Block>, bs': seq<Block>, used: seq<nat>, lo: int)
    requires SameLinks(bs, bs') && forall k :: lo <= k < |used| - 1 ==> Leads(bs, used, k)
    ensures forall k :: lo <= k < |used| - 1 ==> Leads(bs', used, k)
  {
    forall k | lo <= k < |used| - 1 ensures Leads(bs', used, k) {
      assert Leads(bs, used, k);
    }
  }

  /** Where the items from the i-th on stop in their first block. */
  function Goal(tail: nat, i: nat, n: nat): (g: nat)
    requires i <= n
    ensures i <= g <= n
  {
    Min(n, BlockBase(tail + i) + BLOCK_SIZE - tail)
  }

  lemma {:induction false} GoalEnds(tail: nat, i: nat, n: nat)
    requires i < n
    ensures var g := Goal(tail, i, n);
      i < g && (g == n || (tail + g) % BLOCK_SIZE == 0) && (tail + g - 1) / BLOCK_SIZE == (tail + i) / BLOCK_SIZE
  {
  }

  /** The stop index on words is the word of that place. */
  lemma {:induction false} StopWord(tail: nat, i: nat, n: nat)
    requires i <= n <= HALF
    ensures var stop := ToWord(BlockBase(ToWord(tail + i)) + BLOCK_SIZE);
      (if CircularLess(ToWord(tail + n), stop) then ToWord(tail + n) else stop) == ToWord(tail + Goal(tail, i, n))
    ensures tail + Goal(tail, i, n) <= BlockBase(tail + i) + BLOCK_SIZE
  {
    var end := BlockBase(tail + i) + BLOCK_SIZE;
    BaseOfWord(tail + i);
    WordAdd(BlockBase(tail + i), BLOCK_SIZE);
    CircularIsTrueOrder(tail + n, end);
  }

  lemma {:induction false} BulkTail(tail: nat, n: nat)
    ensures ToWord(ToWord(tail) + n) == ToWord(tail + n) && ToWord(tail) % BLOCK_SIZE == tail % BLOCK_SIZE
  {
    WordAdd(tail, n);
    WordSlot(tail);
  }

  /** The chain through the block with room and the new blocks; where the writing starts and ends. */
  lemma {:induction false} FirstTarget(s: Store, extra: seq<nat>, start: Ptr, items: seq<Value>)
    requires Core(s, extra) && ChainOk(s.blocks, Tail(s), s.homes, extra, start)
    requires Hi(s) + |extra| == BlocksFor(Tail(s) + |items|)
    ensures var used := s.homes + extra; var k := Tail(s) / BLOCK_SIZE - Lo(s);
      && (forall m :: k <= m < |used| - 1 ==> Leads(s.blocks, used, m))
      && (items == [] ==> extra == [])
      && (items != [] ==>
            && 0 <= k < |used|
            && At(used[k]) == (if Tail(s) % BLOCK_SIZE == 0 && extra != [] then At(extra[0]) else start)
            && At(used[|used| - 1]) == LastOf(extra, start))
  {
    var used := s.homes + extra;
    var k := Tail(s) / BLOCK_SIZE - Lo(s);
    forall m | k <= m < |used| - 1 ensures Leads(s.blocks, used, m) {
      if m >= |s.homes| {
        assert Chained(s.blocks, extra, m - |s.homes|);
      }
    }
  }

  /** At the end of a block the chain leads to the block of the next slot; at the end block nothing is left. */
  lemma {:induction false} TurnOrEnd(s: Store, extra: seq<nat>, items: seq<Value>, t: Ptr, i: nat)
    requires Core(s, extra) && Hi(s) + |extra| == BlocksFor(Tail(s) + |items|)
    requires forall m :: Tail(s) / BLOCK_SIZE - Lo(s) <= m < |s.homes + extra| - 1 ==> Leads(s.blocks, s.homes + extra, m)
    requires 0 < i <= |items| && (i == |items| || (Tail(s) + i) % BLOCK_SIZE == 0)
    requires 0 <= (Tail(s) + i - 1) / BLOCK_SIZE - Lo(s) < |s.homes + extra|
    requires t == At((s.homes + extra)[(Tail(s) + i - 1) / BLOCK_SIZE - Lo(s)])
    ensures var used := s.homes + extra;
      && (t == At(used[|used| - 1]) <==> i == |items|)
      && (i < |items| ==>
            && t.block < |s.blocks| && 0 <= (Tail(s) + i) / BLOCK_SIZE - Lo(s) < |used|
            && s.blocks[t.block].next == At(used[(Tail(s) + i) / BLOCK_SIZE - Lo(s)]))
  {
    var used := s.homes + extra;
    var k := (Tail(s) + i - 1) / BLOCK_SIZE - Lo(s);
    if k < |used| - 1 {
      assert Leads(s.blocks, used, k);
      assert used[k] != used[|used| - 1];
    }
  }

  lemma {:induction false} PoolIsRest(s: Store)
    requires Core(s, [])
    ensures forall b :: 0 <= b < |s.blocks| ==> (b in s.pool <==> b !in s.homes)
  {
    assert s.homes + [] == s.homes;
  }

  lemma {:induction false} RingForItems(s: Store, extra: seq<nat>, items: seq<Value>)
    requires Core(s, extra) && Hi(s) + |extra| == BlocksFor(Tail(s) + |items|)
    ensures s.ix.ring == [] ==> items == []
    ensures items != [] ==> s.homes + extra != []
  {
  }

  /** The difference of two words. */
  function WordDistance(from: nat, end: nat): nat {
    (end - from) % WORD
  }

  lemma {:induction false} WordsApart(x: nat, n: nat)
    ensures n < WORD ==> WordDistance(ToWord(x), ToWord(x + n)) == n
  {
    WrapDifference(x + n, x);
  }

  /** The first items lie side by side in the first block. */
  lemma {:induction false} FrontItems(s: Store, n: nat)
    requires Core(s, []) && n <= |s.contents| && s.popped % BLOCK_SIZE + n <= BLOCK_SIZE && s.homes != []
    ensures s.homes[0] < |s.blocks| && |s.blocks[s.homes[0]].cells| == BLOCK_SIZE
    ensures forall k :: 0 <= k < n ==> s.blocks[s.homes[0]].cells[s.popped % BLOCK_SIZE + k] == Built(s.contents[k])
    ensures s.blocks[s.homes[0]].completed == s.popped % BLOCK_SIZE
  {
    assert s.homes + [] == s.homes;
    assert Completed(s, s.homes, 0);
    forall k | 0 <= k < n ensures s.blocks[s.homes[0]].cells[s.popped % BLOCK_SIZE + k] == Built(s.contents[k]) {
      assert Item(s, s.popped + k);
    }
  }

  lemma {:induction false} BlockConsumed(s: Store, moved: Block, b': Block, n: nat)
    requires s.homes != [] && s.homes[0] < |s.blocks| && |s.blocks[s.homes[0]].cells| == |moved.cells| == BLOCK_SIZE
    requires moved == s.blocks[s.homes[0]].(cells := moved.cells) && b' == moved.(completed := moved.completed + n)
    requires forall c :: s.popped % BLOCK_SIZE + n <= c < BLOCK_SIZE ==> moved.cells[c] == s.blocks[s.homes[0]].cells[c]
    ensures Consumes(s, s.blocks[s.homes[0]], b', n)
  {
  }

  /** The block with room for the next item stays the last one. */
  lemma {:induction false} LastStays(s: Store, b': Block, n: nat)
    requires Core(s, []) && n <= |s.contents| && s.homes != [] && s.homes[0] < |s.blocks| && s.ix.ring != []
    requires s.ix.ring[Slot(s.ix, s.origin, Lo(s))] < |s.ix.entries|
    requires Core(Consumed(s, b', n), [])
    ensures var s' := Consumed(s, b', n);
      s'.contents != [] || s'.popped % BLOCK_SIZE != 0 ==> s'.homes != [] && s'.homes[|s'.homes| - 1] == s.homes[|s.homes| - 1]
  {
  }

  /** On words the head is behind the tail exactly when items are waiting, and their number is the distance. */
  lemma {:induction false} AvailableWords(s: Store)
    requires Core(s, [])
    ensures CircularLess(ToWord(s.popped), ToWord(s.popped + |s.contents|)) <==> s.contents != []
    ensures WordDistance(ToWord(s.popped), ToWord(s.popped + |s.contents|)) == |s.contents| < HALF
    ensures CircularLess(0, |s.contents|) <==> s.contents != []
  {
    hide CircularLess, Item, Completed, Partition, Represents, TailAt;
    CircularIsTrueOrder(s.popped, s.popped + |s.contents|);
    CircularIsTrueOrder(0, |s.contents|);
    WordsApart(s.popped, |s.contents|);
  }

  lemma {:induction false} InFirstBlock(popped: nat, n: nat, left: nat)
    requires n == Goal(popped, 0, left)
    ensures popped % BLOCK_SIZE + n <= BLOCK_SIZE
    ensures n < left ==> (popped + n) / BLOCK_SIZE == popped / BLOCK_SIZE + 1
    ensures left > 0 ==> n > 0
  {
  }

  lemma {:induction false} WordsDiffer(x: nat, end: nat)
    requires x <= end < x + WORD
    ensures ToWord(x) == ToWord(end) <==> x == end
  {
    WordsApart(x, end - x);
    WordsApart(x, 0);
  }

  lemma {:induction false} NextPlace(s: Store, pos: nat)
    requires Core(s, []) && s.ix.ring != [] && pos == Slot(s.ix, s.origin, Lo(s))
    ensures Mask(pos + 1, |s.ix.ring|) == Slot(s.ix, s.origin, Lo(s) + 1)
  {
    MaskIsRemainder(pos + 1, |s.ix.ring|);
    SlotAdd(s.ix, s.origin, Lo(s), 1);
  }

  lemma {:induction false} InitialCapacity()
    ensures Capacity(IMPLICIT_INITIAL_INDEX_SIZE)
  {
    assert Pow2(5) == 32;
  }

  lemma {:induction false} NullIndexIsEmpty(s: Store)
    requires Core(s, [])
    ensures |s.homes| == Hi(s) - Lo(s)
    ensures s.ix.ring == [] ==> s.popped == 0 && s.contents == []
  {
  }

  lemma {:induction false} RingExists(s: Store, extra: seq<nat>)
    requires Core(s, extra) && extra != []
    ensures s.ix.ring != []
  {
  }
}
