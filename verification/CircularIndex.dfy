/**
 The circular block index of an implicit producer: a ring of pointers to entries, each
 entry a block base and a block. Bases are 64-bit words; a base is found by its signed
 distance from the base at the tail of the ring.
 */
module CircularIndex {
  import opened Blocks
  import opened Remainders
  import opened Words

  const INVALID_BLOCK_BASE: nat := 1

  /** The value of an entry whose key is still invalid is whatever the memory held. */
  datatype Entry = Entry(key: nat, value: Ptr)

  /** `ring` holds entry numbers; the older generations of the ring share their entries with it. */
  datatype Index = Index(ring: seq<nat>, tail: nat, entries: seq<Entry>)

  // ---------------------------------------------------------------- words

  /** `x & ~(BLOCK_SIZE - 1)`. */
  function BlockBase(x: nat): (b: nat)
    ensures b <= x < b + BLOCK_SIZE && b % BLOCK_SIZE == 0
  {
    x - x % BLOCK_SIZE
  }

  /** The base of block number `m` as the word the index stores. */
  function Key(m: nat): (k: nat)
    ensures k < WORD && k % BLOCK_SIZE == 0
  {
    (m * BLOCK_SIZE) % WORD
  }

  /** A word read as a signed number. */
  function Signed(x: int): (v: int)
    ensures (0 <= x < WORD) ==> 0 - HALF <= v < HALF
  {
    if x < HALF then x else x - WORD
  }

  /** C++ division of a signed number: towards zero. */
  function Truncated(x: int, y: int): int
    requires y > 0
  {
    if x >= 0 then x / y else -((-x) / y)
  }

  /** The base of the word of a slot is the word of the slot's base. */
  lemma {:induction false} BaseOfWord(slot: nat)
    ensures BlockBase(slot % WORD) == Key(slot / BLOCK_SIZE)
  {
    var q := slot / WORD;
    var w := slot % WORD;
    assert slot == WORD * q + w;
    assert slot / BLOCK_SIZE == (WORD / BLOCK_SIZE) * q + w / BLOCK_SIZE;
    assert slot / BLOCK_SIZE * BLOCK_SIZE == WORD * q + w / BLOCK_SIZE * BLOCK_SIZE;
    WordShift(w / BLOCK_SIZE * BLOCK_SIZE, q);
  }

  lemma {:induction false} KeyDifference(m: nat, t: nat)
    ensures (Key(m) - Key(t)) % WORD == ((m - t) * BLOCK_SIZE) % WORD
  {
    var a, b := m * BLOCK_SIZE, t * BLOCK_SIZE;
    assert a == WORD * (a / WORD) + Key(m) && b == WORD * (b / WORD) + Key(t);
    WordShift(Key(m) - Key(t), a / WORD - b / WORD);
  }

  /** The signed distance of two nearby bases, counted in blocks, is the distance of their numbers. */
  lemma {:induction false} SignedDistance(m: nat, t: nat)
    requires 0 - HALF <= (m - t) * BLOCK_SIZE < HALF
    ensures Truncated(Signed((Key(m) - Key(t)) % WORD), BLOCK_SIZE) == m - t
  {
    KeyDifference(m, t);
    var d := (m - t) * BLOCK_SIZE;
    if m < t {
      WordShift(d, 1);
      assert d % WORD == d + WORD;
    }
  }

  /** The number of block starts among the slots from `start` to `start + count`. */
  function BlockStarts(start: nat, count: nat): nat {
    if count == 0 then 0
    else BlockStarts(start, count - 1) + (if (start + count - 1) % BLOCK_SIZE == 0 then 1 else 0)
  }

  lemma {:induction false} BlockStartsCount(start: nat, count: nat)
    ensures BlockStarts(start, count) == BlocksFor(start + count) - BlocksFor(start)
  {
    if count > 0 {
      BlockStartsCount(start, count - 1);
    }
  }

  /** `blockBaseDiff` as the bulk enqueue computes it on words, also when `start - 1` wraps around. */
  function BlockBaseDiff(start: nat, count: nat): nat {
    (BlockBase((start + count - 1) % WORD) - BlockBase((start - 1) % WORD)) % WORD
  }

  lemma {:induction false} FloorShift(x: int, q: int)
    ensures (x + WORD * q) / BLOCK_SIZE == x / BLOCK_SIZE + (WORD / BLOCK_SIZE) * q
  {
  }

  lemma {:induction false} BlocksBefore(n: nat)
    ensures (n - 1) / BLOCK_SIZE + 1 == BlocksFor(n)
  {
  }

  /** The base of the slot before `x`; one turn is added so that nothing is negative. */
  lemma {:induction false} BaseBefore(x: nat)
    ensures BlockBase((x - 1) % WORD) == Key(BlocksFor(x) - 1 + WORD / BLOCK_SIZE)
  {
    WordShift(x - 1, 1);
    BaseOfWord(x - 1 + WORD);
    FloorShift(x - 1, 1);
    BlocksBefore(x);
  }

  lemma {:induction false} DiffOfWords(start: nat, count: nat)
    ensures BlockBaseDiff(start % WORD, count) == BlockBaseDiff(start, count)
  {
    var w, q := start % WORD, start / WORD;
    assert start == w + WORD * q;
    WordShift(w + count - 1, q);
    WordShift(w - 1, q);
  }

  lemma {:induction false} FewBlocks(start: nat, count: nat)
    requires count <= HALF
    ensures 0 <= (BlocksFor(start + count) - BlocksFor(start)) * BLOCK_SIZE < WORD
  {
  }

  /** Bases less than a turn apart differ by the block size times the difference of their numbers. */
  lemma {:induction false} NearKeys(m: nat, t: nat)
    requires 0 <= (m - t) * BLOCK_SIZE < WORD
    ensures (Key(m) - Key(t)) % WORD == (m - t) * BLOCK_SIZE
  {
    KeyDifference(m, t);
  }

  /** It is the block size times the number of blocks to allocate. */
  lemma {:induction false} BlockBaseDiffCounts(start: nat, count: nat)
    requires count <= HALF
    ensures BlockBaseDiff(start % WORD, count) == BLOCK_SIZE * BlockStarts(start, count)
    ensures BlockStarts(start, count) == BlocksFor(start + count) - BlocksFor(start)
  {
    BlockStartsCount(start, count);
    DiffOfWords(start, count);
    BaseBefore(start + count);
    BaseBefore(start);
    FewBlocks(start, count);
    hide BlocksFor, BlockBase, Key, BlockStarts;
    NearKeys(BlocksFor(start + count) - 1 + WORD / BLOCK_SIZE, BlocksFor(start) - 1 + WORD / BLOCK_SIZE);
  }

  // ---------------------------------------------------------------- capacities

  function Pow2(k: nat): (p: nat)
    ensures p > 0
  {
    if k == 0 then 1 else 2 * Pow2(k - 1)
  }

  /** Capacities are powers of two, so that masking is a remainder and a turn of a word is a whole number of rings. */
  ghost predicate Capacity(n: nat) {
    exists k: nat :: k <= 63 && n == Pow2(k)
  }

  lemma {:induction false} Pow2Sum(a: nat, b: nat)
    ensures Pow2(a + b) == Pow2(a) * Pow2(b)
  {
    if a > 0 {
      Pow2Sum(a - 1, b);
      assert Pow2(a + b) == 2 * Pow2(a + b - 1);
      assert 2 * (Pow2(a - 1) * Pow2(b)) == (2 * Pow2(a - 1)) * Pow2(b);
    }
  }

  lemma {:induction false} Pow2Of64()
    ensures Pow2(64) == WORD
  {
    assert Pow2(8) == 256;
    Pow2Sum(8, 8);
    Pow2Sum(16, 16);
    Pow2Sum(32, 32);
  }

  lemma {:induction false} CapacityDividesWord(n: nat) returns (q: nat)
    requires Capacity(n)
    ensures n > 0 && WORD == n * q
  {
    var k: nat :| k <= 63 && n == Pow2(k);
    Pow2Of64();
    Pow2Sum(k, 64 - k);
    q := Pow2(64 - k);
  }

  lemma {:induction false} CapacityDoubles(n: nat)
    requires Capacity(n)
    ensures 2 * n < WORD ==> Capacity(2 * n)
  {
    var k: nat :| k <= 63 && n == Pow2(k);
    assert Pow2(k + 1) == 2 * n;
    if k == 63 {
      Pow2Of64();
    }
  }

  // ---------------------------------------------------------------- remainders by a capacity

  /** `x & (n - 1)` for a 64-bit `x`. */
  function Mask(x: int, n: nat): (r: nat)
    requires n > 0
    ensures r < n
  {
    (x % WORD) % n
  }

  /** Masking a word is the remainder of the unwrapped number. */
  lemma {:induction false} MaskIsRemainder(x: int, n: nat)
    requires Capacity(n)
    ensures n > 0 && Mask(x, n) == x % n
  {
    var q := CapacityDividesWord(n);
    var turns := x / WORD;
    assert x == x % WORD + n * (q * turns) by {
      assert WORD * turns == n * (q * turns);
    }
    ModShift(x % WORD, q * turns, n);
  }

  // ---------------------------------------------------------------- operations on the ring

  ghost predicate Shape(ix: Index) {
    && Capacity(|ix.ring|) && |ix.ring| > 0 && ix.tail < |ix.ring|
    && (forall i :: 0 <= i < |ix.ring| ==> ix.ring[i] < |ix.entries|)
    && (forall i, j :: 0 <= i < j < |ix.ring| ==> ix.ring[i] != ix.ring[j])
  }

  function EntryAt(ix: Index, pos: nat): Entry
    requires pos < |ix.ring| && ix.ring[pos] < |ix.entries|
  {
    ix.entries[ix.ring[pos]]
  }

  /** An entry that can be given to a new block. */
  predicate Vacant(e: Entry) {
    e.key == INVALID_BLOCK_BASE || e.value == Null
  }

  function NextTail(ix: Index): nat
    requires |ix.ring| > 0
  {
    Mask(ix.tail + 1, |ix.ring|)
  }

  function SetEntry(ix: Index, pos: nat, e: Entry): Index
    requires pos < |ix.ring| && ix.ring[pos] < |ix.entries|
  {
    ix.(entries := ix.entries[ix.ring[pos] := e])
  }

  /** The insertion proper: the key, then the tail. */
  function Insert(ix: Index, key: nat): Index
    requires |ix.ring| > 0 && ix.ring[NextTail(ix)] < |ix.entries|
  {
    SetEntry(ix, NextTail(ix), EntryAt(ix, NextTail(ix)).(key := key)).(tail := NextTail(ix))
  }

  function SetValue(ix: Index, pos: nat, v: Ptr): Index
    requires pos < |ix.ring| && ix.ring[pos] < |ix.entries|
  {
    SetEntry(ix, pos, EntryAt(ix, pos).(value := v))
  }

  function Rewind(ix: Index): Index
    requires |ix.ring| > 0
  {
    ix.(tail := Mask(ix.tail - 1, |ix.ring|))
  }

  /** `get_block_index_index_for_index` for the word of a slot. */
  function Lookup(ix: Index, slot: nat): (pos: nat)
    requires |ix.ring| > 0 && ix.tail < |ix.ring| && ix.ring[ix.tail] < |ix.entries|
    ensures pos < |ix.ring|
  {
    var tailBase := EntryAt(ix, ix.tail).key;
    var offset := Truncated(Signed((BlockBase(slot) - tailBase) % WORD), BLOCK_SIZE);
    Mask(ix.tail + offset % WORD, |ix.ring|)
  }

  /** Entries in new memory: the key is set, the value is whatever was there. */
  function NewEntries(garbage: seq<Ptr>): (es: seq<Entry>)
    ensures |es| == |garbage| && forall i :: 0 <= i < |es| ==> es[i] == Entry(INVALID_BLOCK_BASE, garbage[i])
  {
    seq(|garbage|, i requires 0 <= i < |garbage| => Entry(INVALID_BLOCK_BASE, garbage[i]))
  }

  function Grown(ix: Index, i: nat): nat
    requires |ix.ring| > 0 && i < 2 * |ix.ring|
  {
    if i < |ix.ring| then ix.ring[Mask(ix.tail + 1 + i, |ix.ring|)] else |ix.entries| + (i - |ix.ring|)
  }

  /** The bigger ring: the old one from behind its tail, then as many new entries. */
  function Grow(ix: Index, garbage: seq<Ptr>): Index
    requires |ix.ring| > 0 && |garbage| == |ix.ring|
  {
    var n := |ix.ring|;
    Index(seq(2 * n, i requires 0 <= i < 2 * n => Grown(ix, i)),
          Mask(n - 1, 2 * n),
          ix.entries + NewEntries(garbage))
  }

  /** The first ring, of new entries only. */
  function First(n: nat, garbage: seq<Ptr>): Index
    requires n > 0 && |garbage| == n
  {
    Index(seq(n, i => i), Mask(-1, n), NewEntries(garbage))
  }

  // ---------------------------------------------------------------- what the ring stands for

  /** The place of block number `m` in a ring whose place 0 belongs to number `-o`. */
  function Slot(ix: Index, o: int, m: int): (pos: nat)
    requires |ix.ring| > 0
    ensures pos < |ix.ring|
  {
    (o + m) % |ix.ring|
  }

  /** The tail of the ring is the place of number `t`. */
  ghost predicate TailAt(ix: Index, o: int, t: int) {
    Shape(ix) && ix.tail == Slot(ix, o, t)
  }

  predicate Filled(ix: Index, o: int, m: int, v: Ptr) {
    && |ix.ring| > 0 && ix.ring[Slot(ix, o, m)] < |ix.entries| && m >= 0
    && EntryAt(ix, Slot(ix, o, m)) == Entry(Key(m), v)
  }

  predicate Entered(ix: Index, o: int, lo: nat, vals: seq<Ptr>, m: int) {
    lo <= m < lo + |vals| && Filled(ix, o, m, vals[m - lo])
  }

  predicate Free(ix: Index, o: int, m: int) {
    && |ix.ring| > 0 && ix.ring[Slot(ix, o, m)] < |ix.entries|
    && Vacant(EntryAt(ix, Slot(ix, o, m)))
  }

  /** The ring holds the blocks `vals` for the numbers from `lo` on, each under its own base, and all else is vacant. */
  ghost predicate Represents(ix: Index, o: int, lo: nat, vals: seq<Ptr>) {
    && Shape(ix) && |vals| <= |ix.ring|
    && (forall m :: lo <= m < lo + |vals| ==> Entered(ix, o, lo, vals, m))
    && (forall m :: lo + |vals| <= m < lo + |ix.ring| ==> Free(ix, o, m))
  }

  // ---------------------------------------------------------------- what the operations do to it

  lemma {:induction false} SlotAdd(ix: Index, o: int, m: int, d: int)
    requires |ix.ring| > 0
    ensures (Slot(ix, o, m) + d) % |ix.ring| == Slot(ix, o, m + d)
  {
    ModAdd(o + m, d, |ix.ring|);
  }

  /** Numbers less than a ring apart have different entries. */
  lemma {:induction false} SlotsDiffer(ix: Index, o: int, a: int, b: int)
    requires Shape(ix) && 0 < b - a < |ix.ring|
    ensures Slot(ix, o, a) != Slot(ix, o, b)
    ensures ix.ring[Slot(ix, o, a)] != ix.ring[Slot(ix, o, b)]
  {
    ModDistinct(o + a, o + b, |ix.ring|);
  }

  /** A whole ring further is the same place. */
  lemma {:induction false} SlotWraps(ix: Index, o: int, m: int)
    requires |ix.ring| > 0
    ensures Slot(ix, o, m + |ix.ring|) == Slot(ix, o, m)
  {
    ModShift(o + m, 1, |ix.ring|);
  }

  /** One insertion moves the tail to the next number, one rewind back to the previous one. */
  lemma {:induction false} TailMoves(ix: Index, o: int, t: int)
    requires TailAt(ix, o, t)
    ensures NextTail(ix) == Slot(ix, o, t + 1)
    ensures TailAt(Rewind(ix), o, t - 1)
  {
    MaskIsRemainder(ix.tail + 1, |ix.ring|);
    MaskIsRemainder(ix.tail - 1, |ix.ring|);
    SlotAdd(ix, o, t, 1);
    SlotAdd(ix, o, t, -1);
  }

  /**
   The lookup finds the place of the slot's block number from wherever the tail stands,
   in front of it or behind it, and whatever the words have wrapped around.
   */
  lemma {:induction false} LookupFinds(ix: Index, o: int, t: nat, slot: nat)
    requires TailAt(ix, o, t) && EntryAt(ix, ix.tail).key == Key(t)
    requires 0 - HALF <= (slot / BLOCK_SIZE - t) * BLOCK_SIZE < HALF
    ensures Lookup(ix, slot % WORD) == Slot(ix, o, slot / BLOCK_SIZE)
  {
    hide BlockBase, Signed, Truncated, Mask, Key, Slot, Capacity;
    var m, n := slot / BLOCK_SIZE, |ix.ring|;
    BaseOfWord(slot);
    SignedDistance(m, t);
    MaskWord(ix.tail, m - t, n);
    SlotAdd(ix, o, t, m - t);
    hide Shape;
    assert Lookup(ix, slot % WORD) == Mask(ix.tail + (m - t) % WORD, n);
  }

  lemma {:induction false} MaskWord(tail: nat, d: int, n: nat)
    requires Capacity(n)
    ensures n > 0 && Mask(tail + d % WORD, n) == (tail + d) % n
  {
    MaskIsRemainder(tail + d % WORD, n);
    var q := CapacityDividesWord(n);
    var turns := d / WORD;
    assert tail + d == tail + d % WORD + n * (q * turns) by {
      assert WORD * turns == n * (q * turns);
    }
    ModShift(tail + d % WORD, q * turns, n);
  }

  /** With all blocks in place the entry behind the tail is vacant exactly when the ring is not full. */
  lemma {:induction false} VacantUnlessFull(ix: Index, o: int, lo: nat, vals: seq<Ptr>)
    requires Represents(ix, o, lo, vals) && TailAt(ix, o, lo + |vals| - 1)
    requires forall i :: 0 <= i < |vals| ==> vals[i].At?
    ensures Vacant(EntryAt(ix, NextTail(ix))) <==> |vals| < |ix.ring|
  {
    TailMoves(ix, o, lo + |vals| - 1);
    if |vals| < |ix.ring| {
      assert Free(ix, o, lo + |vals|);
    } else {
      SlotWraps(ix, o, lo);
      assert Entered(ix, o, lo, vals, lo);
    }
  }

  lemma {:induction false} InsertPreserves(ix: Index, o: int, hi: nat, m: int)
    requires Shape(ix) && NextTail(ix) == Slot(ix, o, hi)
    requires 0 < hi - m < |ix.ring| || 0 < m - hi < |ix.ring|
    ensures EntryAt(Insert(ix, Key(hi)), Slot(ix, o, m)) == EntryAt(ix, Slot(ix, o, m))
  {
    if m < hi {
      SlotsDiffer(ix, o, m, hi);
    } else {
      SlotsDiffer(ix, o, hi, m);
    }
  }

  lemma {:induction false} InsertKeeps(ix: Index, o: int, lo: nat, vals: seq<Ptr>)
    requires Represents(ix, o, lo, vals) && |vals| < |ix.ring| && TailAt(ix, o, lo + |vals| - 1)
    ensures ix.ring[NextTail(ix)] < |ix.entries|
    ensures var ix' := Insert(ix, Key(lo + |vals|));
      && TailAt(ix', o, lo + |vals|) && ix'.tail == NextTail(ix)
      && Represents(ix', o, lo, vals + [EntryAt(ix, NextTail(ix)).value])
  {
    var hi := lo + |vals|;
    TailMoves(ix, o, hi - 1);
    var ix' := Insert(ix, Key(hi));
    var vals' := vals + [EntryAt(ix, NextTail(ix)).value];
    forall m | lo <= m < lo + |vals'| ensures Entered(ix', o, lo, vals', m) {
      if m < hi {
        assert Entered(ix, o, lo, vals, m);
        InsertPreserves(ix, o, hi, m);
      }
    }
    forall m | lo + |vals'| <= m < lo + |ix.ring| ensures Free(ix', o, m) {
      assert Free(ix, o, m);
      InsertPreserves(ix, o, hi, m);
    }
  }

  lemma {:induction false} SetValueKeeps(ix: Index, o: int, lo: nat, vals: seq<Ptr>, k: nat, v: Ptr)
    requires Represents(ix, o, lo, vals) && k < |vals|
    ensures ix.ring[Slot(ix, o, lo + k)] < |ix.entries|
    ensures Represents(SetValue(ix, Slot(ix, o, lo + k), v), o, lo, vals[k := v])
  {
    var ix' := SetValue(ix, Slot(ix, o, lo + k), v);
    assert Entered(ix, o, lo, vals, lo + k);
    var vals' := vals[k := v];
    forall m | lo <= m < lo + |vals| ensures Entered(ix', o, lo, vals', m) {
      assert Entered(ix, o, lo, vals, m);
      if m < lo + k {
        SlotsDiffer(ix, o, m, lo + k);
      } else if m > lo + k {
        SlotsDiffer(ix, o, lo + k, m);
      }
    }
    forall m | lo + |vals| <= m < lo + |ix.ring| ensures Free(ix', o, m) {
      assert Free(ix, o, m);
      SlotsDiffer(ix, o, lo + k, m);
    }
  }

  /** Moving the tail alone changes nothing of what is stored. */
  lemma {:induction false} RewindKeeps(ix: Index, o: int, lo: nat, vals: seq<Ptr>)
    requires Represents(ix, o, lo, vals)
    ensures Represents(Rewind(ix), o, lo, vals)
  {
    var ix' := Rewind(ix);
    forall m | lo <= m < lo + |vals| ensures Entered(ix', o, lo, vals, m) {
      assert Entered(ix, o, lo, vals, m);
    }
    forall m | lo + |vals| <= m < lo + |ix.ring| ensures Free(ix', o, m) {
      assert Free(ix, o, m);
    }
  }

  /** Cleared entries at the end of the range are vacant. */
  lemma {:induction false} DropEnd(ix: Index, o: int, lo: nat, vals: seq<Ptr>, k: nat)
    requires Represents(ix, o, lo, vals) && k <= |vals|
    requires forall i :: k <= i < |vals| ==> vals[i] == Null
    ensures Represents(ix, o, lo, vals[..k])
  {
    forall m | lo <= m < lo + k ensures Entered(ix, o, lo, vals[..k], m) {
      assert Entered(ix, o, lo, vals, m);
    }
    forall m | lo + k <= m < lo + |ix.ring| ensures Free(ix, o, m) {
      if m < lo + |vals| {
        assert Entered(ix, o, lo, vals, m);
      }
    }
  }

  /** A cleared entry at its start is vacant for the number one ring further. */
  lemma {:induction false} DropStart(ix: Index, o: int, lo: nat, vals: seq<Ptr>)
    requires Represents(ix, o, lo, vals) && |vals| > 0 && vals[0] == Null
    ensures Represents(ix, o, lo + 1, vals[1..])
  {
    var l, vals' := lo + 1, vals[1..];
    forall m | l <= m < lo + |vals| ensures Entered(ix, o, l, vals', m) {
      assert Entered(ix, o, lo, vals, m);
    }
    forall m | lo + |vals| <= m < lo + 1 + |ix.ring| ensures Free(ix, o, m) {
      if m == lo + |ix.ring| {
        assert Entered(ix, o, lo, vals, lo);
        SlotWraps(ix, o, lo);
      }
    }
  }

  // ---------------------------------------------------------------- doubling the ring

  /** The place in the bigger ring of a number up to one old ring in front of the tail. */
  lemma {:induction false} GrownSlot(ix: Index, o: int, t: int, garbage: seq<Ptr>, m: int)
    requires TailAt(ix, o, t) && |garbage| == |ix.ring|
    requires t - |ix.ring| < m <= t
    ensures var g := Grow(ix, garbage); var o' := |ix.ring| - 1 - t;
      && Slot(g, o', m) == o' + m < |ix.ring|
      && g.ring[Slot(g, o', m)] == ix.ring[Slot(ix, o, m)]
  {
    var n := |ix.ring|;
    var i := n - 1 - t + m;
    ModUnique(i, 2 * n, 0, i);
    MaskIsRemainder(ix.tail + 1 + i, n);
    SlotAdd(ix, o, t, 1 + i);
    SlotWraps(ix, o, m);
  }

  lemma {:induction false} GrowShape(ix: Index, garbage: seq<Ptr>)
    requires Shape(ix) && |garbage| == |ix.ring| && 2 * |ix.ring| < WORD
    ensures Shape(Grow(ix, garbage)) && Grow(ix, garbage).tail == |ix.ring| - 1
  {
    var n := |ix.ring|;
    var g := Grow(ix, garbage);
    CapacityDoubles(n);
    MaskIsRemainder(n - 1, 2 * n);
    ModUnique(n - 1, 2 * n, 0, n - 1);
    forall i, j | 0 <= i < j < 2 * n ensures g.ring[i] != g.ring[j] {
      if j < n {
        MaskIsRemainder(ix.tail + 1 + i, n);
        MaskIsRemainder(ix.tail + 1 + j, n);
        ModDistinct(ix.tail + 1 + i, ix.tail + 1 + j, n);
      }
    }
  }

  lemma {:induction false} GrownFree(ix: Index, o: int, lo: nat, vals: seq<Ptr>, garbage: seq<Ptr>, m: int)
    requires Represents(ix, o, lo, vals) && TailAt(ix, o, lo + |vals| - 1)
    requires |garbage| == |ix.ring| && 2 * |ix.ring| < WORD
    requires lo + |vals| <= m < lo + 2 * |ix.ring|
    ensures Free(Grow(ix, garbage), |ix.ring| - lo - |vals|, m)
  {
    var n, t := |ix.ring|, lo + |vals| - 1;
    var o' := n - 1 - t;
    if m <= t + n {
      ModUnique(o' + m, 2 * n, 0, o' + m);
    } else {
      GrownSlot(ix, o, t, garbage, m - 2 * n);
      ModShift(o' + m - 2 * n, 1, 2 * n);
      SlotWraps(ix, o, m - 2 * n);
      assert Free(ix, o, m - n);
    }
  }

  lemma {:induction false} GrownEntered(ix: Index, o: int, lo: nat, vals: seq<Ptr>, garbage: seq<Ptr>, m: int)
    requires Represents(ix, o, lo, vals) && TailAt(ix, o, lo + |vals| - 1)
    requires |garbage| == |ix.ring| && lo <= m < lo + |vals|
    ensures Entered(Grow(ix, garbage), |ix.ring| - lo - |vals|, lo, vals, m)
  {
    assert Entered(ix, o, lo, vals, m);
    GrownSlot(ix, o, lo + |vals| - 1, garbage, m);
  }

  /** Behind the tail of the bigger ring lies the first of its new entries. */
  lemma {:induction false} GrownTailIsNew(ix: Index, garbage: seq<Ptr>)
    requires Shape(ix) && |garbage| == |ix.ring| && 2 * |ix.ring| < WORD
    ensures Shape(Grow(ix, garbage))
    ensures EntryAt(Grow(ix, garbage), NextTail(Grow(ix, garbage))).key == INVALID_BLOCK_BASE
  {
    var n := |ix.ring|;
    GrowShape(ix, garbage);
    MaskIsRemainder(n, 2 * n);
    ModUnique(n, 2 * n, 0, n);
  }

  /** Doubling keeps every block under its base; the new room is vacant. */
  lemma {:induction false} GrowKeeps(ix: Index, o: int, lo: nat, vals: seq<Ptr>, garbage: seq<Ptr>)
    requires Represents(ix, o, lo, vals) && TailAt(ix, o, lo + |vals| - 1)
    requires |garbage| == |ix.ring| && 2 * |ix.ring| < WORD
    ensures var o' := |ix.ring| - lo - |vals|;
      Represents(Grow(ix, garbage), o', lo, vals) && TailAt(Grow(ix, garbage), o', lo + |vals| - 1)
  {
    var n, t := |ix.ring|, lo + |vals| - 1;
    var o' := n - 1 - t;
    var g := Grow(ix, garbage);
    GrowShape(ix, garbage);
    GrownSlot(ix, o, t, garbage, t);
    forall m | lo <= m < lo + |vals| ensures Entered(g, o', lo, vals, m) {
      GrownEntered(ix, o, lo, vals, garbage, m);
    }
    forall m | lo + |vals| <= m < lo + 2 * n ensures Free(g, o', m) {
      GrownFree(ix, o, lo, vals, garbage, m);
    }
  }

  /** The first ring stands for no blocks, with its tail in front of number 0. */
  lemma {:induction false} FirstRepresents(n: nat, garbage: seq<Ptr>)
    requires Capacity(n) && |garbage| == n
    ensures n > 0 && Represents(First(n, garbage), 0, 0, []) && TailAt(First(n, garbage), 0, -1)
  {
    MaskIsRemainder(-1, n);
    forall m | 0 <= m < n ensures Free(First(n, garbage), 0, m) {
    }
  }
}
