/**
 The circular block index while consumers look blocks up in it: one producer that inserts,
 rewinds and doubles, and any number of consumers that load the index, its tail, a key and
 an entry one after the other, each possibly out of date by the time it is used.

 A consumer looks up blocks in which it has claimed slots it has not counted yet, so none of
 them is returned meanwhile (shown in `ConcurrentProducer`). Block numbers are unbounded; the index holds
 their bases as 64-bit words.
 */
module BlockIndex {
  import opened Blocks
  import opened CircularIndex
  import opened Remainders
  import opened Words

  /** Memory for the index is limited; bases in one ring are then less than half a turn apart. */
  const MAX_CAPACITY: nat := 0x100_0000_0000_0000

  /** A generation of the index. `origin` places block numbers in its ring, `last` is the number at its tail (auxiliary). */
  datatype Gen = Gen(ring: seq<nat>, tail: nat, origin: int, last: int)

  datatype ProducerPc =
    | Ready
    | Growing
    | StoreKey
    | StoreTail
    | Filling
    | ClearOwn
    | RollClear(i: nat, k: nat)
    | RollRewind(i: nat, k: nat)

  /** A consumer needs the blocks `c` to `end`; it works with generation `g`. `t` is the number whose place `tail` is (auxiliary). */
  datatype Consumer =
    | Outside
    | LoadIndex(c: nat, end: nat)
    | LoadTail(c: nat, end: nat, g: nat)
    | LoadKey(c: nat, end: nat, g: nat, tail: nat, t: nat)
    | LoadValue(c: nat, end: nat, g: nat, pos: nat)
    | Holding(c: nat, end: nat, g: nat, pos: nat, b: Ptr)

  /**
   The last generation is the current one. Auxiliary: `vals[m - low]` is the block of number
   `m`, null once returned or rolled back; `hi` is the next number to insert, the numbers up
   to `low + |vals|` have been inserted at least once, those below `published` for good.
   */
  datatype State = State(
    gens: seq<Gen>,
    entries: seq<Entry>,
    producer: ProducerPc,
    consumers: seq<Consumer>,
    low: nat,
    vals: seq<Ptr>,
    hi: nat,
    published: nat)

  datatype Event =
    | Check
    | Grow(granted: bool, garbage: seq<Ptr>)
    | Run
    | Fill(b: nat)
    | FailBlock
    | Publish(p: nat)
    | Pin(t: nat, c: nat, end: nat)
    | Look(t: nat)
    | Release(t: nat)
    | Leave(t: nat)

  function Top(s: State): nat { s.low + |s.vals| }

  function Now(s: State): nat
    requires s.gens != []
  {
    |s.gens| - 1
  }

  /** Generation `g` as an index, with the tail as a reader may remember it. */
  function View(s: State, g: nat, tail: nat): Index
    requires g < |s.gens|
  {
    Index(s.gens[g].ring, tail, s.entries)
  }

  function Current(s: State): Index
    requires s.gens != []
  {
    View(s, Now(s), s.gens[Now(s)].tail)
  }

  function Origin(s: State): int
    requires s.gens != []
  {
    s.gens[Now(s)].origin
  }

  function SetCurrent(s: State, ix: Index): State
    requires s.gens != []
  {
    s.(gens := s.gens[Now(s) := s.gens[Now(s)].(ring := ix.ring, tail := ix.tail)], entries := ix.entries)
  }

  function Goto(s: State, t: nat, pc: Consumer): State
    requires t < |s.consumers|
  {
    s.(consumers := s.consumers[t := pc])
  }

  /** Consumer `pc` still needs the block of number `m`. */
  predicate Needs(pc: Consumer, m: nat) {
    !pc.Outside? && pc.c <= m <= pc.end
  }

  // ---------------------------------------------------------------- the steps

  /** What is done when an allocation has failed: roll the unpublished blocks back, if there are any. */
  function Failed(s: State): ProducerPc
    requires s.published <= s.hi
  {
    if s.published < s.hi then RollClear(0, s.hi - s.published) else Ready
  }

  /** The key of the entry behind the tail. The entry of a number one ring back is given up with it. */
  function StepStoreKey(s: State): State
    requires s.gens != [] && Shape(Current(s))
  {
    var ix := Current(s);
    var pos := NextTail(ix);
    var s1 := SetCurrent(s, SetEntry(ix, pos, EntryAt(ix, pos).(key := Key(s.hi)))).(producer := StoreTail);
    if s.hi < Top(s) then s1
    else if |s.vals| == |ix.ring| && s.vals != [] then
      s1.(low := s.low + 1, vals := s.vals[1..] + [EntryAt(ix, pos).value])
    else s1.(vals := s.vals + [EntryAt(ix, pos).value])
  }

  function StepGrow(s: State, granted: bool, garbage: seq<Ptr>): State
    requires s.gens != [] && Shape(Current(s)) && |garbage| == |Current(s).ring| && s.published <= s.hi
  {
    var n := |Current(s).ring|;
    if !granted || 2 * n > MAX_CAPACITY then s.(producer := Failed(s))
    else
      var ix := CircularIndex.Grow(Current(s), garbage);
      s.(gens := s.gens[Now(s) := s.gens[Now(s)].(last := Top(s) - 1)] + [Gen(ix.ring, ix.tail, n - Top(s), 0)],
         entries := ix.entries, producer := StoreKey)
  }

  /** Sets the value of number `m`, found by its place. */
  function SetNumber(s: State, pos: nat, m: nat, v: Ptr): State
    requires s.gens != [] && Shape(Current(s)) && pos < |Current(s).ring| && s.low <= m < Top(s)
  {
    SetCurrent(s, SetValue(Current(s), pos, v)).(vals := s.vals[m - s.low := v])
  }

  /** The producer's next access, where it has no choice. */
  function StepRun(s: State): State
    requires CanRun(s)
  {
    match s.producer
    case StoreKey => StepStoreKey(s)
    case StoreTail => SetCurrent(s, Current(s).(tail := NextTail(Current(s)))).(hi := s.hi + 1, producer := Filling)
    case ClearOwn =>
      SetNumber(s, NextTail(Current(s)), s.hi, Null).(producer := Failed(s))
    case RollClear(i, k) =>
      SetNumber(s, Lookup(Current(s), Key(s.published + i)), s.published + i, Null).(producer := RollRewind(i, k))
    case RollRewind(i, k) =>
      SetCurrent(s, Rewind(Current(s)))
        .(hi := if s.hi > 0 then s.hi - 1 else 0, producer := if i + 1 < k then RollClear(i + 1, k) else Ready)
  }

  ghost predicate CanRun(s: State) {
    && s.gens != [] && Shape(Current(s))
    && match s.producer {
         case StoreKey => true
         case StoreTail => true
         case ClearOwn => s.low <= s.hi < Top(s) && s.published <= s.hi
         case RollClear(i, _) => s.low <= s.published + i < Top(s)
         case RollRewind(_, _) => true
         case _ => false
       }
  }

  /** The next access of a lookup: the index, its tail, the key there, the entry. */
  function StepLook(s: State, t: nat): State
    requires CanLook(s, t)
  {
    match s.consumers[t]
    case LoadIndex(c, end) => Goto(s, t, LoadTail(c, end, Now(s)))
    case LoadTail(c, end, g) =>
      Goto(s, t, LoadKey(c, end, g, s.gens[g].tail, if g == Now(s) then (if s.hi > 0 then s.hi - 1 else 0) else s.gens[g].last))
    case LoadKey(c, end, g, tail, _) => Goto(s, t, LoadValue(c, end, g, Lookup(View(s, g, tail), Key(c))))
    case LoadValue(c, end, g, pos) => Goto(s, t, Holding(c, end, g, pos, EntryAt(View(s, g, pos), pos).value))
  }

  predicate CanLook(s: State, t: nat) {
    && t < |s.consumers| && s.gens != []
    && match s.consumers[t] {
         case LoadIndex(_, _) => true
         case LoadTail(_, _, g) => g < |s.gens| && (g < Now(s) ==> s.gens[g].last >= 0)
         case LoadKey(_, _, g, tail, _) =>
           g < |s.gens| && tail < |s.gens[g].ring| && s.gens[g].ring[tail] < |s.entries|
         case LoadValue(_, _, g, pos) =>
           g < |s.gens| && pos < |s.gens[g].ring| && s.gens[g].ring[pos] < |s.entries|
         case _ => false
       }
  }

  predicate CanLeave(s: State, t: nat) {
    && t < |s.consumers| && s.consumers[t].Holding? && s.gens != []
    && s.consumers[t].g < |s.gens| && s.consumers[t].pos < |s.gens[s.consumers[t].g].ring|
    && s.gens[s.consumers[t].g].ring[s.consumers[t].pos] < |s.entries|
  }

  /** On to the entry of the next block, one place further in the same ring. */
  function NextBlock(s: State, t: nat): Consumer
    requires CanLeave(s, t)
  {
    var Holding(c, end, g, pos, _) := s.consumers[t];
    if c < end then LoadValue(c + 1, end, g, Mask(pos + 1, |s.gens[g].ring|)) else Outside
  }

  /** A block is returned by a consumer that holds it when no other consumer needs it any more. */
  predicate LastOfBlock(s: State, t: nat) {
    && t < |s.consumers| && s.consumers[t].Holding?
    && forall u :: 0 <= u < |s.consumers| && u != t ==> !Needs(s.consumers[u], s.consumers[t].c)
  }

  predicate AllAt(s: State, a: nat, b: nat) {
    s.low <= a && b <= Top(s) && forall i :: a - s.low <= i < b - s.low ==> s.vals[i].At?
  }

  ghost predicate Allowed(s: State, e: Event) {
    match e
    case Check => s.gens != [] && Shape(Current(s)) && s.producer == Ready
    case Grow(_, garbage) =>
      s.gens != [] && Shape(Current(s)) && s.producer == Growing && |garbage| == |Current(s).ring| && s.published <= s.hi
    case Run => CanRun(s)
    case Fill(_) => s.gens != [] && Shape(Current(s)) && s.producer == Filling && s.low < s.hi <= Top(s)
    case FailBlock => s.gens != [] && Shape(Current(s)) && s.producer == Filling && s.hi > 0
    case Publish(p) => s.producer == Ready && s.published <= p <= s.hi
    case Pin(t, c, end) => t < |s.consumers| && s.consumers[t].Outside? && c <= end < s.published && AllAt(s, c, end + 1)
    case Look(t) => CanLook(s, t)
    case Release(t) => CanLeave(s, t) && LastOfBlock(s, t) && s.low <= s.consumers[t].c < Top(s)
    case Leave(t) => CanLeave(s, t)
  }

  function Apply(s: State, e: Event): State
    requires Allowed(s, e)
  {
    match e
    case Check => s.(producer := if Vacant(EntryAt(Current(s), NextTail(Current(s)))) then StoreKey else Growing)
    case Grow(granted, garbage) => StepGrow(s, granted, garbage)
    case Run => StepRun(s)
    case Fill(b) => SetNumber(s, Current(s).tail, s.hi - 1, At(b)).(producer := Ready)
    case FailBlock => SetCurrent(s, Rewind(Current(s))).(hi := s.hi - 1, producer := ClearOwn)
    case Publish(p) => s.(published := p)
    case Pin(t, c, end) => Goto(s, t, LoadIndex(c, end))
    case Look(t) => StepLook(s, t)
    case Release(t) =>
      var Holding(c, _, g, pos, _) := s.consumers[t];
      var e := s.gens[g].ring[pos];
      Goto(s.(entries := s.entries[e := s.entries[e].(value := Null)], vals := s.vals[c - s.low := Null]), t, NextBlock(s, t))
    case Leave(t) => Goto(s, t, NextBlock(s, t))
  }

  // ---------------------------------------------------------------- the invariant

  function EntryOfNumber(gen: Gen, m: int): nat
    requires gen.ring != []
  {
    gen.ring[(gen.origin + m) % |gen.ring|]
  }

  /** Both generations lead to the same entry for number `m`. */
  predicate SameEntry(past: Gen, now: Gen, m: int) {
    past.ring != [] && now.ring != [] && EntryOfNumber(past, m) == EntryOfNumber(now, m)
  }

  /** An older generation still leads to the same entries, for all numbers that count. */
  ghost predicate GenOk(s: State, g: nat) {
    && g < |s.gens|
    && var gen := s.gens[g];
    && Shape(View(s, g, gen.tail)) && |gen.ring| <= MAX_CAPACITY
    && 0 <= gen.last < Top(s) && gen.last - s.low < |gen.ring|
    && gen.tail == (gen.origin + gen.last) % |gen.ring|
    && (forall m :: s.low <= m <= gen.last ==> SameEntry(gen, s.gens[Now(s)], m))
  }

  /** The numbers generation `g` knows. */
  function LastKnown(s: State, g: nat): int
    requires g < |s.gens|
  {
    if g == Now(s) then Top(s) - 1 else s.gens[g].last
  }

  predicate AllNull(s: State, a: nat, b: nat) {
    s.low <= a && b <= Top(s) && forall i :: a - s.low <= i < b - s.low ==> s.vals[i] == Null
  }

  predicate ProducerOk(s: State) {
    match s.producer
    case Ready => AllAt(s, s.published, s.hi) && AllNull(s, s.hi, Top(s))
    case Growing => AllAt(s, s.published, s.hi) && s.hi == Top(s) && s.gens != [] && |s.vals| == |s.gens[Now(s)].ring|
    case StoreKey =>
      && AllAt(s, s.published, s.hi) && AllNull(s, s.hi, Top(s)) && s.gens != []
      && (s.hi == Top(s) && |s.vals| == |s.gens[Now(s)].ring| ==> s.vals != [] && s.vals[0] == Null)
    case StoreTail => s.hi < Top(s) && AllAt(s, s.published, s.hi) && AllNull(s, s.hi + 1, Top(s))
    case Filling => s.published < s.hi && AllAt(s, s.published, s.hi - 1) && AllNull(s, s.hi, Top(s))
    case ClearOwn => s.hi < Top(s) && AllAt(s, s.published, s.hi) && AllNull(s, s.hi + 1, Top(s))
    case RollClear(i, k) =>
      && i < k && s.hi == s.published + k - i && s.published + k <= Top(s)
      && AllNull(s, s.published, s.published + i) && AllAt(s, s.published + i, s.published + k)
      && AllNull(s, s.published + k, Top(s))
    case RollRewind(i, k) =>
      && i < k && s.hi == s.published + k - i && s.published + k <= Top(s)
      && AllNull(s, s.published, s.published + i + 1) && AllAt(s, s.published + i + 1, s.published + k)
      && AllNull(s, s.published + k, Top(s))
  }

  predicate InGen(s: State, g: nat, end: nat) {
    g < |s.gens| && s.gens[g].ring != [] && end <= LastKnown(s, g)
  }

  ghost predicate ConsumerOk(s: State, t: nat) {
    && t < |s.consumers|
    && var pc := s.consumers[t];
    && (!pc.Outside? ==> pc.c <= pc.end < s.published && AllAt(s, pc.c, pc.end + 1))
    && match pc {
         case Outside => true
         case LoadIndex(_, _) => true
         case LoadTail(_, end, g) => InGen(s, g, end)
         case LoadKey(_, end, g, tail, n) =>
           && InGen(s, g, end) && end <= n <= LastKnown(s, g)
           && tail == (s.gens[g].origin + n) % |s.gens[g].ring|
         case LoadValue(c, end, g, pos) => InGen(s, g, end) && pos == (s.gens[g].origin + c) % |s.gens[g].ring|
         case Holding(c, end, g, pos, b) =>
           InGen(s, g, end) && pos == (s.gens[g].origin + c) % |s.gens[g].ring| && b == s.vals[c - s.low]
       }
  }

  ghost predicate IndexOk(s: State) {
    && s.gens != []
    && Represents(Current(s), Origin(s), s.low, s.vals)
    && TailAt(Current(s), Origin(s), s.hi - 1)
    && |Current(s).ring| <= MAX_CAPACITY
  }

  ghost predicate Inv(s: State) {
    && IndexOk(s)
    && s.low <= s.published <= s.hi <= Top(s)
    && ProducerOk(s)
    && (forall g :: 0 <= g < Now(s) ==> GenOk(s, g))
    && (forall t :: 0 <= t < |s.consumers| ==> ConsumerOk(s, t))
  }

  // ---------------------------------------------------------------- what a lookup finds

  /** All generations a consumer may work with have the shape of a ring, and lead to the current entries. */
  lemma {:induction false} GenFacts(s: State, g: nat, m: nat)
    requires Inv(s) && g < |s.gens| && s.low <= m <= LastKnown(s, g)
    ensures Shape(View(s, g, s.gens[g].tail)) && 0 < |s.gens[g].ring| <= MAX_CAPACITY
    ensures LastKnown(s, g) - s.low < |s.gens[g].ring| && LastKnown(s, g) < Top(s)
    ensures EntryOfNumber(s.gens[g], m) == EntryOfNumber(s.gens[Now(s)], m) < |s.entries|
    ensures s.entries[EntryOfNumber(s.gens[g], m)] == Entry(Key(m), s.vals[m - s.low])
  {
    if g < Now(s) {
      assert GenOk(s, g);
      assert SameEntry(s.gens[g], s.gens[Now(s)], m);
    }
    assert Entered(Current(s), Origin(s), s.low, s.vals, m);
  }

  /** The lookup, from a tail that may be long out of date, finds the place of the block. */
  lemma {:induction false} LookupIsExact(s: State, t: nat)
    requires Inv(s) && t < |s.consumers| && s.consumers[t].LoadKey?
    ensures CanLook(s, t)
    ensures var LoadKey(c, end, g, tail, n) := s.consumers[t];
      Lookup(View(s, g, tail), Key(c)) == (s.gens[g].origin + c) % |s.gens[g].ring|
  {
    assert ConsumerOk(s, t);
    var LoadKey(c, end, g, tail, n) := s.consumers[t];
    GenFacts(s, g, n);
    GenFacts(s, g, c);
    var ix := View(s, g, tail);
    assert TailAt(ix, s.gens[g].origin, n);
    assert c * BLOCK_SIZE / BLOCK_SIZE == c;
    LookupFinds(ix, s.gens[g].origin, n, c * BLOCK_SIZE);
  }

  /** The value a consumer is about to load is the block of its number. */
  lemma {:induction false} ValueIsExact(s: State, t: nat)
    requires Inv(s) && t < |s.consumers| && s.consumers[t].LoadValue?
    ensures CanLook(s, t)
    ensures var LoadValue(c, end, g, pos) := s.consumers[t];
      && s.low <= c < Top(s) && s.vals[c - s.low].At?
      && EntryAt(View(s, g, pos), pos) == Entry(Key(c), s.vals[c - s.low])
  {
    assert ConsumerOk(s, t);
    hide Represents, Capacity, ProducerOk;
    GenFacts(s, s.consumers[t].g, s.consumers[t].c);
  }

  // ---------------------------------------------------------------- what a step leaves alone

  /** The rings in use, and the blocks of published numbers, are as they were; what is forgotten had been returned. */
  predicate Spares(s: State, s': State) {
    && s.low <= s'.low && s.published <= s'.published && s.gens != [] && |s.gens| <= |s'.gens|
    && s.published <= Top(s) && s'.low <= s.published <= Top(s')
    && (forall g :: 0 <= g < |s.gens| ==> SparesGen(s, s', g))
    && (forall m :: s'.low <= m < s.published ==> SparesNumber(s, s', m))
    && (forall i :: 0 <= i < s'.low - s.low && i < |s.vals| ==> s.vals[i] == Null)
  }

  predicate SparesGen(s: State, s': State, g: nat) {
    && g < |s.gens| && g < |s'.gens|
    && s'.gens[g].ring == s.gens[g].ring && s'.gens[g].origin == s.gens[g].origin
    && LastKnown(s, g) <= LastKnown(s', g)
  }

  predicate SparesNumber(s: State, s': State, m: nat) {
    s.low <= m < Top(s) && s'.low <= m < Top(s') && s'.vals[m - s'.low] == s.vals[m - s.low]
  }

  lemma {:induction false} SparedConsumer(s: State, s': State, u: nat)
    requires ConsumerOk(s, u) && Spares(s, s') && u < |s'.consumers| && s'.consumers[u] == s.consumers[u]
    ensures ConsumerOk(s', u)
  {
    var pc := s.consumers[u];
    if !pc.Outside? {
      assert s.vals[pc.c - s.low].At?;
      forall i | pc.c - s'.low <= i < pc.end + 1 - s'.low ensures s'.vals[i].At? {
        assert SparesNumber(s, s', i + s'.low);
        assert s.vals[i + s'.low - s.low].At?;
      }
      if !pc.LoadIndex? {
        assert SparesGen(s, s', pc.g);
      }
      assert SparesNumber(s, s', pc.c);
    }
  }

  /** The older generations, when the current one keeps its ring and nothing new is forgotten but at the lower end. */
  lemma {:induction false} SparedGen(s: State, s': State, g: nat)
    requires GenOk(s, g) && g < |s.gens| - 1 && |s'.gens| == |s.gens| && s'.gens[g] == s.gens[g]
    requires s'.gens[Now(s)].ring == s.gens[Now(s)].ring && s'.gens[Now(s)].origin == s.gens[Now(s)].origin
    requires s.low <= s'.low && Top(s) <= Top(s') && |s'.entries| == |s.entries|
    ensures GenOk(s', g)
  {
    forall m | s'.low <= m <= s'.gens[g].last ensures SameEntry(s'.gens[g], s'.gens[Now(s')], m) {
      assert SameEntry(s.gens[g], s.gens[Now(s)], m);
    }
  }

  /** A producer step on the current generation: what is left to show of the invariant. */
  lemma {:induction false} ProducerStep(s: State, s': State)
    requires Inv(s) && IndexOk(s') && ProducerOk(s') && Spares(s, s')
    requires |s'.gens| == |s.gens| && s'.consumers == s.consumers && |s'.entries| == |s.entries|
    requires forall g :: 0 <= g < Now(s) ==> s'.gens[g] == s.gens[g]
    requires Top(s) <= Top(s') && s'.low <= s'.published <= s'.hi <= Top(s')
    ensures Inv(s')
  {
    forall g | 0 <= g < Now(s') ensures GenOk(s', g) {
      assert SparesGen(s, s', Now(s));
      SparedGen(s, s', g);
    }
    forall u | 0 <= u < |s'.consumers| ensures ConsumerOk(s', u) {
      SparedConsumer(s, s', u);
    }
  }

  // ---------------------------------------------------------------- the producer's steps

  lemma {:induction false} CheckKeeps(s: State)
    requires Inv(s) && Allowed(s, Check)
    ensures Inv(Apply(s, Check))
  {
    var s' := Apply(s, Check);
    var ix := Current(s);
    TailMoves(ix, Origin(s), s.hi - 1);
    if s.hi < Top(s) {
      assert Entered(ix, Origin(s), s.low, s.vals, s.hi);
      assert s.vals[s.hi - s.low] == Null;
    } else if |s.vals| < |ix.ring| {
      assert CircularIndex.Free(ix, Origin(s), s.hi);
    } else {
      SlotWraps(ix, Origin(s), s.low);
      assert Entered(ix, Origin(s), s.low, s.vals, s.low);
    }
    assert IndexOk(s');
    ProducerStep(s, s');
  }

  lemma {:induction false} PublishKeeps(s: State, p: nat)
    requires Inv(s) && Allowed(s, Publish(p))
    ensures Inv(Apply(s, Publish(p)))
  {
    var s' := Apply(s, Publish(p));
    assert IndexOk(s');
    ProducerStep(s, s');
  }

  /** Storing a key whose number has been inserted before changes nothing. */
  lemma {:induction false} StoreOldKey(s: State)
    requires Inv(s) && s.producer == StoreKey && s.hi < Top(s)
    ensures CanRun(s) && Inv(StepRun(s))
  {
    var s' := StepRun(s);
    var ix := Current(s);
    TailMoves(ix, Origin(s), s.hi - 1);
    assert Entered(ix, Origin(s), s.low, s.vals, s.hi);
    assert s'.entries == s.entries;
    assert s'.gens == s.gens;
    ProducerStep(s, s');
  }

  lemma {:induction false} KeyStored(ix: Index, o: int, low: nat, vals: seq<Ptr>, hi: nat)
    requires Represents(ix, o, low, vals) && TailAt(ix, o, hi - 1) && hi == low + |vals| && |vals| < |ix.ring|
    ensures var pos := NextTail(ix); var ix' := SetEntry(ix, pos, EntryAt(ix, pos).(key := Key(hi)));
      && Represents(ix', o, low, vals + [EntryAt(ix, pos).value]) && TailAt(ix', o, hi - 1)
  {
    InsertKeeps(ix, o, low, vals);
    var pos := NextTail(ix);
    var ix1 := Insert(ix, Key(hi));
    var vals1 := vals + [EntryAt(ix, pos).value];
    TailMoves(ix1, o, hi);
    RewindKeeps(ix1, o, low, vals1);
    ModUniqueTail(ix, o, hi);
    assert Rewind(ix1) == SetEntry(ix, pos, EntryAt(ix, pos).(key := Key(hi)));
  }

  /** Forward and back again is where the tail was. */
  lemma {:induction false} ModUniqueTail(ix: Index, o: int, hi: nat)
    requires TailAt(ix, o, hi - 1)
    ensures Mask(NextTail(ix) - 1, |ix.ring|) == ix.tail
  {
    TailMoves(ix, o, hi - 1);
    MaskIsRemainder(NextTail(ix) - 1, |ix.ring|);
    SlotAdd(ix, o, hi, -1);
  }

  lemma {:induction false} ValuesFit(s: State)
    requires IndexOk(s)
    ensures |s.vals| <= |Current(s).ring|
  {
  }

  lemma {:induction false} StoreNewKey(s: State)
    requires Inv(s) && s.producer == StoreKey && s.hi == Top(s)
    ensures CanRun(s) && Inv(StepRun(s))
  {
    hide Represents, ConsumerOk, GenOk;
    ValuesFit(s);
    var s' := StepRun(s);
    var ix := Current(s);
    if |s.vals| == |ix.ring| {
      DropStart(ix, Origin(s), s.low, s.vals);
      KeyStored(ix, Origin(s), s.low + 1, s.vals[1..], s.hi);
    } else {
      KeyStored(ix, Origin(s), s.low, s.vals, s.hi);
    }
    assert IndexOk(s');
    forall m | s'.low <= m < s.published ensures SparesNumber(s, s', m) {
    }
    forall i | 0 <= i < s'.hi - s'.low && i >= s'.published - s'.low ensures s'.vals[i].At? {
      assert s'.vals[i] == s.vals[i + s'.low - s.low];
    }
    ProducerStep(s, s');
  }

  lemma {:induction false} TailFree(ix: Index, o: int, low: nat, vals: seq<Ptr>, tail: nat)
    requires Represents(ix, o, low, vals) && tail < |ix.ring|
    ensures Represents(ix.(tail := tail), o, low, vals)
  {
    var ix' := ix.(tail := tail);
    forall m | low <= m < low + |vals| ensures Entered(ix', o, low, vals, m) {
      assert Entered(ix, o, low, vals, m);
    }
    forall m | low + |vals| <= m < low + |ix.ring| ensures CircularIndex.Free(ix', o, m) {
      assert CircularIndex.Free(ix, o, m);
    }
  }

  lemma {:induction false} StoreTailKeeps(s: State)
    requires Inv(s) && s.producer == StoreTail
    ensures CanRun(s) && Inv(StepRun(s))
  {
    var s' := StepRun(s);
    var ix := Current(s);
    TailMoves(ix, Origin(s), s.hi - 1);
    TailFree(ix, Origin(s), s.low, s.vals, NextTail(ix));
    assert s'.vals == s.vals && s'.low == s.low;
    ProducerStep(s, s');
  }

  lemma {:induction false} FailBlockKeeps(s: State)
    requires Inv(s) && Allowed(s, FailBlock)
    ensures Inv(Apply(s, FailBlock))
  {
    var s' := Apply(s, FailBlock);
    var ix := Current(s);
    TailMoves(ix, Origin(s), s.hi - 1);
    RewindKeeps(ix, Origin(s), s.low, s.vals);
    assert s'.vals == s.vals && s'.low == s.low;
    ProducerStep(s, s');
  }

  /** Setting the value of an unpublished number, at its place. */
  lemma {:induction false} NumberSet(s: State, pos: nat, m: nat, v: Ptr, pc: ProducerPc)
    requires Inv(s) && s.published <= m < Top(s) && pos == Slot(Current(s), Origin(s), m)
    requires ProducerOk(SetNumber(s, pos, m, v).(producer := pc))
    ensures Inv(SetNumber(s, pos, m, v).(producer := pc))
  {
    hide Represents, ConsumerOk, GenOk;
    var s' := SetNumber(s, pos, m, v).(producer := pc);
    SetValueKeeps(Current(s), Origin(s), s.low, s.vals, m - s.low, v);
    assert IndexOk(s');
    ProducerStep(s, s');
  }

  lemma {:induction false} FillKeeps(s: State, b: nat)
    requires Inv(s) && Allowed(s, Fill(b))
    ensures Inv(Apply(s, Fill(b)))
  {
    NumberSet(s, Current(s).tail, s.hi - 1, At(b), Ready);
  }

  lemma {:induction false} ClearOwnKeeps(s: State)
    requires Inv(s) && s.producer == ClearOwn
    ensures CanRun(s) && Inv(StepRun(s))
  {
    TailMoves(Current(s), Origin(s), s.hi - 1);
    var cleared := SetNumber(s, NextTail(Current(s)), s.hi, Null);
    assert AllAt(cleared, s.published, s.hi) && AllNull(cleared, s.hi, Top(s));
    NumberSet(s, NextTail(Current(s)), s.hi, Null, Failed(cleared));
  }

  /** The rollback looks its entries up from a tail it keeps moving back. */
  lemma {:induction false} RollLookup(s: State)
    requires Inv(s) && s.producer.RollClear?
    ensures var m := s.published + s.producer.i;
      Lookup(Current(s), Key(m)) == Slot(Current(s), Origin(s), m)
  {
    var m, t := s.published + s.producer.i, s.hi - 1;
    assert Entered(Current(s), Origin(s), s.low, s.vals, t);
    assert m * BLOCK_SIZE / BLOCK_SIZE == m;
    LookupFinds(Current(s), Origin(s), t, m * BLOCK_SIZE);
  }

  lemma {:induction false} CurrentShape(s: State)
    requires Inv(s)
    ensures s.gens != [] && Shape(Current(s))
  {
  }

  lemma {:induction false} RollClearKeeps(s: State)
    requires Inv(s) && s.producer.RollClear?
    ensures CanRun(s) && Inv(StepRun(s))
  {
    hide Represents, ConsumerOk, GenOk, Lookup, IndexOk, Slot, Key;
    CurrentShape(s);
    var RollClear(i, k) := s.producer;
    var m := s.published + i;
    RollLookup(s);
    var cleared := SetNumber(s, Lookup(Current(s), Key(m)), m, Null);
    assert AllNull(cleared, s.published, m + 1) && AllAt(cleared, m + 1, s.published + k);
    NumberSet(s, Lookup(Current(s), Key(m)), m, Null, RollRewind(i, k));
  }

  lemma {:induction false} RollRewindKeeps(s: State)
    requires Inv(s) && s.producer.RollRewind?
    ensures CanRun(s) && Inv(StepRun(s))
  {
    hide Represents, GenOk, ConsumerOk;
    var s' := StepRun(s);
    var ix := Current(s);
    TailMoves(ix, Origin(s), s.hi - 1);
    RewindKeeps(ix, Origin(s), s.low, s.vals);
    assert s'.vals == s.vals && s'.low == s.low && Top(s') == Top(s);
    var RollRewind(i, k) := s.producer;
    if i + 1 == k {
      assert s'.hi == s.published;
    }
    ProducerStep(s, s');
  }

  /** Doubling: the old generation keeps leading to the same entries, and so do the ones before it. */
  lemma {:induction false} GrowNewGen(s: State, garbage: seq<Ptr>, m: nat)
    requires Inv(s) && s.producer == Growing && |garbage| == |Current(s).ring| && 2 * |Current(s).ring| <= MAX_CAPACITY
    requires s.low <= m < Top(s)
    ensures var s' := StepGrow(s, true, garbage);
      s'.gens != [] && s'.gens[Now(s')].ring != [] && s.gens[Now(s)].ring != []
      && EntryOfNumber(s'.gens[Now(s')], m) == EntryOfNumber(s.gens[Now(s)], m)
  {
    GrownSlot(Current(s), Origin(s), s.hi - 1, garbage, m);
    assert s.hi == Top(s);
  }

  lemma {:induction false} GrowIndex(s: State, garbage: seq<Ptr>)
    requires Inv(s) && s.producer == Growing && |garbage| == |Current(s).ring| && 2 * |Current(s).ring| <= MAX_CAPACITY
    ensures IndexOk(StepGrow(s, true, garbage)) && ProducerOk(StepGrow(s, true, garbage))
  {
    var s' := StepGrow(s, true, garbage);
    GrowKeeps(Current(s), Origin(s), s.low, s.vals, garbage);
    assert Current(s') == CircularIndex.Grow(Current(s), garbage);
    assert |Current(s').ring| == 2 * |Current(s).ring|;
  }

  lemma {:induction false} GrowSameEntry(s: State, garbage: seq<Ptr>, g: nat, m: nat)
    requires Inv(s) && s.producer == Growing && |garbage| == |Current(s).ring| && 2 * |Current(s).ring| <= MAX_CAPACITY
    requires g < |s.gens| && s.low <= m < Top(s) && (g < Now(s) ==> m <= s.gens[g].last)
    ensures var s' := StepGrow(s, true, garbage); SameEntry(s'.gens[g], s'.gens[Now(s')], m)
  {
    GrowNewGen(s, garbage, m);
    if g < Now(s) {
      assert GenOk(s, g);
      assert SameEntry(s.gens[g], s.gens[Now(s)], m);
    }
  }

  lemma {:induction false} GrowGens(s: State, garbage: seq<Ptr>, g: nat)
    requires Inv(s) && s.producer == Growing && |garbage| == |Current(s).ring| && 2 * |Current(s).ring| <= MAX_CAPACITY
    requires g < |s.gens|
    ensures GenOk(StepGrow(s, true, garbage), g)
  {
    hide Represents, SameEntry, ConsumerOk;
    var s' := StepGrow(s, true, garbage);
    if g < Now(s) {
      assert GenOk(s, g);
    }
    forall m | s'.low <= m <= s'.gens[g].last ensures SameEntry(s'.gens[g], s'.gens[Now(s')], m) {
      GrowSameEntry(s, garbage, g, m);
    }
  }

  lemma {:induction false} GrowKeepsAll(s: State, granted: bool, garbage: seq<Ptr>)
    requires Inv(s) && Allowed(s, Event.Grow(granted, garbage))
    ensures Inv(Apply(s, Event.Grow(granted, garbage)))
  {
    hide Represents, ConsumerOk, GenOk;
    var s' := StepGrow(s, granted, garbage);
    if !granted || 2 * |Current(s).ring| > MAX_CAPACITY {
      assert IndexOk(s');
      ProducerStep(s, s');
    } else {
      GrowIndex(s, garbage);
      forall g | 0 <= g < Now(s') ensures GenOk(s', g) {
        GrowGens(s, garbage, g);
      }
      forall u | 0 <= u < |s'.consumers| ensures ConsumerOk(s', u) {
        SparedConsumer(s, s', u);
      }
    }
  }

  // ---------------------------------------------------------------- the consumers' steps

  /** A step that only moves consumer `t` on. */
  lemma {:induction false} MoveOn(s: State, t: nat, pc: Consumer)
    requires Inv(s) && t < |s.consumers| && ConsumerOk(Goto(s, t, pc), t)
    ensures Inv(Goto(s, t, pc))
  {
    hide Represents;
    var s' := Goto(s, t, pc);
    assert IndexOk(s');
    forall g | 0 <= g < Now(s') ensures GenOk(s', g) {
      SparedGen(s, s', g);
    }
    forall u | 0 <= u < |s'.consumers| ensures ConsumerOk(s', u) {
      if u != t {
        SparedConsumer(s, s', u);
      }
    }
  }

  lemma {:induction false} PinKeeps(s: State, t: nat, c: nat, end: nat)
    requires Inv(s) && Allowed(s, Pin(t, c, end))
    ensures Inv(Apply(s, Pin(t, c, end)))
  {
    MoveOn(s, t, LoadIndex(c, end));
  }

  lemma {:induction false} LookKeeps(s: State, t: nat)
    requires Inv(s) && t < |s.consumers|
    requires s.consumers[t].LoadIndex? || s.consumers[t].LoadTail? || s.consumers[t].LoadKey? || s.consumers[t].LoadValue?
    ensures CanLook(s, t) && Inv(StepLook(s, t))
  {
    OwnLook(s, t);
    MoveOn(s, t, StepLook(s, t).consumers[t]);
  }

  lemma {:induction false} OwnLook(s: State, t: nat)
    requires Inv(s) && t < |s.consumers|
    requires s.consumers[t].LoadIndex? || s.consumers[t].LoadTail? || s.consumers[t].LoadKey? || s.consumers[t].LoadValue?
    ensures CanLook(s, t) && ConsumerOk(StepLook(s, t), t)
  {
    match s.consumers[t] {
      case LoadIndex(_, _) =>
        assert ConsumerOk(s, t);
      case LoadTail(_, _, _) => OwnTail(s, t);
      case LoadKey(_, _, _, _, _) => OwnKey(s, t);
      case LoadValue(_, _, _, _) => OwnValue(s, t);
    }
  }

  lemma {:induction false} OwnTail(s: State, t: nat)
    requires Inv(s) && t < |s.consumers| && s.consumers[t].LoadTail?
    ensures CanLook(s, t) && ConsumerOk(StepLook(s, t), t)
  {
    hide Represents, ProducerOk, Lookup, Shape;
    assert ConsumerOk(s, t);
    var LoadTail(_, end, g) := s.consumers[t];
    GenFacts(s, g, end);
    if g < Now(s) {
      assert GenOk(s, g);
    }
  }

  lemma {:induction false} OwnKey(s: State, t: nat)
    requires Inv(s) && t < |s.consumers| && s.consumers[t].LoadKey?
    ensures CanLook(s, t) && ConsumerOk(StepLook(s, t), t)
  {
    hide Represents, ProducerOk, GenOk, Lookup, Shape;
    assert ConsumerOk(s, t);
    LookupIsExact(s, t);
  }

  lemma {:induction false} OwnValue(s: State, t: nat)
    requires Inv(s) && t < |s.consumers| && s.consumers[t].LoadValue?
    ensures CanLook(s, t) && ConsumerOk(StepLook(s, t), t)
  {
    hide Represents, ProducerOk, GenOk, Lookup, Shape;
    assert ConsumerOk(s, t);
    ValueIsExact(s, t);
  }

  /** One place further is the place of the next number. */
  lemma {:induction false} NextBlockOk(s: State, t: nat)
    requires Inv(s) && t < |s.consumers| && s.consumers[t].Holding?
    ensures CanLeave(s, t)
    ensures ConsumerOk(Goto(s, t, NextBlock(s, t)), t)
    ensures var Holding(c, _, g, pos, b) := s.consumers[t];
      && s.low <= c < Top(s) && b == s.vals[c - s.low] && b.At?
      && pos < |s.gens[g].ring| && s.gens[g].ring[pos] == EntryOfNumber(s.gens[Now(s)], c)
  {
    assert ConsumerOk(s, t);
    var Holding(c, end, g, pos, b) := s.consumers[t];
    GenFacts(s, g, c);
    if c < end {
      MaskIsRemainder(pos + 1, |s.gens[g].ring|);
      ModAdd(s.gens[g].origin + c, 1, |s.gens[g].ring|);
    }
  }

  lemma {:induction false} LeaveKeeps(s: State, t: nat)
    requires Inv(s) && t < |s.consumers| && s.consumers[t].Holding?
    ensures CanLeave(s, t) && Inv(Apply(s, Leave(t)))
  {
    NextBlockOk(s, t);
    MoveOn(s, t, NextBlock(s, t));
  }

  lemma {:induction false} ReleasedIndex(s: State, t: nat)
    requires Inv(s) && Allowed(s, Release(t))
    ensures IndexOk(Apply(s, Release(t))) && ProducerOk(Apply(s, Release(t)))
  {
    ReleasedProducer(s, t);
    hide Represents, GenOk, ProducerOk;
    NextBlockOk(s, t);
    var c := s.consumers[t].c;
    SetValueKeeps(Current(s), Origin(s), s.low, s.vals, c - s.low, Null);
    assert Current(Apply(s, Release(t))) == SetValue(Current(s), Slot(Current(s), Origin(s), c), Null);
  }

  /** The block was published, so it is none of those the producer is working on. */
  lemma {:induction false} ReleasedProducer(s: State, t: nat)
    requires Inv(s) && Allowed(s, Release(t))
    ensures ProducerOk(Apply(s, Release(t)))
  {
    hide Represents, GenOk, ConsumerOk, IndexOk, Shape;
    HeldIsPublished(s, t);
  }

  lemma {:induction false} HeldIsPublished(s: State, t: nat)
    requires Inv(s) && t < |s.consumers| && s.consumers[t].Holding?
    ensures s.low <= s.consumers[t].c < s.published
  {
    assert ConsumerOk(s, t);
  }

  lemma {:induction false} ReleaseKeeps(s: State, t: nat)
    requires Inv(s) && Allowed(s, Release(t))
    ensures Inv(Apply(s, Release(t)))
  {
    hide IndexOk, GenOk, ConsumerOk, ProducerOk;
    NextBlockOk(s, t);
    var s' := Apply(s, Release(t));
    ReleasedIndex(s, t);
    forall g | 0 <= g < Now(s') ensures GenOk(s', g) {
      SparedGen(s, s', g);
    }
    forall u | 0 <= u < |s'.consumers| ensures ConsumerOk(s', u) {
      if u == t {
        ReleasedOwn(s, t);
      } else {
        ReleasedOther(s, t, u);
      }
    }
  }

  lemma {:induction false} ReleasedOwn(s: State, t: nat)
    requires Inv(s) && Allowed(s, Release(t))
    ensures ConsumerOk(Apply(s, Release(t)), t)
  {
    NextBlockOk(s, t);
    assert ConsumerOk(s, t);
  }

  lemma {:induction false} ReleasedOther(s: State, t: nat, u: nat)
    requires Inv(s) && Allowed(s, Release(t)) && u < |s.consumers| && u != t
    ensures ConsumerOk(Apply(s, Release(t)), u)
  {
    NextBlockOk(s, t);
    assert ConsumerOk(s, u);
    assert !Needs(s.consumers[u], s.consumers[t].c);
  }

  lemma {:induction false} RunKeeps(s: State)
    requires Inv(s) && CanRun(s)
    ensures Inv(StepRun(s))
  {
    match s.producer
    case StoreKey =>
      if s.hi < Top(s) {
        StoreOldKey(s);
      } else {
        StoreNewKey(s);
      }
    case StoreTail => StoreTailKeeps(s);
    case ClearOwn => ClearOwnKeeps(s);
    case RollClear(_, _) => RollClearKeeps(s);
    case RollRewind(_, _) => RollRewindKeeps(s);
  }

  lemma {:induction false} ApplyKeepsInv(s: State, e: Event)
    requires Inv(s) && Allowed(s, e)
    ensures Inv(Apply(s, e))
  {
    match e
    case Check => CheckKeeps(s);
    case Grow(granted, garbage) => GrowKeepsAll(s, granted, garbage);
    case Run =>
      RunKeeps(s);
    case Fill(b) => FillKeeps(s, b);
    case FailBlock => FailBlockKeeps(s);
    case Publish(p) => PublishKeeps(s, p);
    case Pin(t, c, end) => PinKeeps(s, t, c, end);
    case Look(t) => LookKeeps(s, t);
    case Release(t) => ReleaseKeeps(s, t);
    case Leave(t) => LeaveKeeps(s, t);
  }

  // ---------------------------------------------------------------- runs and theorems

  /** A new producer: one generation of new entries, no blocks. */
  ghost predicate Init(s: State, n: nat, garbage: seq<Ptr>) {
    && Capacity(n) && |garbage| == n <= MAX_CAPACITY
    && s.gens == [Gen(First(n, garbage).ring, First(n, garbage).tail, 0, 0)]
    && s.entries == First(n, garbage).entries && s.producer == Ready
    && (forall t :: 0 <= t < |s.consumers| ==> s.consumers[t] == Outside)
    && s.low == 0 && s.vals == [] && s.hi == 0 && s.published == 0
  }

  ghost predicate Possible(s: State, es: seq<Event>)
    decreases es
  {
    es == [] || (Allowed(s, es[0]) && Possible(Apply(s, es[0]), es[1..]))
  }

  ghost function Exec(s: State, es: seq<Event>): State
    requires Possible(s, es)
    decreases es
  {
    if es == [] then s else Exec(Apply(s, es[0]), es[1..])
  }

  lemma {:induction false} InitInv(s: State, n: nat, garbage: seq<Ptr>)
    requires n > 0 && Init(s, n, garbage)
    ensures Inv(s)
  {
    FirstRepresents(n, garbage);
    assert Current(s) == First(n, garbage);
    forall t | 0 <= t < |s.consumers| ensures ConsumerOk(s, t) {
    }
  }

  lemma {:induction false} InvAlong(s: State, es: seq<Event>)
    requires Inv(s) && Possible(s, es)
    ensures Inv(Exec(s, es))
    decreases es
  {
    hide Inv, Allowed, Apply;
    if es != [] {
      ApplyKeepsInv(s, es[0]);
      InvAlong(Apply(s, es[0]), es[1..]);
    }
  }

  /**
   Whatever the producer inserts, rolls back or doubles meanwhile, and however old the index
   and the tail a consumer works with: it ends up at the entry of its block number, which
   holds that number's base and that number's block.
   */
  lemma {:induction false} LookupsFindTheirBlock(s: State, n: nat, garbage: seq<Ptr>, es: seq<Event>, t: nat)
    requires n > 0 && Init(s, n, garbage) && Possible(s, es) && t < |Exec(s, es).consumers|
    requires Exec(s, es).consumers[t].Holding?
    ensures var z := Exec(s, es); var Holding(c, end, g, pos, b) := z.consumers[t];
      && z.low <= c < Top(z) && b.At? && b == z.vals[c - z.low]
      && g < |z.gens| && pos < |z.gens[g].ring| && z.gens[g].ring[pos] < |z.entries|
      && z.entries[z.gens[g].ring[pos]] == Entry(Key(c), b)
  {
    InitInv(s, n, garbage);
    InvAlong(s, es);
    var z := Exec(s, es);
    NextBlockOk(z, t);
    assert ConsumerOk(z, t);
    GenFacts(z, z.consumers[t].g, z.consumers[t].c);
  }

  /** A consumer in a lookup can always take its next step: no index, entry or block it needs is missing. */
  lemma {:induction false} LookupsNeverFail(s: State, n: nat, garbage: seq<Ptr>, es: seq<Event>, t: nat)
    requires n > 0 && Init(s, n, garbage) && Possible(s, es) && t < |Exec(s, es).consumers|
    ensures var pc := Exec(s, es).consumers[t];
      match pc
      case Outside => true
      case Holding(_, _, _, _, _) => CanLeave(Exec(s, es), t)
      case _ => CanLook(Exec(s, es), t)
  {
    InitInv(s, n, garbage);
    InvAlong(s, es);
    var z := Exec(s, es);
    match z.consumers[t]
    case Outside =>
    case Holding(_, _, _, _, _) => NextBlockOk(z, t);
    case _ => OwnLook(z, t);
  }

  /** Two numbers that both count have different entries, in every generation a consumer may use. */
  lemma {:induction false} EntriesAreDistinct(s: State, g: nat, a: nat, b: nat)
    requires Inv(s) && g < |s.gens| && s.low <= a < b <= LastKnown(s, g)
    ensures s.gens[g].ring != [] && EntryOfNumber(s.gens[g], a) != EntryOfNumber(s.gens[g], b)
  {
    GenFacts(s, g, a);
    GenFacts(s, g, b);
    SlotsDiffer(View(s, g, s.gens[g].tail), s.gens[g].origin, a, b);
  }

  /** A rollback ends with the tail, and all entries from the first new one on, as they would be had nothing been inserted. */
  lemma {:induction false} RollbackRestores(s: State)
    requires Inv(s) && s.producer.RollRewind? && s.producer.i + 1 == s.producer.k
    ensures CanRun(s)
    ensures var s' := StepRun(s);
      && s'.hi == s.published && s'.producer == Ready
      && TailAt(Current(s'), Origin(s'), s.published - 1)
      && AllNull(s', s.published, Top(s'))
  {
    RollRewindKeeps(s);
  }

  // ---------------------------------------------------------------- the lookups in place

  /** The index as consumers read it. */
  class Reader {
    var gens: seq<Gen>
    var entries: seq<Entry>
    const pcs: array<Consumer>
    ghost var producer: ProducerPc
    ghost var low: nat
    ghost var vals: seq<Ptr>
    var hi: nat
    ghost var published: nat

    ghost function Model(): State
      reads this, pcs
    {
      State(gens, entries, producer, pcs[..], low, vals, hi, published)
    }

    constructor (capacity: nat, garbage: seq<Ptr>, consumers: nat)
      requires 0 < capacity == |garbage| <= MAX_CAPACITY && Capacity(capacity)
      ensures Init(Model(), capacity, garbage) && Inv(Model()) && fresh(pcs)
    {
      var first := First(capacity, garbage);
      gens := [Gen(first.ring, first.tail, 0, 0)];
      entries := first.entries;
      pcs := new Consumer[consumers](_ => Outside);
      producer, low, vals, hi, published := Ready, 0, [], 0, 0;
      new;
      InitInv(Model(), capacity, garbage);
    }

    /** The next access of the lookup of consumer `t`; the invariant alone makes it possible. */
    method Step(t: nat)
      requires Inv(Model()) && t < pcs.Length
      requires pcs[t].LoadIndex? || pcs[t].LoadTail? || pcs[t].LoadKey? || pcs[t].LoadValue?
      modifies pcs
      ensures Inv(Model()) && CanLook(old(Model()), t) && Model() == StepLook(old(Model()), t)
    {
      hide Inv, ConsumerOk, Represents;
      LookKeeps(Model(), t);
      match pcs[t] {
        case LoadIndex(c, end) => pcs[t] := LoadTail(c, end, |gens| - 1);
        case LoadTail(c, end, g) =>
          var n := if g == |gens| - 1 then (if hi > 0 then hi - 1 else 0) else gens[g].last;
          pcs[t] := LoadKey(c, end, g, gens[g].tail, n);
        case LoadKey(c, end, g, tail, _) =>
          var ring := gens[g].ring;
          var tailBase := entries[ring[tail]].key;
          var offset := Truncated(Signed((BlockBase(Key(c)) - tailBase) % WORD), BLOCK_SIZE);
          pcs[t] := LoadValue(c, end, g, Mask(tail + offset % WORD, |ring|));
        case LoadValue(c, end, g, pos) =>
          pcs[t] := Holding(c, end, g, pos, entries[gens[g].ring[pos]].value);
      }
      assert Model() == StepLook(old(Model()), t);
    }

    /** The last consumer of a block clears its entry. */
    method ClearEntry(t: nat)
      requires Inv(Model()) && Allowed(Model(), Release(t))
      modifies this`entries, this`vals, pcs
      ensures Inv(Model()) && Model() == Apply(old(Model()), Release(t))
    {
      hide Inv, ConsumerOk, Represents;
      ReleaseKeeps(Model(), t);
      var Holding(c, end, g, pos, _) := pcs[t];
      var e := gens[g].ring[pos];
      entries := entries[e := entries[e].(value := Null)];
      vals := vals[c - low := Null];
      pcs[t] := if c < end then LoadValue(c + 1, end, g, Mask(pos + 1, |gens[g].ring|)) else Outside;
      assert Model() == Apply(old(Model()), Release(t));
    }
  }
}
