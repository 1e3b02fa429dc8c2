/**
 The life of a block: taken from the pool, entered in the block index, filled by the
 producer, emptied by any number of consumers at once, and returned to the pool by the one
 consumer that completes its last slot.

 One implicit producer and its consumers share the machine; other producers of the same
 queue take blocks from the pool, use them as they like and put them back at any time. A
 single enqueue is an `enqueue_bulk` of one item, and a single dequeue a `dequeue_bulk` that
 claims one slot. Claims come from the counter protocol, which never lets the head pass the
 tail; a lookup in the index goes by block number. `ConcurrentProducer` runs this machine
 together with the counters and the index and shows that they keep to that.
 */
module BlockRecycling {
  import opened Blocks
  import opened Counting

  /**
   Who may touch a block (auxiliary): nobody, another producer's side of the queue, this
   producer with the block in hand, or whoever works on block number `k` of this producer.
   */
  datatype Owner = Pool | Elsewhere | InHand | OfNumber(k: nat)

  /** A physical block: `elementsCompletelyDequeued`, the producer's chain pointer and the slots. */
  datatype Block = Block(completed: nat, next: Ptr, cells: seq<Cell>, owner: Owner)

  /**
   How far the k-th block of the index is (auxiliary): in use, all slots completed by thread
   `t` that has yet to clear the entry or has yet to return the block, returned, or on its
   way back because the enqueue that added it failed.
   */
  datatype Stage = Open | Completed(t: nat) | Cleared(t: nat) | Returned | Undone | Dropped

  /** The entry of the index for block number `k`; `home`, `done` and `stage` are auxiliary. */
  datatype Entry = Entry(value: Ptr, home: nat, done: seq<bool>, stage: Stage)

  datatype ProducerPc =
    | Idle
    | Need(bulk: bool, items: seq<Value>, first: nat, start: Ptr)
    | Got(bulk: bool, items: seq<Value>, first: nat, start: Ptr, b: nat)
    | Write(items: seq<Value>, i: nat, end: Ptr)
    | Advance(items: seq<Value>, i: nat, end: Ptr)
    | Undo(first: nat, start: Ptr, k: nat, cur: Ptr)
    | GiveBack(first: nat, start: Ptr, k: nat, cur: Ptr)

  /**
   A consumer has claimed the slots `first` to `end` and has moved the items up to `i` into
   `got`. In `Take` it works on the slots `from` to `stop` of block `b`.
   */
  datatype Consumer =
    | Outside
    | Next(first: nat, i: nat, end: nat, got: seq<Value>)
    | Take(first: nat, from: nat, i: nat, stop: nat, end: nat, b: nat, got: seq<Value>)
    | Clear(first: nat, i: nat, end: nat, k: nat, b: nat, got: seq<Value>)
    | Release(first: nat, i: nat, end: nat, k: nat, b: nat, got: seq<Value>)
    | Finished(first: nat, got: seq<Value>)

  /** `published` is everything enqueued so far (its length is the tail); `claimant[i]` claimed slot `i`. */
  datatype State = State(
    published: seq<Value>,
    claimant: seq<nat>,
    tailBlock: Ptr,
    entries: seq<Entry>,
    blocks: seq<Block>,
    producer: ProducerPc,
    consumers: seq<Consumer>)

  /** What `requisition_block` and the index allocation come back with. */
  datatype Supply = Denied | FromPool(b: nat) | Created

  datatype Event =
    | CallEnqueue(bulk: bool, items: seq<Value>)
    | RunProducer(supply: Supply)
    | Claim(t: nat, n: nat)
    | RunConsumer(t: nat)
    | Return(t: nat)
    | OthersTake(b: nat)
    | OthersUse(b: nat, completed: nat, next: Ptr, cells: seq<Cell>)
    | OthersGive(b: nat)

  function Tail(s: State): nat { |s.published| }

  function Head(s: State): nat { |s.claimant| }

  function SetDone(done: seq<bool>, lo: nat, n: nat): seq<bool> {
    seq(|done|, i requires 0 <= i < |done| => if lo <= i < lo + n then true else done[i])
  }

  // ---------------------------------------------------------------- the steps

  function SetBlock(s: State, b: nat, v: Block): State
    requires b < |s.blocks|
  {
    s.(blocks := s.blocks[b := v])
  }

  function SetEntry(s: State, k: nat, v: Entry): State
    requires k < |s.entries|
  {
    s.(entries := s.entries[k := v])
  }

  function Goto(s: State, t: nat, pc: Consumer): State
    requires t < |s.consumers|
  {
    s.(consumers := s.consumers[t := pc])
  }

  /** A new block, as its constructor leaves it. */
  function NewBlock(): Block {
    Block(0, Null, seq(BLOCK_SIZE, _ => Raw), InHand)
  }

  /** More blocks are needed while the slots of the new items reach beyond the last one. */
  function StepNeed(s: State, supply: Supply): State
    requires s.producer.Need? && (supply.FromPool? ==> supply.b < |s.blocks|)
  {
    var Need(bulk, items, first, start) := s.producer;
    if |s.entries| * BLOCK_SIZE < Tail(s) + |items| then
      match supply
      case Denied =>
        s.(producer := Undo(first, start, first, FirstAllocated(s, first)))
      case FromPool(b) =>
        SetBlock(s, b, s.blocks[b].(owner := InHand)).(producer := Got(bulk, items, first, start, b))
      case Created =>
        s.(blocks := s.blocks + [NewBlock()], producer := Got(bulk, items, first, start, |s.blocks|))
    else
      // `end` is where the allocation loop left the tail block
      var cur := if Tail(s) % BLOCK_SIZE == 0 && first < |s.entries| then FirstAllocated(s, first) else start;
      s.(tailBlock := cur, producer := if items == [] then Advance(items, 0, s.tailBlock) else Write(items, 0, s.tailBlock))
  }

  /** The first block this call has added, if any. */
  function FirstAllocated(s: State, first: nat): Ptr {
    if first < |s.entries| then At(s.entries[first].home) else Null
  }

  /** Whether the new block is linked behind the tail block; only then is the tail block dereferenced. */
  predicate Links(s: State) {
    s.producer.Got? && s.producer.bulk && (Tail(s) % BLOCK_SIZE != 0 || s.producer.first < |s.entries|)
  }

  /** `reset_empty`, the entry and the tail block; only a bulk enqueue keeps a chain of its blocks. */
  function StepGot(s: State): State
    requires s.producer.Got? && s.producer.b < |s.blocks|
    requires Links(s) ==> s.tailBlock.At? && s.tailBlock.block < |s.blocks|
  {
    var Got(bulk, items, first, start, b) := s.producer;
    var s1 := SetBlock(s, b, s.blocks[b].(completed := 0, next := if bulk then Null else s.blocks[b].next, owner := OfNumber(|s.entries|)));
    var s2 := s1.(entries := s.entries + [Entry(At(b), b, seq(BLOCK_SIZE, _ => false), Open)]);
    var s3 := if Links(s) then SetBlock(s2, s.tailBlock.block, s2.blocks[s.tailBlock.block].(next := At(b))) else s2;
    s3.(tailBlock := At(b), producer := Need(bulk, items, first, start))
  }

  function StepWrite(s: State): State
    requires s.producer.Write? && s.producer.i < |s.producer.items|
    requires s.tailBlock.At? && s.tailBlock.block < |s.blocks| && |s.blocks[s.tailBlock.block].cells| == BLOCK_SIZE
  {
    var Write(items, i, end) := s.producer;
    var b := s.tailBlock.block;
    var slot := Tail(s) + i;
    SetBlock(s, b, s.blocks[b].(cells := s.blocks[b].cells[slot % BLOCK_SIZE := Built(items[i])]))
      .(producer := if (slot + 1) % BLOCK_SIZE == 0 || i + 1 == |items| then Advance(items, i + 1, end)
                    else Write(items, i + 1, end))
  }

  /** At the end of a block: on to the next one of the chain, or publish everything. */
  function StepAdvance(s: State): State
    requires s.producer.Advance?
    requires s.tailBlock != s.producer.end ==> s.tailBlock.At? && s.tailBlock.block < |s.blocks|
  {
    var Advance(items, i, end) := s.producer;
    if s.tailBlock == end then
      s.(published := s.published + items, producer := Idle)
    else
      s.(tailBlock := s.blocks[s.tailBlock.block].next, producer := Write(items, i, end))
  }

  /** The failed enqueue clears its entries one by one, following the chain. */
  function StepUndo(s: State): State
    requires s.producer.Undo?
    requires s.producer.cur.At? ==> s.producer.cur.block < |s.blocks| && s.producer.k < |s.entries|
  {
    var Undo(first, start, k, cur) := s.producer;
    match cur
    case Null => s.(producer := GiveBack(first, start, first, FirstAllocated(s, first)))
    case At(b) =>
      SetEntry(s, k, s.entries[k].(value := Null, stage := Undone))
        .(producer := Undo(first, start, k + 1, s.blocks[b].next))
  }

  /** Then it returns the blocks of the chain; the pointer is read before the block is given away. */
  function StepGiveBack(s: State): State
    requires s.producer.GiveBack? && s.producer.first <= |s.entries|
    requires s.producer.cur.At? ==> s.producer.cur.block < |s.blocks| && s.producer.k < |s.entries|
  {
    var GiveBack(first, start, k, cur) := s.producer;
    match cur
    case Null => s.(tailBlock := start, entries := s.entries[..first], producer := Idle)
    case At(b) =>
      SetBlock(SetEntry(s, k, s.entries[k].(stage := Dropped)), b, s.blocks[b].(owner := Pool))
        .(producer := GiveBack(first, start, k + 1, s.blocks[b].next))
  }

  /** The next claimed slot is looked up, and with it the slots of the same block. */
  function StepNext(s: State, t: nat): State
    requires t < |s.consumers| && s.consumers[t].Next?
    requires s.consumers[t].i / BLOCK_SIZE < |s.entries| && s.entries[s.consumers[t].i / BLOCK_SIZE].value.At?
  {
    var Next(first, i, end, got) := s.consumers[t];
    var k := i / BLOCK_SIZE;
    Goto(s, t, Take(first, i, i, Min((k + 1) * BLOCK_SIZE, end), end, s.entries[k].value.block, got))
  }

  predicate CanTake(s: State, t: nat) {
    && t < |s.consumers| && s.consumers[t].Take?
    && var Take(first, from, i, stop, end, b, got) := s.consumers[t];
    && from / BLOCK_SIZE < |s.entries| && b < |s.blocks| && |s.blocks[b].cells| == BLOCK_SIZE
    && (i < stop ==> s.blocks[b].cells[i % BLOCK_SIZE].Built?)
    && from <= stop <= end
  }

  /** Moves one element out, or counts the slots of this block as completed. */
  function StepTake(s: State, t: nat): State
    requires CanTake(s, t)
  {
    var Take(first, from, i, stop, end, b, got) := s.consumers[t];
    if i < stop then
      var item := s.blocks[b].cells[i % BLOCK_SIZE].v;
      Goto(SetBlock(s, b, s.blocks[b].(cells := s.blocks[b].cells[i % BLOCK_SIZE := Raw])), t,
           Take(first, from, i + 1, stop, end, b, got + [item]))
    else
      var k := from / BLOCK_SIZE;
      var n := stop - from;
      var last := s.blocks[b].completed + n == BLOCK_SIZE;
      var e := s.entries[k].(done := SetDone(s.entries[k].done, from % BLOCK_SIZE, n),
                             stage := if last then Completed(t) else s.entries[k].stage);
      Goto(SetEntry(SetBlock(s, b, s.blocks[b].(completed := s.blocks[b].completed + n)), k, e), t,
           if last then Clear(first, stop, end, k, b, got) else Rest(first, stop, end, got))
  }

  /** What is left to do of the claim. */
  function Rest(first: nat, i: nat, end: nat, got: seq<Value>): Consumer {
    if i < end then Next(first, i, end, got) else Finished(first, got)
  }

  /** The consumer that completed the block clears its entry, then returns the block. */
  function StepRelease(s: State, t: nat): State
    requires t < |s.consumers| && (s.consumers[t].Clear? || s.consumers[t].Release?)
    requires s.consumers[t].k < |s.entries| && s.consumers[t].b < |s.blocks|
  {
    match s.consumers[t]
    case Clear(first, i, end, k, b, got) =>
      Goto(SetEntry(s, k, s.entries[k].(value := Null, stage := Cleared(t))), t, Release(first, i, end, k, b, got))
    case Release(first, i, end, k, b, got) =>
      Goto(SetBlock(SetEntry(s, k, s.entries[k].(stage := Returned)), b, s.blocks[b].(owner := Pool)), t,
           Rest(first, i, end, got))
  }

  /** A step is possible when everything it dereferences is there; `StepsAreSafe` shows that it always is. */
  predicate ProducerSafe(s: State) {
    match s.producer
    case Idle => true
    case Need(_, _, _, _) => true
    case Got(_, _, _, _, b) => b < |s.blocks| && (Links(s) ==> s.tailBlock.At? && s.tailBlock.block < |s.blocks|)
    case Write(items, i, _) =>
      i < |items| && s.tailBlock.At? && s.tailBlock.block < |s.blocks| && |s.blocks[s.tailBlock.block].cells| == BLOCK_SIZE
    case Advance(_, _, end) => s.tailBlock != end ==> s.tailBlock.At? && s.tailBlock.block < |s.blocks|
    case Undo(_, _, k, cur) => cur.At? ==> cur.block < |s.blocks| && k < |s.entries|
    case GiveBack(first, _, k, cur) => first <= |s.entries| && (cur.At? ==> cur.block < |s.blocks| && k < |s.entries|)
  }

  predicate ConsumerSafe(s: State, t: nat) {
    && t < |s.consumers|
    && match s.consumers[t] {
         case Next(_, i, _, _) => i / BLOCK_SIZE < |s.entries| && s.entries[i / BLOCK_SIZE].value.At?
         case Take(_, _, _, _, _, _, _) => CanTake(s, t)
         case Clear(_, _, _, k, b, _) => k < |s.entries| && b < |s.blocks|
         case Release(_, _, _, k, b, _) => k < |s.entries| && b < |s.blocks|
         case _ => true
       }
  }

  predicate Allowed(s: State, e: Event) {
    match e
    case CallEnqueue(bulk, items) => s.producer.Idle? && (!bulk ==> |items| == 1)
    case RunProducer(supply) =>
      && ProducerSafe(s)
      && (supply.FromPool? ==> supply.b < |s.blocks| && s.blocks[supply.b].owner == Pool)
    case Claim(t, n) => t < |s.consumers| && s.consumers[t].Outside? && n > 0 && Head(s) + n <= Tail(s)
    case RunConsumer(t) => ConsumerSafe(s, t)
    case Return(t) => t < |s.consumers| && s.consumers[t].Finished?
    case OthersTake(b) => b < |s.blocks| && s.blocks[b].owner == Pool
    case OthersUse(b, _, _, cells) => b < |s.blocks| && s.blocks[b].owner == Elsewhere && |cells| == BLOCK_SIZE
    case OthersGive(b) => b < |s.blocks| && s.blocks[b].owner == Elsewhere
  }

  function StepProducer(s: State, supply: Supply): State
    requires Allowed(s, RunProducer(supply))
  {
    match s.producer
    case Idle => s
    case Need(_, _, _, _) => StepNeed(s, supply)
    case Got(_, _, _, _, _) => StepGot(s)
    case Write(_, _, _) => StepWrite(s)
    case Advance(_, _, _) => StepAdvance(s)
    case Undo(_, _, _, _) => StepUndo(s)
    case GiveBack(_, _, _, _) => StepGiveBack(s)
  }

  function StepConsumer(s: State, t: nat): State
    requires ConsumerSafe(s, t)
  {
    match s.consumers[t]
    case Next(_, _, _, _) => StepNext(s, t)
    case Take(_, _, _, _, _, _, _) => StepTake(s, t)
    case Clear(_, _, _, _, _, _) => StepRelease(s, t)
    case Release(_, _, _, _, _, _) => StepRelease(s, t)
    case _ => s
  }

  function Apply(s: State, e: Event): State
    requires Allowed(s, e)
  {
    match e
    case CallEnqueue(bulk, items) => s.(producer := Need(bulk, items, |s.entries|, s.tailBlock))
    case RunProducer(supply) => StepProducer(s, supply)
    case Claim(t, n) =>
      Goto(s.(claimant := s.claimant + seq(n, _ => t)), t, Next(Head(s), Head(s), Head(s) + n, []))
    case RunConsumer(t) => StepConsumer(s, t)
    case Return(t) => Goto(s, t, Outside)
    case OthersTake(b) => SetBlock(s, b, s.blocks[b].(owner := Elsewhere))
    case OthersUse(b, completed, next, cells) => SetBlock(s, b, Block(completed, next, cells, Elsewhere))
    case OthersGive(b) => SetBlock(s, b, s.blocks[b].(owner := Pool))
  }

  // ---------------------------------------------------------------- the invariant

  function One(done: bool): int { if done then 1 else 0 }

  /** Slot `j` has been moved out and counted. */
  predicate SlotDone(s: State, j: nat) {
    && j / BLOCK_SIZE < |s.entries|
    && |s.entries[j / BLOCK_SIZE].done| == BLOCK_SIZE
    && s.entries[j / BLOCK_SIZE].done[j % BLOCK_SIZE]
  }

  /** Slot `j` holds the element `v`. */
  predicate Holds(s: State, j: nat, v: Value) {
    && j / BLOCK_SIZE < |s.entries|
    && s.entries[j / BLOCK_SIZE].home < |s.blocks|
    && |s.blocks[s.entries[j / BLOCK_SIZE].home].cells| == BLOCK_SIZE
    && s.blocks[s.entries[j / BLOCK_SIZE].home].cells[j % BLOCK_SIZE] == Built(v)
  }

  predicate EntryOk(s: State, k: nat) {
    && k < |s.entries|
    && var e := s.entries[k];
    && e.home < |s.blocks| && |e.done| == BLOCK_SIZE
    && match e.stage {
         case Open =>
           && e.value == At(e.home) && s.blocks[e.home].owner == OfNumber(k)
           && s.blocks[e.home].completed == Sum(e.done, One) < BLOCK_SIZE
         case Completed(t) =>
           && e.value == At(e.home) && s.blocks[e.home].owner == OfNumber(k) && Sum(e.done, One) == BLOCK_SIZE
           && t < |s.consumers| && s.consumers[t].Clear? && s.consumers[t].k == k
         case Cleared(t) =>
           && e.value == Null && s.blocks[e.home].owner == OfNumber(k) && Sum(e.done, One) == BLOCK_SIZE
           && t < |s.consumers| && s.consumers[t].Release? && s.consumers[t].k == k
         case Returned => e.value == Null && Sum(e.done, One) == BLOCK_SIZE
         case Undone => e.value == Null && s.blocks[e.home].owner == OfNumber(k) && k >= BlocksFor(Tail(s))
         case Dropped => e.value == Null && k >= BlocksFor(Tail(s))
       }
  }

  predicate BlockOk(s: State, b: nat) {
    && b < |s.blocks|
    && |s.blocks[b].cells| == BLOCK_SIZE
    && match s.blocks[b].owner {
         case OfNumber(k) =>
           && k < |s.entries| && s.entries[k].home == b
           && !s.entries[k].stage.Returned? && !s.entries[k].stage.Dropped?
         case InHand => s.producer.Got? && s.producer.b == b
         case _ => true
       }
  }

  /** The slots `lo` to `hi` are thread `t`'s, and it has not counted them yet. */
  predicate Claimed(s: State, t: nat, lo: nat, hi: nat) {
    hi <= Head(s) && forall j :: lo <= j < hi ==> s.claimant[j] == t && !SlotDone(s, j)
  }

  /** The slots `lo` to `hi` hold what was enqueued there. */
  predicate Full(s: State, lo: nat, hi: nat) {
    hi <= Tail(s) && forall j :: lo <= j < hi ==> Holds(s, j, s.published[j])
  }

  predicate Moved(s: State, first: nat, i: nat, got: seq<Value>) {
    first <= i <= Tail(s) && got == s.published[first..i]
  }

  predicate ConsumerOk(s: State, t: nat) {
    && t < |s.consumers|
    && match s.consumers[t] {
         case Outside => true
         case Next(first, i, end, got) =>
           i < end && Moved(s, first, i, got) && Claimed(s, t, i, end) && Full(s, i, end)
         case Take(first, from, i, stop, end, b, got) =>
           && first <= from < stop && from <= i <= stop && stop == Min((from / BLOCK_SIZE + 1) * BLOCK_SIZE, end)
           && Moved(s, first, i, got) && Claimed(s, t, from, end) && Full(s, i, end)
           && from / BLOCK_SIZE < |s.entries| && b == s.entries[from / BLOCK_SIZE].home
         case Clear(first, i, end, k, b, got) =>
           && i <= end && Moved(s, first, i, got) && Claimed(s, t, i, end) && Full(s, i, end)
           && k < |s.entries| && b == s.entries[k].home && s.entries[k].stage == Completed(t)
         case Release(first, i, end, k, b, got) =>
           && i <= end && Moved(s, first, i, got) && Claimed(s, t, i, end) && Full(s, i, end)
           && k < |s.entries| && b == s.entries[k].home && s.entries[k].stage == Cleared(t)
         case Finished(first, got) => Moved(s, first, first + |got|, got)
       }
  }

  /** Thread `pc` still has slot `j` to count. */
  predicate Covers(pc: Consumer, j: nat) {
    match pc
    case Next(_, i, end, _) => i <= j < end
    case Take(_, from, _, _, end, _, _) => from <= j < end
    case Clear(_, i, end, _, _, _) => i <= j < end
    case Release(_, i, end, _, _, _) => i <= j < end
    case _ => false
  }

  /** Everything enqueued, followed by what the producer is about to publish. */
  function Pending(s: State): seq<Value> {
    s.published + (match s.producer
                   case Write(items, i, _) => if i <= |items| then items[..i] else []
                   case Advance(items, i, _) => if i <= |items| then items[..i] else []
                   case _ => [])
  }

  predicate SlotOk(s: State, j: nat) {
    && (j < Head(s) ==>
          SlotDone(s, j) || (s.claimant[j] < |s.consumers| && Covers(s.consumers[s.claimant[j]], j)))
    && (j >= Head(s) ==> !SlotDone(s, j))
    && (Head(s) <= j < |Pending(s)| ==> Holds(s, j, Pending(s)[j]))
  }

  predicate Linked(s: State, k: nat) {
    && k + 1 < |s.entries| && s.entries[k].home < |s.blocks|
    && s.blocks[s.entries[k].home].next == At(s.entries[k + 1].home)
  }

  predicate Ends(s: State, k: nat) {
    && k < |s.entries| && s.entries[k].home < |s.blocks|
    && s.blocks[s.entries[k].home].next == Null
  }

  /** The chain pointers lead from block number `lo` to the last one. */
  predicate Chained(s: State, lo: nat) {
    forall k :: lo <= k < |s.entries| - 1 ==> Linked(s, k)
  }

  predicate Staged(s: State, lo: nat, hi: nat, stage: Stage) {
    hi <= |s.entries| && forall k :: lo <= k < hi ==> s.entries[k].stage == stage
  }

  /** The block with room for slot `tail` is the last one, unless the last one is full. */
  predicate StartOk(s: State, first: nat, start: Ptr) {
    && first == BlocksFor(Tail(s)) <= |s.entries|
    && (Tail(s) % BLOCK_SIZE != 0 ==> start == At(s.entries[first - 1].home))
  }

  predicate NeedOk(s: State, bulk: bool, items: seq<Value>, first: nat, start: Ptr) {
    && StartOk(s, first, start)
    && (!bulk ==> |items| == 1)
    && (|s.entries| > first ==> (|s.entries| - 1) * BLOCK_SIZE < Tail(s) + |items|)
    && Staged(s, first, |s.entries|, Open)
    && s.tailBlock == (if |s.entries| > first then At(s.entries[|s.entries| - 1].home) else start)
    && (bulk ==> Chained(s, Tail(s) / BLOCK_SIZE))
    && (|s.entries| > first && bulk ==> Ends(s, |s.entries| - 1))
  }

  predicate ProducerOk(s: State) {
    match s.producer
    case Idle => |s.entries| == BlocksFor(Tail(s)) && StartOk(s, |s.entries|, s.tailBlock)
    case Need(bulk, items, first, start) => NeedOk(s, bulk, items, first, start)
    case Got(bulk, items, first, start, b) =>
      && NeedOk(s, bulk, items, first, start)
      && |s.entries| * BLOCK_SIZE < Tail(s) + |items|
      && b < |s.blocks| && s.blocks[b].owner == InHand
    case Write(items, i, end) =>
      && i < |items| && |s.entries| == BlocksFor(Tail(s) + |items|)
      && Staged(s, BlocksFor(Tail(s)), |s.entries|, Open)
      && end == At(s.entries[|s.entries| - 1].home)
      && s.tailBlock == At(s.entries[(Tail(s) + i) / BLOCK_SIZE].home)
      && Chained(s, Tail(s) / BLOCK_SIZE)
    case Advance(items, i, end) =>
      && i <= |items| && |s.entries| == BlocksFor(Tail(s) + |items|)
      && Staged(s, BlocksFor(Tail(s)), |s.entries|, Open)
      && ((Tail(s) + i) % BLOCK_SIZE == 0 || i == |items|)
      && (items == [] ==> s.tailBlock == end && StartOk(s, |s.entries|, end))
      && (items != [] ==>
            && 0 < i && end == At(s.entries[|s.entries| - 1].home)
            && s.tailBlock == At(s.entries[(Tail(s) + i - 1) / BLOCK_SIZE].home))
      && Chained(s, Tail(s) / BLOCK_SIZE)
    case Undo(first, start, k, cur) =>
      && StartOk(s, first, start) && first <= k <= |s.entries|
      && cur == (if k < |s.entries| then At(s.entries[k].home) else Null)
      && Staged(s, first, k, Undone) && Staged(s, k, |s.entries|, Open)
      && Chained(s, first)
      && (|s.entries| > first ==> Ends(s, |s.entries| - 1))
    case GiveBack(first, start, k, cur) =>
      && StartOk(s, first, start) && first <= k <= |s.entries|
      && cur == (if k < |s.entries| then At(s.entries[k].home) else Null)
      && Staged(s, first, k, Dropped) && Staged(s, k, |s.entries|, Undone)
      && Chained(s, k)
      && (|s.entries| > k ==> Ends(s, |s.entries| - 1))
  }

  ghost predicate Inv(s: State) {
    && Head(s) <= Tail(s) <= |s.entries| * BLOCK_SIZE
    && ProducerOk(s)
    && (forall k :: 0 <= k < |s.entries| ==> EntryOk(s, k))
    && (forall b :: 0 <= b < |s.blocks| ==> BlockOk(s, b))
    && (forall t :: 0 <= t < |s.consumers| ==> ConsumerOk(s, t))
    && (forall j :: 0 <= j ==> SlotOk(s, j))
  }

  // ---------------------------------------------------------------- what the invariant says about slots and blocks

  lemma {:induction false} NotFull(done: seq<bool>, i: nat)
    requires i < |done| && !done[i]
    ensures Sum(done, One) < |done|
  {
    SumUpdate(done, i, true, One);
    SumAtMostLength(done[i := true], One);
  }

  /** A slot that still has to be counted lies in a block that is in use. */
  lemma {:induction false} LiveSlot(s: State, j: nat)
    requires Inv(s) && j < |Pending(s)| && !SlotDone(s, j)
    ensures j / BLOCK_SIZE < |s.entries| && s.entries[j / BLOCK_SIZE].stage == Open
  {
    var k := j / BLOCK_SIZE;
    assert EntryOk(s, k);
    NotFull(s.entries[k].done, j % BLOCK_SIZE);
  }

  /** The blocks from the tail on have not been completed. */
  lemma {:induction false} LateEntry(s: State, k: nat)
    requires Inv(s) && Tail(s) / BLOCK_SIZE <= k < |s.entries|
    ensures s.entries[k].stage.Open? || s.entries[k].stage.Undone? || s.entries[k].stage.Dropped?
    ensures k < BlocksFor(Tail(s)) ==> s.entries[k].stage == Open
  {
    assert EntryOk(s, k);
    var j := if k == Tail(s) / BLOCK_SIZE then Tail(s) else k * BLOCK_SIZE;
    assert SlotOk(s, j);
    NotFull(s.entries[k].done, j % BLOCK_SIZE);
  }

  /** Two numbers in use have different blocks. */
  lemma {:induction false} HomesDiffer(s: State, k: nat, m: nat)
    requires Inv(s) && k < |s.entries| && m < |s.entries| && k != m
    requires !s.entries[k].stage.Returned? && !s.entries[k].stage.Dropped?
    requires !s.entries[m].stage.Returned? && !s.entries[m].stage.Dropped?
    ensures s.entries[k].home != s.entries[m].home
  {
    assert EntryOk(s, k) && EntryOk(s, m);
  }

  /** What a step must leave alone for a consumer that does not take part in it. */
  predicate Spares(s: State, s': State, u: nat) {
    && u < |s.consumers| && u < |s'.consumers| && s'.consumers[u] == s.consumers[u]
    && s.published <= s'.published && s.claimant <= s'.claimant
    && (forall j :: 0 <= j < Head(s) ==> SparesSlot(s, s', u, j))
    && (forall k :: 0 <= k < |s.entries| ==> SparesEntry(s, s', u, k))
  }

  predicate SparesSlot(s: State, s': State, u: nat, j: nat) {
    j < Head(s) <= Tail(s) && s.claimant[j] == u && !SlotDone(s, j) ==>
      !SlotDone(s', j) && (Holds(s, j, s.published[j]) ==> Holds(s', j, s.published[j]))
  }

  predicate SparesEntry(s: State, s': State, u: nat, k: nat) {
    && k < |s.entries|
    && (!s.entries[k].stage.Dropped? ==>
          && k < |s'.entries| && s'.entries[k].home == s.entries[k].home
          && (s.entries[k].stage == Completed(u) || s.entries[k].stage == Cleared(u) ==>
                s'.entries[k].stage == s.entries[k].stage))
  }

  lemma {:induction false} ClaimSpared(s: State, s': State, u: nat, lo: nat, hi: nat)
    requires Spares(s, s', u) && Claimed(s, u, lo, hi) && Head(s) <= Tail(s)
    ensures Claimed(s', u, lo, hi)
    ensures forall i :: lo <= i <= hi && Full(s, i, hi) ==> Full(s', i, hi)
  {
    forall j | lo <= j < hi ensures s'.claimant[j] == u && !SlotDone(s', j) {
      assert SparesSlot(s, s', u, j);
    }
    forall i | lo <= i <= hi && Full(s, i, hi) ensures Full(s', i, hi) {
      forall j | i <= j < hi ensures Holds(s', j, s'.published[j]) {
        assert SparesSlot(s, s', u, j);
      }
    }
  }

  lemma {:induction false} SparedClaim(s: State, s': State, u: nat)
    requires ConsumerOk(s, u) && Spares(s, s', u) && Head(s) <= Tail(s)
    requires s.consumers[u].Take? ==> !s.entries[s.consumers[u].from / BLOCK_SIZE].stage.Dropped?
    ensures ConsumerOk(s', u)
  {
    match s.consumers[u]
    case Outside =>
    case Next(first, i, end, got) => ClaimSpared(s, s', u, i, end);
    case Take(first, from, i, stop, end, b, got) =>
      ClaimSpared(s, s', u, from, end);
      assert SparesEntry(s, s', u, from / BLOCK_SIZE);
    case Clear(first, i, end, k, b, got) =>
      ClaimSpared(s, s', u, i, end);
      assert SparesEntry(s, s', u, k);
    case Release(first, i, end, k, b, got) =>
      ClaimSpared(s, s', u, i, end);
      assert SparesEntry(s, s', u, k);
    case Finished(first, got) =>
  }

  lemma {:induction false} SparedConsumer(s: State, s': State, u: nat)
    requires Inv(s) && Spares(s, s', u)
    ensures ConsumerOk(s', u)
  {
    assert ConsumerOk(s, u);
    if s.consumers[u].Take? {
      LiveSlot(s, s.consumers[u].from);
    }
    SparedClaim(s, s', u);
  }

  predicate LateSame(s: State, s': State, k: nat) {
    && k < |s.entries| && k < |s'.entries|
    && s'.entries[k].stage == s.entries[k].stage && s'.entries[k].home == s.entries[k].home
    && s.entries[k].home < |s.blocks| <= |s'.blocks|
    && (!s.entries[k].stage.Dropped? ==> s'.blocks[s.entries[k].home].next == s.blocks[s.entries[k].home].next)
  }

  lemma {:induction false} ChainSpared(s: State, s': State, lo: nat)
    requires |s'.entries| == |s.entries|
    requires forall k :: lo <= k < |s.entries| ==> LateSame(s, s', k) && !s.entries[k].stage.Dropped?
    ensures Chained(s, lo) ==> Chained(s', lo)
    ensures |s.entries| > lo && Ends(s, |s.entries| - 1) ==> Ends(s', |s.entries| - 1)
  {
    if Chained(s, lo) {
      forall k | lo <= k < |s'.entries| - 1 ensures Linked(s', k) {
        assert Linked(s, k) && LateSame(s, s', k) && LateSame(s, s', k + 1);
      }
    }
    if |s.entries| > lo {
      assert LateSame(s, s', |s.entries| - 1);
    }
  }

  lemma {:induction false} StagedSpared(s: State, s': State, lo: nat, hi: nat, stage: Stage)
    requires Staged(s, lo, hi, stage)
    requires forall k :: lo <= k < hi ==> LateSame(s, s', k)
    ensures hi <= |s'.entries| ==> Staged(s', lo, hi, stage)
  {
    forall k | lo <= k < hi ensures k < |s'.entries| && s'.entries[k].stage == stage {
      assert LateSame(s, s', k);
    }
  }

  /** What a step of somebody else must leave alone for the producer. */
  predicate SparesProducer(s: State, s': State) {
    && s'.producer == s.producer && s'.published == s.published && s'.tailBlock == s.tailBlock
    && |s'.entries| == |s.entries| && |s.blocks| <= |s'.blocks|
    && (forall k :: Tail(s) / BLOCK_SIZE <= k < |s.entries| ==> LateSame(s, s', k))
    && (s.producer.Got? && s.producer.b < |s.blocks| ==> s'.blocks[s.producer.b].owner == s.blocks[s.producer.b].owner)
  }

  lemma {:induction false} SparedAllocating(s: State, s': State)
    requires ProducerOk(s) && SparesProducer(s, s') && (s.producer.Idle? || s.producer.Need? || s.producer.Got?)
    requires forall k :: Tail(s) / BLOCK_SIZE <= k < BlocksFor(Tail(s)) && k < |s.entries| ==> s.entries[k].stage == Open
    ensures ProducerOk(s')
  {
    forall k | Tail(s) / BLOCK_SIZE <= k < |s.entries| ensures s'.entries[k].home == s.entries[k].home {
      assert LateSame(s, s', k);
    }
    if !s.producer.Idle? {
      StagedSpared(s, s', BlocksFor(Tail(s)), |s.entries|, Open);
      ChainSpared(s, s', Tail(s) / BLOCK_SIZE);
    }
  }

  lemma {:induction false} SparedHomes(s: State, s': State)
    requires SparesProducer(s, s')
    ensures forall k :: Tail(s) / BLOCK_SIZE <= k < |s.entries| ==> s'.entries[k].home == s.entries[k].home
  {
    forall k | Tail(s) / BLOCK_SIZE <= k < |s.entries| ensures s'.entries[k].home == s.entries[k].home {
      assert LateSame(s, s', k);
    }
  }

  lemma {:induction false} SparedWriting(s: State, s': State)
    requires ProducerOk(s) && SparesProducer(s, s') && s.producer.Write?
    requires forall k :: Tail(s) / BLOCK_SIZE <= k < BlocksFor(Tail(s)) && k < |s.entries| ==> s.entries[k].stage == Open
    ensures ProducerOk(s')
  {
    hide Linked, LateSame, Staged, Chained;
    SparedHomes(s, s');
    SparedChain(s, s');
  }

  lemma {:induction false} SparedAdvancing(s: State, s': State)
    requires ProducerOk(s) && SparesProducer(s, s') && s.producer.Advance?
    requires forall k :: Tail(s) / BLOCK_SIZE <= k < BlocksFor(Tail(s)) && k < |s.entries| ==> s.entries[k].stage == Open
    ensures ProducerOk(s')
  {
    hide Linked, LateSame, Staged, Chained;
    SparedHomes(s, s');
    SparedChain(s, s');
  }

  lemma {:induction false} SparedChain(s: State, s': State)
    requires ProducerOk(s) && SparesProducer(s, s') && (s.producer.Write? || s.producer.Advance?)
    requires forall k :: Tail(s) / BLOCK_SIZE <= k < BlocksFor(Tail(s)) && k < |s.entries| ==> s.entries[k].stage == Open
    ensures Staged(s', BlocksFor(Tail(s)), |s.entries|, Open) && Chained(s', Tail(s) / BLOCK_SIZE)
  {
    hide Linked;
    StagedSpared(s, s', BlocksFor(Tail(s)), |s.entries|, Open);
    ChainSpared(s, s', Tail(s) / BLOCK_SIZE);
  }

  lemma {:induction false} SparedUndoing(s: State, s': State)
    requires ProducerOk(s) && SparesProducer(s, s') && (s.producer.Undo? || s.producer.GiveBack?)
    ensures ProducerOk(s')
  {
    forall k | Tail(s) / BLOCK_SIZE <= k < |s.entries| ensures s'.entries[k].home == s.entries[k].home {
      assert LateSame(s, s', k);
    }
    match s.producer
    case Undo(first, start, k, cur) =>
      StagedSpared(s, s', first, k, Undone);
      StagedSpared(s, s', k, |s.entries|, Open);
      ChainSpared(s, s', first);
    case GiveBack(first, start, k, cur) =>
      StagedSpared(s, s', first, k, Dropped);
      StagedSpared(s, s', k, |s.entries|, Undone);
      ChainSpared(s, s', k);
  }

  lemma {:induction false} SparedProducer(s: State, s': State)
    requires Inv(s) && SparesProducer(s, s')
    ensures ProducerOk(s')
  {
    forall k | Tail(s) / BLOCK_SIZE <= k < BlocksFor(Tail(s)) && k < |s.entries| ensures s.entries[k].stage == Open {
      LateEntry(s, k);
    }
    if s.producer.Undo? || s.producer.GiveBack? {
      SparedUndoing(s, s');
    } else if s.producer.Write? {
      SparedWriting(s, s');
    } else if s.producer.Advance? {
      SparedAdvancing(s, s');
    } else {
      SparedAllocating(s, s');
    }
  }

  // ---------------------------------------------------------------- the other users of the pool

  /** Whatever happens to a block of the pool, or to one in use elsewhere, nobody here notices. */
  predicate Foreign(s: State, b: nat, v: Block) {
    && b < |s.blocks| && |v.cells| == BLOCK_SIZE
    && (s.blocks[b].owner == Pool || s.blocks[b].owner == Elsewhere)
    && (v.owner == Pool || v.owner == Elsewhere)
  }

  /** A slot that still counts lies in another block. */
  lemma {:induction false} ForeignSlot(s: State, b: nat, v: Block, j: nat)
    requires Inv(s) && Foreign(s, b, v) && j < |Pending(s)| && !SlotDone(s, j)
    ensures forall w :: Holds(s, j, w) ==> Holds(SetBlock(s, b, v), j, w)
  {
    LiveSlot(s, j);
    assert EntryOk(s, j / BLOCK_SIZE);
  }

  lemma {:induction false} ForeignConsumer(s: State, b: nat, v: Block, u: nat)
    requires Inv(s) && Foreign(s, b, v) && u < |s.consumers|
    ensures ConsumerOk(SetBlock(s, b, v), u)
  {
    var s' := SetBlock(s, b, v);
    forall j | 0 <= j < Head(s) ensures SparesSlot(s, s', u, j) {
      if !SlotDone(s, j) {
        ForeignSlot(s, b, v, j);
      }
    }
    SparedConsumer(s, s', u);
  }

  lemma {:induction false} ForeignBlock(s: State, b: nat, v: Block)
    requires Inv(s) && Foreign(s, b, v)
    ensures Inv(SetBlock(s, b, v))
  {
    hide ConsumerOk;
    var s' := SetBlock(s, b, v);
    forall k | 0 <= k < |s'.entries| ensures EntryOk(s', k) {
      assert EntryOk(s, k);
    }
    forall c | 0 <= c < |s'.blocks| ensures BlockOk(s', c) {
      assert BlockOk(s, c);
    }
    forall j | 0 <= j ensures SlotOk(s', j) {
      assert SlotOk(s, j);
      if Head(s) <= j < |Pending(s)| {
        ForeignSlot(s, b, v, j);
      }
    }
    forall u | 0 <= u < |s'.consumers| ensures ConsumerOk(s', u) {
      ForeignConsumer(s, b, v, u);
    }
    forall k | Tail(s) / BLOCK_SIZE <= k < |s.entries| ensures LateSame(s, s', k) {
      LateEntry(s, k);
      assert EntryOk(s, k);
    }
    SparedProducer(s, s');
  }

  // ---------------------------------------------------------------- the consumers' steps

  /** A step that only moves thread `t` on, with its claim intact. */
  lemma {:induction false} MoveOn(s: State, t: nat, pc: Consumer)
    requires Inv(s) && t < |s.consumers|
    requires !s.consumers[t].Clear? && !s.consumers[t].Release?
    requires ConsumerOk(Goto(s, t, pc), t)
    requires forall j :: 0 <= j < Head(s) && Covers(s.consumers[t], j) && !SlotDone(s, j) ==> Covers(pc, j)
    ensures Inv(Goto(s, t, pc))
  {
    var s' := Goto(s, t, pc);
    forall k | 0 <= k < |s'.entries| ensures EntryOk(s', k) {
      assert EntryOk(s, k);
    }
    forall b | 0 <= b < |s'.blocks| ensures BlockOk(s', b) {
      assert BlockOk(s, b);
    }
    forall j | 0 <= j ensures SlotOk(s', j) {
      assert SlotOk(s, j);
    }
    forall u | 0 <= u < |s'.consumers| ensures ConsumerOk(s', u) {
      if u != t {
        SparedConsumer(s, s', u);
      }
    }
    forall k | Tail(s) / BLOCK_SIZE <= k < |s.entries| ensures LateSame(s, s', k) {
      assert EntryOk(s, k);
    }
    SparedProducer(s, s');
  }

  lemma {:induction false} NextKeeps(s: State, t: nat)
    requires Inv(s) && t < |s.consumers| && s.consumers[t].Next?
    ensures ConsumerSafe(s, t) && Inv(StepNext(s, t))
  {
    assert ConsumerOk(s, t);
    var i := s.consumers[t].i;
    LiveSlot(s, i);
    assert EntryOk(s, i / BLOCK_SIZE);
    MoveOn(s, t, StepNext(s, t).consumers[t]);
  }

  lemma {:induction false} ClaimKeepsSlots(s: State, t: nat, n: nat)
    requires Inv(s) && Allowed(s, Claim(t, n))
    ensures var s' := Apply(s, Claim(t, n));
      && (forall j :: 0 <= j ==> SlotOk(s', j))
      && (forall u :: 0 <= u < |s'.consumers| ==> ConsumerOk(s', u))
  {
    var s' := Apply(s, Claim(t, n));
    forall j | 0 <= j ensures SlotOk(s', j) {
      assert SlotOk(s, j);
    }
    forall j | Head(s) <= j < Head(s) + n ensures Holds(s', j, s'.published[j]) && !SlotDone(s', j) {
      assert SlotOk(s, j);
    }
    forall u | 0 <= u < |s'.consumers| ensures ConsumerOk(s', u) {
      if u != t {
        SparedConsumer(s, s', u);
      }
    }
  }

  lemma {:induction false} ClaimKeeps(s: State, t: nat, n: nat)
    requires Inv(s) && Allowed(s, Claim(t, n))
    ensures Inv(Apply(s, Claim(t, n)))
  {
    var s' := Apply(s, Claim(t, n));
    ClaimKeepsSlots(s, t, n);
    forall k | 0 <= k < |s'.entries| ensures EntryOk(s', k) {
      assert EntryOk(s, k);
    }
    forall b | 0 <= b < |s'.blocks| ensures BlockOk(s', b) {
      assert BlockOk(s, b);
    }
    forall k | Tail(s) / BLOCK_SIZE <= k < |s.entries| ensures LateSame(s, s', k) {
      assert EntryOk(s, k);
    }
    SparedProducer(s, s');
  }

  /** A thread that still works on a block finds it in use, by its number, and with its element in place. */
  lemma {:induction false} TakeIsSafe(s: State, t: nat)
    requires Inv(s) && t < |s.consumers| && s.consumers[t].Take?
    ensures CanTake(s, t)
    ensures var Take(first, from, i, stop, end, b, got) := s.consumers[t]; var k := from / BLOCK_SIZE;
      && s.entries[k].stage == Open && s.blocks[b].owner == OfNumber(k) && b == s.entries[k].home
      && from <= i <= stop <= Head(s)
      && (forall j :: from <= j < stop ==> j / BLOCK_SIZE == k)
      && (i < stop ==> i < Tail(s) && s.blocks[b].cells[i % BLOCK_SIZE] == Built(s.published[i]))
  {
    assert ConsumerOk(s, t);
    var Take(first, from, i, stop, end, b, got) := s.consumers[t];
    LiveSlot(s, from);
    assert EntryOk(s, from / BLOCK_SIZE);
    assert BlockOk(s, b);
    if i < stop {
      assert Holds(s, i, s.published[i]);
    }
  }

  predicate Moving(s: State, t: nat) {
    t < |s.consumers| && s.consumers[t].Take? && s.consumers[t].i < s.consumers[t].stop
  }

  lemma {:induction false} MoveKeepsBlocks(s: State, t: nat)
    requires Inv(s) && Moving(s, t)
    ensures CanTake(s, t)
    ensures var s' := StepTake(s, t);
      && (forall k :: 0 <= k < |s'.entries| ==> EntryOk(s', k))
      && (forall c :: 0 <= c < |s'.blocks| ==> BlockOk(s', c))
      && ProducerOk(s')
  {
    TakeIsSafe(s, t);
    var s' := StepTake(s, t);
    forall k | 0 <= k < |s'.entries| ensures EntryOk(s', k) {
      assert EntryOk(s, k);
    }
    forall c | 0 <= c < |s'.blocks| ensures BlockOk(s', c) {
      assert BlockOk(s, c);
    }
    forall k | Tail(s) / BLOCK_SIZE <= k < |s.entries| ensures LateSame(s, s', k) {
      assert EntryOk(s, k);
    }
    SparedProducer(s, s');
  }

  /** Only the slot of the moved element becomes empty. */
  lemma {:induction false} MoveEmptiesOne(s: State, t: nat, j: nat, v: Value)
    requires Inv(s) && Moving(s, t) && CanTake(s, t)
    requires j < |Pending(s)| && j != s.consumers[t].i && !SlotDone(s, j) && Holds(s, j, v)
    ensures Holds(StepTake(s, t), j, v)
  {
    var from := s.consumers[t].from;
    TakeIsSafe(s, t);
    LiveSlot(s, j);
    if j / BLOCK_SIZE != from / BLOCK_SIZE {
      HomesDiffer(s, j / BLOCK_SIZE, from / BLOCK_SIZE);
    } else {
      assert s.consumers[t].i / BLOCK_SIZE == j / BLOCK_SIZE;
    }
  }

  lemma {:induction false} MoveKeepsSlots(s: State, t: nat)
    requires Inv(s) && Moving(s, t) && CanTake(s, t)
    ensures var s' := StepTake(s, t);
      && (forall j :: 0 <= j ==> SlotOk(s', j))
      && (forall u :: 0 <= u < |s'.consumers| ==> ConsumerOk(s', u))
  {
    var Take(first, from, i, stop, end, b, got) := s.consumers[t];
    var s' := StepTake(s, t);
    assert ConsumerOk(s, t);
    forall j, v | 0 <= j < |Pending(s)| && j != i && !SlotDone(s, j) && Holds(s, j, v) ensures Holds(s', j, v) {
      MoveEmptiesOne(s, t, j, v);
    }
    forall j | 0 <= j ensures SlotOk(s', j) {
      assert SlotOk(s, j);
    }
    forall u | 0 <= u < |s'.consumers| ensures ConsumerOk(s', u) {
      if u != t {
        forall j | 0 <= j < Head(s) ensures SparesSlot(s, s', u, j) {
        }
        SparedConsumer(s, s', u);
      } else {
        OwnMove(s, t);
      }
    }
  }

  lemma {:induction false} OwnMove(s: State, t: nat)
    requires Inv(s) && Moving(s, t) && CanTake(s, t)
    ensures ConsumerOk(StepTake(s, t), t)
  {
    var Take(first, from, i, stop, end, b, got) := s.consumers[t];
    TakeIsSafe(s, t);
    assert ConsumerOk(s, t);
    assert s.published[first..i + 1] == s.published[first..i] + [s.published[i]];
    forall j | i + 1 <= j < end ensures Holds(StepTake(s, t), j, s.published[j]) {
      assert !SlotDone(s, j) && Holds(s, j, s.published[j]);
      MoveEmptiesOne(s, t, j, s.published[j]);
    }
  }

  lemma {:induction false} MoveKeeps(s: State, t: nat)
    requires Inv(s) && Moving(s, t)
    ensures CanTake(s, t) && Inv(StepTake(s, t))
  {
    MoveKeepsBlocks(s, t);
    MoveKeepsSlots(s, t);
  }

  lemma {:induction false} SumSetDone(done: seq<bool>, lo: nat, n: nat)
    requires lo + n <= |done| && forall i :: lo <= i < lo + n ==> !done[i]
    ensures Sum(SetDone(done, lo, n), One) == Sum(done, One) + n
  {
    if n == 0 {
      assert SetDone(done, lo, 0) == done;
    } else {
      SumSetDone(done, lo, n - 1);
      SumUpdate(SetDone(done, lo, n - 1), lo + n - 1, true, One);
      assert SetDone(done, lo, n) == SetDone(done, lo, n - 1)[lo + n - 1 := true];
    }
  }

  /** The counter is exact; it reaches the block size only for a block that lies wholly below the head. */
  lemma {:induction false} CountIsExact(s: State, t: nat)
    requires Inv(s) && t < |s.consumers| && s.consumers[t].Take? && s.consumers[t].i == s.consumers[t].stop
    ensures CanTake(s, t)
    ensures var Take(first, from, i, stop, end, b, got) := s.consumers[t]; var k := from / BLOCK_SIZE;
      var s' := StepTake(s, t);
      && s'.blocks[b].completed == Sum(s'.entries[k].done, One) <= BLOCK_SIZE
      && (s'.blocks[b].completed == BLOCK_SIZE ==> (k + 1) * BLOCK_SIZE <= Head(s))
  {
    CountSums(s, t);
    hide Inv, StepTake;
    if Head(s) < (s.consumers[t].from / BLOCK_SIZE + 1) * BLOCK_SIZE {
      LastSlotOpen(s, t);
      NotFull(StepTake(s, t).entries[s.consumers[t].from / BLOCK_SIZE].done, BLOCK_SIZE - 1);
    }
  }

  lemma {:induction false} CountSums(s: State, t: nat)
    requires Inv(s) && t < |s.consumers| && s.consumers[t].Take? && s.consumers[t].i == s.consumers[t].stop
    ensures CanTake(s, t)
    ensures var k, b := s.consumers[t].from / BLOCK_SIZE, s.consumers[t].b;
      var s' := StepTake(s, t);
      k < |s'.entries| && s'.blocks[b].completed == Sum(s'.entries[k].done, One) <= BLOCK_SIZE
  {
    TakeIsSafe(s, t);
    assert ConsumerOk(s, t);
    var Take(first, from, i, stop, end, b, got) := s.consumers[t];
    var k := from / BLOCK_SIZE;
    assert EntryOk(s, k);
    forall x | from % BLOCK_SIZE <= x < from % BLOCK_SIZE + (stop - from) ensures !s.entries[k].done[x] {
      assert !SlotDone(s, k * BLOCK_SIZE + x);
    }
    SumSetDone(s.entries[k].done, from % BLOCK_SIZE, stop - from);
    SumAtMostLength(StepTake(s, t).entries[k].done, One);
  }

  /** A block that has not been claimed to its end stays open. */
  lemma {:induction false} LastSlotOpen(s: State, t: nat)
    requires Inv(s) && t < |s.consumers| && s.consumers[t].Take? && s.consumers[t].i == s.consumers[t].stop && CanTake(s, t)
    requires Head(s) < (s.consumers[t].from / BLOCK_SIZE + 1) * BLOCK_SIZE
    ensures var k := s.consumers[t].from / BLOCK_SIZE; var done := StepTake(s, t).entries[k].done;
      |done| == BLOCK_SIZE && !done[BLOCK_SIZE - 1]
  {
    assert ConsumerOk(s, t);
    var k := s.consumers[t].from / BLOCK_SIZE;
    assert EntryOk(s, k);
    assert SlotOk(s, (k + 1) * BLOCK_SIZE - 1);
  }

  predicate Tallying(s: State, t: nat) {
    t < |s.consumers| && s.consumers[t].Take? && s.consumers[t].i == s.consumers[t].stop
  }

  /** Exactly the slots worked on become done. */
  lemma {:induction false} CountedSlots(s: State, t: nat, j: nat)
    requires Inv(s) && Tallying(s, t)
    ensures CanTake(s, t)
    ensures SlotDone(StepTake(s, t), j) <==> SlotDone(s, j) || s.consumers[t].from <= j < s.consumers[t].stop
  {
    TakeIsSafe(s, t);
    assert ConsumerOk(s, t);
    assert EntryOk(s, s.consumers[t].from / BLOCK_SIZE);
  }

  lemma {:induction false} CountKeepsEntry(s: State, t: nat, k: nat)
    requires Inv(s) && Tallying(s, t) && k < |s.entries|
    ensures CanTake(s, t) && EntryOk(StepTake(s, t), k)
  {
    TakeIsSafe(s, t);
    CountIsExact(s, t);
    var kk := s.consumers[t].from / BLOCK_SIZE;
    assert EntryOk(s, k);
    if k != kk && !s.entries[k].stage.Returned? && !s.entries[k].stage.Dropped? {
      HomesDiffer(s, k, kk);
    }
  }

  lemma {:induction false} CountKeepsBlocks(s: State, t: nat)
    requires Inv(s) && Tallying(s, t) && CanTake(s, t)
    ensures var s' := StepTake(s, t);
      && (forall c :: 0 <= c < |s'.blocks| ==> BlockOk(s', c))
      && ProducerOk(s')
  {
    CountIsExact(s, t);
    var s' := StepTake(s, t);
    forall c | 0 <= c < |s'.blocks| ensures BlockOk(s', c) {
      assert BlockOk(s, c);
    }
    forall k | Tail(s) / BLOCK_SIZE <= k < |s.entries| ensures LateSame(s, s', k) {
      assert EntryOk(s, k);
    }
    SparedProducer(s, s');
  }

  lemma {:induction false} CountKeepsSlots(s: State, t: nat)
    requires Inv(s) && Tallying(s, t) && CanTake(s, t)
    ensures var s' := StepTake(s, t);
      && (forall j :: 0 <= j ==> SlotOk(s', j))
      && (forall u :: 0 <= u < |s'.consumers| ==> ConsumerOk(s', u))
  {
    var s' := StepTake(s, t);
    TakeIsSafe(s, t);
    forall j | 0 <= j
      ensures SlotDone(s', j) <==> SlotDone(s, j) || s.consumers[t].from <= j < s.consumers[t].stop
    {
      CountedSlots(s, t, j);
    }
    forall j | 0 <= j ensures SlotOk(s', j) {
      assert SlotOk(s, j);
    }
    forall u | 0 <= u < |s'.consumers| ensures ConsumerOk(s', u) {
      if u != t {
        OthersCount(s, t, u);
      } else {
        OwnCount(s, t);
      }
    }
  }

  lemma {:induction false} OthersCount(s: State, t: nat, u: nat)
    requires Inv(s) && Tallying(s, t) && CanTake(s, t) && u < |s.consumers| && u != t
    ensures ConsumerOk(StepTake(s, t), u)
  {
    var s' := StepTake(s, t);
    TakeIsSafe(s, t);
    assert ConsumerOk(s, t);
    forall j | 0 <= j < Head(s) ensures SparesSlot(s, s', u, j) {
      CountedSlots(s, t, j);
    }
    SparedConsumer(s, s', u);
  }

  lemma {:induction false} OwnCount(s: State, t: nat)
    requires Inv(s) && Tallying(s, t) && CanTake(s, t)
    ensures ConsumerOk(StepTake(s, t), t)
  {
    var s' := StepTake(s, t);
    assert ConsumerOk(s, t);
    var Take(first, from, i, stop, end, b, got) := s.consumers[t];
    forall j | stop <= j < end ensures s'.claimant[j] == t && !SlotDone(s', j) && Holds(s', j, s'.published[j]) {
      CountedSlots(s, t, j);
      assert !SlotDone(s, j) && Holds(s, j, s.published[j]);
    }
  }

  lemma {:induction false} CountKeeps(s: State, t: nat)
    requires Inv(s) && Tallying(s, t)
    ensures CanTake(s, t) && Inv(StepTake(s, t))
  {
    TakeIsSafe(s, t);
    forall k | 0 <= k < |s.entries| ensures EntryOk(StepTake(s, t), k) {
      CountKeepsEntry(s, t, k);
    }
    CountKeepsBlocks(s, t);
    CountKeepsSlots(s, t);
  }

  predicate Releasing(s: State, t: nat) {
    t < |s.consumers| && (s.consumers[t].Clear? || s.consumers[t].Release?)
  }

  lemma {:induction false} ReleaseKeepsEntry(s: State, t: nat, k: nat)
    requires Inv(s) && Releasing(s, t) && k < |s.entries|
    ensures ConsumerSafe(s, t) && EntryOk(StepRelease(s, t), k)
  {
    assert ConsumerOk(s, t);
    assert EntryOk(s, s.consumers[t].k);
    assert EntryOk(s, k);
  }

  lemma {:induction false} ReleaseKeepsBlocks(s: State, t: nat)
    requires Inv(s) && Releasing(s, t) && ConsumerSafe(s, t)
    ensures var s' := StepRelease(s, t);
      && (forall c :: 0 <= c < |s'.blocks| ==> BlockOk(s', c))
      && ProducerOk(s')
  {
    assert ConsumerOk(s, t);
    assert EntryOk(s, s.consumers[t].k);
    var s' := StepRelease(s, t);
    forall c | 0 <= c < |s'.blocks| ensures BlockOk(s', c) {
      assert BlockOk(s, c);
    }
    forall k | Tail(s) / BLOCK_SIZE <= k < |s.entries| ensures LateSame(s, s', k) {
      LateEntry(s, k);
      assert EntryOk(s, k);
    }
    SparedProducer(s, s');
  }

  lemma {:induction false} ReleaseKeepsSlots(s: State, t: nat)
    requires Inv(s) && Releasing(s, t) && ConsumerSafe(s, t)
    ensures var s' := StepRelease(s, t);
      && (forall j :: 0 <= j ==> SlotOk(s', j))
      && (forall u :: 0 <= u < |s'.consumers| ==> ConsumerOk(s', u))
  {
    assert ConsumerOk(s, t);
    var s' := StepRelease(s, t);
    forall j | 0 <= j ensures SlotDone(s', j) == SlotDone(s, j) {
    }
    forall j, v | 0 <= j && Holds(s, j, v) ensures Holds(s', j, v) {
    }
    forall j | 0 <= j ensures SlotOk(s', j) {
      assert SlotOk(s, j);
    }
    forall u | 0 <= u < |s'.consumers| ensures ConsumerOk(s', u) {
      if u != t {
        OtherRelease(s, t, u);
      } else {
        OwnRelease(s, t);
      }
    }
  }

  lemma {:induction false} OtherRelease(s: State, t: nat, u: nat)
    requires Inv(s) && Releasing(s, t) && ConsumerSafe(s, t) && u < |s.consumers| && u != t
    ensures ConsumerOk(StepRelease(s, t), u)
  {
    assert ConsumerOk(s, t);
    hide BlockOk, SlotOk, ConsumerOk, ProducerOk;
    SparedConsumer(s, StepRelease(s, t), u);
  }

  lemma {:induction false} OwnRelease(s: State, t: nat)
    requires Inv(s) && Releasing(s, t) && ConsumerSafe(s, t)
    ensures ConsumerOk(StepRelease(s, t), t)
  {
    assert ConsumerOk(s, t);
    var s' := StepRelease(s, t);
    var i, end := s.consumers[t].i, s.consumers[t].end;
    forall j | i <= j < end ensures s'.claimant[j] == t && !SlotDone(s', j) && Holds(s', j, s'.published[j]) {
      assert !SlotDone(s, j) && Holds(s, j, s.published[j]);
    }
  }

  lemma {:induction false} ReleaseKeeps(s: State, t: nat)
    requires Inv(s) && Releasing(s, t)
    ensures ConsumerSafe(s, t) && Inv(StepRelease(s, t))
  {
    assert ConsumerOk(s, t);
    assert EntryOk(s, s.consumers[t].k);
    forall k | 0 <= k < |s.entries| ensures EntryOk(StepRelease(s, t), k) {
      ReleaseKeepsEntry(s, t, k);
    }
    ReleaseKeepsBlocks(s, t);
    ReleaseKeepsSlots(s, t);
  }

  // ---------------------------------------------------------------- the producer's steps

  /** A step that leaves entries, slots and everything published as they are. */
  predicate OnlyProducer(s: State, s': State) {
    && s'.published == s.published && s'.claimant == s.claimant && s'.consumers == s.consumers
    && s'.entries == s.entries && Pending(s') == Pending(s)
    && |s.blocks| <= |s'.blocks|
    && (forall c :: 0 <= c < |s.blocks| ==>
          s'.blocks[c].cells == s.blocks[c].cells && s'.blocks[c].completed == s.blocks[c].completed)
    && (forall c :: 0 <= c < |s.blocks| && s.blocks[c].owner.OfNumber? ==> s'.blocks[c].owner == s.blocks[c].owner)
  }

  lemma {:induction false} OnlyProducerKeeps(s: State, s': State)
    requires Inv(s) && OnlyProducer(s, s') && ProducerOk(s')
    requires forall c :: 0 <= c < |s'.blocks| ==> BlockOk(s', c)
    ensures Inv(s')
  {
    forall k | 0 <= k < |s'.entries| ensures EntryOk(s', k) {
      assert EntryOk(s, k);
    }
    forall j, v | 0 <= j && Holds(s, j, v) ensures Holds(s', j, v) {
    }
    forall j | 0 <= j ensures SlotOk(s', j) {
      assert SlotOk(s, j);
    }
    forall u | 0 <= u < |s'.consumers| ensures ConsumerOk(s', u) {
      SparedConsumer(s, s', u);
    }
  }

  lemma {:induction false} CallKeeps(s: State, bulk: bool, items: seq<Value>)
    requires Inv(s) && Allowed(s, CallEnqueue(bulk, items))
    ensures Inv(Apply(s, CallEnqueue(bulk, items)))
  {
    var s' := Apply(s, CallEnqueue(bulk, items));
    forall c | 0 <= c < |s'.blocks| ensures BlockOk(s', c) {
      assert BlockOk(s, c);
    }
    OnlyProducerKeeps(s, s');
  }

  /** Whether another block is needed. */
  predicate Short(s: State) {
    s.producer.Need? && |s.entries| * BLOCK_SIZE < Tail(s) + |s.producer.items|
  }

  lemma {:induction false} DeniedKeeps(s: State)
    requires Inv(s) && Short(s)
    ensures Inv(StepNeed(s, Denied))
  {
    var s' := StepNeed(s, Denied);
    forall k | s.producer.first <= k < |s.entries| - 1 ensures Linked(s', k) {
      assert Linked(s, k);
    }
    forall c | 0 <= c < |s'.blocks| ensures BlockOk(s', c) {
      assert BlockOk(s, c);
    }
    OnlyProducerKeeps(s, s');
  }

  lemma {:induction false} SuppliedProducer(s: State, supply: Supply)
    requires Inv(s) && Short(s) && !supply.Denied?
    requires supply.FromPool? ==> supply.b < |s.blocks| && s.blocks[supply.b].owner == Pool
    ensures ProducerOk(StepNeed(s, supply))
  {
    hide SlotOk, ConsumerOk, BlockOk;
    var s' := StepNeed(s, supply);
    var n := Tail(s) / BLOCK_SIZE;
    forall k | n <= k < |s.entries|
      ensures s.entries[k].home < |s.blocks| && s'.blocks[s.entries[k].home].next == s.blocks[s.entries[k].home].next
    {
      assert EntryOk(s, k);
    }
    if s.producer.bulk {
      forall k | n <= k < |s.entries| - 1 ensures Linked(s', k) {
        assert Linked(s, k);
      }
    }
  }

  lemma {:induction false} SupplyKeeps(s: State, supply: Supply)
    requires Inv(s) && Short(s) && !supply.Denied?
    requires supply.FromPool? ==> supply.b < |s.blocks| && s.blocks[supply.b].owner == Pool
    ensures Inv(StepNeed(s, supply))
  {
    hide SlotOk, ConsumerOk, EntryOk, ProducerOk;
    var s' := StepNeed(s, supply);
    forall c | 0 <= c < |s'.blocks| ensures BlockOk(s', c) {
      if c < |s.blocks| {
        assert BlockOk(s, c);
      }
    }
    SuppliedProducer(s, supply);
    OnlyProducerKeeps(s, s');
  }

  lemma {:induction false} EnoughProducer(s: State, supply: Supply)
    requires Inv(s) && s.producer.Need? && !Short(s)
    requires supply.FromPool? ==> supply.b < |s.blocks|
    ensures ProducerOk(StepNeed(s, supply))
  {
    hide SlotOk, ConsumerOk, BlockOk, EntryOk;
    var s' := StepNeed(s, supply);
    forall k | Tail(s) / BLOCK_SIZE <= k < |s.entries| - 1 ensures Linked(s', k) {
      assert s.producer.bulk;
      assert Linked(s, k);
    }
  }

  lemma {:induction false} EnoughKeeps(s: State, supply: Supply)
    requires Inv(s) && s.producer.Need? && !Short(s)
    requires supply.FromPool? ==> supply.b < |s.blocks|
    ensures Inv(StepNeed(s, supply))
  {
    hide SlotOk, ConsumerOk, EntryOk, ProducerOk;
    var s' := StepNeed(s, supply);
    assert s.producer.items[..0] == [];
    assert Pending(s') == Pending(s);
    forall c | 0 <= c < |s'.blocks| ensures BlockOk(s', c) {
      assert BlockOk(s, c);
    }
    EnoughProducer(s, supply);
    OnlyProducerKeeps(s, s');
  }

  lemma {:induction false} NoneDone()
    ensures Sum(seq(BLOCK_SIZE, _ => false), One) == 0
  {
    SumNonNegative(seq(BLOCK_SIZE, _ => false), One);
    SumNotPositive(seq(BLOCK_SIZE, _ => false), One);
  }

  /** The tail block, where it is dereferenced, is the block with the last number. */
  lemma {:induction false} TailBlockIsLast(s: State)
    requires Inv(s) && Links(s)
    ensures |s.entries| > 0 && Tail(s) / BLOCK_SIZE <= |s.entries| - 1
    ensures s.entries[|s.entries| - 1].stage == Open
    ensures s.tailBlock == At(s.entries[|s.entries| - 1].home) && s.tailBlock.block < |s.blocks|
  {
    LateEntry(s, |s.entries| - 1);
    assert EntryOk(s, |s.entries| - 1);
  }

  lemma {:induction false} GotKeepsBlocks(s: State)
    requires Inv(s) && s.producer.Got?
    ensures ProducerSafe(s)
    ensures var s' := StepGot(s);
      && (forall k :: 0 <= k < |s'.entries| ==> EntryOk(s', k))
      && (forall c :: 0 <= c < |s'.blocks| ==> BlockOk(s', c))
  {
    if Links(s) {
      TailBlockIsLast(s);
    }
    var s' := StepGot(s);
    NoneDone();
    forall k | 0 <= k < |s'.entries| ensures EntryOk(s', k) {
      if k < |s.entries| {
        assert EntryOk(s, k);
      }
    }
    forall c | 0 <= c < |s'.blocks| ensures BlockOk(s', c) {
      assert BlockOk(s, c);
    }
  }

  lemma {:induction false} GotKeepsSlots(s: State)
    requires Inv(s) && s.producer.Got? && ProducerSafe(s)
    ensures var s' := StepGot(s);
      && (forall j :: 0 <= j ==> SlotOk(s', j))
      && (forall u :: 0 <= u < |s'.consumers| ==> ConsumerOk(s', u))
  {
    var s' := StepGot(s);
    var b := s.producer.b;
    forall j | 0 <= j ensures SlotDone(s', j) <==> SlotDone(s, j) {
    }
    forall j, v | 0 <= j && Holds(s, j, v) ensures Holds(s', j, v) {
    }
    forall j | 0 <= j ensures SlotOk(s', j) {
      assert SlotOk(s, j);
    }
    forall u | 0 <= u < |s'.consumers| ensures ConsumerOk(s', u) {
      SparedConsumer(s, s', u);
    }
  }

  lemma {:induction false} GotKeepsProducer(s: State)
    requires Inv(s) && s.producer.Got? && ProducerSafe(s)
    ensures ProducerOk(StepGot(s))
  {
    var s' := StepGot(s);
    var n, last := Tail(s) / BLOCK_SIZE, |s.entries| - 1;
    if Links(s) {
      TailBlockIsLast(s);
      assert EntryOk(s, last);
    }
    if s.producer.bulk {
      forall k | n <= k < |s'.entries| - 1 ensures Linked(s', k) {
        LateEntry(s, k);
        assert EntryOk(s, k);
        if k < last {
          assert Linked(s, k);
          LateEntry(s, last);
          HomesDiffer(s, k, last);
        }
      }
    }
  }

  lemma {:induction false} GotKeeps(s: State)
    requires Inv(s) && s.producer.Got?
    ensures ProducerSafe(s) && Inv(StepGot(s))
  {
    GotKeepsBlocks(s);
    GotKeepsSlots(s);
    GotKeepsProducer(s);
  }

  /** The producer writes into the block of its slot, which is in use and in which the slot is free. */
  lemma {:induction false} WriteIsSafe(s: State)
    requires Inv(s) && s.producer.Write?
    ensures ProducerSafe(s)
    ensures var slot := Tail(s) + s.producer.i; var k := slot / BLOCK_SIZE;
      && slot >= Head(s) && !SlotDone(s, slot)
      && k < |s.entries| && s.entries[k].stage == Open
      && s.tailBlock == At(s.entries[k].home) && s.blocks[s.entries[k].home].owner == OfNumber(k)
  {
    var slot := Tail(s) + s.producer.i;
    var k := slot / BLOCK_SIZE;
    assert SlotOk(s, slot);
    LateEntry(s, k);
    assert EntryOk(s, k);
    assert BlockOk(s, s.entries[k].home);
  }

  lemma {:induction false} WriteKeepsBlocks(s: State)
    requires Inv(s) && s.producer.Write? && ProducerSafe(s)
    ensures var s' := StepWrite(s);
      && (forall k :: 0 <= k < |s'.entries| ==> EntryOk(s', k))
      && (forall c :: 0 <= c < |s'.blocks| ==> BlockOk(s', c))
      && ProducerOk(s')
  {
    WriteKeepsProducer(s);
    hide ProducerOk, SlotOk, ConsumerOk;
    WriteIsSafe(s);
    var s' := StepWrite(s);
    forall k | 0 <= k < |s'.entries| ensures EntryOk(s', k) {
      assert EntryOk(s, k);
    }
    forall c | 0 <= c < |s'.blocks| ensures BlockOk(s', c) {
      assert BlockOk(s, c);
    }
  }

  lemma {:induction false} WriteKeepsProducer(s: State)
    requires Inv(s) && s.producer.Write? && ProducerSafe(s)
    ensures ProducerOk(StepWrite(s))
  {
    hide EntryOk, BlockOk, SlotOk, ConsumerOk;
    var s' := StepWrite(s);
    forall k | Tail(s) / BLOCK_SIZE <= k < |s.entries| - 1 ensures Linked(s', k) {
      assert Linked(s, k);
    }
  }

  /** Writing slot `tail + i` fills that slot and disturbs no other live one. */
  lemma {:induction false} WriteFillsOne(s: State, j: nat, v: Value)
    requires Inv(s) && s.producer.Write? && ProducerSafe(s)
    requires j < |Pending(s)| && !SlotDone(s, j) && Holds(s, j, v)
    ensures Holds(StepWrite(s), j, v)
  {
    WriteIsSafe(s);
    LiveSlot(s, j);
    var slot := Tail(s) + s.producer.i;
    if j / BLOCK_SIZE != slot / BLOCK_SIZE {
      HomesDiffer(s, j / BLOCK_SIZE, slot / BLOCK_SIZE);
    }
  }

  lemma {:induction false} WriteKeepsSlots(s: State)
    requires Inv(s) && s.producer.Write? && ProducerSafe(s)
    ensures var s' := StepWrite(s);
      && (forall j :: 0 <= j ==> SlotOk(s', j))
      && (forall u :: 0 <= u < |s'.consumers| ==> ConsumerOk(s', u))
  {
    var s' := StepWrite(s);
    var Write(items, i, end) := s.producer;
    WriteIsSafe(s);
    assert items[..i + 1] == items[..i] + [items[i]];
    assert Pending(s') == Pending(s) + [items[i]];
    forall j, v | 0 <= j < |Pending(s)| && !SlotDone(s, j) && Holds(s, j, v) ensures Holds(s', j, v) {
      WriteFillsOne(s, j, v);
    }
    forall j | 0 <= j ensures SlotOk(s', j) {
      assert SlotOk(s, j);
    }
    forall u | 0 <= u < |s'.consumers| ensures ConsumerOk(s', u) {
      forall j | 0 <= j < Head(s) ensures SparesSlot(s, s', u, j) {
      }
      SparedConsumer(s, s', u);
    }
  }

  lemma {:induction false} WriteKeeps(s: State)
    requires Inv(s) && s.producer.Write?
    ensures ProducerSafe(s) && Inv(StepWrite(s))
  {
    WriteIsSafe(s);
    WriteKeepsBlocks(s);
    WriteKeepsSlots(s);
  }

  /** At a block boundary the chain leads on to the next block; at the end block all items are written. */
  lemma {:induction false} AdvanceIsSafe(s: State)
    requires Inv(s) && s.producer.Advance?
    ensures ProducerSafe(s)
    ensures s.tailBlock == s.producer.end ==> s.producer.i == |s.producer.items|
    ensures s.tailBlock != s.producer.end ==>
      && s.producer.i < |s.producer.items|
      && s.blocks[s.tailBlock.block].next == At(s.entries[(Tail(s) + s.producer.i) / BLOCK_SIZE].home)
  {
    var Advance(items, i, end) := s.producer;
    if items != [] {
      var k, last := (Tail(s) + i - 1) / BLOCK_SIZE, |s.entries| - 1;
      LateEntry(s, k);
      LateEntry(s, last);
      assert EntryOk(s, k);
      if k != last {
        HomesDiffer(s, k, last);
        assert Linked(s, k);
      }
    }
  }

  lemma {:induction false} TurnKeeps(s: State)
    requires Inv(s) && s.producer.Advance? && s.tailBlock != s.producer.end
    ensures ProducerSafe(s) && Inv(StepAdvance(s))
  {
    AdvanceIsSafe(s);
    var s' := StepAdvance(s);
    forall c | 0 <= c < |s'.blocks| ensures BlockOk(s', c) {
      assert BlockOk(s, c);
    }
    forall k | Tail(s) / BLOCK_SIZE <= k < |s.entries| - 1 ensures Linked(s', k) {
      assert Linked(s, k);
    }
    OnlyProducerKeeps(s, s');
  }

  lemma {:induction false} PublishKeeps(s: State)
    requires Inv(s) && s.producer.Advance? && s.tailBlock == s.producer.end
    ensures ProducerSafe(s) && Inv(StepAdvance(s))
  {
    AdvanceIsSafe(s);
    var s' := StepAdvance(s);
    var items := s.producer.items;
    assert items[..|items|] == items;
    assert Pending(s) == s'.published == Pending(s');
    forall k | 0 <= k < |s'.entries| ensures EntryOk(s', k) {
      assert EntryOk(s, k);
      if k >= BlocksFor(Tail(s)) {
        assert s.entries[k].stage == Open;
      }
    }
    forall c | 0 <= c < |s'.blocks| ensures BlockOk(s', c) {
      assert BlockOk(s, c);
    }
    forall j | 0 <= j ensures SlotOk(s', j) {
      assert SlotOk(s, j);
    }
    forall u | 0 <= u < |s'.consumers| ensures ConsumerOk(s', u) {
      SparedConsumer(s, s', u);
    }
  }

  // ---------------------------------------------------------------- the rollback of a failed enqueue

  lemma {:induction false} UndoKeepsBlocks(s: State)
    requires Inv(s) && s.producer.Undo?
    ensures ProducerSafe(s)
    ensures var s' := StepUndo(s);
      && (forall k :: 0 <= k < |s'.entries| ==> EntryOk(s', k))
      && (forall c :: 0 <= c < |s'.blocks| ==> BlockOk(s', c))
      && ProducerOk(s')
  {
    var Undo(first, start, k0, cur) := s.producer;
    if k0 < |s.entries| {
      assert EntryOk(s, k0);
      assert k0 + 1 < |s.entries| ==> Linked(s, k0);
    }
    var s' := StepUndo(s);
    forall k | 0 <= k < |s'.entries| ensures EntryOk(s', k) {
      assert EntryOk(s, k);
    }
    forall c | 0 <= c < |s'.blocks| ensures BlockOk(s', c) {
      assert BlockOk(s, c);
    }
    UndoKeepsProducer(s);
  }

  lemma {:induction false} UndoKeepsProducer(s: State)
    requires Inv(s) && s.producer.Undo? && ProducerSafe(s)
    ensures ProducerOk(StepUndo(s))
  {
    hide EntryOk, BlockOk, SlotOk, ConsumerOk;
    var Undo(first, start, k0, cur) := s.producer;
    var s' := StepUndo(s);
    assert k0 + 1 < |s.entries| ==> Linked(s, k0);
    forall k | first <= k < |s.entries| - 1 ensures Linked(s', k) {
      assert Linked(s, k);
    }
  }

  lemma {:induction false} UndoKeepsSlots(s: State)
    requires Inv(s) && s.producer.Undo? && ProducerSafe(s)
    ensures var s' := StepUndo(s);
      && (forall j :: 0 <= j ==> SlotOk(s', j))
      && (forall u :: 0 <= u < |s'.consumers| ==> ConsumerOk(s', u))
  {
    var s' := StepUndo(s);
    forall j | 0 <= j ensures SlotDone(s', j) <==> SlotDone(s, j) {
    }
    forall j, v | 0 <= j && Holds(s, j, v) ensures Holds(s', j, v) {
    }
    forall j | 0 <= j ensures SlotOk(s', j) {
      assert SlotOk(s, j);
    }
    forall u | 0 <= u < |s'.consumers| ensures ConsumerOk(s', u) {
      SparedConsumer(s, s', u);
    }
  }

  lemma {:induction false} GiveBackKeepsBlocks(s: State)
    requires Inv(s) && s.producer.GiveBack?
    ensures ProducerSafe(s)
    ensures var s' := StepGiveBack(s);
      && (forall k :: 0 <= k < |s'.entries| ==> EntryOk(s', k))
      && (forall c :: 0 <= c < |s'.blocks| ==> BlockOk(s', c))
      && ProducerOk(s')
  {
    var GiveBack(first, start, k0, cur) := s.producer;
    if k0 < |s.entries| {
      assert EntryOk(s, k0);
      assert k0 + 1 < |s.entries| ==> Linked(s, k0);
    }
    var s' := StepGiveBack(s);
    forall k | 0 <= k < |s'.entries| ensures EntryOk(s', k) {
      assert EntryOk(s, k);
    }
    forall c | 0 <= c < |s'.blocks| ensures BlockOk(s', c) {
      assert BlockOk(s, c);
    }
    GiveBackKeepsProducer(s);
  }

  lemma {:induction false} GiveBackKeepsProducer(s: State)
    requires Inv(s) && s.producer.GiveBack? && ProducerSafe(s)
    ensures ProducerOk(StepGiveBack(s))
  {
    hide EntryOk, BlockOk, SlotOk, ConsumerOk;
    var GiveBack(first, start, k0, cur) := s.producer;
    var s' := StepGiveBack(s);
    if k0 < |s.entries| {
      assert k0 + 1 < |s.entries| ==> Linked(s, k0);
      forall k | k0 + 1 <= k < |s.entries| - 1 ensures Linked(s', k) {
        assert Linked(s, k);
      }
    }
  }

  lemma {:induction false} GiveBackKeepsSlots(s: State)
    requires Inv(s) && s.producer.GiveBack? && ProducerSafe(s)
    ensures var s' := StepGiveBack(s);
      && Tail(s') <= |s'.entries| * BLOCK_SIZE
      && (forall j :: 0 <= j ==> SlotOk(s', j))
      && (forall u :: 0 <= u < |s'.consumers| ==> ConsumerOk(s', u))
  {
    var s' := StepGiveBack(s);
    forall j | 0 <= j ensures SlotDone(s', j) <==> SlotDone(s, j) {
      assert SlotOk(s, j);
    }
    forall j, v | 0 <= j < Tail(s) && Holds(s, j, v) ensures Holds(s', j, v) {
    }
    forall j | 0 <= j ensures SlotOk(s', j) {
      assert SlotOk(s, j);
    }
    forall u | 0 <= u < |s'.consumers| ensures ConsumerOk(s', u) {
      forall j | 0 <= j < Head(s) ensures SparesSlot(s, s', u, j) {
      }
      SparedConsumer(s, s', u);
    }
  }

  lemma {:induction false} UndoKeeps(s: State)
    requires Inv(s) && (s.producer.Undo? || s.producer.GiveBack?)
    ensures ProducerSafe(s)
    ensures s.producer.Undo? ==> Inv(StepUndo(s))
    ensures s.producer.GiveBack? ==> Inv(StepGiveBack(s))
  {
    if s.producer.Undo? {
      UndoKeepsBlocks(s);
      UndoKeepsSlots(s);
    } else {
      GiveBackKeepsBlocks(s);
      GiveBackKeepsSlots(s);
    }
  }

  // ---------------------------------------------------------------- every step keeps the invariant

  /** Nobody ever dereferences a missing entry, a null pointer or an empty slot. */
  lemma {:induction false} StepsAreSafe(s: State)
    requires Inv(s)
    ensures ProducerSafe(s)
    ensures forall t :: 0 <= t < |s.consumers| ==> ConsumerSafe(s, t)
  {
    match s.producer {
      case Idle =>
      case Need(_, _, _, _) =>
      case Got(_, _, _, _, _) => GotKeeps(s);
      case Write(_, _, _) => WriteIsSafe(s);
      case Advance(_, _, _) => AdvanceIsSafe(s);
      case Undo(_, _, _, _) => UndoKeeps(s);
      case GiveBack(_, _, _, _) => UndoKeeps(s);
    }
    forall t | 0 <= t < |s.consumers| ensures ConsumerSafe(s, t) {
      ConsumerStepKeeps(s, t);
    }
  }

  lemma {:induction false} ConsumerStepKeeps(s: State, t: nat)
    requires Inv(s) && t < |s.consumers|
    ensures ConsumerSafe(s, t) && Inv(StepConsumer(s, t))
  {
    match s.consumers[t]
    case Outside =>
    case Finished(_, _) =>
    case Next(_, _, _, _) => NextKeeps(s, t);
    case Take(_, _, i, stop, _, _, _) =>
      assert ConsumerOk(s, t);
      if i < stop {
        MoveKeeps(s, t);
      } else {
        CountKeeps(s, t);
      }
    case Clear(_, _, _, _, _, _) => ReleaseKeeps(s, t);
    case Release(_, _, _, _, _, _) => ReleaseKeeps(s, t);
  }

  lemma {:induction false} ProducerStepKeeps(s: State, supply: Supply)
    requires Inv(s) && Allowed(s, RunProducer(supply))
    ensures Inv(StepProducer(s, supply))
  {
    match s.producer
    case Idle =>
    case Need(_, _, _, _) =>
      if !Short(s) {
        EnoughKeeps(s, supply);
      } else if supply.Denied? {
        DeniedKeeps(s);
      } else {
        SupplyKeeps(s, supply);
      }
    case Got(_, _, _, _, _) => GotKeeps(s);
    case Write(_, _, _) => WriteKeeps(s);
    case Advance(_, _, end) =>
      if s.tailBlock == end {
        PublishKeeps(s);
      } else {
        TurnKeeps(s);
      }
    case Undo(_, _, _, _) => UndoKeeps(s);
    case GiveBack(_, _, _, _) => UndoKeeps(s);
  }

  lemma {:induction false} ApplyKeepsInv(s: State, e: Event)
    requires Inv(s) && Allowed(s, e)
    ensures Inv(Apply(s, e))
  {
    match e
    case CallEnqueue(bulk, items) => CallKeeps(s, bulk, items);
    case RunProducer(supply) => ProducerStepKeeps(s, supply);
    case Claim(t, n) => ClaimKeeps(s, t, n);
    case RunConsumer(t) => ConsumerStepKeeps(s, t);
    case Return(t) => MoveOn(s, t, Outside);
    case OthersTake(b) =>
      assert BlockOk(s, b);
      ForeignBlock(s, b, s.blocks[b].(owner := Elsewhere));
    case OthersUse(b, completed, next, cells) => ForeignBlock(s, b, Block(completed, next, cells, Elsewhere));
    case OthersGive(b) =>
      assert BlockOk(s, b);
      ForeignBlock(s, b, s.blocks[b].(owner := Pool));
  }

  // ---------------------------------------------------------------- runs

  /** A new producer: nothing enqueued, all blocks in the pool. */
  predicate Init(s: State) {
    && s.published == [] && s.claimant == [] && s.entries == [] && s.producer == Idle
    && (forall t :: 0 <= t < |s.consumers| ==> s.consumers[t] == Outside)
    && (forall b :: 0 <= b < |s.blocks| ==> s.blocks[b].owner == Pool && |s.blocks[b].cells| == BLOCK_SIZE)
  }

  predicate Possible(s: State, es: seq<Event>)
    decreases es
  {
    es == [] || (Allowed(s, es[0]) && Possible(Apply(s, es[0]), es[1..]))
  }

  function Exec(s: State, es: seq<Event>): State
    requires Possible(s, es)
    decreases es
  {
    if es == [] then s else Exec(Apply(s, es[0]), es[1..])
  }

  lemma {:induction false} InvAlong(s: State, es: seq<Event>)
    requires Inv(s) && Possible(s, es)
    ensures Inv(Exec(s, es))
    decreases es
  {
    if es != [] {
      ApplyKeepsInv(s, es[0]);
      InvAlong(Apply(s, es[0]), es[1..]);
    }
  }

  lemma {:induction false} ReachableInv(s: State, es: seq<Event>)
    requires Init(s) && Possible(s, es)
    ensures Inv(Exec(s, es))
  {
    forall t | 0 <= t < |s.consumers| ensures ConsumerOk(s, t) {
    }
    InvAlong(s, es);
  }

  // ---------------------------------------------------------------- the theorems

  // ---------------------------------------------------------------- what callers asked for

  /** The items of the producer's open call, as its event gave them. */
  function Asked(e: Event, asked: seq<Value>): seq<Value> {
    if e.CallEnqueue? then e.items else asked
  }

  /** The producer works for the items that were asked for. */
  predicate Carries(pc: ProducerPc, asked: seq<Value>) {
    match pc
    case Need(_, items, _, _) => items == asked
    case Got(_, items, _, _, _) => items == asked
    case Write(items, _, _) => items == asked
    case Advance(items, _, _) => items == asked
    case _ => true
  }

  /** The step with which a call succeeds. */
  predicate Succeeds(s: State, e: Event) {
    e.RunProducer? && s.producer.Advance? && s.tailBlock == s.producer.end
  }

  /** The items of the calls that succeed in a run, one call after the other, as their events gave them. */
  function Accepted(s: State, es: seq<Event>, asked: seq<Value>): seq<Value>
    requires Possible(s, es)
    decreases es
  {
    if es == [] then []
    else
      (if Succeeds(s, es[0]) then asked else []) + Accepted(Apply(s, es[0]), es[1..], Asked(es[0], asked))
  }

  lemma {:induction false} EventCarries(s: State, e: Event, asked: seq<Value>)
    requires Allowed(s, e) && Carries(s.producer, asked)
    ensures Carries(Apply(s, e).producer, Asked(e, asked))
    ensures Apply(s, e).published == s.published + (if Succeeds(s, e) then asked else [])
  {
    if e.RunProducer? {
      ProducerCarries(s, e.supply, asked);
    } else if e.RunConsumer? {
      ConsumerSpares(s, e.t);
    }
  }

  lemma {:induction false} ProducerCarries(s: State, supply: Supply, asked: seq<Value>)
    requires Allowed(s, RunProducer(supply)) && Carries(s.producer, asked)
    ensures Carries(StepProducer(s, supply).producer, asked)
    ensures StepProducer(s, supply).published == s.published + (if Succeeds(s, RunProducer(supply)) then asked else [])
  {
  }

  lemma {:induction false} ConsumerSpares(s: State, t: nat)
    requires ConsumerSafe(s, t)
    ensures StepConsumer(s, t).producer == s.producer && StepConsumer(s, t).published == s.published
  {
  }

  lemma {:induction false} PublishedAlong(s: State, es: seq<Event>, asked: seq<Value>)
    requires Possible(s, es) && Carries(s.producer, asked)
    ensures Exec(s, es).published == s.published + Accepted(s, es, asked)
    decreases es
  {
    hide Allowed, Apply, Succeeds, Carries;
    if es != [] {
      EventCarries(s, es[0], asked);
      PublishedAlong(Apply(s, es[0]), es[1..], Asked(es[0], asked));
    }
  }

  /**
   Over every run what has been published is the items of the calls that succeeded, in the
   order of the calls, exactly as the callers passed them.
   */
  lemma {:induction false} PublishedIsAccepted(s: State, es: seq<Event>)
    requires Init(s) && Possible(s, es)
    ensures Exec(s, es).published == Accepted(s, es, [])
  {
    PublishedAlong(s, es, []);
  }

  /** A call fails only if a block is needed and none is to be had. */
  lemma {:induction false} FailsOnlyIfDenied(s: State, e: Event)
    requires Inv(s) && Allowed(s, e) && !s.producer.Undo? && Apply(s, e).producer.Undo?
    ensures e == RunProducer(Denied) && Short(s)
  {
    if e.RunConsumer? {
      ConsumerSpares(s, e.t);
    }
  }

  /** How many steps a call has left at most. */
  function Work(s: State): int {
    match s.producer
    case Idle => 0
    case Need(_, items, first, _) => 6 * Lacking(s, items) + 2 * (|s.entries| - first) + 2 * |items| + 8
    case Got(_, items, first, _, _) => 6 * Lacking(s, items) + 2 * (|s.entries| - first) + 2 * |items| + 7
    case Write(items, i, _) => 2 * (|items| - i) + 3
    case Advance(items, i, _) => 2 * (|items| - i) + 4
    case Undo(first, _, k, _) => 2 * |s.entries| - k - first + 2
    case GiveBack(_, _, k, _) => |s.entries| - k + 1
  }

  /** The blocks that are still to be allocated. */
  function Lacking(s: State, items: seq<Value>): int {
    BlocksFor(Tail(s) + |items|) - |s.entries|
  }

  lemma {:induction false} AllocatingEnds(s: State, supply: Supply)
    requires Inv(s) && (s.producer.Need? || s.producer.Got?) && Allowed(s, RunProducer(supply))
    ensures 0 <= Work(StepProducer(s, supply)) < Work(s)
  {
    hide EntryOk, BlockOk, SlotOk, ConsumerOk, Chained, Staged;
  }

  lemma {:induction false} FillingEnds(s: State, supply: Supply)
    requires Inv(s) && (s.producer.Write? || s.producer.Advance?) && Allowed(s, RunProducer(supply))
    ensures 0 <= Work(StepProducer(s, supply)) < Work(s)
  {
    hide EntryOk, BlockOk, SlotOk, ConsumerOk, Chained, Staged;
    if s.producer.Advance? {
      AdvanceIsSafe(s);
    }
  }

  lemma {:induction false} RollbackEnds(s: State, supply: Supply)
    requires Inv(s) && (s.producer.Undo? || s.producer.GiveBack?) && Allowed(s, RunProducer(supply))
    ensures 0 <= Work(StepProducer(s, supply)) < Work(s)
  {
    hide EntryOk, BlockOk, SlotOk, ConsumerOk, Chained, Staged;
  }

  /** Every call ends: each step of the producer, whatever memory it is given, brings the end closer. */
  lemma {:induction false} EveryCallEnds(s: State, supply: Supply)
    requires Inv(s) && !s.producer.Idle?
    requires supply.FromPool? ==> supply.b < |s.blocks| && s.blocks[supply.b].owner == Pool
    ensures Allowed(s, RunProducer(supply)) && 0 <= Work(StepProducer(s, supply)) < Work(s)
  {
    StepsAreSafe(s);
    hide Inv, Work, StepProducer, ProducerSafe;
    if s.producer.Need? || s.producer.Got? {
      AllocatingEnds(s, supply);
    } else if s.producer.Write? || s.producer.Advance? {
      FillingEnds(s, supply);
    } else {
      RollbackEnds(s, supply);
    }
  }

  /** How many steps a consumer has left at most before it has all its items. */
  function ConsumerWork(pc: Consumer): int {
    match pc
    case Next(_, i, end, _) => 6 * (end - i) + 1
    case Take(_, _, i, stop, end, _, _) => 6 * (end - stop) + (stop - i) + 4
    case Clear(_, i, end, _, _, _) => 6 * (end - i) + 3
    case Release(_, i, end, _, _, _) => 6 * (end - i) + 2
    case _ => 0
  }

  /** So does every dequeue that has claimed slots. */
  lemma {:induction false} EveryDequeueEnds(s: State, t: nat)
    requires Inv(s) && t < |s.consumers| && !s.consumers[t].Outside? && !s.consumers[t].Finished?
    ensures ConsumerSafe(s, t)
    ensures 0 <= ConsumerWork(StepConsumer(s, t).consumers[t]) < ConsumerWork(s.consumers[t])
  {
    StepsAreSafe(s);
    assert ConsumerOk(s, t);
    hide EntryOk, BlockOk, SlotOk, ProducerOk, Claimed, Full, Moved;
  }

  /** Whatever the interleaving, a consumer comes back with exactly the items that were enqueued in the slots it claimed, in order. */
  lemma {:induction false} ConsumersGetTheirSlots(s: State, es: seq<Event>, t: nat)
    requires Init(s) && Possible(s, es) && t < |Exec(s, es).consumers|
    requires Exec(s, es).consumers[t].Finished?
    ensures var z := Exec(s, es); var Finished(first, got) := z.consumers[t];
      first + |got| <= Tail(z) && got == z.published[first..first + |got|]
  {
    ReachableInv(s, es);
    assert ConsumerOk(Exec(s, es), t);
  }

  /** And these are items that callers passed to calls that succeeded, at the same places. */
  lemma {:induction false} ConsumersGetWhatWasAsked(s: State, es: seq<Event>, t: nat)
    requires Init(s) && Possible(s, es) && t < |Exec(s, es).consumers|
    requires Exec(s, es).consumers[t].Finished?
    ensures var Finished(first, got) := Exec(s, es).consumers[t]; var accepted := Accepted(s, es, []);
      first + |got| <= |accepted| && got == accepted[first..first + |got|]
  {
    ConsumersGetTheirSlots(s, es, t);
    PublishedIsAccepted(s, es);
  }

  /** In every reachable state every thread can take its next step: no entry, pointer or element it needs is missing. */
  lemma {:induction false} NoThreadIsStuck(s: State, es: seq<Event>)
    requires Init(s) && Possible(s, es)
    ensures var z := Exec(s, es);
      && Allowed(z, RunProducer(Denied))
      && (forall t :: 0 <= t < |z.consumers| ==> Allowed(z, RunConsumer(t)))
  {
    ReachableInv(s, es);
    StepsAreSafe(Exec(s, es));
  }

  /** The next step of the producer dereferences block `b`. */
  predicate ProducerTouches(s: State, b: nat) {
    match s.producer
    case Idle => false
    case Need(_, _, _, _) => false
    case Got(_, _, _, _, c) => c == b || (Links(s) && s.tailBlock == At(b))
    case Write(_, _, _) => s.tailBlock == At(b)
    case Advance(_, _, end) => s.tailBlock != end && s.tailBlock == At(b)
    case Undo(_, _, _, cur) => cur == At(b)
    case GiveBack(_, _, _, cur) => cur == At(b)
  }

  /** The block thread `t` works on is `b`. */
  predicate ConsumerTouches(s: State, t: nat, b: nat) {
    && t < |s.consumers|
    && match s.consumers[t] {
         case Take(_, _, _, _, _, c, _) => c == b
         case Clear(_, _, _, _, c, _) => c == b
         case Release(_, _, _, _, c, _) => c == b
         case _ => false
       }
  }

  lemma {:induction false} ProducerTouchesOwn(s: State, b: nat)
    requires Inv(s) && ProducerTouches(s, b)
    ensures b < |s.blocks|
    ensures match s.blocks[b].owner
            case InHand => s.producer.Got?
            case OfNumber(k) => k < |s.entries| && (s.entries[k].stage == Open || s.entries[k].stage == Undone)
            case _ => false
  {
    hide SlotOk, ConsumerOk, BlockOk;
    match s.producer
    case Got(_, _, _, _, c) =>
      if Links(s) {
        TailBlockIsLast(s);
        assert EntryOk(s, |s.entries| - 1);
      }
    case Write(_, _, _) => WriteIsSafe(s);
    case Advance(items, i, _) =>
      AdvanceIsSafe(s);
      LateEntry(s, (Tail(s) + i - 1) / BLOCK_SIZE);
      assert EntryOk(s, (Tail(s) + i - 1) / BLOCK_SIZE);
    case Undo(_, _, k, _) => assert EntryOk(s, k);
    case GiveBack(_, _, k, _) => assert EntryOk(s, k);
  }

  lemma {:induction false} ConsumerTouchesOwn(s: State, t: nat, b: nat)
    requires Inv(s) && ConsumerTouches(s, t, b)
    ensures b < |s.blocks| && s.blocks[b].owner.OfNumber?
    ensures s.blocks[b].owner.k < |s.entries|
    ensures match s.consumers[t]
            case Take(_, from, _, _, _, _, _) =>
              s.blocks[b].owner.k == from / BLOCK_SIZE && s.entries[from / BLOCK_SIZE].stage == Open
            case Clear(_, _, _, k, _, _) => s.blocks[b].owner.k == k && s.entries[k].stage == Completed(t)
            case Release(_, _, _, k, _, _) => s.blocks[b].owner.k == k && s.entries[k].stage == Cleared(t)
            case _ => false
  {
    assert ConsumerOk(s, t);
    match s.consumers[t]
    case Take(_, from, _, _, _, _, _) =>
      TakeIsSafe(s, t);
    case Clear(_, _, _, k, _, _) => assert EntryOk(s, k);
    case Release(_, _, _, k, _, _) => assert EntryOk(s, k);
  }

  /**
   A block that is back in the pool, or in other hands, is touched by no thread of this
   producer's side: neither the producer through a stale tail block nor a slow consumer.
   */
  lemma {:induction false} ReleasedBlockUntouched(s: State, es: seq<Event>, b: nat)
    requires Init(s) && Possible(s, es) && b < |Exec(s, es).blocks|
    requires Exec(s, es).blocks[b].owner == Pool || Exec(s, es).blocks[b].owner == Elsewhere
    ensures !ProducerTouches(Exec(s, es), b)
    ensures forall t :: !ConsumerTouches(Exec(s, es), t, b)
  {
    ReachableInv(s, es);
    var z := Exec(s, es);
    if ProducerTouches(z, b) {
      ProducerTouchesOwn(z, b);
    }
    forall t | ConsumerTouches(z, t, b) ensures false {
      ConsumerTouchesOwn(z, t, b);
    }
  }

  /**
   A consumer about to return a block is the only thread at it: all its slots have been
   consumed, nobody else works on it, and its entry is gone from the index.
   */
  lemma {:induction false} ReleaserIsAlone(s: State, es: seq<Event>, t: nat)
    requires Init(s) && Possible(s, es) && t < |Exec(s, es).consumers| && Exec(s, es).consumers[t].Release?
    ensures var z := Exec(s, es); var k, b := z.consumers[t].k, z.consumers[t].b;
      && k < |z.entries| && z.entries[k].value == Null && z.entries[k].home == b
      && (forall j :: k * BLOCK_SIZE <= j < (k + 1) * BLOCK_SIZE ==> SlotDone(z, j))
      && (k + 1) * BLOCK_SIZE <= Head(z)
      && !ProducerTouches(z, b)
      && (forall u :: u != t ==> !ConsumerTouches(z, u, b))
  {
    ReachableInv(s, es);
    var z := Exec(s, es);
    assert ConsumerOk(z, t);
    var k, b := z.consumers[t].k, z.consumers[t].b;
    ConsumerTouchesOwn(z, t, b);
    assert EntryOk(z, k);
    forall j | k * BLOCK_SIZE <= j < (k + 1) * BLOCK_SIZE ensures SlotDone(z, j) && j < Head(z) {
      if !z.entries[k].done[j % BLOCK_SIZE] {
        NotFull(z.entries[k].done, j % BLOCK_SIZE);
      }
      assert SlotOk(z, j);
    }
    assert SlotDone(z, (k + 1) * BLOCK_SIZE - 1);
    if ProducerTouches(z, b) {
      ProducerTouchesOwn(z, b);
    }
    forall u | u != t ensures !ConsumerTouches(z, u, b) {
      if ConsumerTouches(z, u, b) {
        ConsumerTouchesOwn(z, u, b);
      }
    }
  }

  /** Block number `k` has been returned. */
  function Freed(s: State, k: nat): nat {
    if k < |s.entries| && s.entries[k].stage.Returned? then 1 else 0
  }

  /** This event returns the block of number `k`. */
  function ReleaseOf(s: State, e: Event, k: nat): nat {
    if e.RunConsumer? && e.t < |s.consumers| && s.consumers[e.t].Release? && s.consumers[e.t].k == k then 1 else 0
  }

  function Releases(s: State, es: seq<Event>, k: nat): nat
    requires Possible(s, es)
    decreases es
  {
    if es == [] then 0 else ReleaseOf(s, es[0], k) + Releases(Apply(s, es[0]), es[1..], k)
  }

  lemma {:induction false} ProducerReleasesNone(s: State, supply: Supply, k: nat)
    requires ProducerOk(s) && Allowed(s, RunProducer(supply))
    ensures Freed(StepProducer(s, supply), k) == Freed(s, k)
  {
  }

  lemma {:induction false} ConsumerReleases(s: State, t: nat, k: nat)
    requires Inv(s) && Allowed(s, RunConsumer(t))
    ensures Freed(StepConsumer(s, t), k) == Freed(s, k) + ReleaseOf(s, RunConsumer(t), k)
  {
    assert ConsumerOk(s, t);
    if s.consumers[t].Take? {
      TakeIsSafe(s, t);
    }
    hide Inv, ConsumerOk, CanTake;
  }

  lemma {:induction false} StepReleases(s: State, e: Event, k: nat)
    requires Inv(s) && Allowed(s, e)
    ensures Freed(Apply(s, e), k) == Freed(s, k) + ReleaseOf(s, e, k)
  {
    hide ProducerSafe, ConsumerSafe, EntryOk, BlockOk, SlotOk, ConsumerOk, StepConsumer, StepProducer;
    match e
    case RunConsumer(t) => ConsumerReleases(s, t, k);
    case RunProducer(supply) => ProducerReleasesNone(s, supply, k);
    case _ =>
  }

  lemma {:induction false} ReleasesAlong(s: State, es: seq<Event>, k: nat)
    requires Inv(s) && Possible(s, es)
    ensures Freed(Exec(s, es), k) == Freed(s, k) + Releases(s, es, k)
    decreases es
  {
    if es != [] {
      StepReleases(s, es[0], k);
      ApplyKeepsInv(s, es[0]);
      ReleasesAlong(Apply(s, es[0]), es[1..], k);
    }
  }

  /** In every run the block of each number is returned at most once, and exactly once when it has been returned. */
  lemma {:induction false} ReleasedExactlyOnce(s: State, es: seq<Event>, k: nat)
    requires Init(s) && Possible(s, es)
    ensures Releases(s, es, k) <= 1
    ensures Releases(s, es, k) == 1 <==> k < |Exec(s, es).entries| && Exec(s, es).entries[k].stage.Returned?
  {
    forall t | 0 <= t < |s.consumers| ensures ConsumerOk(s, t) {
    }
    ReleasesAlong(s, es, k);
  }

  /** A slot of a block that is not wholly consumed. */
  lemma {:induction false} SomeSlotLeft(done: seq<bool>) returns (i: nat)
    requires Sum(done, One) < |done|
    ensures i < |done| && !done[i]
  {
    if done[0] {
      var j := SomeSlotLeft(done[1..]);
      i := j + 1;
    } else {
      i := 0;
    }
  }

  predicate Quiet(s: State) {
    && s.producer == Idle
    && (forall t :: 0 <= t < |s.consumers| ==> s.consumers[t].Outside? || s.consumers[t].Finished?)
  }

  /**
   No block leaks. With nobody at work a block of this producer still has an unconsumed slot; and when the
   queue is empty, only the block with room for the next item is left, if there is one.
   */
  lemma {:induction false} NoBlockLeaks(s: State, es: seq<Event>, b: nat)
    requires Init(s) && Possible(s, es) && Quiet(Exec(s, es)) && b < |Exec(s, es).blocks|
    ensures var z := Exec(s, es);
      match z.blocks[b].owner
      case Pool => true
      case Elsewhere => true
      case InHand => false
      case OfNumber(k) =>
        && k < |z.entries| && Head(z) < (k + 1) * BLOCK_SIZE
        && (Head(z) == Tail(z) ==> k == Tail(z) / BLOCK_SIZE && Tail(z) % BLOCK_SIZE != 0)
  {
    ReachableInv(s, es);
    var z := Exec(s, es);
    assert BlockOk(z, b);
    if z.blocks[b].owner.OfNumber? {
      var k := z.blocks[b].owner.k;
      assert EntryOk(z, k);
      assert z.entries[k].stage == Open;
      var i := SomeSlotLeft(z.entries[k].done);
      assert SlotOk(z, k * BLOCK_SIZE + i);
    }
  }

  /** The end of a failed enqueue: index, tail block and published items are as before, and every block it took is back. */
  lemma {:induction false} RollbackRestores(s: State)
    requires Inv(s) && s.producer.GiveBack? && s.producer.cur == Null
    ensures ProducerSafe(s)
    ensures var s' := StepGiveBack(s);
      && |s'.entries| == s.producer.first == BlocksFor(Tail(s))
      && s'.entries <= s.entries && s'.published == s.published && s'.claimant == s.claimant
      && s'.tailBlock == s.producer.start && s'.producer == Idle
      && (forall b :: 0 <= b < |s'.blocks| ==>
            s'.blocks[b].owner != InHand && (s'.blocks[b].owner.OfNumber? ==> s'.blocks[b].owner.k < s.producer.first))
  {
    UndoKeeps(s);
    var s' := StepGiveBack(s);
    forall b | 0 <= b < |s'.blocks|
      ensures s'.blocks[b].owner != InHand && (s'.blocks[b].owner.OfNumber? ==> s'.blocks[b].owner.k < s.producer.first)
    {
      assert BlockOk(s', b);
    }
  }

  /** The end of a successful one: exactly its items are appended, and the assertion behind the write loop holds. */
  lemma {:induction false} EnqueuePublishesAll(s: State)
    requires Inv(s) && s.producer.Advance? && s.tailBlock == s.producer.end
    ensures s.producer.i == |s.producer.items|
    ensures StepAdvance(s).published == s.published + s.producer.items
    ensures Full(StepAdvance(s), Tail(s), Tail(s) + |s.producer.items|)
  {
    AdvanceIsSafe(s);
    var items := s.producer.items;
    var s' := StepAdvance(s);
    assert items[..|items|] == items;
    forall j | Tail(s) <= j < Tail(s') ensures Holds(s', j, s'.published[j]) {
      assert SlotOk(s, j);
    }
  }

  // ---------------------------------------------------------------- the steps in place

  /** The shared structures of one implicit producer, updated in place one access at a time. */
  class Structure {
    var tailIndex: nat
    var headIndex: nat
    var tailBlock: Ptr
    var entries: seq<Entry>
    var blocks: seq<Block>
    var producer: ProducerPc
    var consumers: seq<Consumer>
    ghost var published: seq<Value>
    ghost var claimant: seq<nat>

    ghost function View(): State
      reads this
    {
      State(published, claimant, tailBlock, entries, blocks, producer, consumers)
    }

    ghost predicate Valid()
      reads this
    {
      tailIndex == |published| && headIndex == |claimant| && Inv(View())
    }

    /** `set_empty` and `set_many_empty`: the answer is yes for exactly one caller per block. */
    method SetManyEmpty(b: nat, count: nat) returns (empty: bool)
      requires b < |blocks|
      modifies this`blocks
      ensures blocks == old(blocks)[b := old(blocks)[b].(completed := old(blocks)[b].completed + count)]
      ensures empty <==> blocks[b].completed == BLOCK_SIZE
    {
      var prev := blocks[b].completed;
      blocks := blocks[b := blocks[b].(completed := prev + count)];
      empty := prev + count == BLOCK_SIZE;
    }

    /** `add_block_to_free_list`. */
    method AddBlockToFreeList(b: nat)
      requires b < |blocks|
      modifies this`blocks
      ensures blocks == old(blocks)[b := old(blocks)[b].(owner := Pool)]
    {
      blocks := blocks[b := blocks[b].(owner := Pool)];
    }

    /** Moves one element out of the block, or counts the slots of this block. */
    method TakeFromBlock(t: nat)
      requires CanTake(View(), t)
      modifies this`blocks, this`entries, this`consumers
      ensures View() == StepTake(old(View()), t)
    {
      var Take(first, from, i, stop, end, b, got) := consumers[t];
      if i < stop {
        var cells := blocks[b].cells;
        var item := cells[i % BLOCK_SIZE].v;
        blocks := blocks[b := blocks[b].(cells := cells[i % BLOCK_SIZE := Raw])];
        consumers := consumers[t := Take(first, from, i + 1, stop, end, b, got + [item])];
      } else {
        var k := from / BLOCK_SIZE;
        var empty := SetManyEmpty(b, stop - from);
        var done := SetDone(entries[k].done, from % BLOCK_SIZE, stop - from);
        entries := entries[k := entries[k].(done := done, stage := if empty then Completed(t) else entries[k].stage)];
        consumers := consumers[t := if empty then Clear(first, stop, end, k, b, got) else Rest(first, stop, end, got)];
      }
    }

    /** Clears the entry of a completed block, then adds the block to the free list. */
    method ReleaseBlock(t: nat)
      requires ConsumerSafe(View(), t) && (consumers[t].Clear? || consumers[t].Release?)
      modifies this`blocks, this`entries, this`consumers
      ensures View() == StepRelease(old(View()), t)
    {
      match consumers[t]
      case Clear(first, i, end, k, b, got) =>
        entries := entries[k := entries[k].(value := Null, stage := Cleared(t))];
        consumers := consumers[t := Release(first, i, end, k, b, got)];
      case Release(first, i, end, k, b, got) =>
        entries := entries[k := entries[k].(stage := Returned)];
        AddBlockToFreeList(b);
        consumers := consumers[t := Rest(first, i, end, got)];
    }

    /** The `fetch_add` on the head that claims `n` slots. */
    method ClaimSlots(t: nat, n: nat) returns (first: nat)
      requires Valid() && Allowed(View(), Claim(t, n))
      modifies this`headIndex, this`claimant, this`consumers
      ensures Valid() && View() == Apply(old(View()), Claim(t, n)) && first == Head(old(View()))
    {
      hide Inv;
      ClaimKeeps(View(), t, n);
      first := headIndex;
      headIndex := headIndex + n;
      claimant := claimant + seq(n, _ => t);
      consumers := consumers[t := Next(first, first, first + n, [])];
    }

    /** The next access of consumer `t`. No precondition but the invariant: nothing it needs is ever missing. */
    method RunConsumer(t: nat)
      requires Valid() && t < |consumers|
      modifies this`blocks, this`entries, this`consumers
      ensures Valid() && ConsumerSafe(old(View()), t) && View() == StepConsumer(old(View()), t)
    {
      hide Inv;
      ConsumerStepKeeps(View(), t);
      match consumers[t]
      case Outside =>
      case Finished(_, _) =>
      case Next(first, i, end, got) =>
        var k := i / BLOCK_SIZE;
        consumers := consumers[t := Take(first, i, i, Min((k + 1) * BLOCK_SIZE, end), end, entries[k].value.block, got)];
      case Take(_, _, _, _, _, _, _) => TakeFromBlock(t);
      case Clear(_, _, _, _, _, _) => ReleaseBlock(t);
      case Release(_, _, _, _, _, _) => ReleaseBlock(t);
    }

    /** Asks for the next block, or starts to write when there are enough. */
    method AskForBlock(supply: Supply)
      requires producer.Need? && tailIndex == |published| && (supply.FromPool? ==> supply.b < |blocks|)
      modifies this`tailBlock, this`blocks, this`producer
      ensures View() == StepNeed(old(View()), supply)
    {
      var Need(bulk, items, first, start) := producer;
      if |entries| * BLOCK_SIZE < tailIndex + |items| {
        match supply
        case Denied =>
          producer := Undo(first, start, first, if first < |entries| then At(entries[first].home) else Null);
        case FromPool(b) =>
          blocks := blocks[b := blocks[b].(owner := InHand)];
          producer := Got(bulk, items, first, start, b);
        case Created =>
          producer := Got(bulk, items, first, start, |blocks|);
          blocks := blocks + [NewBlock()];
      } else {
        var end := tailBlock;
        tailBlock := if tailIndex % BLOCK_SIZE == 0 && first < |entries| then At(entries[first].home) else start;
        producer := if items == [] then Advance(items, 0, end) else Write(items, 0, end);
      }
    }

    /** Puts a requisitioned block to use. */
    method EnterBlock()
      requires ProducerSafe(View()) && producer.Got? && tailIndex == |published|
      modifies this`tailBlock, this`entries, this`blocks, this`producer
      ensures View() == StepGot(old(View()))
    {
      var Got(bulk, items, first, start, b) := producer;
      var links := bulk && (tailIndex % BLOCK_SIZE != 0 || first < |entries|);
      blocks := blocks[b := blocks[b].(completed := 0, next := if bulk then Null else blocks[b].next, owner := OfNumber(|entries|))];
      entries := entries + [Entry(At(b), b, seq(BLOCK_SIZE, _ => false), Open)];
      if links {
        blocks := blocks[tailBlock.block := blocks[tailBlock.block].(next := At(b))];
      }
      tailBlock := At(b);
      producer := Need(bulk, items, first, start);
    }

    /** Writes one item into its slot of the tail block. */
    method WriteItem()
      requires ProducerSafe(View()) && producer.Write? && tailIndex == |published|
      modifies this`blocks, this`producer
      ensures View() == StepWrite(old(View()))
    {
      var Write(items, i, end) := producer;
      var b, slot := tailBlock.block, tailIndex + i;
      blocks := blocks[b := blocks[b].(cells := blocks[b].cells[slot % BLOCK_SIZE := Built(items[i])])];
      producer := if (slot + 1) % BLOCK_SIZE == 0 || i + 1 == |items| then Advance(items, i + 1, end)
                  else Write(items, i + 1, end);
    }

    /** One step of the rollback: clears an entry, or returns a block after its chain pointer was read. */
    method RollBack()
      requires ProducerSafe(View()) && (producer.Undo? || producer.GiveBack?)
      modifies this`tailBlock, this`entries, this`blocks, this`producer
      ensures producer == (if old(producer).Undo? then StepUndo(old(View())) else StepGiveBack(old(View()))).producer
      ensures View() == (if old(producer).Undo? then StepUndo(old(View())) else StepGiveBack(old(View())))
    {
      match producer
      case Undo(first, start, k, cur) =>
        if cur == Null {
          producer := GiveBack(first, start, first, if first < |entries| then At(entries[first].home) else Null);
        } else {
          entries := entries[k := entries[k].(value := Null, stage := Undone)];
          producer := Undo(first, start, k + 1, blocks[cur.block].next);
        }
      case GiveBack(first, start, k, cur) =>
        if cur == Null {
          tailBlock, entries, producer := start, entries[..first], Idle;
        } else {
          var next := blocks[cur.block].next;
          entries := entries[k := entries[k].(stage := Dropped)];
          AddBlockToFreeList(cur.block);
          producer := GiveBack(first, start, k + 1, next);
        }
    }

    /** The next access of the producer. */
    method RunProducer(supply: Supply)
      requires Valid() && Allowed(View(), Event.RunProducer(supply))
      modifies this`tailIndex, this`published, this`tailBlock, this`entries, this`blocks, this`producer
      ensures Valid() && View() == StepProducer(old(View()), supply)
    {
      hide Inv;
      ProducerStepKeeps(View(), supply);
      match producer
      case Idle =>
      case Need(_, _, _, _) => AskForBlock(supply);
      case Got(_, _, _, _, _) => EnterBlock();
      case Write(_, _, _) => WriteItem();
      case Advance(items, i, end) =>
        if tailBlock == end {
          tailIndex := tailIndex + |items|;
          published := published + items;
          producer := Idle;
        } else {
          tailBlock, producer := blocks[tailBlock.block].next, Write(items, i, end);
        }
      case Undo(_, _, _, _) => RollBack();
      case GiveBack(_, _, _, _) => RollBack();
    }
  }
}
