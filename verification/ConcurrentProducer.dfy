/**
 One implicit producer with its consumers, in one piece: the counters that hand out slots
 (`DequeueCounters`), the index in which blocks are looked up (`BlockIndex`) and the life of
 the blocks (`BlockRecycling`) run together, each step of the code being a step of the
 machines it concerns.

 What the three machines take for granted of each other is not assumed here but proved: a
 claim is what the head counter gave out, a look-up is what the index led to, the index is
 entered and cleared as the blocks come and go. Left to chance are only the memory and what
 others do with pool blocks, and the counters' window, which is theirs alone.
 */
module ConcurrentProducer {
  import opened Blocks
  import D = DequeueCounters
  import R = BlockRecycling
  import X = BlockIndex
  import opened Optional

  datatype State = State(counters: D.State, recycling: R.State, index: X.State)

  /** `granted` and `garbage` are what an allocation for the index comes back with. */
  datatype Action =
    | CallEnqueue(bulk: bool, items: seq<Value>)
    | RunProducer(supply: R.Supply, granted: bool, garbage: seq<Ptr>)
    | CallDequeue(t: nat, max: nat)
    | RunConsumer(t: nat)
    | Others(e: R.Event)

  /** The steps of the three machines that make up one step of the code. */
  datatype Parts = Parts(d: Option<D.Event>, r: Option<R.Event>, x: Option<X.Event>)

  // ---------------------------------------------------------------- the steps

  /** The allocation loop: an entry in the index first, then a block, then the block into the entry. */
  ghost function NeedParts(s: State, supply: R.Supply, granted: bool, garbage: seq<Ptr>): Parts
    requires s.index.gens != []
  {
    if !R.Short(s.recycling) then Parts(None, Some(R.RunProducer(supply)), None)
    else
      match s.index.producer
      case Ready => Parts(None, None, Some(X.Check))
      case Growing =>
        if !granted || 2 * |X.Current(s.index).ring| > X.MAX_CAPACITY then
          Parts(None, Some(R.RunProducer(R.Denied)), Some(X.Grow(granted, garbage)))
        else Parts(None, None, Some(X.Grow(granted, garbage)))
      case Filling =>
        if supply.Denied? then Parts(None, None, Some(X.FailBlock)) else Parts(None, Some(R.RunProducer(supply)), None)
      case ClearOwn => Parts(None, Some(R.RunProducer(R.Denied)), Some(X.Run))
      case _ => Parts(None, None, Some(X.Run))
  }

  /** The next access of the producer. */
  ghost function ProducerParts(s: State, supply: R.Supply, granted: bool, garbage: seq<Ptr>): Parts
    requires s.index.gens != []
  {
    var run := Some(R.RunProducer(supply));
    match s.recycling.producer
    case Idle => Parts(None, None, None)
    case Need(_, _, _, _) => NeedParts(s, supply, granted, garbage)
    case Got(_, _, _, _, b) => Parts(None, run, Some(X.Fill(b)))
    case Write(_, _, _) => Parts(None, run, None)
    case Advance(items, _, end) =>
      if s.recycling.tailBlock == end then Parts(Some(D.Publish(|items|)), run, Some(X.Publish(s.index.hi)))
      else Parts(None, run, None)
    case Undo(_, _, _, _) =>
      if s.index.producer.RollClear? then Parts(None, run, Some(X.Run))
      else if s.index.producer.RollRewind? then Parts(None, None, Some(X.Run))
      else Parts(None, run, None)
    case GiveBack(_, _, _, _) => Parts(None, run, None)
  }

  /** The next access of consumer `t`: of the counters until it has its slots, then of the index and the blocks in turn. */
  ghost function ConsumerParts(s: State, t: nat): Parts
    requires t < |s.counters.threads| && t < |s.recycling.consumers| && t < |s.index.consumers|
  {
    var run := Some(R.RunConsumer(t));
    match s.recycling.consumers[t]
    case Outside =>
      if s.counters.threads[t].AddHead? then
        var head, n := s.counters.head, s.counters.threads[t].actual;
        Parts(Some(D.Run(t)), Some(R.Claim(t, n)),
              Some(X.Pin(t, head / BLOCK_SIZE, if n == 0 then 0 else (head + n - 1) / BLOCK_SIZE)))
      else Parts(Some(D.Run(t)), None, None)
    case Next(_, _, _, _) =>
      if s.index.consumers[t].Holding? then Parts(None, run, None) else Parts(None, None, Some(X.Look(t)))
    case Take(_, from, i, stop, _, b, _) =>
      if i < stop || (b < |s.recycling.blocks| && s.recycling.blocks[b].completed + stop - from == BLOCK_SIZE) then
        Parts(None, run, None)
      else Parts(None, run, Some(X.Leave(t)))
    case Clear(_, _, _, _, _, _) => Parts(None, run, Some(X.Release(t)))
    case Release(_, _, _, _, _, _) => Parts(None, run, None)
    case Finished(_, _) => Parts(Some(D.Finish(t)), Some(R.Return(t)), None)
  }

  ghost predicate CanDo(s: State, a: Action) {
    && s.index.gens != []
    && match a {
         case CallEnqueue(bulk, items) => s.recycling.producer.Idle? && (!bulk ==> |items| == 1)
         case RunProducer(supply, _, garbage) =>
           && !s.recycling.producer.Idle? && |garbage| == |X.Current(s.index).ring|
           && (supply.FromPool? ==> supply.b < |s.recycling.blocks| && s.recycling.blocks[supply.b].owner == R.Pool)
         case CallDequeue(t, max) => D.Allowed(s.counters, D.CallDequeue(t, max))
         case RunConsumer(t) =>
           && t < |s.counters.threads| && t < |s.recycling.consumers| && t < |s.index.consumers|
           && (s.recycling.consumers[t].Outside? ==> !s.counters.threads[t].Idle? && D.Allowed(s.counters, D.Run(t)))
         case Others(e) => (e.OthersTake? || e.OthersUse? || e.OthersGive?) && R.Allowed(s.recycling, e)
       }
  }

  ghost function PartsOf(s: State, a: Action): Parts
    requires CanDo(s, a)
  {
    match a
    case CallEnqueue(bulk, items) => Parts(None, Some(R.CallEnqueue(bulk, items)), None)
    case RunProducer(supply, granted, garbage) => ProducerParts(s, supply, granted, garbage)
    case CallDequeue(t, max) => Parts(Some(D.CallDequeue(t, max)), None, None)
    case RunConsumer(t) => ConsumerParts(s, t)
    case Others(e) => Parts(None, Some(e), None)
  }

  /** Each machine takes its part if it can; `PartsAgree` shows that they always can. */
  function StepCounters(d: D.State, e: Option<D.Event>): D.State {
    if e.Some? && D.Allowed(d, e.value) then D.Apply(d, e.value) else d
  }

  function StepRecycling(r: R.State, e: Option<R.Event>): R.State {
    if e.Some? && R.Allowed(r, e.value) then R.Apply(r, e.value) else r
  }

  ghost function StepIndex(x: X.State, e: Option<X.Event>): X.State {
    if e.Some? && X.Allowed(x, e.value) then X.Apply(x, e.value) else x
  }

  /** A consumer goes on with the block that the index has led it to, whatever that is. */
  function GoOnWith(r: R.State, t: nat, p: Ptr): R.State {
    if p.At? && t < |r.consumers| && r.consumers[t].Next? then
      var pc := r.consumers[t];
      var stop := Min((pc.i / BLOCK_SIZE + 1) * BLOCK_SIZE, pc.end);
      R.Goto(r, t, R.Take(pc.first, pc.i, pc.i, stop, pc.end, p.block, pc.got))
    else r
  }

  ghost predicate UsesIndex(s: State, a: Action)
    requires CanDo(s, a)
  {
    a.RunConsumer? && s.recycling.consumers[a.t].Next? && s.index.consumers[a.t].Holding?
  }

  ghost function Do(s: State, a: Action): State
    requires CanDo(s, a)
  {
    var p := PartsOf(s, a);
    State(StepCounters(s.counters, p.d),
          if UsesIndex(s, a) then GoOnWith(s.recycling, a.t, s.index.consumers[a.t].b) else StepRecycling(s.recycling, p.r),
          StepIndex(s.index, p.x))
  }

  // ---------------------------------------------------------------- how the three machines hang together

  /** What the index says of block number `m`: nothing yet, or a block, or that it has gone. */
  function ValueOf(x: X.State, m: nat): Option<Ptr> {
    if m < x.low then Some(Null) else if m < X.Top(x) then Some(x.vals[m - x.low]) else None
  }

  /** The index and the blocks agree on number `m`. */
  predicate Matches(r: R.State, x: X.State, m: nat) {
    m < |r.entries| && ValueOf(x, m) == Some(r.entries[m].value)
  }

  /** Where the producer is in the index, and where in the blocks. */
  predicate Together(r: R.State, x: X.State) {
    && x.published == BlocksFor(R.Tail(r))
    && match r.producer {
         case Idle => x.producer.Ready? && x.hi == |r.entries|
         case Need(_, _, first, _) =>
           && first == x.published
           && match x.producer {
                case Ready => x.hi == |r.entries|
                case Growing => R.Short(r) && x.hi == |r.entries|
                case StoreKey => R.Short(r) && x.hi == |r.entries|
                case StoreTail => R.Short(r) && x.hi == |r.entries|
                case Filling => R.Short(r) && x.hi == |r.entries| + 1
                case ClearOwn => R.Short(r) && x.hi == |r.entries|
                case _ => false
              }
         case Got(_, _, first, _, _) => first == x.published && x.producer.Filling? && x.hi == |r.entries| + 1
         case Write(_, _, _) => x.producer.Ready? && x.hi == |r.entries|
         case Advance(_, _, _) => x.producer.Ready? && x.hi == |r.entries|
         case Undo(first, _, k, _) =>
           && first == x.published
           && match x.producer {
                case RollClear(i, n) => first + i == k && first + n == |r.entries|
                case RollRewind(i, n) => first + i + 1 == k && first + n == |r.entries|
                case Ready => k == |r.entries| && x.hi == first
                case _ => false
              }
         case GiveBack(first, _, _, _) => first == x.published && x.producer.Ready? && x.hi == first
       }
  }

  /** A consumer of the blocks is in the index at the block of its slots, on the way to the last one of its claim. */
  predicate LooksUp(pc: R.Consumer, look: X.Consumer) {
    match pc
    case Outside => look.Outside?
    case Next(_, i, end, _) =>
      i < end && !look.Outside? && look.c == i / BLOCK_SIZE && look.end == (end - 1) / BLOCK_SIZE
    case Take(_, from, _, stop, end, _, _) =>
      && from < stop <= end && stop == Min((from / BLOCK_SIZE + 1) * BLOCK_SIZE, end)
      && look.Holding? && look.c == from / BLOCK_SIZE && look.end == (end - 1) / BLOCK_SIZE
    case Clear(_, i, end, k, _, _) =>
      && look.Holding? && look.c == k
      && (if i < end then k + 1 == i / BLOCK_SIZE && look.end == (end - 1) / BLOCK_SIZE else look.end == k)
    case Release(_, i, end, _, _, _) =>
      if i < end then !look.Outside? && look.c == i / BLOCK_SIZE && look.end == (end - 1) / BLOCK_SIZE else look.Outside?
    case Finished(_, _) => look.Outside?
  }

  /** The claim of the counters is the one the consumer works on. */
  predicate Claims(pc: R.Consumer, count: D.Pc) {
    match pc
    case Outside => !count.Holding?
    case Next(first, _, end, _) => count.Holding? && count.first == first && first + count.n == end
    case Take(first, _, _, _, end, _, _) => count.Holding? && count.first == first && first + count.n == end
    case Clear(first, i, end, _, _, _) => i <= end && count.Holding? && count.first == first && first + count.n == end
    case Release(first, i, end, _, _, _) => i <= end && count.Holding? && count.first == first && first + count.n == end
    case Finished(first, got) => count.Holding? && count.first == first && count.n == |got|
  }

  predicate ThreadLinked(s: State, t: nat) {
    && t < |s.recycling.consumers| && t < |s.index.consumers| && t < |s.counters.threads|
    && LooksUp(s.recycling.consumers[t], s.index.consumers[t])
    && Claims(s.recycling.consumers[t], s.counters.threads[t])
  }

  ghost predicate Linked(s: State) {
    && |s.counters.threads| == |s.recycling.consumers| == |s.index.consumers|
    && s.counters.tail == R.Tail(s.recycling) && s.counters.claimant == s.recycling.claimant
    && Together(s.recycling, s.index)
    && (forall m :: 0 <= m < |s.recycling.entries| ==> Matches(s.recycling, s.index, m))
    && (forall t :: 0 <= t < |s.recycling.consumers| ==> ThreadLinked(s, t))
  }

  ghost predicate Inv(s: State) {
    D.Inv(s.counters) && R.Inv(s.recycling) && X.Inv(s.index) && Linked(s)
  }

  // ---------------------------------------------------------------- what a step of the index does

  predicate OfProducer(e: X.Event) {
    e.Check? || e.Grow? || e.Run? || e.Fill? || e.FailBlock? || e.Publish?
  }

  /** The number whose block an event of the index sets, and what it sets it to. */
  ghost function Sets(x: X.State, e: X.Event, m: nat): Option<Ptr>
    requires X.Allowed(x, e)
  {
    match e
    case Fill(b) => if m + 1 == x.hi then Some(At(b)) else None
    case Run =>
      if x.producer.ClearOwn? && m == x.hi then Some(Null)
      else if x.producer.RollClear? && m == x.published + x.producer.i then Some(Null)
      else None
    case Release(t) => if m == x.consumers[t].c then Some(Null) else None
    case _ => None
  }

  lemma {:induction false} IndexValues(x: X.State, e: X.Event, m: nat)
    requires X.Inv(x) && X.Allowed(x, e) && m < X.Top(x)
    ensures ValueOf(X.Apply(x, e), m) == (if Sets(x, e, m).Some? then Sets(x, e, m) else ValueOf(x, m))
  {
  }

  /** The producer's steps in the index: how far it is, and that the consumers stay where they are. */
  lemma {:induction false} IndexProducer(x: X.State, e: X.Event)
    requires X.Inv(x) && X.Allowed(x, e) && OfProducer(e)
    ensures var x' := X.Apply(x, e);
      && x'.consumers == x.consumers && x'.published == (if e.Publish? then e.p else x.published)
      && (e.Check? ==> (x'.producer.StoreKey? || x'.producer.Growing?) && x'.hi == x.hi)
      && (e.Grow? ==> x'.hi == x.hi && x'.producer == (if !e.granted || 2 * |X.Current(x).ring| > X.MAX_CAPACITY then X.Failed(x) else X.StoreKey))
      && (e.Fill? ==> x'.producer.Ready? && x'.hi == x.hi)
      && (e.FailBlock? ==> x'.producer.ClearOwn? && x'.hi == x.hi - 1)
      && (e.Publish? ==> x'.producer.Ready? && x'.hi == x.hi)
      && (e.Run? ==> match x.producer {
            case StoreKey => x'.producer.StoreTail? && x'.hi == x.hi
            case StoreTail => x'.producer.Filling? && x'.hi == x.hi + 1
            case ClearOwn => x'.producer == X.Failed(x) && x'.hi == x.hi
            case RollClear(i, k) => x'.producer == X.RollRewind(i, k) && x'.hi == x.hi
            case RollRewind(i, k) => x'.producer == (if i + 1 < k then X.RollClear(i + 1, k) else X.Ready) && x'.hi == x.hi - 1
            case _ => false
          })
  {
  }

  /** What the producer may do in the index follows from where it is. */
  lemma {:induction false} IndexAllows(x: X.State)
    requires X.Inv(x)
    ensures x.gens != []
    ensures x.published <= x.hi <= X.Top(x) && x.low <= x.published
    ensures x.producer.Ready? ==> X.Allowed(x, X.Check) && X.Allowed(x, X.Publish(x.hi))
    ensures x.producer.Growing? ==> forall granted, garbage: seq<Ptr> ::
              |garbage| == |X.Current(x).ring| ==> X.Allowed(x, X.Grow(granted, garbage))
    ensures !x.producer.Ready? && !x.producer.Growing? && !x.producer.Filling? ==> X.Allowed(x, X.Run)
    ensures x.producer.Filling? ==> x.published < x.hi && X.Allowed(x, X.FailBlock) && forall b :: X.Allowed(x, X.Fill(b))
    ensures x.producer.RollClear? || x.producer.RollRewind? ==>
              x.producer.i < x.producer.k && x.hi == x.published + x.producer.k - x.producer.i
  {
  }

  // ---------------------------------------------------------------- what a step of the blocks does

  predicate SameValues(r: R.State, r': R.State) {
    |r'.entries| == |r.entries| && forall m :: 0 <= m < |r.entries| ==> r'.entries[m].value == r.entries[m].value
  }

  /** Claims and consumers are not the producer's business. */
  predicate OnlyProducer(r: R.State, r': R.State) {
    r'.consumers == r.consumers && r'.claimant == r.claimant
  }

  lemma {:induction false} NeedGoesOn(r: R.State, supply: R.Supply)
    requires R.Inv(r) && r.producer.Need? && R.Allowed(r, R.RunProducer(supply))
    ensures var r' := R.Apply(r, R.RunProducer(supply));
      && OnlyProducer(r, r') && SameValues(r, r') && r'.published == r.published
      && r.producer.first == BlocksFor(R.Tail(r)) <= |r.entries|
      && (if !R.Short(r) then (r'.producer.Write? || r'.producer.Advance?) && |r.entries| == BlocksFor(R.Tail(r) + |r.producer.items|)
          else if supply.Denied? then r'.producer.Undo? && r'.producer.first == r.producer.first == r'.producer.k
          else r'.producer.Got? && r'.producer.first == r.producer.first)
  {
    R.ApplyKeepsInv(r, R.RunProducer(supply));
  }

  lemma {:induction false} GotGoesOn(r: R.State, supply: R.Supply)
    requires R.Inv(r) && r.producer.Got? && R.Allowed(r, R.RunProducer(supply))
    ensures var r' := R.Apply(r, R.RunProducer(supply));
      && OnlyProducer(r, r') && r'.published == r.published
      && r'.producer.Need? && r'.producer.first == r.producer.first
      && |r'.entries| == |r.entries| + 1 && r'.entries[..|r.entries|] == r.entries
      && r'.entries[|r.entries|].value == At(r.producer.b)
  {
  }

  /** Writing leaves the index alone; publishing ends it. */
  lemma {:induction false} FillingGoesOn(r: R.State, supply: R.Supply)
    requires R.Inv(r) && (r.producer.Write? || r.producer.Advance?) && R.Allowed(r, R.RunProducer(supply))
    ensures var r' := R.Apply(r, R.RunProducer(supply));
      && OnlyProducer(r, r') && SameValues(r, r')
      && (if r.producer.Advance? && r.tailBlock == r.producer.end then
            r'.producer.Idle? && r'.published == r.published + r.producer.items && |r.entries| == BlocksFor(R.Tail(r'))
          else (r'.producer.Write? || r'.producer.Advance?) && r'.published == r.published)
  {
  }

  lemma {:induction false} UndoGoesOn(r: R.State, supply: R.Supply)
    requires R.Inv(r) && r.producer.Undo? && R.Allowed(r, R.RunProducer(supply))
    ensures var r', k := R.Apply(r, R.RunProducer(supply)), r.producer.k;
      && OnlyProducer(r, r') && r'.published == r.published && k <= |r.entries| == |r'.entries|
      && (if k == |r.entries| then
            r'.producer.GiveBack? && r'.producer.first == r.producer.first && SameValues(r, r')
          else
            && r'.producer.Undo? && r'.producer.first == r.producer.first && r'.producer.k == k + 1
            && (forall m :: 0 <= m < |r.entries| ==> r'.entries[m].value == (if m == k then Null else r.entries[m].value)))
  {
  }

  lemma {:induction false} GiveBackGoesOn(r: R.State, supply: R.Supply)
    requires R.Inv(r) && r.producer.GiveBack? && R.Allowed(r, R.RunProducer(supply))
    ensures var r' := R.Apply(r, R.RunProducer(supply));
      && OnlyProducer(r, r') && r'.published == r.published && r.producer.first <= |r.entries|
      && (if r'.producer.Idle? then r'.entries == r.entries[..r.producer.first]
          else r'.producer.GiveBack? && r'.producer.first == r.producer.first && SameValues(r, r'))
  {
  }

  lemma {:induction false} ProducerMayGoOn(r: R.State, supply: R.Supply)
    requires R.Inv(r) && (supply.FromPool? ==> supply.b < |r.blocks| && r.blocks[supply.b].owner == R.Pool)
    ensures R.Allowed(r, R.RunProducer(supply))
  {
    R.StepsAreSafe(r);
  }

  // ---------------------------------------------------------------- the producer's steps

  ghost predicate PartsAllowed(s: State, p: Parts) {
    && (p.d.Some? ==> D.Allowed(s.counters, p.d.value))
    && (p.r.Some? ==> R.Allowed(s.recycling, p.r.value))
    && (p.x.Some? ==> X.Allowed(s.index, p.x.value))
  }

  /** All three machines after their parts. */
  ghost function After(s: State, p: Parts): State {
    State(StepCounters(s.counters, p.d), StepRecycling(s.recycling, p.r), StepIndex(s.index, p.x))
  }

  /** The values agree again if index and blocks have set the same one, or none. */
  lemma {:induction false} StillMatch(s: State, p: Parts, r': R.State)
    requires Inv(s) && PartsAllowed(s, p) && r' == After(s, p).recycling
    requires |r'.entries| <= |s.recycling.entries|
    requires forall m :: 0 <= m < |r'.entries| ==>
               r'.entries[m].value == (if p.x.Some? && Sets(s.index, p.x.value, m).Some? then Sets(s.index, p.x.value, m).value
                                       else s.recycling.entries[m].value)
    ensures forall m :: 0 <= m < |r'.entries| ==> Matches(r', After(s, p).index, m)
  {
    hide X.Inv, X.Allowed, X.Apply, R.Inv, D.Inv, R.Apply, R.Allowed;
    forall m | 0 <= m < |r'.entries| ensures Matches(r', After(s, p).index, m) {
      assert Matches(s.recycling, s.index, m);
      if p.x.Some? {
        TopOk(s, m);
        IndexValues(s.index, p.x.value, m);
      }
    }
  }

  lemma {:induction false} TopOk(s: State, m: nat)
    requires Matches(s.recycling, s.index, m) && X.Inv(s.index)
    ensures m < X.Top(s.index)
  {
  }

  /** Threads are linked as they were, if neither machine has moved a consumer. */
  lemma {:induction false} StillThreads(s: State, s': State)
    requires Linked(s)
    requires s'.recycling.consumers == s.recycling.consumers && s'.index.consumers == s.index.consumers
    requires s'.counters.threads == s.counters.threads
    ensures forall t :: 0 <= t < |s'.recycling.consumers| ==> ThreadLinked(s', t)
  {
    forall t | 0 <= t < |s'.recycling.consumers| ensures ThreadLinked(s', t) {
      assert ThreadLinked(s, t);
    }
  }

  /** What an iteration of the allocation loop does to the index while the blocks stand still. */
  lemma {:induction false} NeedInIndex(s: State, p: Parts)
    requires Inv(s) && PartsAllowed(s, p) && p.d.None? && p.r.None? && p.x.Some? && OfProducer(p.x.value)
    requires forall m :: 0 <= m < |s.recycling.entries| ==> Sets(s.index, p.x.value, m) == None
    requires Together(s.recycling, After(s, p).index)
    ensures Linked(After(s, p))
  {
    hide X.Inv, X.Allowed, X.Apply, R.Inv, D.Inv, Together;
    IndexProducer(s.index, p.x.value);
    StillMatch(s, p, s.recycling);
    StillThreads(s, After(s, p));
  }

  /** What it does to the blocks, and perhaps to the index. */
  lemma {:induction false} NeedInBlocks(s: State, p: Parts)
    requires Inv(s) && s.recycling.producer.Need? && PartsAllowed(s, p)
    requires p.d.None? && p.r.Some? && p.r.value.RunProducer? && (p.x.Some? ==> OfProducer(p.x.value))
    requires p.x.Some? ==> forall m :: 0 <= m < |s.recycling.entries| ==> Sets(s.index, p.x.value, m) == None
    requires Together(After(s, p).recycling, After(s, p).index)
    ensures Linked(After(s, p))
  {
    hide X.Inv, X.Allowed, X.Apply, R.Inv, D.Inv, R.Apply, R.Allowed, Together;
    NeedGoesOn(s.recycling, p.r.value.supply);
    if p.x.Some? {
      IndexProducer(s.index, p.x.value);
    }
    StillMatch(s, p, After(s, p).recycling);
    StillThreads(s, After(s, p));
  }

  lemma {:induction false} NeedAllowed(s: State, supply: R.Supply, granted: bool, garbage: seq<Ptr>)
    requires Inv(s) && CanDo(s, RunProducer(supply, granted, garbage)) && s.recycling.producer.Need?
    ensures PartsAllowed(s, NeedParts(s, supply, granted, garbage))
  {
    hide X.Inv, X.Allowed, X.Apply, R.Inv, D.Inv, R.Apply, R.Allowed;
    IndexAllows(s.index);
    ProducerMayGoOn(s.recycling, supply);
    ProducerMayGoOn(s.recycling, R.Denied);
  }

  lemma {:induction false} PreparedTogether(s: State, supply: R.Supply, granted: bool, garbage: seq<Ptr>)
    requires Inv(s) && CanDo(s, RunProducer(supply, granted, garbage)) && s.recycling.producer.Need?
    requires NeedParts(s, supply, granted, garbage).r.None?
    ensures var p := NeedParts(s, supply, granted, garbage);
      && PartsAllowed(s, p) && p.x.Some? && OfProducer(p.x.value) && Together(s.recycling, After(s, p).index)
      && (forall m :: 0 <= m < |s.recycling.entries| ==> Sets(s.index, p.x.value, m) == None)
  {
    hide X.Inv, X.Allowed, X.Apply, R.Inv, D.Inv, R.Apply, R.Allowed;
    NeedAllowed(s, supply, granted, garbage);
    IndexAllows(s.index);
    IndexProducer(s.index, NeedParts(s, supply, granted, garbage).x.value);
  }

  lemma {:induction false} SuppliedTogether(s: State, supply: R.Supply, granted: bool, garbage: seq<Ptr>)
    requires Inv(s) && CanDo(s, RunProducer(supply, granted, garbage)) && s.recycling.producer.Need?
    requires NeedParts(s, supply, granted, garbage).r.Some?
    ensures var p := NeedParts(s, supply, granted, garbage);
      && PartsAllowed(s, p) && p.r.value.RunProducer? && (p.x.Some? ==> OfProducer(p.x.value))
      && Together(After(s, p).recycling, After(s, p).index)
      && (p.x.Some? ==> forall m :: 0 <= m < |s.recycling.entries| ==> Sets(s.index, p.x.value, m) == None)
  {
    hide X.Inv, X.Allowed, X.Apply, R.Inv, D.Inv, R.Apply, R.Allowed;
    var p := NeedParts(s, supply, granted, garbage);
    NeedAllowed(s, supply, granted, garbage);
    IndexAllows(s.index);
    NeedGoesOn(s.recycling, p.r.value.supply);
    if p.x.Some? {
      IndexProducer(s.index, p.x.value);
    }
  }

  /** In the allocation loop. */
  lemma {:induction false} NeedLinked(s: State, supply: R.Supply, granted: bool, garbage: seq<Ptr>)
    requires Inv(s) && CanDo(s, RunProducer(supply, granted, garbage)) && s.recycling.producer.Need?
    ensures var p := NeedParts(s, supply, granted, garbage); PartsAllowed(s, p) && Linked(After(s, p))
  {
    hide X.Inv, X.Allowed, X.Apply, R.Inv, D.Inv, R.Apply, R.Allowed, Together, Linked;
    var p := NeedParts(s, supply, granted, garbage);
    if p.r.Some? {
      SuppliedTogether(s, supply, granted, garbage);
      NeedInBlocks(s, p);
    } else {
      PreparedTogether(s, supply, granted, garbage);
      NeedInIndex(s, p);
    }
  }

  /** The block enters the index entry that was made for it. */
  lemma {:induction false} GotLinked(s: State, supply: R.Supply, granted: bool, garbage: seq<Ptr>)
    requires Inv(s) && CanDo(s, RunProducer(supply, granted, garbage)) && s.recycling.producer.Got?
    ensures var p := ProducerParts(s, supply, granted, garbage); PartsAllowed(s, p) && Linked(After(s, p))
  {
    hide X.Inv, X.Allowed, X.Apply, R.Inv, D.Inv, R.Apply, R.Allowed;
    var r, x := s.recycling, s.index;
    var p := ProducerParts(s, supply, granted, garbage);
    IndexAllows(x);
    ProducerMayGoOn(r, supply);
    GotGoesOn(r, supply);
    var s' := After(s, p);
    IndexProducer(x, p.x.value);
    forall m | 0 <= m < |s'.recycling.entries| ensures Matches(s'.recycling, s'.index, m) {
      if m < |r.entries| {
        assert Matches(r, x, m);
        assert s'.recycling.entries[m] == s'.recycling.entries[..|r.entries|][m];
      }
      IndexValues(x, p.x.value, m);
    }
    StillThreads(s, s');
  }

  /** Writing, and the publication that ends it. */
  lemma {:induction false} FillingLinked(s: State, supply: R.Supply, granted: bool, garbage: seq<Ptr>)
    requires Inv(s) && CanDo(s, RunProducer(supply, granted, garbage))
    requires s.recycling.producer.Write? || s.recycling.producer.Advance?
    ensures var p := ProducerParts(s, supply, granted, garbage); PartsAllowed(s, p) && Linked(After(s, p))
  {
    hide X.Inv, X.Allowed, X.Apply, R.Inv, D.Inv, R.Apply, R.Allowed;
    var r, x := s.recycling, s.index;
    var p := ProducerParts(s, supply, granted, garbage);
    IndexAllows(x);
    ProducerMayGoOn(r, supply);
    FillingGoesOn(r, supply);
    var s' := After(s, p);
    if p.x.Some? {
      IndexProducer(x, p.x.value);
    }
    StillMatch(s, p, s'.recycling);
    StillThreads(s, s');
  }

  /** The rollback clears and rewinds in step. */
  lemma {:induction false} UndoLinked(s: State, supply: R.Supply, granted: bool, garbage: seq<Ptr>)
    requires Inv(s) && CanDo(s, RunProducer(supply, granted, garbage)) && s.recycling.producer.Undo?
    ensures var p := ProducerParts(s, supply, granted, garbage); PartsAllowed(s, p) && Linked(After(s, p))
  {
    hide X.Inv, X.Allowed, X.Apply, R.Inv, D.Inv, R.Apply, R.Allowed;
    var r, x := s.recycling, s.index;
    var p := ProducerParts(s, supply, granted, garbage);
    IndexAllows(x);
    ProducerMayGoOn(r, supply);
    var s' := After(s, p);
    if p.r.Some? {
      UndoGoesOn(r, supply);
    }
    if p.x.Some? {
      IndexProducer(x, p.x.value);
    }
    StillMatch(s, p, s'.recycling);
    StillThreads(s, s');
  }

  lemma {:induction false} GiveBackLinked(s: State, supply: R.Supply, granted: bool, garbage: seq<Ptr>)
    requires Inv(s) && CanDo(s, RunProducer(supply, granted, garbage)) && s.recycling.producer.GiveBack?
    ensures var p := ProducerParts(s, supply, granted, garbage); PartsAllowed(s, p) && Linked(After(s, p))
  {
    hide X.Inv, X.Allowed, X.Apply, R.Inv, D.Inv, R.Apply, R.Allowed;
    var r := s.recycling;
    var p := ProducerParts(s, supply, granted, garbage);
    ProducerMayGoOn(r, supply);
    GiveBackGoesOn(r, supply);
    var s' := After(s, p);
    StillMatch(s, p, s'.recycling);
    StillThreads(s, s');
  }

  // ---------------------------------------------------------------- the consumers' steps

  /** The accesses a look-up has left before it holds its block. */
  function LookLeft(look: X.Consumer): nat {
    match look
    case LoadIndex(_, _) => 4
    case LoadTail(_, _, _) => 3
    case LoadKey(_, _, _, _, _) => 2
    case LoadValue(_, _, _, _) => 1
    case _ => 0
  }

  /** Looking for the same blocks, one access on. */
  predicate StaysAt(look: X.Consumer, look': X.Consumer) {
    && !look.Outside? && !look.Holding? && !look'.Outside? && look'.c == look.c && look'.end == look.end
    && LookLeft(look') < LookLeft(look)
  }

  /** On to the next block, or done. */
  predicate MovesOn(look: X.Consumer, look': X.Consumer) {
    && look.Holding?
    && if look.c < look.end then look'.LoadValue? && look'.c == look.c + 1 && look'.end == look.end else look'.Outside?
  }

  /** A step of consumer `t` in the index. */
  lemma {:induction false} IndexConsumer(x: X.State, e: X.Event)
    requires X.Inv(x) && X.Allowed(x, e) && !OfProducer(e)
    ensures e.t < |x.consumers|
    ensures var x' := X.Apply(x, e); var look := x.consumers[e.t];
      && x'.producer == x.producer && x'.hi == x.hi && x'.published == x.published
      && |x'.consumers| == |x.consumers| && x'.consumers == x.consumers[e.t := x'.consumers[e.t]]
      && (e.Pin? ==> x'.consumers[e.t] == X.LoadIndex(e.c, e.end))
      && (e.Look? ==> StaysAt(look, x'.consumers[e.t]))
      && (e.Leave? || e.Release? ==> MovesOn(look, x'.consumers[e.t]))
  {
  }

  /** A consumer in the index can go on looking, and leave the block it holds, which is the one of its number. */
  lemma {:induction false} IndexGuides(x: X.State, t: nat)
    requires X.Inv(x) && t < |x.consumers|
    ensures !x.consumers[t].Outside? && !x.consumers[t].Holding? ==> X.Allowed(x, X.Look(t))
    ensures x.consumers[t].Holding? ==>
              && X.Allowed(x, X.Leave(t)) && x.low <= x.consumers[t].c < X.Top(x)
              && ValueOf(x, x.consumers[t].c) == Some(x.consumers[t].b)
  {
    match x.consumers[t]
    case Outside =>
    case Holding(_, _, _, _, _) => X.NextBlockOk(x, t);
    case _ => X.OwnLook(x, t);
  }

  /** Neither the producer nor the values are a consumer's business, but for the block it returns. */
  predicate OnlyConsumer(r: R.State, r': R.State, t: nat) {
    && r'.producer == r.producer && r'.published == r.published && |r'.entries| == |r.entries|
    && t < |r.consumers| == |r'.consumers| && r'.consumers == r.consumers[t := r'.consumers[t]]
  }

  lemma {:induction false} ClaimGoesOn(r: R.State, t: nat, n: nat)
    requires R.Allowed(r, R.Claim(t, n))
    ensures var r' := R.Apply(r, R.Claim(t, n));
      && OnlyConsumer(r, r', t) && SameValues(r, r')
      && r'.claimant == r.claimant + seq(n, _ => t)
      && r'.consumers[t] == R.Next(R.Head(r), R.Head(r), R.Head(r) + n, [])
  {
  }

  /** The block of the number, as `BlockRecycling` takes it from its entry. */
  lemma {:induction false} NextGoesOn(r: R.State, t: nat)
    requires R.Inv(r) && t < |r.consumers| && r.consumers[t].Next?
    ensures var pc := r.consumers[t]; var k := pc.i / BLOCK_SIZE;
      && R.Allowed(r, R.RunConsumer(t))
      && k < |r.entries| && R.Apply(r, R.RunConsumer(t)) == GoOnWith(r, t, r.entries[k].value)
      && (var r' := R.Apply(r, R.RunConsumer(t));
          && OnlyConsumer(r, r', t) && SameValues(r, r') && r'.claimant == r.claimant
          && r'.consumers[t].Take? && r'.consumers[t].first == pc.first && r'.consumers[t].from == pc.i
          && r'.consumers[t].end == pc.end && pc.i < pc.end
          && r'.consumers[t].stop == Min((k + 1) * BLOCK_SIZE, pc.end))
  {
    R.StepsAreSafe(r);
    assert R.ConsumerOk(r, t);
  }

  lemma {:induction false} TakeGoesOn(r: R.State, t: nat)
    requires R.Inv(r) && t < |r.consumers| && r.consumers[t].Take?
    ensures R.Allowed(r, R.RunConsumer(t))
    ensures var pc := r.consumers[t]; var r' := R.Apply(r, R.RunConsumer(t));
      && OnlyConsumer(r, r', t) && SameValues(r, r') && r'.claimant == r.claimant
      && pc.b < |r.blocks| && pc.from < pc.stop <= pc.end && |pc.got| == pc.i - pc.first
      && (if pc.i < pc.stop then
            var pc' := r'.consumers[t];
            pc'.Take? && pc'.first == pc.first && pc'.from == pc.from && pc'.stop == pc.stop && pc'.end == pc.end
          else if r.blocks[pc.b].completed + pc.stop - pc.from == BLOCK_SIZE then
            r'.consumers[t] == R.Clear(pc.first, pc.stop, pc.end, pc.from / BLOCK_SIZE, pc.b, pc.got)
          else r'.consumers[t] == R.Rest(pc.first, pc.stop, pc.end, pc.got) && |pc.got| == pc.stop - pc.first)
  {
    R.StepsAreSafe(r);
    assert R.ConsumerOk(r, t);
  }

  lemma {:induction false} ReleaseGoesOn(r: R.State, t: nat)
    requires R.Inv(r) && t < |r.consumers| && (r.consumers[t].Clear? || r.consumers[t].Release?)
    ensures R.Allowed(r, R.RunConsumer(t))
    ensures var pc := r.consumers[t]; var r' := R.Apply(r, R.RunConsumer(t));
      && OnlyConsumer(r, r', t) && r'.claimant == r.claimant
      && pc.i <= pc.end && |pc.got| == pc.i - pc.first
      && (if pc.Clear? then
            && r'.consumers[t] == R.Release(pc.first, pc.i, pc.end, pc.k, pc.b, pc.got)
            && pc.k < |r.entries|
            && (forall m :: 0 <= m < |r.entries| ==> r'.entries[m].value == (if m == pc.k then Null else r.entries[m].value))
          else SameValues(r, r') && r'.consumers[t] == R.Rest(pc.first, pc.i, pc.end, pc.got))
  {
    R.StepsAreSafe(r);
    assert R.ConsumerOk(r, t);
  }

  /** The blocks of claimed slots that are still to be counted are in use. */
  lemma {:induction false} ClaimedBlocksLive(r: R.State, i: nat, end: nat, m: nat)
    requires R.Inv(r) && i < end <= R.Tail(r) && i / BLOCK_SIZE <= m <= (end - 1) / BLOCK_SIZE
    requires forall j :: i <= j < end ==> !R.SlotDone(r, j)
    ensures m < |r.entries| && r.entries[m].stage == R.Open && r.entries[m].value.At?
  {
    var j := if m == i / BLOCK_SIZE then i else m * BLOCK_SIZE;
    R.LiveSlot(r, j);
    assert R.EntryOk(r, m);
  }

  lemma {:induction false} Unclaimed(s: State, n: nat, m: nat)
    requires Inv(s) && n > 0 && R.Head(s.recycling) + n <= R.Tail(s.recycling)
    requires R.Head(s.recycling) / BLOCK_SIZE <= m <= (R.Head(s.recycling) + n - 1) / BLOCK_SIZE
    ensures s.index.low <= m < X.Top(s.index) && s.index.vals[m - s.index.low].At?
  {
    hide X.Inv, D.Inv;
    var r, head := s.recycling, R.Head(s.recycling);
    forall j | head <= j < head + n ensures !R.SlotDone(r, j) {
      assert R.SlotOk(r, j);
    }
    ClaimedBlocksLive(r, head, head + n, m);
    assert Matches(r, s.index, m);
  }

  /** A claim pins blocks that are in the index and stay there. */
  lemma {:induction false} CanPin(s: State, t: nat, n: nat)
    requires Inv(s) && t < |s.index.consumers| && s.index.consumers[t].Outside?
    requires n > 0 && R.Head(s.recycling) + n <= R.Tail(s.recycling)
    ensures var head := R.Head(s.recycling);
      X.Allowed(s.index, X.Pin(t, head / BLOCK_SIZE, (head + n - 1) / BLOCK_SIZE))
  {
    hide X.Inv, D.Inv, R.Inv;
    var x, head := s.index, R.Head(s.recycling);
    var c, end := head / BLOCK_SIZE, (head + n - 1) / BLOCK_SIZE;
    Unclaimed(s, n, c);
    Unclaimed(s, n, end);
    forall i | c - x.low <= i < end + 1 - x.low ensures x.vals[i].At? {
      Unclaimed(s, n, i + x.low);
    }
  }

  /** The first slot a consumer still has to count, and the end of its claim. */
  function FirstLeft(pc: R.Consumer): nat {
    match pc
    case Next(_, i, _, _) => i
    case Take(_, from, _, _, _, _, _) => from
    case Clear(_, i, _, _, _, _) => i
    case Release(_, i, _, _, _, _) => i
    case _ => 0
  }

  function EndLeft(pc: R.Consumer): nat {
    match pc
    case Next(_, _, end, _) => end
    case Take(_, _, _, _, end, _, _) => end
    case Clear(_, _, end, _, _, _) => end
    case Release(_, _, end, _, _, _) => end
    case _ => 0
  }

  lemma {:induction false} LeftIsLive(r: R.State, u: nat, m: nat)
    requires R.Inv(r) && u < |r.consumers|
    requires var i, end := FirstLeft(r.consumers[u]), EndLeft(r.consumers[u]);
      i < end && i / BLOCK_SIZE <= m <= (end - 1) / BLOCK_SIZE
    ensures m < |r.entries| && r.entries[m].stage == R.Open
  {
    assert R.ConsumerOk(r, u);
    ClaimedBlocksLive(r, FirstLeft(r.consumers[u]), EndLeft(r.consumers[u]), m);
  }

  lemma {:induction false} OwnCompleted(r: R.State, u: nat)
    requires R.Inv(r) && u < |r.consumers| && r.consumers[u].Clear?
    ensures r.consumers[u].k < |r.entries| && r.entries[r.consumers[u].k].stage == R.Completed(u)
  {
    assert R.ConsumerOk(r, u);
  }

  /** Whoever still needs a block has slots in it to count. */
  lemma {:induction false} NeededIsLive(s: State, u: nat, m: nat)
    requires Inv(s) && u < |s.index.consumers| && u < |s.recycling.consumers| && X.Needs(s.index.consumers[u], m)
    ensures m < |s.recycling.entries|
    ensures s.recycling.entries[m].stage == R.Open || s.recycling.entries[m].stage == R.Completed(u)
  {
    hide X.Inv, D.Inv, R.Inv, Linked;
    Links(s, u, 0);
    var pc := s.recycling.consumers[u];
    if pc.Clear? && m == pc.k {
      OwnCompleted(s.recycling, u);
    } else {
      LeftIsLive(s.recycling, u, m);
    }
  }

  /** Where the slots of one block end, and where the claim goes on. */
  lemma {:induction false} StopIsInside(from: nat, end: nat)
    requires from < end
    ensures var stop := Min((from / BLOCK_SIZE + 1) * BLOCK_SIZE, end);
      && from < stop <= end
      && (stop < end ==> stop / BLOCK_SIZE == from / BLOCK_SIZE + 1 <= (end - 1) / BLOCK_SIZE)
      && (stop == end ==> (end - 1) / BLOCK_SIZE == from / BLOCK_SIZE)
  {
  }

  /** The consumer that has completed a block is the last to need it. */
  lemma {:induction false} CanRelease(s: State, t: nat)
    requires Inv(s) && t < |s.recycling.consumers| && s.recycling.consumers[t].Clear?
    ensures t < |s.index.consumers| && X.Allowed(s.index, X.Release(t))
  {
    var r, x := s.recycling, s.index;
    assert ThreadLinked(s, t);
    assert R.ConsumerOk(r, t);
    var k := r.consumers[t].k;
    IndexGuides(x, t);
    forall u | 0 <= u < |x.consumers| && u != t ensures !X.Needs(x.consumers[u], k) {
      if X.Needs(x.consumers[u], k) {
        NeededIsLive(s, u, k);
      }
    }
  }

  // ---------------------------------------------------------------- what a step of the counters does

  lemma {:induction false} CountersGoOn(d: D.State, e: D.Event)
    requires D.Inv(d) && D.Allowed(d, e) && !e.Publish?
    requires e.Run? ==> !d.threads[e.t].Idle? && !d.threads[e.t].Holding?
    ensures e.t < |d.threads|
    ensures var d' := D.Apply(d, e);
      && |d'.threads| == |d.threads| && d'.threads == d.threads[e.t := d'.threads[e.t]] && d'.tail == d.tail
      && |d.claimant| == d.head
      && (if e.Run? && d.threads[e.t].AddHead? then
            var n := d.threads[e.t].actual;
            && n > 0 && d.head + n <= d.tail
            && d'.threads[e.t] == D.Holding(d.head, n) && d'.claimant == d.claimant + seq(n, _ => e.t)
          else !d'.threads[e.t].Holding? && d'.claimant == d.claimant)
  {
    if e.Run? {
      assert D.ThreadOk(d, e.t);
      if d.threads[e.t].AddHead? {
        D.HeadBelowTail(d);
      }
    }
  }

  /** How thread `t` and block number `m` are linked. */
  lemma {:induction false} Links(s: State, t: nat, m: nat)
    requires Linked(s) && t < |s.recycling.consumers|
    ensures |s.counters.threads| == |s.recycling.consumers| == |s.index.consumers| && ThreadLinked(s, t)
    ensures s.counters.tail == R.Tail(s.recycling) && s.counters.claimant == s.recycling.claimant
    ensures m < |s.recycling.entries| ==> ValueOf(s.index, m) == Some(s.recycling.entries[m].value)
  {
    assert m < |s.recycling.entries| ==> Matches(s.recycling, s.index, m);
  }

  /** Only thread `t` has moved, and its links hold. */
  lemma {:induction false} OneThread(s: State, s': State, t: nat)
    requires Linked(s) && t < |s.recycling.consumers|
    requires s'.recycling.producer == s.recycling.producer && s'.recycling.published == s.recycling.published
    requires |s'.recycling.entries| == |s.recycling.entries|
    requires s'.index.producer == s.index.producer && s'.index.hi == s.index.hi && s'.index.published == s.index.published
    requires s'.counters.tail == s.counters.tail && s'.counters.claimant == s'.recycling.claimant
    requires forall m :: 0 <= m < |s'.recycling.entries| ==> Matches(s'.recycling, s'.index, m)
    requires |s'.recycling.consumers| == |s.recycling.consumers| && |s'.index.consumers| == |s.index.consumers|
    requires |s'.counters.threads| == |s.counters.threads|
    requires s'.recycling.consumers == s.recycling.consumers[t := s'.recycling.consumers[t]]
    requires s'.index.consumers == s.index.consumers[t := s'.index.consumers[t]]
    requires s'.counters.threads == s.counters.threads[t := s'.counters.threads[t]]
    requires LooksUp(s'.recycling.consumers[t], s'.index.consumers[t])
    requires Claims(s'.recycling.consumers[t], s'.counters.threads[t])
    ensures Linked(s')
  {
    forall u | 0 <= u < |s'.recycling.consumers| ensures ThreadLinked(s', u) {
      assert ThreadLinked(s, u);
    }
  }

  /** The counters' accesses, the last of which is the claim: what the head counter gives out is there, and pinned. */
  lemma {:induction false} CountingLinked(s: State, t: nat)
    requires Inv(s) && CanDo(s, RunConsumer(t)) && s.recycling.consumers[t].Outside?
    ensures PartsAllowed(s, ConsumerParts(s, t)) && Linked(After(s, ConsumerParts(s, t)))
  {
    hide Linked, Matches, ValueOf;
    hide X.Inv, X.Allowed, X.Apply, R.Inv, D.Inv, R.Apply, D.Apply;
    var p := ConsumerParts(s, t);
    Links(s, t, 0);
    CountersGoOn(s.counters, D.Run(t));
    if s.counters.threads[t].AddHead? {
      var n := s.counters.threads[t].actual;
      CanPin(s, t, n);
      ClaimGoesOn(s.recycling, t, n);
      IndexConsumer(s.index, p.x.value);
    }
    var s' := After(s, p);
    StillMatch(s, p, s'.recycling);
    OneThread(s, s', t);
  }

  /** The accesses of the index, and the block it leads to: the very one `BlockRecycling` takes. */
  lemma {:induction false} LookingLinked(s: State, t: nat)
    requires Inv(s) && CanDo(s, RunConsumer(t)) && s.recycling.consumers[t].Next?
    ensures PartsAllowed(s, ConsumerParts(s, t)) && Linked(After(s, ConsumerParts(s, t)))
    ensures UsesIndex(s, RunConsumer(t)) ==>
      GoOnWith(s.recycling, t, s.index.consumers[t].b) == StepRecycling(s.recycling, ConsumerParts(s, t).r)
  {
    hide Linked, Matches, ValueOf;
    hide X.Inv, X.Allowed, X.Apply, R.Inv, D.Inv, R.Apply, R.Allowed, D.Apply;
    var p, x, r := ConsumerParts(s, t), s.index, s.recycling;
    Links(s, t, r.consumers[t].i / BLOCK_SIZE);
    IndexGuides(x, t);
    NextGoesOn(r, t);
    if p.x.Some? {
      IndexConsumer(x, p.x.value);
    }
    StopIsInside(r.consumers[t].i, r.consumers[t].end);
    var s' := After(s, p);
    StillMatch(s, p, s'.recycling);
    OneThread(s, s', t);
  }

  /** Moving elements out, and counting them. */
  lemma {:induction false} TakingLinked(s: State, t: nat)
    requires Inv(s) && CanDo(s, RunConsumer(t)) && s.recycling.consumers[t].Take?
    ensures PartsAllowed(s, ConsumerParts(s, t)) && Linked(After(s, ConsumerParts(s, t)))
  {
    hide Linked, Matches, ValueOf;
    hide X.Inv, X.Allowed, X.Apply, R.Inv, D.Inv, R.Apply, R.Allowed, D.Apply;
    var p, x, r := ConsumerParts(s, t), s.index, s.recycling;
    Links(s, t, 0);
    IndexGuides(x, t);
    TakeGoesOn(r, t);
    if p.x.Some? {
      IndexConsumer(x, p.x.value);
    }
    StopIsInside(r.consumers[t].from, r.consumers[t].end);
    var s' := After(s, p);
    StillMatch(s, p, s'.recycling);
    OneThread(s, s', t);
  }

  /** Clearing the entry and returning the block. */
  lemma {:induction false} ReturningLinked(s: State, t: nat)
    requires Inv(s) && CanDo(s, RunConsumer(t)) && (s.recycling.consumers[t].Clear? || s.recycling.consumers[t].Release?)
    ensures PartsAllowed(s, ConsumerParts(s, t)) && Linked(After(s, ConsumerParts(s, t)))
  {
    hide Linked, Matches, ValueOf;
    hide X.Inv, X.Allowed, X.Apply, R.Inv, D.Inv, R.Apply, R.Allowed, D.Apply;
    var p, x, r := ConsumerParts(s, t), s.index, s.recycling;
    Links(s, t, 0);
    ReleaseGoesOn(r, t);
    if p.x.Some? {
      CanRelease(s, t);
      IndexConsumer(x, p.x.value);
    }
    var s' := After(s, p);
    StillMatch(s, p, s'.recycling);
    OneThread(s, s', t);
  }

  /** The end of a dequeue. */
  lemma {:induction false} FinishLinked(s: State, t: nat)
    requires Inv(s) && CanDo(s, RunConsumer(t)) && s.recycling.consumers[t].Finished?
    ensures PartsAllowed(s, ConsumerParts(s, t)) && Linked(After(s, ConsumerParts(s, t)))
  {
    hide X.Inv, R.Inv, D.Inv, Linked, Matches, ValueOf;
    var p := ConsumerParts(s, t);
    Links(s, t, 0);
    CountersGoOn(s.counters, D.Finish(t));
    var s' := After(s, p);
    StillMatch(s, p, s'.recycling);
    OneThread(s, s', t);
  }

  // ---------------------------------------------------------------- every action

  /** The parts of every action are possible: what each machine asks of the others is there. */
  lemma {:induction false} PartsAgree(s: State, a: Action)
    requires Inv(s) && CanDo(s, a)
    ensures PartsAllowed(s, PartsOf(s, a)) && Do(s, a) == After(s, PartsOf(s, a)) && Linked(Do(s, a))
  {
    hide X.Inv, X.Allowed, X.Apply, R.Inv, D.Inv, R.Apply, D.Apply, D.Allowed, PartsAllowed;
    match a
    case CallEnqueue(bulk, items) => CallLinked(s, a);
    case RunProducer(supply, granted, garbage) =>
      match s.recycling.producer {
        case Need(_, _, _, _) => NeedLinked(s, supply, granted, garbage);
        case Got(_, _, _, _, _) => GotLinked(s, supply, granted, garbage);
        case Write(_, _, _) => FillingLinked(s, supply, granted, garbage);
        case Advance(_, _, _) => FillingLinked(s, supply, granted, garbage);
        case Undo(_, _, _, _) => UndoLinked(s, supply, granted, garbage);
        case GiveBack(_, _, _, _) => GiveBackLinked(s, supply, granted, garbage);
      }
    case CallDequeue(t, max) => CallLinked(s, a);
    case RunConsumer(t) =>
      match s.recycling.consumers[t] {
        case Outside => CountingLinked(s, t);
        case Next(_, _, _, _) => LookingLinked(s, t);
        case Take(_, _, _, _, _, _, _) => TakingLinked(s, t);
        case Clear(_, _, _, _, _, _) => ReturningLinked(s, t);
        case Release(_, _, _, _, _, _) => ReturningLinked(s, t);
        case Finished(_, _) => FinishLinked(s, t);
      }
    case Others(e) => CallLinked(s, a);
  }

  /** Calls, and what others do with blocks of the pool. */
  lemma {:induction false} CallLinked(s: State, a: Action)
    requires Inv(s) && CanDo(s, a) && (a.CallEnqueue? || a.CallDequeue? || a.Others?)
    ensures PartsAllowed(s, PartsOf(s, a)) && Linked(After(s, PartsOf(s, a)))
  {
    hide X.Inv, R.Inv, D.Inv;
    var p := PartsOf(s, a);
    var s' := After(s, p);
    if a.CallDequeue? {
      Links(s, a.t, 0);
      StillMatch(s, p, s'.recycling);
      OneThread(s, s', a.t);
    } else {
      CallBlocks(s, a);
      StillMatch(s, p, s'.recycling);
      StillThreads(s, s');
    }
  }

  lemma {:induction false} CallBlocks(s: State, a: Action)
    requires R.Inv(s.recycling) && CanDo(s, a) && (a.CallEnqueue? || a.Others?)
    ensures var r := s.recycling; var r' := StepRecycling(r, PartsOf(s, a).r);
      && R.Allowed(r, PartsOf(s, a).r.value)
      && OnlyProducer(r, r') && r'.published == r.published && r'.entries == r.entries
      && (if a.CallEnqueue? then r'.producer.Need? && r'.producer.first == |r.entries| == BlocksFor(R.Tail(r)) else r'.producer == r.producer)
  {
  }

  lemma {:induction false} ActionKeeps(s: State, a: Action)
    requires Inv(s) && CanDo(s, a)
    ensures Inv(Do(s, a))
  {
    hide X.Inv, X.Allowed, X.Apply, R.Inv, D.Inv, R.Apply, R.Allowed, D.Apply, D.Allowed, Linked, PartsOf, Do;
    PartsAgree(s, a);
    var p := PartsOf(s, a);
    if p.d.Some? {
      D.StepKeepsInv(s.counters, p.d.value);
    }
    if p.r.Some? {
      R.ApplyKeepsInv(s.recycling, p.r.value);
    }
    if p.x.Some? {
      X.ApplyKeepsInv(s.index, p.x.value);
    }
  }

  // ---------------------------------------------------------------- runs

  /** A new producer, with an index, and idle consumers. */
  ghost predicate Start(s: State, capacity: nat, garbage: seq<Ptr>) {
    && D.Init(s.counters) && R.Init(s.recycling) && capacity > 0 && X.Init(s.index, capacity, garbage)
    && |s.counters.threads| == |s.recycling.consumers| == |s.index.consumers|
  }

  ghost predicate CanRun(s: State, acts: seq<Action>)
    decreases acts
  {
    acts == [] || (CanDo(s, acts[0]) && CanRun(Do(s, acts[0]), acts[1..]))
  }

  ghost function Run(s: State, acts: seq<Action>): State
    requires CanRun(s, acts)
    decreases acts
  {
    if acts == [] then s else Run(Do(s, acts[0]), acts[1..])
  }

  lemma {:induction false} StartOk(s: State, capacity: nat, garbage: seq<Ptr>)
    requires Start(s, capacity, garbage)
    ensures Inv(s)
  {
    D.InitInv(s.counters);
    R.ReachableInv(s.recycling, []);
    X.InitInv(s.index, capacity, garbage);
    forall t | 0 <= t < |s.recycling.consumers| ensures ThreadLinked(s, t) {
    }
  }

  lemma {:induction false} RunKeeps(s: State, acts: seq<Action>)
    requires Inv(s) && CanRun(s, acts)
    ensures Inv(Run(s, acts))
    decreases acts
  {
    hide Inv, CanDo, Do;
    if acts != [] {
      ActionKeeps(s, acts[0]);
      RunKeeps(Do(s, acts[0]), acts[1..]);
    }
  }

  function Part<E>(e: Option<E>): seq<E> {
    if e.Some? then [e.value] else []
  }

  /** The part of the counters in a run. */
  ghost function CountersRun(s: State, acts: seq<Action>): seq<D.Event>
    requires CanRun(s, acts)
    decreases acts
  {
    if acts == [] then [] else Part(PartsOf(s, acts[0]).d) + CountersRun(Do(s, acts[0]), acts[1..])
  }

  ghost function RecyclingRun(s: State, acts: seq<Action>): seq<R.Event>
    requires CanRun(s, acts)
    decreases acts
  {
    if acts == [] then [] else Part(PartsOf(s, acts[0]).r) + RecyclingRun(Do(s, acts[0]), acts[1..])
  }

  ghost function IndexRun(s: State, acts: seq<Action>): seq<X.Event>
    requires CanRun(s, acts)
    decreases acts
  {
    if acts == [] then [] else Part(PartsOf(s, acts[0]).x) + IndexRun(Do(s, acts[0]), acts[1..])
  }

  lemma {:induction false} CountersGo(d: D.State, e: Option<D.Event>, es: seq<D.Event>)
    requires (e.Some? ==> D.Allowed(d, e.value)) && D.Possible(StepCounters(d, e), es)
    ensures D.Possible(d, Part(e) + es) && D.Exec(d, Part(e) + es) == D.Exec(StepCounters(d, e), es)
  {
    hide D.Allowed, D.Apply;
    assert (Part(e) + es)[|Part(e)|..] == es;
  }

  lemma {:induction false} RecyclingGoes(r: R.State, e: Option<R.Event>, es: seq<R.Event>)
    requires (e.Some? ==> R.Allowed(r, e.value)) && R.Possible(StepRecycling(r, e), es)
    ensures R.Possible(r, Part(e) + es) && R.Exec(r, Part(e) + es) == R.Exec(StepRecycling(r, e), es)
  {
    hide R.Allowed, R.Apply;
    assert (Part(e) + es)[|Part(e)|..] == es;
  }

  lemma {:induction false} IndexGoes(x: X.State, e: Option<X.Event>, es: seq<X.Event>)
    requires (e.Some? ==> X.Allowed(x, e.value)) && X.Possible(StepIndex(x, e), es)
    ensures X.Possible(x, Part(e) + es) && X.Exec(x, Part(e) + es) == X.Exec(StepIndex(x, e), es)
  {
    hide X.Allowed, X.Apply;
    assert (Part(e) + es)[|Part(e)|..] == es;
  }

  // ---------------------------------------------------------------- the theorems

  /**
   Every run of the code is a run of each of the three machines: the claims, look-ups and
   returns that one machine takes from another are the ones that happen.
   */
  lemma {:induction false} MachinesRun(s: State, acts: seq<Action>)
    requires Inv(s) && CanRun(s, acts)
    ensures D.Possible(s.counters, CountersRun(s, acts)) && D.Exec(s.counters, CountersRun(s, acts)) == Run(s, acts).counters
    ensures R.Possible(s.recycling, RecyclingRun(s, acts)) && R.Exec(s.recycling, RecyclingRun(s, acts)) == Run(s, acts).recycling
    ensures X.Possible(s.index, IndexRun(s, acts)) && X.Exec(s.index, IndexRun(s, acts)) == Run(s, acts).index
    decreases acts
  {
    if acts != [] {
      hide Inv, CanDo, Do, PartsOf, D.Possible, R.Possible, X.Possible, D.Exec, R.Exec, X.Exec;
      hide StepCounters, StepRecycling, StepIndex, D.Allowed, R.Allowed, X.Allowed;
      PartsAgree(s, acts[0]);
      ActionKeeps(s, acts[0]);
      MachinesRun(Do(s, acts[0]), acts[1..]);
      var p := PartsOf(s, acts[0]);
      CountersGo(s.counters, p.d, CountersRun(Do(s, acts[0]), acts[1..]));
      RecyclingGoes(s.recycling, p.r, RecyclingRun(Do(s, acts[0]), acts[1..]));
      IndexGoes(s.index, p.x, IndexRun(Do(s, acts[0]), acts[1..]));
    }
  }

  /** The items of the calls that succeed in a run, as the actions of their callers gave them. */
  ghost function Offered(s: State, acts: seq<Action>, asked: seq<Value>): seq<Value>
    requires CanRun(s, acts)
    decreases acts
  {
    if acts == [] then []
    else
      var a := acts[0];
      (if Succeeds(s, a) then asked else []) + Offered(Do(s, a), acts[1..], if a.CallEnqueue? then a.items else asked)
  }

  /** The producer publishes and returns. */
  ghost predicate Succeeds(s: State, a: Action) {
    a.RunProducer? && s.recycling.producer.Advance? && s.recycling.tailBlock == s.recycling.producer.end
  }

  lemma {:induction false} ActionOffers(s: State, a: Action, asked: seq<Value>)
    requires Inv(s) && CanDo(s, a) && R.Carries(s.recycling.producer, asked)
    ensures var r := Do(s, a).recycling;
      && R.Carries(r.producer, if a.CallEnqueue? then a.items else asked)
      && r.published == s.recycling.published + (if Succeeds(s, a) then asked else [])
  {
    hide X.Inv, X.Allowed, X.Apply, R.Inv, D.Inv, R.Apply, R.Allowed, D.Apply, D.Allowed, Linked, R.Carries;
    PartsAgree(s, a);
    var p := PartsOf(s, a);
    if p.r.Some? {
      R.EventCarries(s.recycling, p.r.value, asked);
    }
  }

  lemma {:induction false} PublishedAlong(s: State, acts: seq<Action>, asked: seq<Value>)
    requires Inv(s) && CanRun(s, acts) && R.Carries(s.recycling.producer, asked)
    ensures Run(s, acts).recycling.published == s.recycling.published + Offered(s, acts, asked)
    decreases acts
  {
    hide Inv, CanDo, Do, Succeeds, R.Carries;
    if acts != [] {
      var a := acts[0];
      ActionOffers(s, a, asked);
      ActionKeeps(s, a);
      PublishedAlong(Do(s, a), acts[1..], if a.CallEnqueue? then a.items else asked);
    }
  }

  /** What has been published in a run is what the callers of the successful enqueues passed, call after call. */
  lemma {:induction false} PublishedIsOffered(s: State, capacity: nat, garbage: seq<Ptr>, acts: seq<Action>)
    requires Start(s, capacity, garbage) && CanRun(s, acts)
    ensures Run(s, acts).recycling.published == Offered(s, acts, [])
  {
    StartOk(s, capacity, garbage);
    PublishedAlong(s, acts, []);
  }

  /** What thread `t` asks for in its open dequeue, as the action gave it. */
  function Wanted(acts: seq<Action>, t: nat, max: nat): nat
    decreases acts
  {
    if acts == [] then max
    else Wanted(acts[1..], t, if acts[0].CallDequeue? && acts[0].t == t then acts[0].max else max)
  }

  lemma {:induction false} ActionWants(s: State, a: Action, t: nat, max: nat)
    requires Inv(s) && CanDo(s, a) && t < |s.counters.threads| && D.Within(s.counters.threads[t], max)
    ensures t < |Do(s, a).counters.threads|
    ensures D.Within(Do(s, a).counters.threads[t], if a.CallDequeue? && a.t == t then a.max else max)
  {
    hide X.Inv, X.Allowed, X.Apply, R.Inv, D.Inv, R.Apply, R.Allowed, D.Apply, D.Allowed, Linked, D.Within;
    PartsAgree(s, a);
    var p := PartsOf(s, a);
    if p.d.Some? {
      D.EventWithin(s.counters, p.d.value, t, max);
      ActionCalls(s, a);
    }
  }

  /** A dequeue is called by its action, and by nothing else. */
  lemma {:induction false} ActionCalls(s: State, a: Action)
    requires CanDo(s, a) && PartsOf(s, a).d.Some?
    ensures a.CallDequeue? <==> PartsOf(s, a).d.value.CallDequeue?
    ensures a.CallDequeue? ==> PartsOf(s, a).d.value == D.CallDequeue(a.t, a.max)
  {
  }

  lemma {:induction false} WantedAlong(s: State, acts: seq<Action>, t: nat, max: nat)
    requires Inv(s) && CanRun(s, acts) && t < |s.counters.threads| && D.Within(s.counters.threads[t], max)
    ensures t < |Run(s, acts).counters.threads| && D.Within(Run(s, acts).counters.threads[t], Wanted(acts, t, max))
    decreases acts
  {
    hide Inv, CanDo, Do, D.Within;
    if acts != [] {
      ActionWants(s, acts[0], t, max);
      ActionKeeps(s, acts[0]);
      WantedAlong(Do(s, acts[0]), acts[1..], t, if acts[0].CallDequeue? && acts[0].t == t then acts[0].max else max);
    }
  }

  /**
   The queue of one producer, whole: in every run a dequeue comes back with exactly the items
   that the callers of successful enqueues passed for the slots its `fetch_add` on the head gave
   it, in order, and with no more of them than it was called for. Nothing is assumed about
   claims and look-ups.
   */
  lemma {:induction false} DequeuesGetTheirSlots(s: State, capacity: nat, garbage: seq<Ptr>, acts: seq<Action>, t: nat)
    requires Start(s, capacity, garbage) && CanRun(s, acts)
    requires t < |Run(s, acts).recycling.consumers| && Run(s, acts).recycling.consumers[t].Finished?
    ensures var z := Run(s, acts); var count := if t < |z.counters.threads| then z.counters.threads[t] else D.Idle;
      var offered := Offered(s, acts, []);
      && count.Holding? && 0 < count.n <= Wanted(acts, t, 0) && count.first + count.n <= |offered|
      && z.recycling.consumers[t].got == offered[count.first..count.first + count.n]
  {
    hide Inv, CanRun, Run, Start, D.Within;
    StartOk(s, capacity, garbage);
    RunKeeps(s, acts);
    PublishedIsOffered(s, capacity, garbage, acts);
    FinishedGot(Run(s, acts), t);
    ThreadsStay(s, acts);
    StartsIdle(s, capacity, garbage, t);
    WantedAlong(s, acts, t, 0);
    WithinWanted(Run(s, acts).counters.threads[t], Wanted(acts, t, 0));
  }

  lemma {:induction false} WithinWanted(pc: D.Pc, max: nat)
    requires D.Within(pc, max) && pc.Holding?
    ensures pc.n <= max
  {
  }

  lemma {:induction false} StartsIdle(s: State, capacity: nat, garbage: seq<Ptr>, t: nat)
    requires Start(s, capacity, garbage) && t < |s.counters.threads|
    ensures D.Within(s.counters.threads[t], 0)
  {
  }

  lemma {:induction false} ThreadsStay(s: State, acts: seq<Action>)
    requires Inv(s) && CanRun(s, acts)
    ensures |Run(s, acts).counters.threads| == |s.counters.threads|
    decreases acts
  {
    hide Inv, CanDo, Do;
    if acts != [] {
      ActionKeepsThreads(s, acts[0]);
      ActionKeeps(s, acts[0]);
      ThreadsStay(Do(s, acts[0]), acts[1..]);
    }
  }

  lemma {:induction false} ActionKeepsThreads(s: State, a: Action)
    requires Inv(s) && CanDo(s, a)
    ensures |Do(s, a).counters.threads| == |s.counters.threads|
  {
    hide X.Inv, X.Allowed, X.Apply, R.Inv, D.Inv, R.Apply, R.Allowed, Linked;
    PartsAgree(s, a);
  }

  lemma {:induction false} FinishedGot(z: State, t: nat)
    requires Inv(z) && t < |z.recycling.consumers| && z.recycling.consumers[t].Finished?
    ensures t < |z.counters.threads| && z.counters.threads[t].Holding? && z.counters.threads[t].n > 0
    ensures var count := z.counters.threads[t];
      && count.first + count.n <= |z.recycling.published|
      && z.recycling.consumers[t].got == z.recycling.published[count.first..count.first + count.n]
  {
    Links(z, t, 0);
    assert R.ConsumerOk(z.recycling, t);
    assert D.ThreadOk(z.counters, t);
  }

  /** How far the producer is from its next step with the blocks. */
  function IndexLeft(pc: X.ProducerPc): nat {
    match pc
    case RollRewind(_, _) => 7
    case Ready => 6
    case Growing => 5
    case StoreKey => 4
    case StoreTail => 3
    case Filling => 2
    case ClearOwn => 1
    case RollClear(_, _) => 0
  }

  function EnqueueLeft(s: State): int {
    8 * R.Work(s.recycling) + IndexLeft(s.index.producer)
  }

  /** Every enqueue ends: whatever memory there is and whatever the consumers do, each access of the producer brings it closer. */
  lemma {:induction false} EveryEnqueueEnds(s: State, a: Action)
    requires Inv(s) && CanDo(s, a) && a.RunProducer?
    ensures 0 <= EnqueueLeft(Do(s, a)) < EnqueueLeft(s)
  {
    hide Inv, CanDo, PartsOf, R.Work, X.Apply, X.Allowed, R.Apply, R.Allowed;
    PartsAgree(s, a);
    if PartsOf(s, a).r.Some? {
      SupplyInPool(s, a);
      BlocksProceed(s, PartsOf(s, a).r.value.supply);
    } else {
      IndexProceeds(s, a);
    }
  }

  lemma {:induction false} BlocksProceed(s: State, supply: R.Supply)
    requires Inv(s) && !s.recycling.producer.Idle?
    requires supply.FromPool? ==> supply.b < |s.recycling.blocks| && s.recycling.blocks[supply.b].owner == R.Pool
    ensures R.Allowed(s.recycling, R.RunProducer(supply))
    ensures 0 <= R.Work(R.Apply(s.recycling, R.RunProducer(supply))) < R.Work(s.recycling)
  {
    hide R.Inv, R.Work, R.StepProducer, R.ProducerSafe;
    R.EveryCallEnds(s.recycling, supply);
    RunIsStep(s.recycling, supply);
  }

  lemma {:induction false} IndexProceeds(s: State, a: Action)
    requires Inv(s) && CanDo(s, a) && a.RunProducer? && PartsOf(s, a).r.None?
    ensures R.Work(s.recycling) > 0 && IndexLeft(Do(s, a).index.producer) < IndexLeft(s.index.producer)
  {
    hide X.Inv, X.Allowed, X.Apply, R.Inv, D.Inv, R.Allowed, R.Work, R.Apply, D.Apply, D.Allowed;
    PartsAgree(s, a);
    IndexProducer(s.index, PartsOf(s, a).x.value);
    WorkIsLeft(s.recycling);
  }

  lemma {:induction false} RunIsStep(r: R.State, supply: R.Supply)
    requires R.Allowed(r, R.RunProducer(supply))
    ensures R.Apply(r, R.RunProducer(supply)) == R.StepProducer(r, supply)
  {
  }

  lemma {:induction false} WorkIsLeft(r: R.State)
    requires R.Inv(r) && !r.producer.Idle?
    ensures R.Work(r) > 0
  {
    R.EveryCallEnds(r, R.Denied);
  }

  lemma {:induction false} SupplyInPool(s: State, a: Action)
    requires CanDo(s, a) && a.RunProducer? && PartsOf(s, a).r.Some?
    ensures PartsOf(s, a).r.value.RunProducer? && !s.recycling.producer.Idle?
    ensures var supply := PartsOf(s, a).r.value.supply;
      supply.FromPool? ==> supply.b < |s.recycling.blocks| && s.recycling.blocks[supply.b].owner == R.Pool
  {
  }

  /** The accesses of the counters a dequeue has left. */
  function CountLeft(pc: D.Pc): nat {
    match pc
    case LoadTail(_) => 7
    case LoadOvercommit(_, _) => 6
    case LoadOptimistic(_, _, _) => 5
    case AddOptimistic(_, _) => 4
    case ReloadTail(_, _, _) => 3
    case AddOvercommit(_, _, _) => 2
    case AddHead(_) => 1
    case _ => 0
  }

  function DequeueLeft(s: State, t: nat): int
    requires t < |s.counters.threads| && t < |s.recycling.consumers| && t < |s.index.consumers|
  {
    8 * R.ConsumerWork(s.recycling.consumers[t]) + LookLeft(s.index.consumers[t])
  }

  lemma {:induction false} CountingProceeds(d: D.State, t: nat)
    requires D.Allowed(d, D.Run(t)) && !d.threads[t].Idle? && !d.threads[t].Holding?
    ensures t < |D.Apply(d, D.Run(t)).threads| && CountLeft(D.Apply(d, D.Run(t)).threads[t]) < CountLeft(d.threads[t])
  {
  }

  /**
   So does every dequeue: first its accesses of the counters run out, with a claim or without,
   and then each access brings it closer to having all its items.
   */
  lemma {:induction false} EveryDequeueEnds(s: State, t: nat)
    requires Inv(s) && CanDo(s, RunConsumer(t)) && !s.recycling.consumers[t].Finished?
    ensures var z := Do(s, RunConsumer(t));
      && t < |z.counters.threads| && t < |z.recycling.consumers| && t < |z.index.consumers|
      && (s.recycling.consumers[t].Outside? ==> CountLeft(z.counters.threads[t]) < CountLeft(s.counters.threads[t]))
      && (!s.recycling.consumers[t].Outside? ==> 0 <= DequeueLeft(z, t) < DequeueLeft(s, t))
  {
    hide X.Inv, X.Allowed, X.Apply, R.Inv, D.Inv, R.Allowed, R.ConsumerWork, R.StepConsumer, R.ConsumerSafe, D.Apply, D.Allowed;
    PartsAgree(s, RunConsumer(t));
    Links(s, t, 0);
    var p := PartsOf(s, RunConsumer(t));
    if s.recycling.consumers[t].Outside? {
      CountingProceeds(s.counters, t);
      ClaimingThreads(s, t);
    } else {
      R.EveryDequeueEnds(s.recycling, t);
      ConsumerRuns(s.recycling, t);
      if p.x.Some? {
        IndexConsumer(s.index, p.x.value);
      }
    }
  }

  lemma {:induction false} ConsumerRuns(r: R.State, t: nat)
    requires R.Inv(r) && t < |r.consumers| && R.ConsumerSafe(r, t)
    ensures R.Allowed(r, R.RunConsumer(t)) && R.Apply(r, R.RunConsumer(t)) == R.StepConsumer(r, t)
    ensures |R.StepConsumer(r, t).consumers| == |r.consumers|
    ensures R.ConsumerWork(r.consumers[t]) >= 0
  {
    assert R.ConsumerOk(r, t);
  }

  lemma {:induction false} ClaimingThreads(s: State, t: nat)
    requires Inv(s) && CanDo(s, RunConsumer(t)) && s.recycling.consumers[t].Outside?
    ensures var z := Do(s, RunConsumer(t));
      |z.recycling.consumers| == |s.recycling.consumers| && |z.index.consumers| == |s.index.consumers|
  {
    PartsAgree(s, RunConsumer(t));
  }

  /** The enqueue fails only for want of memory: a block, or a bigger index. */
  lemma {:induction false} FailsOnlyIfDenied(s: State, a: Action)
    requires Inv(s) && CanDo(s, a) && !s.recycling.producer.Undo? && Do(s, a).recycling.producer.Undo?
    ensures a.RunProducer? && s.recycling.producer.Need?
    ensures s.index.producer.ClearOwn? ||
            (s.index.producer.Growing? && (!a.granted || 2 * |X.Current(s.index).ring| > X.MAX_CAPACITY))
  {
    hide X.Inv, X.Allowed, X.Apply, R.Inv, D.Inv, R.Apply, R.Allowed, D.Apply, D.Allowed, Linked;
    PartsAgree(s, a);
    var p := PartsOf(s, a);
    if p.r.Some? {
      R.FailsOnlyIfDenied(s.recycling, p.r.value);
    }
  }

  /** The index entry made for a block is given up only if there is no block. */
  lemma {:induction false} EntryGivenUpOnlyIfDenied(s: State, a: Action)
    requires Inv(s) && CanDo(s, a) && !s.index.producer.ClearOwn? && Do(s, a).index.producer.ClearOwn?
    ensures a.RunProducer? && a.supply.Denied?
  {
    hide X.Inv, X.Allowed, X.Apply, R.Inv, D.Inv, R.Apply, R.Allowed, D.Apply, D.Allowed, Linked;
    PartsAgree(s, a);
    var p := PartsOf(s, a);
    if p.x.Some? {
      if OfProducer(p.x.value) {
        IndexProducer(s.index, p.x.value);
      } else {
        IndexConsumer(s.index, p.x.value);
      }
    }
  }

  /** And the claims of a run, in order, cover the slots up to the head, each once: no item is lost or delivered twice. */
  lemma {:induction false} DequeuesTile(s: State, capacity: nat, garbage: seq<Ptr>, acts: seq<Action>)
    requires Start(s, capacity, garbage) && CanRun(s, acts)
    ensures D.Possible(s.counters, CountersRun(s, acts))
    ensures var z := Run(s, acts); var cs := D.Claims(s.counters, CountersRun(s, acts));
      && D.Tile(cs, 0, R.Head(z.recycling)) && z.recycling.claimant == D.Owners(cs)
      && R.Head(z.recycling) <= |z.recycling.published|
  {
    hide D.Tile, D.Owners, D.Claims, D.Possible, D.Exec;
    StartOk(s, capacity, garbage);
    MachinesRun(s, acts);
    D.ClaimsTile(s.counters, CountersRun(s, acts));
    RunKeeps(s, acts);
    HeadsAgree(Run(s, acts));
    assert s.counters.claimant + D.Owners(D.Claims(s.counters, CountersRun(s, acts))) == D.Owners(D.Claims(s.counters, CountersRun(s, acts)));
  }

  lemma {:induction false} HeadsAgree(s: State)
    requires Inv(s)
    ensures s.counters.head == R.Head(s.recycling) && s.counters.tail == |s.recycling.published|
    ensures s.counters.claimant == s.recycling.claimant
  {
  }
}
