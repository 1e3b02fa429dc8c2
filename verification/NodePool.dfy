/**
 The node pool that all daking queues and all threads share: thread-local caches, a stack
 of chunks, and pages that are split into chunks under the global mutex.

 Pushing and popping a chunk are single steps here; `ChunkStack` shows that the tagged
 compare-and-swap makes them so. What the queues do with the nodes they hold is in
 `MpscQueue`, and which queue or thread holds a node in `NodeOwners`; here they may write
 anything into them.
 */
module NodePool {
  import opened Counting
  import opened Optional
  import opened Remainders

  datatype Ptr = Null | At(node: nat)

  /**
   Where a node is (auxiliary): the j-th from the end of a chunk of the stack or of a thread's
   cache, outside the pool, given up for good, or in the part of a new page that is not split yet.
   */
  datatype Place = Stacked(chunk: nat, j: nat) | Cached(t: nat, j: nat) | InUse | Abandoned | Page

  datatype Pc =
    | Idle
    | Pop
    | Take
    | LockInternal
    | LockExternal(chunks: nat)
    | Split(first: nat, count: nat, i: nat, internal: bool)

  /** The thread-local pair, and the nodes of its list from the last to the first (auxiliary). */
  datatype Thread = Thread(list: Ptr, size: nat, pc: Pc, cache: seq<nat>)

  /** A chunk is listed from its last node to its first; the stack from the bottom to the top. */
  datatype State = State(
    capacity: nat,
    next: seq<Ptr>,
    stack: seq<seq<nat>>,
    threads: seq<Thread>,
    mutex: Option<nat>,
    nodeCount: nat,
    place: seq<Place>)

  datatype Event =
    | CallAllocate(t: nat)
    | CallReserve(t: nat, chunks: nat)
    | Run(t: nat, garbage: Ptr)
    | Deallocate(t: nat, n: nat)
    | Use(n: nat, next: Ptr)
    | GiveUp(n: nat)
    | ThreadExit(t: nat)

  /** The pointer to a list given from its last node to its first. */
  function FirstOf(nodes: seq<nat>): Ptr {
    if nodes == [] then Null else At(nodes[|nodes| - 1])
  }

  function Max(a: nat, b: nat): nat {
    if a < b then b else a
  }

  // ---------------------------------------------------------------- the steps

  function Goto(s: State, t: nat, pc: Pc): State
    requires t < |s.threads|
  {
    s.(threads := s.threads[t := s.threads[t].(pc := pc)])
  }

  /** The nodes of chunk `i` move to the cache of `t`. */
  function ChunkToCache(place: seq<Place>, i: nat, t: nat): seq<Place> {
    seq(|place|, n requires 0 <= n < |place| =>
      if place[n].Stacked? && place[n].chunk == i then Cached(t, place[n].j) else place[n])
  }

  /** The nodes of the cache of `t` become chunk `i`. */
  function CacheToChunk(place: seq<Place>, t: nat, i: nat): seq<Place> {
    seq(|place|, n requires 0 <= n < |place| =>
      if place[n].Cached? && place[n].t == t then Stacked(i, place[n].j) else place[n])
  }

  function CacheToNowhere(place: seq<Place>, t: nat): seq<Place> {
    seq(|place|, n requires 0 <= n < |place| =>
      if place[n].Cached? && place[n].t == t then Abandoned else place[n])
  }

  /** The nodes `lo` to `hi` of a page become chunk `i`, the last of them its last node. */
  function PageToChunk(place: seq<Place>, lo: nat, hi: nat, i: nat): seq<Place> {
    seq(|place|, n requires 0 <= n < |place| => if lo <= n < hi then Stacked(i, hi - 1 - n) else place[n])
  }

  function PageChunk(lo: nat, hi: nat): (chunk: seq<nat>)
    requires lo <= hi
    ensures |chunk| == hi - lo && forall j :: 0 <= j < |chunk| ==> chunk[j] == hi - 1 - j
  {
    seq(hi - lo, j requires 0 <= j < hi - lo => hi - 1 - j)
  }

  /** `Try_pop` into the empty list, or the way to the mutex. */
  function StepPop(s: State, t: nat): State
    requires t < |s.threads|
  {
    if s.stack == [] then Goto(s, t, LockInternal)
    else
      var top := |s.stack| - 1;
      var chunk := s.stack[top];
      s.(stack := s.stack[..top],
         threads := s.threads[t := s.threads[t].(list := FirstOf(chunk), pc := Take, cache := chunk)],
         place := ChunkToCache(s.place, top, t))
  }

  /** The first node of the list is handed out, with a null link. */
  function StepTake(s: State, t: nat): State
    requires t < |s.threads| && CanTake(s, t)
  {
    var th := s.threads[t];
    var n := th.list.node;
    s.(threads := s.threads[t := th.(list := s.next[n], pc := Idle,
                                     cache := if th.cache == [] then [] else th.cache[..|th.cache| - 1])],
       next := s.next[n := Null],
       place := s.place[n := InUse])
  }

  predicate CanTake(s: State, t: nat) {
    && t < |s.threads| && s.threads[t].list.At?
    && s.threads[t].list.node < |s.next| && |s.place| == |s.next|
  }

  /** A new page of `count` nodes; its memory is not initialised. */
  function StartPage(s: State, t: nat, count: nat, internal: bool, garbage: Ptr): State
    requires t < |s.threads|
  {
    Goto(s.(next := s.next + seq(count, _ => garbage), place := s.place + seq(count, _ => Page), mutex := Some(t)), t,
         Split(|s.next|, count, 0, internal))
  }

  /** `Reserve_global_internal` and the second half of `Reserve_global_external`, with the mutex held. */
  function StepLock(s: State, t: nat, garbage: Ptr): State
    requires t < |s.threads| && s.capacity > 0 && (s.threads[t].pc.LockInternal? || s.threads[t].pc.LockExternal?)
  {
    match s.threads[t].pc
    case LockInternal =>
      if s.stack != [] then Goto(s, t, Pop)
      else StartPage(s, t, Max(s.capacity, s.nodeCount), true, garbage)
    case LockExternal(chunks) =>
      if s.nodeCount / s.capacity >= chunks then Goto(s, t, Idle)
      else StartPage(s, t, (chunks - s.nodeCount / s.capacity) * s.capacity, false, garbage)
  }

  /** One turn of the loop of `Reserve`; behind it, the new count and the end of the critical section. */
  function StepSplit(s: State, t: nat): State
    requires CanSplit(s, t)
  {
    var Split(first, count, i, internal) := s.threads[t].pc;
    if i == count then
      Goto(s.(nodeCount := s.nodeCount + count, mutex := None), t, if internal then Pop else Idle)
    else if i % s.capacity == s.capacity - 1 then
      var lo, hi := first + i + 1 - s.capacity, first + i + 1;
      Goto(s.(next := s.next[first + i := Null],
              stack := s.stack + [PageChunk(lo, hi)],
              place := PageToChunk(s.place, lo, hi, |s.stack|)), t, Split(first, count, i + 1, internal))
    else
      Goto(s.(next := s.next[first + i := At(first + i + 1)]), t, Split(first, count, i + 1, internal))
  }

  predicate CanSplit(s: State, t: nat) {
    && s.capacity > 0 && t < |s.threads| && s.threads[t].pc.Split?
    && s.threads[t].pc.i <= s.threads[t].pc.count && s.threads[t].pc.first + s.threads[t].pc.count <= |s.next|
  }

  /** The node becomes the first of the list; the counter of deallocations decides when the whole list is pushed. */
  function StepDeallocate(s: State, t: nat, n: nat): State
    requires t < |s.threads| && n < |s.next| && n < |s.place|
  {
    var th := s.threads[t];
    var cache := th.cache + [n];
    var s1 := s.(next := s.next[n := th.list], place := s.place[n := Cached(t, |th.cache|)]);
    if th.size + 1 >= s.capacity then
      s1.(stack := s.stack + [cache],
          threads := s.threads[t := th.(list := Null, size := 0, cache := [])],
          place := CacheToChunk(s1.place, t, |s.stack|))
    else
      s1.(threads := s.threads[t := th.(list := At(n), size := th.size + 1, cache := cache)])
  }

  predicate Allowed(s: State, e: Event) {
    match e
    case CallAllocate(t) => t < |s.threads| && s.threads[t].pc.Idle?
    case CallReserve(t, _) => t < |s.threads| && s.threads[t].pc.Idle? && s.capacity > 0
    case Run(t, _) =>
      && t < |s.threads|
      && match s.threads[t].pc {
           case Idle => false
           case Pop => true
           case Take => CanTake(s, t)
           case LockInternal => s.mutex == None && s.capacity > 0
           case LockExternal(_) => s.mutex == None && s.capacity > 0
           case Split(_, _, _, _) => CanSplit(s, t)
         }
    case Deallocate(t, n) =>
      t < |s.threads| && s.threads[t].pc.Idle? && n < |s.next| && n < |s.place| && s.place[n].InUse?
    case Use(n, _) => n < |s.next| && n < |s.place| && s.place[n].InUse?
    case GiveUp(n) => n < |s.place| && s.place[n].InUse?
    case ThreadExit(t) => t < |s.threads| && s.threads[t].pc.Idle?
  }

  function Apply(s: State, e: Event): State
    requires Allowed(s, e)
  {
    match e
    case CallAllocate(t) => Goto(s, t, if s.threads[t].list == Null then Pop else Take)
    case CallReserve(t, chunks) => if s.nodeCount / s.capacity >= chunks then s else Goto(s, t, LockExternal(chunks))
    case Run(t, garbage) =>
      (match s.threads[t].pc
       case Pop => StepPop(s, t)
       case Take => StepTake(s, t)
       case LockInternal => StepLock(s, t, garbage)
       case LockExternal(_) => StepLock(s, t, garbage)
       case Split(_, _, _, _) => StepSplit(s, t))
    case Deallocate(t, n) => StepDeallocate(s, t, n)
    case Use(n, p) => s.(next := s.next[n := p])
    case GiveUp(n) => s.(place := s.place[n := Abandoned])
    case ThreadExit(t) =>
      s.(threads := s.threads[t := Thread(Null, 0, Idle, [])], place := CacheToNowhere(s.place, t))
  }

  // ---------------------------------------------------------------- the invariant

  /** The j-th node of a list given from its end points to the one before it. */
  predicate Link(s: State, nodes: seq<nat>, j: nat) {
    && j < |nodes| && nodes[j] < |s.next|
    && s.next[nodes[j]] == (if j == 0 then Null else At(nodes[j - 1]))
  }

  predicate ChunkNode(s: State, i: nat, j: nat) {
    && i < |s.stack| && j < |s.stack[i]| && Link(s, s.stack[i], j)
    && s.stack[i][j] < |s.place| && s.place[s.stack[i][j]] == Stacked(i, j)
  }

  predicate ChunkOk(s: State, i: nat) {
    i < |s.stack| && s.stack[i] != [] && forall j :: 0 <= j < |s.stack[i]| ==> ChunkNode(s, i, j)
  }

  predicate CacheNode(s: State, t: nat, j: nat) {
    && t < |s.threads| && j < |s.threads[t].cache| && Link(s, s.threads[t].cache, j)
    && s.threads[t].cache[j] < |s.place| && s.place[s.threads[t].cache[j]] == Cached(t, j)
  }

  predicate ThreadOk(s: State, t: nat) {
    && t < |s.threads|
    && var th := s.threads[t];
    && th.list == FirstOf(th.cache) && th.size < s.capacity
    && (forall j :: 0 <= j < |th.cache| ==> CacheNode(s, t, j))
    && match th.pc {
         case Pop => th.cache == []
         case Take => th.cache != []
         case LockInternal => th.cache == []
         case Split(first, count, i, internal) =>
           && s.mutex == Some(t) && first + count == |s.next| && i <= count && count % s.capacity == 0
           && s.nodeCount == first && (internal ==> th.cache == [])
         case _ => true
       }
  }

  /** The first node of the page that is not in a chunk yet. */
  function PageStart(s: State): nat
    requires s.capacity > 0
  {
    if s.mutex.Some? && s.mutex.value < |s.threads| && s.threads[s.mutex.value].pc.Split? then
      var pc := s.threads[s.mutex.value].pc;
      pc.first + pc.i - pc.i % s.capacity
    else |s.next|
  }

  function PageWritten(s: State): nat {
    if s.mutex.Some? && s.mutex.value < |s.threads| && s.threads[s.mutex.value].pc.Split? then
      s.threads[s.mutex.value].pc.first + s.threads[s.mutex.value].pc.i
    else |s.next|
  }

  predicate PlaceOk(s: State, n: nat)
    requires s.capacity > 0
  {
    && n < |s.place|
    && (s.place[n].Page? <==> PageStart(s) <= n)
    && match s.place[n] {
         case Stacked(i, j) => i < |s.stack| && j < |s.stack[i]| && s.stack[i][j] == n
         case Cached(t, j) => t < |s.threads| && j < |s.threads[t].cache| && s.threads[t].cache[j] == n
         case Page => n < PageWritten(s) ==> n < |s.next| && s.next[n] == At(n + 1)
         case _ => true
       }
  }

  ghost predicate Inv(s: State) {
    && s.capacity > 0 && |s.place| == |s.next| && s.nodeCount % s.capacity == 0
    && (s.mutex == None ==> s.nodeCount == |s.next|)
    && (s.mutex.Some? ==> s.mutex.value < |s.threads| && s.threads[s.mutex.value].pc.Split?)
    && (forall i :: 0 <= i < |s.stack| ==> ChunkOk(s, i))
    && (forall t :: 0 <= t < |s.threads| ==> ThreadOk(s, t))
    && (forall n :: 0 <= n < |s.place| ==> PlaceOk(s, n))
  }

  // ---------------------------------------------------------------- every step keeps the invariant

  /** A step that only moves thread `t` on. */
  lemma {:induction false} GotoKeeps(s: State, t: nat, pc: Pc)
    requires Inv(s) && t < |s.threads| && !s.threads[t].pc.Split? && !pc.Split?
    requires pc.Pop? || pc.LockInternal? ==> s.threads[t].cache == []
    requires pc.Take? ==> s.threads[t].cache != []
    ensures Inv(Goto(s, t, pc))
  {
    var s' := Goto(s, t, pc);
    assert ThreadOk(s, t);
    forall i | 0 <= i < |s'.stack| ensures ChunkOk(s', i) {
      ChunkSpared(s, s', i);
    }
    forall u | 0 <= u < |s'.threads| ensures ThreadOk(s', u) {
      assert ThreadOk(s, u);
      CacheSpared(s, s', u);
    }
    forall n | 0 <= n < |s'.place| ensures PlaceOk(s', n) {
      assert PlaceOk(s, n);
    }
  }

  /** A chunk whose nodes keep their links and places. */
  lemma {:induction false} ChunkSpared(s: State, s': State, i: nat)
    requires Inv(s) && i < |s.stack| && i < |s'.stack| && s'.stack[i] == s.stack[i]
    requires |s'.next| >= |s.next| && |s'.place| >= |s.place|
    requires forall n :: 0 <= n < |s.place| && s.place[n].Stacked? && s.place[n].chunk == i ==>
               s'.next[n] == s.next[n] && s'.place[n] == s.place[n]
    ensures ChunkOk(s', i)
  {
    assert ChunkOk(s, i);
    forall j | 0 <= j < |s'.stack[i]| ensures ChunkNode(s', i, j) {
      assert ChunkNode(s, i, j);
    }
  }

  /** A cache whose nodes keep their links and places. */
  lemma {:induction false} CacheSpared(s: State, s': State, u: nat)
    requires Inv(s) && u < |s.threads| && u < |s'.threads|
    requires s'.threads[u].cache == s.threads[u].cache
    requires |s'.next| >= |s.next| && |s'.place| >= |s.place|
    requires forall n :: 0 <= n < |s.place| && s.place[n].Cached? && s.place[n].t == u ==>
               s'.next[n] == s.next[n] && s'.place[n] == s.place[n]
    ensures forall j :: 0 <= j < |s'.threads[u].cache| ==> CacheNode(s', u, j)
  {
    assert ThreadOk(s, u);
    forall j | 0 <= j < |s'.threads[u].cache| ensures CacheNode(s', u, j) {
      assert CacheNode(s, u, j);
    }
  }

  lemma {:induction false} PopKeeps(s: State, t: nat)
    requires Inv(s) && t < |s.threads| && s.threads[t].pc.Pop? && s.stack != []
    ensures Inv(StepPop(s, t))
  {
    var s' := StepPop(s, t);
    var top := |s.stack| - 1;
    assert ThreadOk(s, t) && ChunkOk(s, top);
    forall i | 0 <= i < |s'.stack| ensures ChunkOk(s', i) {
      ChunkSpared(s, s', i);
    }
    forall j | 0 <= j < |s'.threads[t].cache| ensures CacheNode(s', t, j) {
      assert ChunkNode(s, top, j);
    }
    forall u | 0 <= u < |s'.threads| ensures ThreadOk(s', u) {
      assert ThreadOk(s, u);
      if u != t {
        CacheSpared(s, s', u);
      }
    }
    forall n | 0 <= n < |s'.place| ensures PlaceOk(s', n) {
      assert PlaceOk(s, n);
    }
  }

  lemma {:induction false} TakeKeeps(s: State, t: nat)
    requires Inv(s) && t < |s.threads| && s.threads[t].pc.Take?
    ensures CanTake(s, t) && Inv(StepTake(s, t))
  {
    assert ThreadOk(s, t);
    var cache := s.threads[t].cache;
    assert CacheNode(s, t, |cache| - 1);
    var s' := StepTake(s, t);
    forall i | 0 <= i < |s'.stack| ensures ChunkOk(s', i) {
      ChunkSpared(s, s', i);
    }
    forall j | 0 <= j < |cache| - 1 ensures CacheNode(s', t, j) {
      assert CacheNode(s, t, j);
    }
    forall u | 0 <= u < |s'.threads| ensures ThreadOk(s', u) {
      assert ThreadOk(s, u);
      if u != t {
        CacheSpared(s, s', u);
      }
    }
    forall n | 0 <= n < |s'.place| ensures PlaceOk(s', n) {
      assert PlaceOk(s, n);
    }
  }

  lemma {:induction false} StartKeeps(s: State, t: nat, count: nat, internal: bool, garbage: Ptr)
    requires Inv(s) && t < |s.threads| && s.mutex == None && count % s.capacity == 0
    requires !s.threads[t].pc.Split? && (internal ==> s.threads[t].cache == [])
    ensures Inv(StartPage(s, t, count, internal, garbage))
  {
    var s' := StartPage(s, t, count, internal, garbage);
    forall i | 0 <= i < |s'.stack| ensures ChunkOk(s', i) {
      ChunkSpared(s, s', i);
    }
    forall u | 0 <= u < |s'.threads| ensures ThreadOk(s', u) {
      assert ThreadOk(s, u);
      CacheSpared(s, s', u);
    }
    assert 0 % s.capacity == 0;
    forall n | 0 <= n < |s'.place| ensures PlaceOk(s', n) {
      if n < |s.place| {
        assert PlaceOk(s, n);
      }
    }
  }

  lemma {:induction false} WholeChunks(capacity: nat, count: nat, chunks: nat)
    requires capacity > 0 && count % capacity == 0
    ensures Max(capacity, count) % capacity == 0
    ensures (chunks * capacity) % capacity == 0
    ensures chunks >= count / capacity ==> ((chunks - count / capacity) * capacity) % capacity == 0
  {
    ModUnique(capacity, capacity, 1, 0);
    ModUnique(chunks * capacity, capacity, chunks, 0);
    if chunks >= count / capacity {
      ModUnique((chunks - count / capacity) * capacity, capacity, chunks - count / capacity, 0);
    }
  }

  lemma {:induction false} LockKeeps(s: State, t: nat, garbage: Ptr)
    requires Inv(s) && t < |s.threads| && s.mutex == None
    requires s.threads[t].pc.LockInternal? || s.threads[t].pc.LockExternal?
    ensures Inv(StepLock(s, t, garbage))
  {
    assert ThreadOk(s, t);
    match s.threads[t].pc
    case LockInternal =>
      if s.stack != [] {
        GotoKeeps(s, t, Pop);
      } else {
        WholeChunks(s.capacity, s.nodeCount, 1);
        StartKeeps(s, t, Max(s.capacity, s.nodeCount), true, garbage);
      }
    case LockExternal(chunks) =>
      if s.nodeCount / s.capacity >= chunks {
        GotoKeeps(s, t, Idle);
      } else {
        WholeChunks(s.capacity, s.nodeCount, chunks);
        StartKeeps(s, t, (chunks - s.nodeCount / s.capacity) * s.capacity, false, garbage);
      }
  }

  lemma {:induction false} NextRemainder(i: nat, c: nat)
    requires c > 0
    ensures i % c <= i
    ensures (i + 1) % c == if i % c == c - 1 then 0 else i % c + 1
  {
    assert i == c * (i / c) + i % c;
    if i % c == c - 1 {
      assert c * (i / c + 1) == c * (i / c) + c;
      ModUnique(i + 1, c, i / c + 1, 0);
    } else {
      ModUnique(i + 1, c, i / c, i % c + 1);
    }
  }

  /** A full chunk lies behind the last of its nodes. */
  lemma {:induction false} ChunkIsFull(i: nat, c: nat)
    requires c > 0
    ensures i % c == c - 1 ==> c <= i + 1
  {
    NextRemainder(i, c);
  }

  predicate Splitting(s: State, t: nat) {
    t < |s.threads| && s.threads[t].pc.Split?
  }

  /** A node in the middle of a chunk is linked to the next node of the page. */
  lemma {:induction false} LinkKeeps(s: State, t: nat)
    requires Inv(s) && Splitting(s, t) && s.threads[t].pc.i < s.threads[t].pc.count
    requires s.threads[t].pc.i % s.capacity != s.capacity - 1
    ensures CanSplit(s, t) && Inv(StepSplit(s, t))
  {
    assert ThreadOk(s, t);
    var Split(first, count, i, internal) := s.threads[t].pc;
    NextRemainder(i, s.capacity);
    assert PlaceOk(s, first + i);
    var s' := StepSplit(s, t);
    forall k | 0 <= k < |s'.stack| ensures ChunkOk(s', k) {
      ChunkSpared(s, s', k);
    }
    forall u | 0 <= u < |s'.threads| ensures ThreadOk(s', u) {
      assert ThreadOk(s, u);
      CacheSpared(s, s', u);
    }
    forall n | 0 <= n < |s'.place| ensures PlaceOk(s', n) {
      assert PlaceOk(s, n);
    }
  }

  /** The last node of a chunk gets a null link, and the chunk is pushed. */
  lemma {:induction false} PushPageKeeps(s: State, t: nat)
    requires Inv(s) && Splitting(s, t) && s.threads[t].pc.i < s.threads[t].pc.count
    requires s.threads[t].pc.i % s.capacity == s.capacity - 1
    ensures CanSplit(s, t) && Inv(StepSplit(s, t))
  {
    assert ThreadOk(s, t);
    var Split(first, count, i, internal) := s.threads[t].pc;
    NextRemainder(i, s.capacity);
    var s' := StepSplit(s, t);
    var lo, hi := first + i + 1 - s.capacity, first + i + 1;
    forall n | lo <= n < hi ensures s.place[n].Page? && (n < hi - 1 ==> s.next[n] == At(n + 1)) {
      assert PlaceOk(s, n);
    }
    forall k | 0 <= k < |s'.stack| ensures ChunkOk(s', k) {
      if k < |s.stack| {
        ChunkSpared(s, s', k);
      } else {
        forall j | 0 <= j < |s'.stack[k]| ensures ChunkNode(s', k, j) {
          assert s.place[hi - 1 - j].Page?;
        }
      }
    }
    forall u | 0 <= u < |s'.threads| ensures ThreadOk(s', u) {
      assert ThreadOk(s, u);
      CacheSpared(s, s', u);
    }
    forall n | 0 <= n < |s'.place| ensures PlaceOk(s', n) {
      assert PlaceOk(s, n);
    }
  }

  /** The end of the page: all of its nodes are in chunks. */
  lemma {:induction false} EndKeeps(s: State, t: nat)
    requires Inv(s) && Splitting(s, t) && s.threads[t].pc.i == s.threads[t].pc.count
    ensures CanSplit(s, t) && Inv(StepSplit(s, t))
    ensures PageStart(s) == |s.next|
  {
    assert ThreadOk(s, t);
    var s' := StepSplit(s, t);
    ModAdd(s.nodeCount, s.threads[t].pc.count, s.capacity);
    ModAdd(s.threads[t].pc.count, s.nodeCount % s.capacity, s.capacity);
    forall k | 0 <= k < |s'.stack| ensures ChunkOk(s', k) {
      ChunkSpared(s, s', k);
    }
    forall u | 0 <= u < |s'.threads| ensures ThreadOk(s', u) {
      assert ThreadOk(s, u);
      CacheSpared(s, s', u);
    }
    forall n | 0 <= n < |s'.place| ensures PlaceOk(s', n) {
      assert PlaceOk(s, n);
    }
  }

  /** A node that is in use goes to the front of the list. */
  lemma {:induction false} ReturnKeeps(s: State, t: nat, n0: nat)
    requires Inv(s) && Allowed(s, Deallocate(t, n0)) && s.threads[t].size + 1 < s.capacity
    ensures Inv(StepDeallocate(s, t, n0))
  {
    assert ThreadOk(s, t);
    var s' := StepDeallocate(s, t, n0);
    forall k | 0 <= k < |s'.stack| ensures ChunkOk(s', k) {
      ChunkSpared(s, s', k);
    }
    forall j | 0 <= j < |s'.threads[t].cache| ensures CacheNode(s', t, j) {
      assert j < |s.threads[t].cache| ==> CacheNode(s, t, j);
    }
    forall u | 0 <= u < |s'.threads| ensures ThreadOk(s', u) {
      assert ThreadOk(s, u);
      if u != t {
        CacheSpared(s, s', u);
      }
    }
    forall n | 0 <= n < |s'.place| ensures PlaceOk(s', n) {
      assert PlaceOk(s, n);
    }
  }

  /** When the counter is full, the whole list becomes a chunk, however long it is. */
  lemma {:induction false} PushListKeeps(s: State, t: nat, n0: nat)
    requires Inv(s) && Allowed(s, Deallocate(t, n0)) && s.threads[t].size + 1 >= s.capacity
    ensures Inv(StepDeallocate(s, t, n0))
  {
    assert ThreadOk(s, t);
    var s' := StepDeallocate(s, t, n0);
    var top := |s.stack|;
    forall k | 0 <= k < |s'.stack| ensures ChunkOk(s', k) {
      if k < top {
        ChunkSpared(s, s', k);
      } else {
        forall j | 0 <= j < |s'.stack[k]| ensures ChunkNode(s', k, j) {
          assert j < |s.threads[t].cache| ==> CacheNode(s, t, j);
        }
      }
    }
    forall u | 0 <= u < |s'.threads| ensures ThreadOk(s', u) {
      assert ThreadOk(s, u);
      if u != t {
        CacheSpared(s, s', u);
      }
    }
    forall n | 0 <= n < |s'.place| ensures PlaceOk(s', n) {
      assert PlaceOk(s, n);
    }
  }

  /** What happens to a node outside the pool, and the end of a thread with its cache. */
  lemma {:induction false} OutsideKeeps(s: State, e: Event)
    requires Inv(s) && Allowed(s, e) && (e.Use? || e.GiveUp? || e.ThreadExit?)
    ensures Inv(Apply(s, e))
  {
    var s' := Apply(s, e);
    if e.ThreadExit? {
      assert ThreadOk(s, e.t);
    }
    forall k | 0 <= k < |s'.stack| ensures ChunkOk(s', k) {
      ChunkSpared(s, s', k);
    }
    forall u | 0 <= u < |s'.threads| ensures ThreadOk(s', u) {
      assert ThreadOk(s, u);
      if !(e.ThreadExit? && u == e.t) {
        CacheSpared(s, s', u);
      }
    }
    forall n | 0 <= n < |s'.place| ensures PlaceOk(s', n) {
      assert PlaceOk(s, n);
    }
  }

  lemma {:induction false} RunKeeps(s: State, t: nat, garbage: Ptr)
    requires Inv(s) && Allowed(s, Run(t, garbage))
    ensures Inv(Apply(s, Run(t, garbage)))
  {
    assert ThreadOk(s, t);
    match s.threads[t].pc
    case Pop =>
      if s.stack == [] {
        GotoKeeps(s, t, LockInternal);
      } else {
        PopKeeps(s, t);
      }
    case Take => TakeKeeps(s, t);
    case LockInternal => LockKeeps(s, t, garbage);
    case LockExternal(_) => LockKeeps(s, t, garbage);
    case Split(first, count, i, internal) =>
      if i == count {
        EndKeeps(s, t);
      } else if i % s.capacity == s.capacity - 1 {
        PushPageKeeps(s, t);
      } else {
        LinkKeeps(s, t);
      }
  }

  lemma {:induction false} ApplyKeepsInv(s: State, e: Event)
    requires Inv(s) && Allowed(s, e)
    ensures Inv(Apply(s, e))
  {
    match e
    case CallAllocate(t) =>
      assert ThreadOk(s, t);
      GotoKeeps(s, t, if s.threads[t].list == Null then Pop else Take);
    case CallReserve(t, chunks) =>
      if s.nodeCount / s.capacity < chunks {
        GotoKeeps(s, t, LockExternal(chunks));
      }
    case Run(t, garbage) => RunKeeps(s, t, garbage);
    case Deallocate(t, n) =>
      if s.threads[t].size + 1 >= s.capacity {
        PushListKeeps(s, t, n);
      } else {
        ReturnKeeps(s, t, n);
      }
    case Use(_, _) => OutsideKeeps(s, e);
    case GiveUp(_) => OutsideKeeps(s, e);
    case ThreadExit(_) => OutsideKeeps(s, e);
  }

  // ---------------------------------------------------------------- runs

  predicate Init(s: State) {
    && s.capacity > 0 && s.next == [] && s.place == [] && s.stack == [] && s.mutex == None && s.nodeCount == 0
    && forall t :: 0 <= t < |s.threads| ==> s.threads[t] == Thread(Null, 0, Idle, [])
  }

  predicate Possible(s: State, es: seq<Event>)
    decreases es
  {
    es == [] || (Allowed(s, es[0]) && Possible(Apply(s, es[0]), es[1..]))
  }

  function Exec(s: State, es: seq<Event>): State
    requires Possible(s, es)
    decreases es
  {
    if es == [] then s else Exec(Apply(s, es[0]), es[1..])
  }

  lemma {:induction false} InvAlong(s: State, es: seq<Event>)
    requires Inv(s) && Possible(s, es)
    ensures Inv(Exec(s, es))
    decreases es
  {
    if es != [] {
      ApplyKeepsInv(s, es[0]);
      InvAlong(Apply(s, es[0]), es[1..]);
    }
  }

  lemma {:induction false} ReachableInv(s: State, es: seq<Event>)
    requires Init(s) && Possible(s, es)
    ensures Inv(Exec(s, es))
  {
    assert 0 % s.capacity == 0;
    forall t | 0 <= t < |s.threads| ensures ThreadOk(s, t) {
    }
    InvAlong(s, es);
  }

  // ---------------------------------------------------------------- the theorems

  /** Node `n` is the j-th of chunk `i`. */
  predicate InChunk(s: State, n: nat, i: nat, j: nat) {
    i < |s.stack| && j < |s.stack[i]| && s.stack[i][j] == n
  }

  predicate InCache(s: State, n: nat, t: nat, j: nat) {
    t < |s.threads| && j < |s.threads[t].cache| && s.threads[t].cache[j] == n
  }

  /**
   The nodes are partitioned: each has one place, and its place says exactly where it is.
   No node is in two chunks or caches, or twice in one, or in one while it is in use or given up.
   */
  lemma {:induction false} PlacesAreExact(s: State, es: seq<Event>, n: nat, i: nat, j: nat)
    requires Init(s) && Possible(s, es) && n < |Exec(s, es).next|
    ensures var z := Exec(s, es);
      && n < |z.place|
      && (InChunk(z, n, i, j) <==> z.place[n] == Stacked(i, j))
      && (InCache(z, n, i, j) <==> z.place[n] == Cached(i, j))
  {
    ReachableInv(s, es);
    var z := Exec(s, es);
    assert PlaceOk(z, n);
    if InChunk(z, n, i, j) {
      assert ChunkOk(z, i);
      assert ChunkNode(z, i, j);
    }
    if InCache(z, n, i, j) {
      assert ThreadOk(z, i);
      assert CacheNode(z, i, j);
    }
  }

  /** Following the links from `p` for `steps` nodes: the nodes met, and the pointer after them. */
  function Follow(next: seq<Ptr>, p: Ptr, steps: nat): (seq<nat>, Ptr)
    decreases steps
  {
    if steps == 0 || p == Null || p.node >= |next| then ([], p)
    else
      var (met, end) := Follow(next, next[p.node], steps - 1);
      ([p.node] + met, end)
  }

  function Reversed(nodes: seq<nat>): seq<nat> {
    if nodes == [] then [] else [nodes[|nodes| - 1]] + Reversed(nodes[..|nodes| - 1])
  }

  lemma {:induction false} FollowLinks(s: State, nodes: seq<nat>, k: nat)
    requires k <= |nodes| && forall j :: 0 <= j < |nodes| ==> Link(s, nodes, j)
    ensures Follow(s.next, FirstOf(nodes[..k]), k) == (Reversed(nodes[..k]), Null)
  {
    if k > 0 {
      assert Link(s, nodes, k - 1);
      assert nodes[..k][..k - 1] == nodes[..k - 1];
      FollowLinks(s, nodes, k - 1);
    }
  }

  /** Every chunk of the stack is a non-empty list without cycle that ends in a null link. */
  lemma {:induction false} ChunksTerminate(s: State, es: seq<Event>, i: nat)
    requires Init(s) && Possible(s, es) && i < |Exec(s, es).stack|
    ensures var z := Exec(s, es); var chunk := z.stack[i];
      && chunk != []
      && Follow(z.next, FirstOf(chunk), |chunk|) == (Reversed(chunk), Null)
      && (forall j, k :: 0 <= j < k < |chunk| ==> chunk[j] != chunk[k])
  {
    ReachableInv(s, es);
    var z := Exec(s, es);
    var chunk := z.stack[i];
    assert ChunkOk(z, i);
    forall j | 0 <= j < |chunk| ensures Link(z, chunk, j) && chunk[j] < |z.place| && z.place[chunk[j]] == Stacked(i, j) {
      assert ChunkNode(z, i, j);
    }
    FollowLinks(z, chunk, |chunk|);
    assert chunk[..|chunk|] == chunk;
  }

  /** The same for every thread's list, which may be empty. */
  lemma {:induction false} CachesTerminate(s: State, es: seq<Event>, t: nat)
    requires Init(s) && Possible(s, es) && t < |Exec(s, es).threads|
    ensures var z := Exec(s, es); var th := z.threads[t];
      Follow(z.next, th.list, |th.cache|) == (Reversed(th.cache), Null) && th.size < z.capacity
  {
    ReachableInv(s, es);
    var z := Exec(s, es);
    var cache := z.threads[t].cache;
    assert ThreadOk(z, t);
    forall j | 0 <= j < |cache| ensures Link(z, cache, j) {
      assert CacheNode(z, t, j);
    }
    FollowLinks(z, cache, |cache|);
    assert cache[..|cache|] == cache;
  }

  /**
   A page is split exactly. Its last node is the last of a chunk, so the link past the end of
   the page is always replaced; when the mutex is free no node is left over, and the number
   of nodes ever reserved is a multiple of the capacity.
   */
  lemma {:induction false} PagesSplitExactly(s: State, es: seq<Event>)
    requires Init(s) && Possible(s, es)
    ensures var z := Exec(s, es);
      && z.capacity > 0 && z.nodeCount % z.capacity == 0 && |z.place| == |z.next|
      && (z.mutex == None ==> z.nodeCount == |z.next| && forall n :: 0 <= n < |z.next| ==> !z.place[n].Page?)
      && (forall t :: 0 <= t < |z.threads| && z.threads[t].pc.Split? && z.threads[t].pc.i + 1 == z.threads[t].pc.count ==>
            z.threads[t].pc.i % z.capacity == z.capacity - 1)
  {
    ReachableInv(s, es);
    var z := Exec(s, es);
    forall n | 0 <= n < |z.next| && z.mutex == None ensures !z.place[n].Page? {
      assert PlaceOk(z, n);
    }
    forall t | 0 <= t < |z.threads| && z.threads[t].pc.Split? && z.threads[t].pc.i + 1 == z.threads[t].pc.count
      ensures z.threads[t].pc.i % z.capacity == z.capacity - 1
    {
      assert ThreadOk(z, t);
      NextRemainder(z.threads[t].pc.i, z.capacity);
    }
  }

  /** A chunk that comes from a page has exactly `capacity` nodes, side by side. */
  lemma {:induction false} PageChunksAreExact(s: State, t: nat)
    requires Inv(s) && Splitting(s, t) && s.threads[t].pc.i < s.threads[t].pc.count
    requires s.threads[t].pc.i % s.capacity == s.capacity - 1
    ensures CanSplit(s, t)
    ensures var s' := StepSplit(s, t);
      && |s'.stack| == |s.stack| + 1 && s'.stack[..|s.stack|] == s.stack
      && |s'.stack[|s.stack|]| == s.capacity
      && (forall j :: 0 <= j < s.capacity ==> s.place[s'.stack[|s.stack|][j]] == Page)
  {
    assert ThreadOk(s, t);
    NextRemainder(s.threads[t].pc.i, s.capacity);
    var s' := StepSplit(s, t);
    forall j | 0 <= j < s.capacity ensures s.place[s'.stack[|s.stack|][j]] == Page {
      assert PlaceOk(s, s'.stack[|s.stack|][j]);
    }
  }

  /** An allocated node was nobody's, and it comes with a null link. */
  lemma {:induction false} AllocateHandsOutFree(s: State, es: seq<Event>, t: nat)
    requires Init(s) && Possible(s, es) && t < |Exec(s, es).threads| && Exec(s, es).threads[t].pc.Take?
    ensures var z := Exec(s, es);
      && CanTake(z, t)
      && var n := z.threads[t].list.node;
      && z.threads[t].cache != [] && z.place[n] == Cached(t, |z.threads[t].cache| - 1)
      && StepTake(z, t).place[n] == InUse && StepTake(z, t).next[n] == Null
      && (forall m :: 0 <= m < |z.place| && m != n ==> StepTake(z, t).place[m] == z.place[m])
  {
    ReachableInv(s, es);
    var z := Exec(s, es);
    assert ThreadOk(z, t);
    TakeKeeps(z, t);
    assert CacheNode(z, t, |z.threads[t].cache| - 1);
  }

  // ---------------------------------------------------------------- recycled chunks

  ghost predicate Reaches(s: State, z: State) {
    exists es :: Possible(s, es) && Exec(s, es) == z
  }

  lemma {:induction false} Then(s: State, e: Event, s': State, z: State)
    requires Allowed(s, e) && Apply(s, e) == s' && Reaches(s', z)
    ensures Reaches(s, z)
  {
    var es :| Possible(s', es) && Exec(s', es) == z;
    assert ([e] + es)[1..] == es;
    assert Possible(s, [e] + es) && Exec(s, [e] + es) == z;
  }

  /** One thread, capacity two. */
  function One(next: seq<Ptr>, stack: seq<seq<nat>>, list: Ptr, size: nat, pc: Pc, cache: seq<nat>, place: seq<Place>): State {
    State(2, next, stack, [Thread(list, size, pc, cache)], None, |next|, place)
  }

  /** The last two events of the split. */
  lemma {:induction false} FirstSplit(s: State, z: State)
    requires s == State(2, [At(1), Null], [], [Thread(Null, 0, Split(0, 2, 1, true), [])], Some(0), 0, [Page, Page])
    requires Reaches(One([At(1), Null], [[1, 0]], Null, 0, Pop, [], [Stacked(0, 1), Stacked(0, 0)]), z)
    ensures Reaches(s, z)
  {
    var r := Run(0, Null);
    var s5 := State(2, [At(1), Null], [[1, 0]], [Thread(Null, 0, Split(0, 2, 2, true), [])], Some(0), 0,
                    [Stacked(0, 1), Stacked(0, 0)]);
    var s6 := One([At(1), Null], [[1, 0]], Null, 0, Pop, [], [Stacked(0, 1), Stacked(0, 0)]);
    Then(s5, r, s6, z);
    assert PageChunk(0, 2) == [1, 0];
    assert PageToChunk([Page, Page], 0, 2, 0) == [Stacked(0, 1), Stacked(0, 0)];
    Then(s, r, s5, z);
  }

  /** The first page becomes one chunk of two nodes. */
  lemma {:induction false} FirstPage(z: State)
    requires Reaches(One([At(1), Null], [[1, 0]], Null, 0, Pop, [], [Stacked(0, 1), Stacked(0, 0)]), z)
    ensures Reaches(One([], [], Null, 0, Idle, [], []), z)
  {
    var r := Run(0, Null);
    var s0 := One([], [], Null, 0, Idle, [], []);
    var s1 := s0.(threads := [Thread(Null, 0, Pop, [])]);
    var s2 := s0.(threads := [Thread(Null, 0, LockInternal, [])]);
    var s3 := State(2, [Null, Null], [], [Thread(Null, 0, Split(0, 2, 0, true), [])], Some(0), 0, [Page, Page]);
    var s4 := State(2, [At(1), Null], [], [Thread(Null, 0, Split(0, 2, 1, true), [])], Some(0), 0, [Page, Page]);
    FirstSplit(s4, z);
    Then(s3, r, s4, z);
    Then(s2, r, s3, z);
    Then(s1, r, s2, z);
    Then(s0, CallAllocate(0), s1, z);
  }

  /** The step that takes the first node of the list, on one thread. */
  lemma {:induction false} TakeOne(next: seq<Ptr>, list: nat, size: nat, cache: seq<nat>, place: seq<Place>,
                                   next': seq<Ptr>, cache': seq<nat>, place': seq<Place>, z: State)
    requires |place| == |next| && list < |next| && cache != [] && cache' == cache[..|cache| - 1]
    requires next' == next[list := Null] && place' == place[list := InUse]
    requires Reaches(One(next', [], next[list], size, Idle, cache', place'), z)
    ensures Reaches(One(next, [], At(list), size, Take, cache, place), z)
  {
    var s := One(next, [], At(list), size, Take, cache, place);
    Then(s, Run(0, Null), One(next', [], next[list], size, Idle, cache', place'), z);
  }

  /** Both of its nodes are allocated. */
  lemma {:induction false} BothTaken(z: State)
    requires Reaches(One([Null, Null], [], Null, 0, Idle, [], [InUse, InUse]), z)
    ensures Reaches(One([At(1), Null], [[1, 0]], Null, 0, Pop, [], [Stacked(0, 1), Stacked(0, 0)]), z)
  {
    var s0 := One([At(1), Null], [[1, 0]], Null, 0, Pop, [], [Stacked(0, 1), Stacked(0, 0)]);
    var s1 := One([At(1), Null], [], At(0), 0, Take, [1, 0], [Cached(0, 1), Cached(0, 0)]);
    var s2 := One([Null, Null], [], At(1), 0, Idle, [1], [InUse, Cached(0, 0)]);
    var s3 := One([Null, Null], [], At(1), 0, Take, [1], [InUse, Cached(0, 0)]);
    TakeOne([Null, Null], 1, 0, [1], [InUse, Cached(0, 0)], [Null, Null], [], [InUse, InUse], z);
    Then(s2, CallAllocate(0), s3, z);
    TakeOne([At(1), Null], 0, 0, [1, 0], [Cached(0, 1), Cached(0, 0)], [Null, Null], [1], [InUse, Cached(0, 0)], z);
    assert ChunkToCache(s0.place, 0, 0) == s1.place;
    Then(s0, Run(0, Null), s1, z);
  }

  /** One of them goes back, is taken again and goes back again. */
  lemma {:induction false} BackTwice(z: State)
    requires Reaches(One([Null, Null], [[0]], Null, 0, Idle, [], [Stacked(0, 0), InUse]), z)
    ensures Reaches(One([Null, Null], [], Null, 0, Idle, [], [InUse, InUse]), z)
  {
    var s0 := One([Null, Null], [], Null, 0, Idle, [], [InUse, InUse]);
    var s1 := One([Null, Null], [], At(0), 1, Idle, [0], [Cached(0, 0), InUse]);
    var s2 := One([Null, Null], [], At(0), 1, Take, [0], [Cached(0, 0), InUse]);
    LastBack(z);
    TakeOne([Null, Null], 0, 1, [0], [Cached(0, 0), InUse], [Null, Null], [], [InUse, InUse], z);
    Then(s1, CallAllocate(0), s2, z);
    assert [InUse, InUse][0 := Cached(0, 0)] == [Cached(0, 0), InUse];
    assert [Null, Null][0 := Null] == [Null, Null];
    assert [] + [0] == [0];
    Then(s0, Deallocate(0, 0), s1, z);
  }

  lemma {:induction false} LastBack(z: State)
    requires Reaches(One([Null, Null], [[0]], Null, 0, Idle, [], [Stacked(0, 0), InUse]), z)
    ensures Reaches(One([Null, Null], [], Null, 1, Idle, [], [InUse, InUse]), z)
  {
    var s3 := One([Null, Null], [], Null, 1, Idle, [], [InUse, InUse]);
    var s4 := One([Null, Null], [[0]], Null, 0, Idle, [], [Stacked(0, 0), InUse]);
    assert [InUse, InUse][0 := Cached(0, 0)] == [Cached(0, 0), InUse];
    assert CacheToChunk([Cached(0, 0), InUse], 0, 0) == [Stacked(0, 0), InUse];
    assert [Null, Null][0 := Null] == [Null, Null];
    assert [] + [0] == [0] && [] + [[0]] == [[0]];
    Then(s3, Deallocate(0, 0), s4, z);
  }

  /**
   A recycled chunk need not have `capacity` nodes: the thread-local size counts the
   deallocations since the last push, not the nodes in the list. Here a chunk of one node is
   pushed although the capacity is two.
   */
  lemma {:induction false} RecycledChunkCanBeShort()
    ensures Init(One([], [], Null, 0, Idle, [], []))
    ensures Reaches(One([], [], Null, 0, Idle, [], []), One([Null, Null], [[0]], Null, 0, Idle, [], [Stacked(0, 0), InUse]))
  {
    var z := One([Null, Null], [[0]], Null, 0, Idle, [], [Stacked(0, 0), InUse]);
    assert Possible(z, []) && Exec(z, []) == z;
    BackTwice(z);
    BothTaken(z);
    FirstPage(z);
  }

  /** What an event adds to the account of thread `t`: a chunk taken from the stack, less a node handed out. */
  function Drawn(s: State, e: Event, t: nat): int
    requires Allowed(s, e)
  {
    if e.Run? && e.t == t && s.threads[t].pc.Pop? && s.stack != [] then |s.stack[|s.stack| - 1]|
    else if e.Run? && e.t == t && s.threads[t].pc.Take? then -1
    else 0
  }

  /** Thread `t` gives its whole list away. */
  predicate Settles(s: State, e: Event, t: nat)
    requires Allowed(s, e)
  {
    || (e.Deallocate? && e.t == t && s.threads[t].size + 1 >= s.capacity)
    || (e.ThreadExit? && e.t == t)
  }

  /** The nodes thread `t` has drawn and not handed out since it last gave its list away, from `account` on. */
  function Balance(s: State, es: seq<Event>, t: nat, account: int): int
    requires Possible(s, es)
    decreases es
  {
    if es == [] then account
    else
      Balance(Apply(s, es[0]), es[1..], t, if Settles(s, es[0], t) then 0 else account + Drawn(s, es[0], t))
  }

  /** By how much the list is longer than the counter says. */
  function Excess(th: Thread): int {
    |th.cache| - th.size
  }

  lemma {:induction false} ExcessStep(s: State, e: Event, t: nat)
    requires Inv(s) && Allowed(s, e) && t < |s.threads|
    ensures var s' := Apply(s, e);
      && |s'.threads| == |s.threads|
      && Excess(s'.threads[t]) == if Settles(s, e, t) then 0 else Excess(s.threads[t]) + Drawn(s, e, t)
  {
    hide ChunkOk, PlaceOk, CacheNode;
    assert ThreadOk(s, t);
  }

  lemma {:induction false} BalanceIsExcess(s: State, es: seq<Event>, t: nat)
    requires Inv(s) && Possible(s, es) && t < |s.threads|
    ensures t < |Exec(s, es).threads| && Excess(Exec(s, es).threads[t]) == Balance(s, es, t, Excess(s.threads[t]))
    decreases es
  {
    if es != [] {
      ExcessStep(s, es[0], t);
      ApplyKeepsInv(s, es[0]);
      BalanceIsExcess(Apply(s, es[0]), es[1..], t);
    }
  }

  /**
   How long a recycled chunk is: the capacity, and what its thread has drawn from the stack and
   not handed out since it last gave its list away. It has exactly `capacity` nodes if and only
   if the two amounts are the same.
   */
  lemma {:induction false} RecycledChunkLength(s: State, es: seq<Event>, t: nat, n: nat)
    requires Init(s) && Possible(s, es) && t < |s.threads|
    requires Allowed(Exec(s, es), Deallocate(t, n)) && Settles(Exec(s, es), Deallocate(t, n), t)
    ensures var z := Exec(s, es); var z' := Apply(z, Deallocate(t, n));
      && |z'.stack| == |z.stack| + 1
      && |z'.stack[|z.stack|]| == z.capacity + Balance(s, es, t, 0)
      && (|z'.stack[|z.stack|]| == z.capacity <==> Balance(s, es, t, 0) == 0)
  {
    ReachableInv(s, []);
    BalanceIsExcess(s, es, t);
    InvAlong(s, es);
    assert ThreadOk(Exec(s, es), t);
  }

  lemma {:induction false} SplitIsSafe(s: State, t: nat)
    requires Inv(s) && Splitting(s, t)
    ensures CanSplit(s, t)
  {
    assert ThreadOk(s, t);
  }

  // ---------------------------------------------------------------- the steps in place

  /** The manager, the chunk stack and the thread-local pairs of all threads; `caches` is auxiliary, as is what a chunk lists. */
  class Manager {
    const capacity: nat
    var next: seq<Ptr>
    var stack: seq<seq<nat>>
    const lists: array<Ptr>
    const sizes: array<nat>
    const pcs: array<Pc>
    var mutex: Option<nat>
    var nodeCount: nat
    var caches: seq<seq<nat>>
    ghost var place: seq<Place>

    ghost function View(): State
      requires lists.Length == sizes.Length == pcs.Length == |caches|
      reads this, lists, sizes, pcs
    {
      State(capacity, next, stack,
            seq(pcs.Length, t requires 0 <= t < pcs.Length reads this, lists, sizes, pcs
                              requires lists.Length == sizes.Length == pcs.Length == |caches| =>
                              Thread(lists[t], sizes[t], pcs[t], caches[t])),
            mutex, nodeCount, place)
    }

    ghost predicate Valid()
      reads this, lists, sizes, pcs
    {
      && lists.Length == sizes.Length == pcs.Length == |caches|
      && Inv(View())
    }

    constructor (chunkSize: nat, threads: nat)
      requires chunkSize > 0
      ensures Valid() && Init(View()) && capacity == chunkSize && pcs.Length == threads
      ensures fresh(lists) && fresh(sizes) && fresh(pcs)
    {
      capacity := chunkSize;
      next, stack, mutex, nodeCount, place := [], [], None, 0, [];
      lists := new Ptr[threads](_ => Null);
      sizes := new nat[threads](_ => 0);
      pcs := new Pc[threads](_ => Idle);
      caches := seq(threads, _ => []);
      new;
      assert 0 % capacity == 0;
      forall t | 0 <= t < threads ensures ThreadOk(View(), t) {
      }
    }

    /** `Try_pop` into the empty list of thread `t`. */
    method TryPop(t: nat) returns (popped: bool)
      requires Valid() && t < pcs.Length && pcs[t] == Pop
      modifies this`stack, this`caches, this`place, lists, pcs
      ensures Valid() && View() == StepPop(old(View()), t) && (popped <==> old(stack) != [])
    {
      RunKeeps(View(), t, Null);
      popped := stack != [];
      if !popped {
        pcs[t] := LockInternal;
      } else {
        var top := |stack| - 1;
        var chunk := stack[top];
        stack := stack[..top];
        lists[t] := FirstOf(chunk);
        pcs[t] := Take;
        caches := caches[t := chunk];
        place := ChunkToCache(place, top, t);
      }
      assert View().threads == StepPop(old(View()), t).threads;
    }

    /** `Allocate`, once the list is not empty. */
    method TakeNode(t: nat) returns (n: nat)
      requires Valid() && t < pcs.Length && pcs[t] == Take
      modifies this`next, this`caches, this`place, lists, pcs
      ensures Valid() && CanTake(old(View()), t) && View() == StepTake(old(View()), t)
      ensures lists.Length == pcs.Length && old(lists[t]) == At(n) && n < |next| && next[n] == Null
    {
      TakeKeeps(View(), t);
      n := lists[t].node;
      lists[t] := next[n];
      next := next[n := Null];
      pcs[t] := Idle;
      caches := caches[t := if caches[t] == [] then [] else caches[t][..|caches[t]| - 1]];
      place := place[n := InUse];
      assert View().threads == StepTake(old(View()), t).threads;
    }

    /** `Deallocate`: pushes the whole list when the counter of deallocations reaches the capacity. */
    method Return(t: nat, n: nat)
      requires Valid() && Allowed(View(), Deallocate(t, n))
      modifies this`next, this`stack, this`caches, this`place, lists, sizes
      ensures Valid() && View() == StepDeallocate(old(View()), t, n)
    {
      ApplyKeepsInv(View(), Deallocate(t, n));
      place := place[n := Cached(t, |caches[t]|)];
      next := next[n := lists[t]];
      lists[t] := At(n);
      sizes[t] := sizes[t] + 1;
      var chunk := caches[t] + [n];
      if sizes[t] >= capacity {
        place := CacheToChunk(place, t, |stack|);
        stack := stack + [chunk];
        lists[t] := Null;
        sizes[t] := 0;
        caches := caches[t := []];
      } else {
        caches := caches[t := chunk];
      }
      assert View().threads == StepDeallocate(old(View()), t, n).threads;
    }

    /** One turn of the loop of `Reserve`, or its end. */
    method SplitPage(t: nat)
      requires Valid() && Splitting(View(), t)
      modifies this`next, this`stack, this`place, this`mutex, this`nodeCount, pcs
      ensures Valid() && CanSplit(old(View()), t) && View() == StepSplit(old(View()), t)
    {
      hide Inv;
      SplitIsSafe(View(), t);
      RunKeeps(View(), t, Null);
      ChunkIsFull(pcs[t].i, capacity);
      var Split(first, count, i, internal) := pcs[t];
      if i == count {
        nodeCount, mutex := nodeCount + count, None;
        pcs[t] := if internal then Pop else Idle;
      } else {
        next := next[first + i := At(first + i + 1)];
        if i % capacity == capacity - 1 {
          next := next[first + i := Null];
          place := PageToChunk(place, first + i + 1 - capacity, first + i + 1, |stack|);
          stack := stack + [PageChunk(first + i + 1 - capacity, first + i + 1)];
        }
        pcs[t] := Split(first, count, i + 1, internal);
      }
      assert View().threads == StepSplit(old(View()), t).threads;
      assert View().next == StepSplit(old(View()), t).next;
    }
  }
}
