/**
 What callers of the node pool get: an allocation that nobody disturbs hands out a node, and
 a reservation gives the pool the nodes that were asked for.
 */
module NodePoolCalls {
  import opened NodePool
  import opened Optional
  import opened Remainders

  /** Thread `t` allocates; if it splits a page, that page holds a whole chunk, which it has pushed once past it. */
  predicate Allocating(s: State, t: nat) {
    && t < |s.threads| && s.capacity > 0
    && match s.threads[t].pc {
         case Pop => s.mutex == None
         case Take => true
         case LockInternal => s.mutex == None
         case Split(_, count, i, internal) =>
           internal && s.mutex == Some(t) && s.capacity <= count && i <= count && (i >= s.capacity ==> s.stack != [])
         case _ => false
       }
  }

  /** How many accesses the allocation has left at most, if nobody else runs. */
  function Left(s: State, t: nat): int
    requires Allocating(s, t)
  {
    match s.threads[t].pc
    case Take => 1
    case Pop => if s.stack != [] then 2 else PageWork(s) + 5
    case LockInternal => if s.stack != [] then 3 else PageWork(s) + 4
    case Split(_, count, i, _) => count - i + 3
  }

  function PageWork(s: State): int {
    Max(s.capacity, s.nodeCount)
  }

  lemma {:induction false} LeftPositive(s: State, t: nat)
    requires Inv(s) && Allocating(s, t)
    ensures Left(s, t) > 0
  {
  }

  /** Each access is possible and brings the node closer; the last one hands it out. */
  lemma {:induction false} AllocationProceeds(s: State, t: nat, garbage: Ptr)
    requires Inv(s) && Allocating(s, t)
    ensures Allowed(s, Run(t, garbage))
    ensures var z := Apply(s, Run(t, garbage));
      if s.threads[t].pc.Take? then
        && z.threads[t].pc.Idle? && s.threads[t].list.At?
        && s.threads[t].list.node < |z.place| && z.place[s.threads[t].list.node] == InUse
      else Allocating(z, t) && Left(z, t) < Left(s, t)
  {
    assert ThreadOk(s, t);
    if s.threads[t].pc.Take? {
      TakeKeeps(s, t);
    }
    hide ChunkOk, PlaceOk, ThreadOk;
    if s.threads[t].pc.Split? {
      SplitIsSafe(s, t);
      ChunkIsFull(s.threads[t].pc.i, s.capacity);
      LastOfChunk(s.threads[t].pc.i, s.capacity);
    }
  }

  /** The node before a boundary is the last one of its chunk. */
  lemma {:induction false} LastOfChunk(i: nat, c: nat)
    requires c > 0
    ensures i == c - 1 ==> i % c == c - 1
  {
    if i == c - 1 {
      ModUnique(i, c, 0, i);
    }
  }

  /** Thread `t` alone runs. */
  predicate OnlyRuns(es: seq<Event>, t: nat) {
    forall i :: 0 <= i < |es| ==> es[i].Run? && es[i].t == t
  }

  lemma {:induction false} First(s: State, e: Event, es: seq<Event>)
    requires Allowed(s, e) && Possible(Apply(s, e), es)
    ensures Possible(s, [e] + es) && Exec(s, [e] + es) == Exec(Apply(s, e), es)
  {
    assert ([e] + es)[1..] == es;
  }

  /**
   An allocation that nobody disturbs ends with a node in use that was not: taken from the
   thread's list, from a chunk of the stack, or from a new page.
   */
  lemma {:induction false} AllocationEnds(s: State, t: nat) returns (es: seq<Event>, n: nat)
    requires Inv(s) && Allocating(s, t)
    ensures OnlyRuns(es, t) && Possible(s, es)
    ensures var z := Exec(s, es);
      && t < |z.threads| && z.threads[t].pc.Idle? && n < |z.place| && z.place[n] == InUse
      && (n < |s.place| ==> s.place[n] != InUse)
    decreases Left(s, t)
  {
    LeftPositive(s, t);
    AllocationProceeds(s, t, Null);
    ApplyKeepsInv(s, Run(t, Null));
    var s1 := Apply(s, Run(t, Null));
    var rest := [];
    if s.threads[t].pc.Take? {
      n := s.threads[t].list.node;
      TakenWasCached(s, t);
    } else {
      LeftPositive(s1, t);
      rest, n := AllocationEnds(s1, t);
      NothingEndsInUse(s, t, n);
    }
    First(s, Run(t, Null), rest);
    es := [Run(t, Null)] + rest;
  }

  lemma {:induction false} TakenWasCached(s: State, t: nat)
    requires Inv(s) && t < |s.threads| && s.threads[t].pc.Take?
    ensures s.threads[t].list.At? && s.threads[t].list.node < |s.place| && s.place[s.threads[t].list.node].Cached?
  {
    assert ThreadOk(s, t);
    assert CacheNode(s, t, |s.threads[t].cache| - 1);
  }

  /** No access but the last puts a node in use, or takes one that is. */
  lemma {:induction false} NothingEndsInUse(s: State, t: nat, n: nat)
    requires Inv(s) && Allocating(s, t) && !s.threads[t].pc.Take? && Allowed(s, Run(t, Null))
    ensures var z := Apply(s, Run(t, Null));
      |z.place| >= |s.place| && (n < |s.place| && s.place[n] == InUse ==> z.place[n] == InUse)
  {
    assert ThreadOk(s, t);
    if n < |s.place| {
      assert PlaceOk(s, n);
    }
    hide ChunkOk, PlaceOk, ThreadOk;
  }

  /** A call of `Allocate` gets there at once. */
  lemma {:induction false} AllocateStarts(s: State, t: nat)
    requires Inv(s) && Allowed(s, CallAllocate(t)) && s.mutex == None
    ensures Inv(Apply(s, CallAllocate(t))) && Allocating(Apply(s, CallAllocate(t)), t)
  {
    ApplyKeepsInv(s, CallAllocate(t));
  }

  // ---------------------------------------------------------------- reservations

  /** What a thread with the mutex reserves: at least a chunk, or as much as there is; or what is missing, exactly. */
  lemma {:induction false} LockReserves(s: State, t: nat, garbage: Ptr)
    requires Inv(s) && t < |s.threads| && s.mutex == None && (s.threads[t].pc.LockInternal? || s.threads[t].pc.LockExternal?)
    ensures var pc, pc' := s.threads[t].pc, StepLock(s, t, garbage).threads[t].pc;
      && (pc.LockInternal? ==>
            if s.stack != [] then pc'.Pop? else pc'.Split? && pc'.count == Max(s.capacity, s.nodeCount) >= s.capacity)
      && (pc.LockExternal? ==>
            if s.nodeCount / s.capacity >= pc.chunks then pc'.Idle?
            else pc'.Split? && (s.nodeCount + pc'.count) / s.capacity == pc.chunks)
  {
    if s.threads[t].pc.LockExternal? && s.nodeCount / s.capacity < s.threads[t].pc.chunks {
      MissingChunks(s.nodeCount, s.capacity, s.threads[t].pc.chunks);
    }
  }

  lemma {:induction false} MissingChunks(count: nat, capacity: nat, chunks: nat)
    requires capacity > 0 && count / capacity < chunks && count % capacity == 0
    ensures (count + (chunks - count / capacity) * capacity) / capacity == chunks
  {
    var d := count / capacity;
    assert count == capacity * d;
    assert count + (chunks - d) * capacity == capacity * chunks by {
      assert capacity * d + capacity * (chunks - d) == capacity * chunks;
    }
    WholeDivision(capacity, chunks);
  }

  lemma {:induction false} WholeDivision(c: nat, q: nat)
    requires c > 0
    ensures c * q / c == q
  {
    ModUnique(c * q, c, q, 0);
    var d := c * q / c;
    assert c * q == c * d;
    if d < q {
      MulMono(c, d + 1, q);
    } else if d > q {
      MulMono(c, q + 1, d);
    }
  }

  /** Each turn of the split is one node; behind the last one the page is counted and the mutex given back. */
  lemma {:induction false} SplitProceeds(s: State, t: nat)
    requires Inv(s) && Splitting(s, t)
    ensures CanSplit(s, t)
    ensures var z := StepSplit(s, t); var Split(first, count, i, internal) := s.threads[t].pc;
      if i < count then z.threads[t].pc == Split(first, count, i + 1, internal) && z.nodeCount == s.nodeCount
      else z.nodeCount == s.nodeCount + count && z.mutex == None && z.threads[t].pc == if internal then Pop else Idle
  {
    SplitIsSafe(s, t);
    assert ThreadOk(s, t);
    hide ChunkOk, PlaceOk, ThreadOk;
    ChunkIsFull(s.threads[t].pc.i, s.capacity);
  }

  /** Thread `t` reserves so that there are `chunks` chunks, or has done so. */
  predicate Reserving(s: State, t: nat, chunks: nat) {
    && t < |s.threads| && s.capacity > 0
    && match s.threads[t].pc {
         case Idle => s.nodeCount / s.capacity >= chunks
         case LockExternal(wanted) => wanted == chunks && s.mutex == None
         case Split(_, count, i, internal) =>
           !internal && s.mutex == Some(t) && i <= count && (s.nodeCount + count) / s.capacity == chunks
         case _ => false
       }
  }

  function ReserveLeft(s: State, t: nat, chunks: nat): int
    requires Reserving(s, t, chunks)
  {
    match s.threads[t].pc
    case Idle => 0
    case LockExternal(_) => chunks * s.capacity + 2
    case Split(_, count, i, _) => count - i + 1
  }

  lemma {:induction false} ReservationProceeds(s: State, t: nat, chunks: nat)
    requires Inv(s) && Reserving(s, t, chunks) && !s.threads[t].pc.Idle?
    ensures Allowed(s, Run(t, Null)) && Reserving(Apply(s, Run(t, Null)), t, chunks)
    ensures 0 <= ReserveLeft(Apply(s, Run(t, Null)), t, chunks) < ReserveLeft(s, t, chunks)
  {
    assert ThreadOk(s, t);
    if s.threads[t].pc.LockExternal? {
      LockReserves(s, t, Null);
      MulMono(s.capacity, chunks - s.nodeCount / s.capacity, chunks);
      MulMono(s.capacity, 0, chunks);
    } else {
      SplitProceeds(s, t);
    }
    hide ChunkOk, PlaceOk, ThreadOk;
  }

  /** Undisturbed, a reservation called for `chunks` chunks ends with at least so many. */
  lemma {:induction false} ReservationEnds(s: State, t: nat, chunks: nat) returns (es: seq<Event>)
    requires Inv(s) && Reserving(s, t, chunks)
    ensures OnlyRuns(es, t) && Possible(s, es)
    ensures var z := Exec(s, es);
      t < |z.threads| && z.threads[t].pc.Idle? && z.capacity > 0 && z.nodeCount / z.capacity >= chunks
    decreases ReserveLeft(s, t, chunks)
  {
    if s.threads[t].pc.Idle? {
      es := [];
    } else {
      ReservationProceeds(s, t, chunks);
      ApplyKeepsInv(s, Run(t, Null));
      var rest := ReservationEnds(Apply(s, Run(t, Null)), t, chunks);
      First(s, Run(t, Null), rest);
      es := [Run(t, Null)] + rest;
    }
  }

  lemma {:induction false} ReserveStarts(s: State, t: nat, chunks: nat)
    requires Inv(s) && Allowed(s, CallReserve(t, chunks)) && s.mutex == None
    ensures Inv(Apply(s, CallReserve(t, chunks))) && Reserving(Apply(s, CallReserve(t, chunks)), t, chunks)
  {
    ApplyKeepsInv(s, CallReserve(t, chunks));
  }
}
