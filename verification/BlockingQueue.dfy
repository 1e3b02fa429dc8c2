/**
 The blocking queue: an inner queue that never blocks, and a semaphore that counts its
 items. A producer enqueues first and signals then; a consumer acquires permits first and
 then takes as many items, retrying the inner queue until it has them all.
 */
module BlockingQueue {
  import opened Counting
  import Sema = LightweightSemaphore

  /** What a thread is doing in the queue; inside the semaphore the semaphore keeps its position. */
  datatype Client =
    | Outside
    | Enqueuing(n: nat)
    | Signalling
    | Acquiring
    | Draining(owed: nat)

  /** `items` is the length of the inner queue. The totals `put` and `taken` are auxiliary. */
  datatype State = State(sema: Sema.State, items: nat, clients: seq<Client>, put: nat, taken: nat)

  /**
   `InnerEnqueue` fails if memory runs out. `InnerDequeue` takes `n` of the items owed, or none:
   the inner queue may miss an item that is being enqueued, but it cannot give what it has not.
   */
  datatype Event =
    | CallEnqueue(t: nat, n: nat)
    | InnerEnqueue(t: nat, ok: bool)
    | CallTryDequeue(t: nat, max: nat)
    | CallWaitDequeue(t: nat, max: nat, timeout: Sema.Timeout)
    | InSema(t: nat, ok: bool)
    | SemaReturns(t: nat)
    | InnerDequeue(t: nat, n: nat)

  predicate Allowed(s: State, e: Event) {
    && e.t < |s.clients| == |s.sema.threads|
    && var c, pc := s.clients[e.t], s.sema.threads[e.t];
       match e {
         case CallEnqueue(_, _) => c.Outside? && pc.Idle?
         case InnerEnqueue(_, _) => c.Enqueuing? && pc.Idle?
         case CallTryDequeue(_, _) => c.Outside? && pc.Idle?
         case CallWaitDequeue(_, _, _) => c.Outside? && pc.Idle?
         case InSema(_, _) => c.Signalling? || c.Acquiring?
         case SemaReturns(_) => (c.Signalling? || c.Acquiring?) && pc.Returned?
         case InnerDequeue(_, n) => c.Draining? && n <= c.owed && n <= s.items
       }
  }

  function SetClient(s: State, t: nat, c: Client): State
    requires t < |s.clients|
  {
    s.(clients := s.clients[t := c])
  }

  /** The client once it owes the inner queue `n` items. */
  function Drain(n: nat): Client {
    if n == 0 then Outside else Draining(n)
  }

  function Apply(s: State, e: Event): State
    requires Allowed(s, e)
  {
    match e
    case CallEnqueue(t, n) => SetClient(s, t, Enqueuing(n))
    case InnerEnqueue(t, ok) =>
      var n := s.clients[t].n;
      if ok then
        SetClient(s, t, Signalling).(sema := Sema.Apply(s.sema, Sema.CallSignal(t, n)), items := s.items + n, put := s.put + n)
      else SetClient(s, t, Outside)
    case CallTryDequeue(t, max) =>
      SetClient(s, t, Acquiring).(sema := Sema.Apply(s.sema, Sema.CallTryWait(t, max)))
    case CallWaitDequeue(t, max, timeout) =>
      SetClient(s, t, Acquiring).(sema := Sema.Apply(s.sema, Sema.CallWait(t, max, timeout)))
    case InSema(t, ok) => s.(sema := Sema.Apply(s.sema, Sema.Run(t, ok)))
    case SemaReturns(t) =>
      SetClient(s, t, Drain(s.sema.threads[t].got)).(sema := Sema.Apply(s.sema, Sema.Return(t)))
    case InnerDequeue(t, n) =>
      SetClient(s, t, Drain(s.clients[t].owed - n)).(items := s.items - n, taken := s.taken + n)
  }

  // ---------------------------------------------------------------- the invariant

  function OwedWeight(c: Client): int {
    if c.Draining? then c.owed else 0
  }

  /** Items enqueued whose signal has not reached the count yet. */
  function UnsignalledWeight(pc: Sema.Pc): int {
    if pc.FetchAdd? then pc.n else 0
  }

  function Owed(s: State): int { Sum(s.clients, OwedWeight) }

  function Unreported(s: State): int { Sum(s.sema.threads, Sema.GotWeight) }

  function Unsignalled(s: State): int { Sum(s.sema.threads, UnsignalledWeight) }

  /** A thread is in the semaphore only on behalf of the queue; a signaller acquires nothing. */
  predicate ClientOk(c: Client, pc: Sema.Pc) {
    match c
    case Signalling => pc.FetchAdd? || pc.Post? || pc == Sema.Returned(0)
    case Acquiring => !pc.Idle? && !pc.FetchAdd? && !pc.Post?
    case _ => pc.Idle?
  }

  ghost predicate Inv(s: State) {
    && Sema.Inv(s.sema)
    && s.sema.sh.initial == 0
    && |s.clients| == |s.sema.threads|
    && (forall t :: 0 <= t < |s.clients| ==> ClientOk(s.clients[t], s.sema.threads[t]))
    && s.put == s.taken + s.items
    && s.put == s.sema.sh.signalled + Unsignalled(s)
    && s.sema.sh.acquired == s.taken + Owed(s) + Unreported(s)
  }

  lemma {:induction false} SumsUpdate(s: State, t: nat, c: Client, pc: Sema.Pc)
    requires t < |s.clients| == |s.sema.threads|
    ensures Sum(s.clients[t := c], OwedWeight) == Owed(s) - OwedWeight(s.clients[t]) + OwedWeight(c)
    ensures Sum(s.sema.threads[t := pc], Sema.GotWeight) == Unreported(s) - Sema.GotWeight(s.sema.threads[t]) + Sema.GotWeight(pc)
    ensures Sum(s.sema.threads[t := pc], UnsignalledWeight)
         == Unsignalled(s) - UnsignalledWeight(s.sema.threads[t]) + UnsignalledWeight(pc)
  {
    SumUpdate(s.clients, t, c, OwedWeight);
    SumUpdate(s.sema.threads, t, pc, Sema.GotWeight);
    SumUpdate(s.sema.threads, t, pc, UnsignalledWeight);
  }

  /** The steps outside the semaphore. */
  lemma {:induction false} QueueStepKeepsInv(s: State, e: Event)
    requires Inv(s) && Allowed(s, e) && !e.InSema?
    ensures Inv(Apply(s, e))
  {
    var s' := Apply(s, e);
    assert ClientOk(s.clients[e.t], s.sema.threads[e.t]);
    SumsUpdate(s, e.t, s'.clients[e.t], s'.sema.threads[e.t]);
    assert s.clients[e.t := s'.clients[e.t]] == s'.clients;
    assert s.sema.threads[e.t := s'.sema.threads[e.t]] == s'.sema.threads;
    match e
    case InnerEnqueue(t, ok) => if ok { Sema.ApplyKeepsInv(s.sema, Sema.CallSignal(t, s.clients[t].n)); }
    case CallTryDequeue(t, max) => Sema.ApplyKeepsInv(s.sema, Sema.CallTryWait(t, max));
    case CallWaitDequeue(t, max, timeout) => Sema.ApplyKeepsInv(s.sema, Sema.CallWait(t, max, timeout));
    case SemaReturns(t) => Sema.ApplyKeepsInv(s.sema, Sema.Return(t));
    case _ =>
  }

  lemma {:induction false} ActKeepsClient(sh: Sema.Shared, pc: Sema.Pc, ok: bool, c: Client)
    requires Sema.PcOk(pc) && ClientOk(c, pc) && (c.Signalling? || c.Acquiring?)
    ensures ClientOk(c, Sema.Act(sh, pc, ok).1)
  {
  }

  /** The steps inside it. */
  lemma {:induction false} SemaStepKeepsInv(s: State, t: nat, ok: bool)
    requires Inv(s) && Allowed(s, InSema(t, ok))
    ensures Inv(Apply(s, InSema(t, ok)))
  {
    var s', pc := Apply(s, InSema(t, ok)), s.sema.threads[t];
    assert ClientOk(s.clients[t], pc) && Sema.PcOk(pc);
    Sema.ApplyKeepsInv(s.sema, Sema.Run(t, ok));
    Sema.ActReportsAcquired(s.sema.sh, pc, ok);
    Sema.ActReportsSignalled(s.sema.sh, pc, ok);
    ActKeepsClient(s.sema.sh, pc, ok, s.clients[t]);
    SumsUpdate(s, t, s.clients[t], s'.sema.threads[t]);
    forall u | 0 <= u < |s.clients| ensures ClientOk(s'.clients[u], s'.sema.threads[u]) {
      assert ClientOk(s.clients[u], s.sema.threads[u]);
    }
  }

  lemma {:induction false} ApplyKeepsInv(s: State, e: Event)
    requires Inv(s) && Allowed(s, e)
    ensures Inv(Apply(s, e))
  {
    if e.InSema? {
      SemaStepKeepsInv(s, e.t, e.ok);
    } else {
      QueueStepKeepsInv(s, e);
    }
  }

  // ---------------------------------------------------------------- runs

  function Init(maxSpins: nat, threads: nat): State {
    State(Sema.Init(0, maxSpins, threads), 0, seq(threads, _ => Outside), 0, 0)
  }

  predicate Possible(s: State, es: seq<Event>)
    decreases es
  {
    es == [] || (Allowed(s, es[0]) && Possible(Apply(s, es[0]), es[1..]))
  }

  function Exec(s: State, es: seq<Event>): State
    requires Possible(s, es)
    decreases es
  {
    if es == [] then s else Exec(Apply(s, es[0]), es[1..])
  }

  lemma {:induction false} InitInv(maxSpins: nat, threads: nat)
    ensures Inv(Init(maxSpins, threads))
  {
    var s := Init(maxSpins, threads);
    Sema.InitInv(0, maxSpins, threads);
    NoNegativeSums(s);
    SumNotPositive(s.clients, OwedWeight);
    SumNotPositive(s.sema.threads, Sema.GotWeight);
    SumNotPositive(s.sema.threads, UnsignalledWeight);
  }

  lemma {:induction false} NoNegativeSums(s: State)
    ensures Owed(s) >= 0 && Unreported(s) >= 0 && Unsignalled(s) >= 0
  {
    SumNonNegative(s.clients, OwedWeight);
    SumNonNegative(s.sema.threads, Sema.GotWeight);
    SumNonNegative(s.sema.threads, UnsignalledWeight);
  }

  lemma {:induction false} ReachableInv(s: State, es: seq<Event>)
    requires Inv(s) && Possible(s, es)
    ensures Inv(Exec(s, es))
    decreases es
  {
    if es != [] {
      ApplyKeepsInv(s, es[0]);
      ReachableInv(Apply(s, es[0]), es[1..]);
    }
  }

  // ---------------------------------------------------------------- what the queue promises

  /** The items of the inner queue are exactly the free permits, the permits in threads' hands, and the unsignalled items. */
  lemma {:induction false} ItemsAccounted(maxSpins: nat, threads: nat, es: seq<Event>)
    requires Possible(Init(maxSpins, threads), es)
    ensures var s := Exec(Init(maxSpins, threads), es);
      s.items == Sema.Available(s.sema) + Owed(s) + Unreported(s) + Unsignalled(s)
  {
    InitInv(maxSpins, threads);
    ReachableInv(Init(maxSpins, threads), es);
  }

  /** A permit implies an element: the inner queue holds an item for every free permit and every item owed. */
  lemma {:induction false} PermitImpliesElement(s: State)
    requires Inv(s)
    ensures s.items >= Sema.Available(s.sema) + Owed(s)
  {
    NoNegativeSums(s);
  }

  /** A retry loop always has its items in the queue, so its next attempt is one that can succeed. */
  lemma {:induction false} RetryLoopCanFinish(s: State, t: nat)
    requires Inv(s) && t < |s.clients| && s.clients[t].Draining?
    ensures s.clients[t].owed <= s.items && Allowed(s, InnerDequeue(t, s.clients[t].owed))
  {
    NoNegativeSums(s);
    Sema.NoNegativeSums(s.sema);
    SumAtLeast(s.clients, t, OwedWeight);
  }

  /** When nobody is inside a call the count of the semaphore is the length of the queue. */
  lemma {:induction false} QuiescentCountIsLength(s: State)
    requires Inv(s) && forall t :: 0 <= t < |s.clients| ==> s.clients[t].Outside?
    ensures s.sema.sh.count == s.items
  {
    forall t | 0 <= t < |s.clients| ensures s.sema.threads[t].Idle? {
      assert ClientOk(s.clients[t], s.sema.threads[t]);
    }
    NoNegativeSums(s);
    Sema.QuiescentCountIsExact(s.sema);
    SumNotPositive(s.clients, OwedWeight);
    SumNotPositive(s.sema.threads, Sema.GotWeight);
    SumNotPositive(s.sema.threads, UnsignalledWeight);
  }

  // ---------------------------------------------------------------- the code

  /** The composition: the length of the inner queue, the semaphore, and each thread's position. */
  class Queue {
    var inner: nat
    const sema: Sema.Semaphore
    const clients: array<Client>
    ghost var put: nat
    ghost var taken: nat

    ghost function View(): State
      reads this, clients, sema, sema.pcs
    {
      State(sema.View(), inner, clients[..], put, taken)
    }

    constructor (maxSpins: nat, threads: nat)
      ensures View() == Init(maxSpins, threads) && Inv(View())
      ensures fresh(sema) && fresh(sema.pcs) && fresh(clients)
    {
      inner := 0;
      sema := new Sema.Semaphore(0, maxSpins, threads);
      clients := new Client[threads](_ => Outside);
      put, taken := 0, 0;
      new;
      assert clients[..] == seq(threads, _ => Outside);
      InitInv(maxSpins, threads);
    }

    /** `enqueue` and `enqueue_bulk`: the items go in, and only then are they signalled. */
    method EnqueueInner(t: nat, ok: bool)
      requires Inv(View()) && Allowed(View(), InnerEnqueue(t, ok))
      modifies this`inner, this`put, clients, sema.pcs
      ensures Inv(View()) && View() == Apply(old(View()), InnerEnqueue(t, ok))
    {
      ApplyKeepsInv(View(), InnerEnqueue(t, ok));
      var n := clients[t].n;
      if ok {
        inner := inner + n;
        put := put + n;
        clients[t] := Signalling;
        sema.Call(Sema.CallSignal(t, n));
      } else {
        clients[t] := Outside;
      }
    }

    /** The dequeuing calls, bulk or not, begin by acquiring permits. */
    method AcquirePermits(t: nat, max: nat, wait: bool, timeout: Sema.Timeout)
      requires Inv(View())
      requires Allowed(View(), if wait then CallWaitDequeue(t, max, timeout) else CallTryDequeue(t, max))
      modifies clients, sema.pcs
      ensures Inv(View())
      ensures View() == Apply(old(View()), if wait then CallWaitDequeue(t, max, timeout) else CallTryDequeue(t, max))
    {
      ApplyKeepsInv(View(), if wait then CallWaitDequeue(t, max, timeout) else CallTryDequeue(t, max));
      clients[t] := Acquiring;
      sema.Call(if wait then Sema.CallWait(t, max, timeout) else Sema.CallTryWait(t, max));
    }

    /** The semaphore returns; a dequeuer then owes itself as many items as it got permits. */
    method LeaveSemaphore(t: nat) returns (owed: nat)
      requires Inv(View()) && Allowed(View(), SemaReturns(t))
      modifies clients, sema.pcs
      ensures Inv(View()) && View() == Apply(old(View()), SemaReturns(t))
      ensures owed <= inner
    {
      ApplyKeepsInv(View(), SemaReturns(t));
      owed := sema.pcs[t].got;
      clients[t] := Drain(owed);
      sema.Call(Sema.Return(t));
      if owed > 0 { RetryLoopCanFinish(View(), t); }
    }

    /** One round of the retry loop, in which the inner queue delivers `n` items. */
    method DequeueInner(t: nat, n: nat)
      requires Inv(View()) && Allowed(View(), InnerDequeue(t, n))
      modifies this`inner, this`taken, clients
      ensures Inv(View()) && View() == Apply(old(View()), InnerDequeue(t, n))
    {
      ApplyKeepsInv(View(), InnerDequeue(t, n));
      clients[t] := Drain(clients[t].owed - n);
      inner := inner - n;
      taken := taken + n;
    }
  }
}
