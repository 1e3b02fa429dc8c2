/**
 What callers of the blocking queue get: a dequeue delivers at most as many items as it was
 called for, nothing only for a reason, and no items but those of enqueues that succeeded.
 */
module BlockingQueueCalls {
  import opened BlockingQueue
  import Sema = LightweightSemaphore
  import Calls = SemaphoreCalls

  /**
   The last call of a thread, from its events: an enqueue of `n` items, or a dequeue of at most
   `max`, with the items delivered so far. `excused` says that it was not to wait for items, or
   that waiting failed or timed out.
   */
  datatype Call = NoCall | Enqueue(n: nat) | Dequeue(max: nat, got: nat, excused: bool)

  /** With its call of the semaphore. */
  datatype Ask = Ask(call: Call, sema: Calls.Call)

  function NextAsk(s: State, e: Event, t: nat, ask: Ask): Ask
    requires Allowed(s, e)
  {
    if e.t != t then ask
    else
      match e
      case CallEnqueue(_, n) => ask.(call := Enqueue(n))
      case InnerEnqueue(_, ok) =>
        if ok && ask.call.Enqueue? then ask.(sema := Calls.Signal(ask.call.n)) else ask
      case CallTryDequeue(_, max) => Ask(Dequeue(max, 0, true), Calls.TryWait(max))
      case CallWaitDequeue(_, max, timeout) => Ask(Dequeue(max, 0, false), Calls.Wait(max, timeout, timeout == Sema.Now))
      case InSema(_, ok) => ask.(sema := Calls.NextCall(s.sema, Sema.Run(t, ok), t, ask.sema))
      case SemaReturns(_) =>
        Ask(if ask.call.Dequeue? && ask.sema.Wait? then ask.call.(excused := ask.sema.missed) else ask.call, Calls.NoCall)
      case InnerDequeue(_, n) => if ask.call.Dequeue? then ask.(call := ask.call.(got := ask.call.got + n)) else ask
  }

  function LastAsk(s: State, es: seq<Event>, t: nat, ask: Ask): Ask
    requires Possible(s, es)
    decreases es
  {
    if es == [] then ask else LastAsk(Apply(s, es[0]), es[1..], t, NextAsk(s, es[0], t, ask))
  }

  /** A dequeue that is over has its items, at most as many as it wanted, or an excuse. */
  predicate Over(call: Call) {
    call.Dequeue? ==> call.got <= call.max && (call.got > 0 || call.max == 0 || call.excused)
  }

  predicate Serves(c: Client, ask: Ask) {
    match c
    case Outside => Over(ask.call)
    case Enqueuing(n) => ask.call == Enqueue(n)
    case Signalling => ask.call.Enqueue?
    case Acquiring =>
      && ask.call.Dequeue? && ask.call.got == 0
      && match ask.sema {
           case TryWait(max) => max == ask.call.max && ask.call.excused
           case Wait(max, _, _) => max == ask.call.max
           case _ => false
         }
    case Draining(owed) => ask.call.Dequeue? && owed > 0 && ask.call.got + owed <= ask.call.max
  }

  ghost predicate ThreadServes(s: State, t: nat, ask: Ask) {
    && t < |s.clients| == |s.sema.threads|
    && Serves(s.clients[t], ask) && Calls.Serves(s.sema.threads[t], ask.sema) && Calls.NowMisses(ask.sema)
  }

  lemma {:induction false} EventServes(s: State, e: Event, t: nat, ask: Ask)
    requires Inv(s) && Allowed(s, e) && ThreadServes(s, t, ask)
    ensures ThreadServes(Apply(s, e), t, NextAsk(s, e, t, ask))
  {
    if e.t == t {
      assert ClientOk(s.clients[t], s.sema.threads[t]);
      if e.InSema? {
        Calls.EventServes(s.sema, Sema.Run(t, e.ok), t, ask.sema);
      }
    }
  }

  lemma {:induction false} RunServes(s: State, es: seq<Event>, t: nat, ask: Ask)
    requires Inv(s) && Possible(s, es) && ThreadServes(s, t, ask)
    ensures ThreadServes(Exec(s, es), t, LastAsk(s, es, t, ask))
    decreases es
  {
    hide Inv, Allowed, Apply, ThreadServes;
    if es != [] {
      EventServes(s, es[0], t, ask);
      ApplyKeepsInv(s, es[0]);
      RunServes(Apply(s, es[0]), es[1..], t, NextAsk(s, es[0], t, ask));
    }
  }

  /**
   In every run a dequeue delivers at most as many items as it was called for, and what it
   still owes itself fits in. When it is over it has delivered something, unless it was not to
   wait, or waiting failed or timed out.
   */
  lemma {:induction false} DeliversWithin(maxSpins: nat, threads: nat, es: seq<Event>, t: nat)
    requires t < threads && Possible(Init(maxSpins, threads), es)
    ensures var s := Exec(Init(maxSpins, threads), es);
      var call := LastAsk(Init(maxSpins, threads), es, t, Ask(NoCall, Calls.NoCall)).call;
      && t < |s.clients|
      && (s.clients[t].Draining? ==> call.Dequeue? && call.got + s.clients[t].owed <= call.max)
      && (s.clients[t].Outside? && call.Dequeue? ==>
            call.got <= call.max && (call.got > 0 || call.max == 0 || call.excused))
  {
    InitInv(maxSpins, threads);
    RunServes(Init(maxSpins, threads), es, t, Ask(NoCall, Calls.NoCall));
  }

  // ---------------------------------------------------------------- items in and out

  /** How many items the threads' last enqueues brought, as the events of the calls gave them. */
  function Asked(e: Event, asked: map<nat, nat>): map<nat, nat> {
    if e.CallEnqueue? then asked[e.t := e.n] else asked
  }

  /** The items of the enqueues that succeed in a run. */
  function Enqueued(es: seq<Event>, asked: map<nat, nat>): nat
    decreases es
  {
    if es == [] then 0
    else
      (if es[0].InnerEnqueue? && es[0].ok && es[0].t in asked then asked[es[0].t] else 0)
      + Enqueued(es[1..], Asked(es[0], asked))
  }

  /** The items its dequeues deliver. */
  function Dequeued(es: seq<Event>): nat
    decreases es
  {
    if es == [] then 0 else (if es[0].InnerDequeue? then es[0].n else 0) + Dequeued(es[1..])
  }

  predicate Carries(s: State, asked: map<nat, nat>) {
    forall t :: 0 <= t < |s.clients| && s.clients[t].Enqueuing? ==> t in asked && asked[t] == s.clients[t].n
  }

  lemma {:induction false} ItemsAlong(s: State, es: seq<Event>, asked: map<nat, nat>)
    requires Inv(s) && Possible(s, es) && Carries(s, asked)
    ensures Exec(s, es).items == s.items + Enqueued(es, asked) - Dequeued(es)
    decreases es
  {
    if es != [] {
      assert ClientOk(s.clients[es[0].t], s.sema.threads[es[0].t]);
      EventItems(s, es[0], asked);
      ApplyKeepsInv(s, es[0]);
      ItemsAlong(Apply(s, es[0]), es[1..], Asked(es[0], asked));
    }
  }

  lemma {:induction false} EventItems(s: State, e: Event, asked: map<nat, nat>)
    requires Allowed(s, e) && Carries(s, asked)
    ensures Carries(Apply(s, e), Asked(e, asked))
    ensures Apply(s, e).items == s.items
      + (if e.InnerEnqueue? && e.ok && e.t in asked then asked[e.t] else 0) - (if e.InnerDequeue? then e.n else 0)
  {
  }

  /** The queue holds what successful enqueues were called with, less what dequeues have delivered. */
  lemma {:induction false} ItemsAreEnqueued(maxSpins: nat, threads: nat, es: seq<Event>)
    requires Possible(Init(maxSpins, threads), es)
    ensures Exec(Init(maxSpins, threads), es).items == Enqueued(es, map[]) - Dequeued(es)
  {
    InitInv(maxSpins, threads);
    ItemsAlong(Init(maxSpins, threads), es, map[]);
  }
}
