/**
 What callers of the mailbox queue get: what enqueues were called with, in the order of their
 exchanges, and, undisturbed, a dequeue that delivers the first of it.
 */
module MpscCalls {
  import opened Mailbox
  import opened MpscQueue
  import opened Optional

  // ---------------------------------------------------------------- what callers enqueued

  /** The source and the count of an enqueue, as its event gave them. */
  datatype Call = Call(source: Source, count: nat)

  /** The threads' last enqueues. */
  function Asked(e: Event, asked: map<nat, Call>): map<nat, Call> {
    if e.CallEnqueue? then asked[e.t := Call(e.source, e.count)] else asked
  }

  /** What an enqueue is to bring: the first `count` values of its source, but at least one. */
  function Brought(call: Call): seq<Value>
    requires Suffices(call.source, call.count)
  {
    seq(AtLeastOne(call.count), i requires 0 <= i < AtLeastOne(call.count) => ValueAt(call.source, i))
  }

  function Entering(e: Event, asked: map<nat, Call>): seq<Value> {
    if e.Exchange? && e.t in asked && Suffices(asked[e.t].source, asked[e.t].count) then Brought(asked[e.t]) else []
  }

  /** The values of a run in the order of the exchanges, read off the events of the calls. */
  function Brings(es: seq<Event>, asked: map<nat, Call>): seq<Value>
    decreases es
  {
    if es == [] then [] else Entering(es[0], asked) + Brings(es[1..], Asked(es[0], asked))
  }

  /** An enqueue builds its chain for what it was called with. */
  predicate Carries(s: State, asked: map<nat, Call>) {
    forall t :: 0 <= t < |s.producers| && s.producers[t].Build? ==>
      t in asked && asked[t] == Call(s.producers[t].source, s.producers[t].count)
  }

  lemma {:induction false} EventCarries(s: State, e: Event, asked: map<nat, Call>)
    requires Allowed(s, e) && Carries(s, asked)
    ensures Carries(Apply(s, e), Asked(e, asked))
  {
  }

  lemma {:induction false} EventBrings(s: State, e: Event, asked: map<nat, Call>)
    requires Inv(s) && Allowed(s, e) && Carries(s, asked)
    ensures Apply(s, e).order == s.order + Entering(e, asked)
  {
    EventHistory(s, e);
    if e.Exchange? {
      EnqueueBringsAtLeastOne(s, e.t);
      assert ProducerOk(s, e.t);
      assert s.producers[e.t].items == Brought(asked[e.t]);
    }
  }

  lemma {:induction false} OrderAlong(s: State, es: seq<Event>, asked: map<nat, Call>)
    requires Inv(s) && Possible(s, es) && Carries(s, asked)
    ensures Exec(s, es).order == s.order + Brings(es, asked)
    decreases es
  {
    hide Inv, Allowed, Apply, Carries, Entering;
    if es != [] {
      EventCarries(s, es[0], asked);
      EventBrings(s, es[0], asked);
      ApplyKeepsInv(s, es[0]);
      OrderAlong(Apply(s, es[0]), es[1..], Asked(es[0], asked));
    }
  }

  /**
   Over every run the consumer receives a prefix of what the enqueues were called with, call
   after call in the order of their exchanges, nothing twice.
   */
  lemma {:induction false} FifoOfCalls(nodes: nat, producers: nat, es: seq<Event>)
    requires nodes > 0 && Possible(Init(nodes, producers), es)
    ensures Exec(Init(nodes, producers), es).order == Brings(es, map[])
    ensures Dequeued(Init(nodes, producers), es) <= Brings(es, map[])
  {
    hide Inv, Possible, Exec, Dequeued, Brings;
    InitInv(nodes, producers);
    NobodyBuilds(nodes, producers);
    OrderAlong(Init(nodes, producers), es, map[]);
    assert Init(nodes, producers).order == [];
    FifoFromStart(nodes, producers, es);
  }

  lemma {:induction false} NobodyBuilds(nodes: nat, producers: nat)
    requires nodes > 0
    ensures Carries(Init(nodes, producers), map[])
  {
  }

  // ---------------------------------------------------------------- undisturbed calls

  /**
   Undisturbed, with the first waiting entry linked, a dequeue takes its three accesses: it
   delivers the first value, and the queue goes on with the rest.
   */
  lemma {:induction false} LoneDequeue(s: State, cached: Ptr)
    requires Inv(s) && s.consumer.Outside? && CanPop(Abs(s))
    ensures Possible(s, [CallDequeue, ConsumerLoad, ConsumerRead, ConsumerAdvance(cached)])
    ensures var z := Exec(s, [CallDequeue, ConsumerLoad, ConsumerRead, ConsumerAdvance(cached)]);
      && z.consumer.Outside? && z.order == s.order && z.base == s.base + 1 && s.base < |s.order|
      && Dequeued(s, [CallDequeue, ConsumerLoad, ConsumerRead, ConsumerAdvance(cached)]) == [s.order[s.base]]
      && z.producers == s.producers
  {
    var s1 := Apply(s, CallDequeue);
    ApplyKeepsInv(s, CallDequeue);
    RefinesMailbox(s, CallDequeue);
    TailExists(s1);
    LoadFailsIffCannotPop(s1);
    var s2 := Apply(s1, ConsumerLoad);
    ApplyKeepsInv(s1, ConsumerLoad);
    ReadExists(s2);
    var s3 := Apply(s2, ConsumerRead);
    ApplyKeepsInv(s2, ConsumerRead);
    EventHistory(s3, ConsumerAdvance(cached));
    FourEvents(s, CallDequeue, ConsumerLoad, ConsumerRead, ConsumerAdvance(cached));
  }

  lemma {:induction false} TailExists(s: State)
    requires Inv(s)
    ensures s.tail < |s.nodes|
  {
    assert SlotOk(s, s.base);
  }

  lemma {:induction false} ReadExists(s: State)
    requires Inv(s) && s.consumer.ReadValue?
    ensures s.consumer.next < |s.nodes|
  {
    assert SlotOk(s, s.base + 1);
  }

  lemma {:induction false} First(s: State, e: Event, es: seq<Event>)
    requires Allowed(s, e) && Possible(Apply(s, e), es)
    ensures Possible(s, [e] + es) && Exec(s, [e] + es) == Exec(Apply(s, e), es)
    ensures Dequeued(s, [e] + es) == (if e.ConsumerAdvance? then [s.consumer.value] else []) + Dequeued(Apply(s, e), es)
  {
    assert ([e] + es)[1..] == es;
  }

  lemma {:induction false} FourEvents(s: State, a: Event, b: Event, c: Event, d: Event)
    requires Allowed(s, a) && Allowed(Apply(s, a), b) && Allowed(Apply(Apply(s, a), b), c)
    requires Allowed(Apply(Apply(Apply(s, a), b), c), d)
    requires !a.ConsumerAdvance? && !b.ConsumerAdvance? && !c.ConsumerAdvance? && d.ConsumerAdvance?
    ensures Possible(s, [a, b, c, d]) && Exec(s, [a, b, c, d]) == Apply(Apply(Apply(Apply(s, a), b), c), d)
    ensures Dequeued(s, [a, b, c, d]) == [Apply(Apply(Apply(s, a), b), c).consumer.value]
  {
    hide Allowed, Apply;
    var s1 := Apply(s, a);
    var s2 := Apply(s1, b);
    var s3 := Apply(s2, c);
    First(s3, d, []);
    First(s2, c, [d] + []);
    First(s1, b, [c] + ([d] + []));
    First(s, a, [b] + ([c] + ([d] + [])));
    assert [a, b, c, d] == [a] + ([b] + ([c] + ([d] + [])));
  }

  /** How many accesses an enqueue has left. */
  function Work(p: Producer): int {
    match p
    case Idle => 0
    case Build(_, count, _, chain) => AtLeastOne(count) - |chain| + 2
    case Link(_, _, _) => 1
  }

  /** The next access of producer `t`, with node `n` from the pool if it needs one. */
  function NextEvent(s: State, t: nat, n: nat): Event
    requires t < |s.producers|
  {
    match s.producers[t]
    case Idle => CallDequeue
    case Build(_, count, _, chain) => if chain == [] || |chain| < count then Allocate(t, n) else Exchange(t)
    case Link(_, _, _) => StoreLink(t)
  }

  /** Every enqueue ends: given nodes from the pool, each of its accesses is possible and brings the end closer. */
  lemma {:induction false} EveryEnqueueEnds(s: State, t: nat, n: nat)
    requires Inv(s) && t < |s.producers| && !s.producers[t].Idle?
    requires n < |s.nodes| && s.nodes[n].place.Free?
    ensures var e := NextEvent(s, t, n);
      Allowed(s, e) && t < |Apply(s, e).producers| && 0 <= Work(Apply(s, e).producers[t]) < Work(s.producers[t])
  {
    assert ProducerOk(s, t);
    match s.producers[t]
    case Build(_, count, _, chain) =>
      forall i | 0 <= i < |chain| ensures chain[i] < |s.nodes| {
        assert PrivateOk(s, t, i);
      }
    case Link(last, _, k) => assert SlotOk(s, k - 1);
  }
}
