/**
 The daking multi-producer single-consumer queue at the level of its nodes: `emplace`,
 `enqueue_bulk` and `try_dequeue`, one step per access to shared memory. Nodes come from a
 pool that other threads and other queues use as well; whatever those do to pool nodes is
 allowed to happen at any time.
 */
module MpscQueue {
  import opened Mailbox
  import opened Optional

  type Value = nat

  datatype Ptr = Null | At(node: nat)

  /**
   Where a node is (auxiliary): in the pool, in use elsewhere, the i-th node of the private
   chain of producer `t`, or the k-th node ever to enter the queue.
   */
  datatype Place = Free | Away | Held(t: nat, i: nat) | Queued(k: nat)

  datatype Node = Node(next: Ptr, value: Value, place: Place)

  /** What an enqueue takes its values from: one value, over and over, or an iterator with so many elements left. */
  datatype Source = Same(v: Value) | From(elements: seq<Value>)

  /**
   A producer builds its chain of `count` nodes, or of one, exchanges the head, and stores the
   link to its first node. `items` are the values in the chain (auxiliary).
   */
  datatype Producer =
    | Idle
    | Build(source: Source, count: nat, items: seq<Value>, chain: seq<nat>)
    | Link(last: nat, first: nat, k: nat)

  datatype Consumer =
    | Outside
    | LoadNext
    | ReadValue(next: nat)
    | Advance(next: nat, value: Value)

  /**
   `head` and `tail` are the fields of the queue. The rest is auxiliary: `line` lists all
   nodes in the order they entered, `order` the values they brought (the first node is the
   initial dummy and brings none), `base` is the position of the present dummy, and
   `linker[k]` the producer that still has to link node `k`.
   */
  datatype State = State(
    head: nat,
    tail: nat,
    nodes: seq<Node>,
    producers: seq<Producer>,
    consumer: Consumer,
    line: seq<nat>,
    order: seq<Value>,
    base: nat,
    linker: seq<Option<nat>>)

  datatype Event =
    | CallEnqueue(t: nat, source: Source, count: nat)
    | Allocate(t: nat, n: nat)
    | Exchange(t: nat)
    | StoreLink(t: nat)
    | CallDequeue
    | ConsumerLoad
    | ConsumerRead
    | ConsumerAdvance(cached: Ptr)
    | Scribble(n: nat, next: Ptr, value: Value)
    | TakeAway(n: nat)
    | GiveBack(n: nat)

  // ---------------------------------------------------------------- the steps

  function SetNext(s: State, n: nat, p: Ptr): State
    requires n < |s.nodes|
  {
    s.(nodes := s.nodes[n := s.nodes[n].(next := p)])
  }

  function SetPlace(s: State, n: nat, p: Place): State
    requires n < |s.nodes|
  {
    s.(nodes := s.nodes[n := s.nodes[n].(place := p)])
  }

  /** The iterator stands on an element for every node, also for the one that is built in any case. */
  predicate Suffices(source: Source, count: nat) {
    source.From? ==> count <= |source.elements| && source.elements != []
  }

  /** The i-th value taken from the source. */
  function ValueAt(source: Source, i: nat): Value
    requires source.From? ==> i < |source.elements|
  {
    match source
    case Same(v) => v
    case From(elements) => elements[i]
  }

  predicate Producing(s: State, t: nat) {
    t < |s.producers|
  }

  /** When an event can happen. Only pool nodes are allocated, and only nodes outside the queue are disturbed. */
  predicate Allowed(s: State, e: Event) {
    match e
    case CallEnqueue(t, source, count) => Producing(s, t) && s.producers[t].Idle? && Suffices(source, count)
    case Allocate(t, n) =>
      && Producing(s, t) && s.producers[t].Build?
      && (s.producers[t].chain == [] || |s.producers[t].chain| < s.producers[t].count)
      && (s.producers[t].source.From? ==> |s.producers[t].chain| < |s.producers[t].source.elements|)
      && n < |s.nodes| && s.nodes[n].place.Free?
      && (s.producers[t].chain != [] ==> s.producers[t].chain[|s.producers[t].chain| - 1] < |s.nodes|)
    case Exchange(t) =>
      && Producing(s, t) && s.producers[t].Build? && |s.producers[t].chain| > 0 && |s.producers[t].chain| >= s.producers[t].count
      && (forall i :: 0 <= i < |s.producers[t].chain| ==> s.producers[t].chain[i] < |s.nodes|)
    case StoreLink(t) =>
      Producing(s, t) && s.producers[t].Link? && s.producers[t].last < |s.nodes| && s.producers[t].k < |s.linker|
    case CallDequeue => s.consumer.Outside?
    case ConsumerLoad => s.consumer.LoadNext? && s.tail < |s.nodes|
    case ConsumerRead => s.consumer.ReadValue? && s.consumer.next < |s.nodes|
    case ConsumerAdvance(_) => s.consumer.Advance? && s.tail < |s.nodes|
    case Scribble(n, _, _) => n < |s.nodes| && (s.nodes[n].place.Free? || s.nodes[n].place.Away?)
    case TakeAway(n) => n < |s.nodes| && s.nodes[n].place.Free?
    case GiveBack(n) => n < |s.nodes| && s.nodes[n].place.Away?
  }

  /** The private nodes of producer `t` take their places in the queue from position `k` on. */
  function Enter(nodes: seq<Node>, t: nat, k: nat): seq<Node> {
    seq(|nodes|, n requires 0 <= n < |nodes| =>
      var p := nodes[n].place;
      if p.Held? && p.t == t then nodes[n].(place := Queued(k + p.i)) else nodes[n])
  }

  function Apply(s: State, e: Event): State
    requires Allowed(s, e)
  {
    match e
    case CallEnqueue(t, source, count) => s.(producers := s.producers[t := Build(source, count, [], [])])
    case Allocate(t, n) =>
      var Build(source, count, items, chain) := s.producers[t];
      var v := ValueAt(source, |chain|);
      var s1 := s.(nodes := s.nodes[n := Node(Null, v, Held(t, |chain|))]);
      var s2 := if chain == [] then s1 else SetNext(s1, chain[|chain| - 1], At(n));
      s2.(producers := s.producers[t := Build(source, count, items + [v], chain + [n])])
    case Exchange(t) =>
      var Build(_, _, items, chain) := s.producers[t];
      s.(head := chain[|chain| - 1],
         nodes := Enter(s.nodes, t, |s.line|),
         producers := s.producers[t := Link(s.head, chain[0], |s.line|)],
         line := s.line + chain,
         order := s.order + items,
         linker := s.linker + [Some(t)] + seq(|chain| - 1, _ => None))
    case StoreLink(t) =>
      var Link(last, first, k) := s.producers[t];
      SetNext(s, last, At(first)).(producers := s.producers[t := Idle], linker := s.linker[k := None])
    case CallDequeue => s.(consumer := LoadNext)
    case ConsumerLoad =>
      match s.nodes[s.tail].next {
        case Null => s.(consumer := Outside)
        case At(n) => s.(consumer := ReadValue(n))
      }
    case ConsumerRead => s.(consumer := Advance(s.consumer.next, s.nodes[s.consumer.next].value))
    case ConsumerAdvance(cached) =>
      SetPlace(SetNext(s, s.tail, cached), s.tail, Free).(tail := s.consumer.next, base := s.base + 1, consumer := Outside)
    case Scribble(n, p, v) => s.(nodes := s.nodes[n := Node(p, v, s.nodes[n].place)])
    case TakeAway(n) => SetPlace(s, n, Away)
    case GiveBack(n) => SetPlace(s, n, Free)
  }

  // ---------------------------------------------------------------- the invariant

  /** The node at position `k` is in place and brings the value enqueued there. */
  predicate SlotOk(s: State, k: nat) {
    && k < |s.line| && s.line[k] < |s.nodes|
    && s.nodes[s.line[k]].place == Queued(k)
    && (k > s.base ==> 0 < k <= |s.order| && s.nodes[s.line[k]].value == s.order[k - 1])
  }

  /** The link to the node at position `k` is stored, or its producer is in flight. */
  predicate EdgeOk(s: State, k: nat) {
    && 0 < k < |s.line| && k < |s.linker| && s.line[k - 1] < |s.nodes|
    && match s.linker[k] {
         case None => s.nodes[s.line[k - 1]].next == At(s.line[k])
         case Some(t) =>
           && s.nodes[s.line[k - 1]].next == Null
           && t < |s.producers| && s.producers[t] == Link(s.line[k - 1], s.line[k], k)
       }
  }

  predicate NodeOk(s: State, n: nat) {
    && n < |s.nodes|
    && match s.nodes[n].place {
         case Queued(k) => s.base <= k < |s.line| && s.line[k] == n
         case Held(t, i) =>
           t < |s.producers| && s.producers[t].Build? && i < |s.producers[t].chain| && s.producers[t].chain[i] == n
         case _ => true
       }
  }

  function PtrAt(chain: seq<nat>, i: nat): Ptr {
    if i < |chain| then At(chain[i]) else Null
  }

  /** The i-th private node of producer `t` is its own, filled, and linked to the next one. */
  predicate PrivateOk(s: State, t: nat, i: nat) {
    && t < |s.producers| && s.producers[t].Build?
    && i < |s.producers[t].chain| == |s.producers[t].items|
    && var n := s.producers[t].chain[i];
       n < |s.nodes| && s.nodes[n] == Node(PtrAt(s.producers[t].chain, i + 1), s.producers[t].items[i], Held(t, i))
  }

  function AtLeastOne(count: nat): nat { if count == 0 then 1 else count }

  /** The first values of the source, in order. */
  predicate Taken(source: Source, items: seq<Value>) {
    && (source.From? ==> |items| <= |source.elements|)
    && (forall i :: 0 <= i < |items| ==> items[i] == ValueAt(source, i))
  }

  ghost predicate ProducerOk(s: State, t: nat) {
    && t < |s.producers|
    && match s.producers[t] {
         case Idle => true
         case Build(source, count, items, chain) =>
           && Suffices(source, count) && Taken(source, items) && |chain| == |items| <= AtLeastOne(count)
           && (forall i :: 0 <= i < |chain| ==> PrivateOk(s, t, i))
         case Link(last, first, k) =>
           s.base < k < |s.line| && |s.linker| == |s.line| && s.linker[k] == Some(t)
           && s.line[k - 1] == last && s.line[k] == first
       }
  }

  predicate ConsumerOk(s: State) {
    match s.consumer
    case Outside => true
    case LoadNext => true
    case ReadValue(n) => s.base + 1 < |s.line| == |s.linker| && s.linker[s.base + 1] == None && s.line[s.base + 1] == n
    case Advance(n, v) =>
      s.base + 1 < |s.line| == |s.linker| && s.linker[s.base + 1] == None && s.line[s.base + 1] == n
      && s.base < |s.order| && s.order[s.base] == v
  }

  ghost predicate Inv(s: State) {
    && |s.linker| == |s.line| == |s.order| + 1
    && s.base < |s.line|
    && s.tail == s.line[s.base] && s.head == s.line[|s.line| - 1]
    && (s.head < |s.nodes| && s.nodes[s.head].next == Null)
    && (forall k :: s.base <= k < |s.line| ==> SlotOk(s, k))
    && (forall k :: s.base < k < |s.line| ==> EdgeOk(s, k))
    && (forall k :: 0 <= k <= s.base ==> s.linker[k] == None)
    && (forall n :: 0 <= n < |s.nodes| ==> NodeOk(s, n))
    && (forall t :: 0 <= t < |s.producers| ==> ProducerOk(s, t))
    && ConsumerOk(s)
  }

  // ---------------------------------------------------------------- every event keeps it

  /** Positions, places and links survive a change of nodes that are neither queued nor private. */
  lemma {:induction false} OutsideKeepsInv(s: State, n: nat, x: Node)
    requires Inv(s) && n < |s.nodes| && !s.nodes[n].place.Queued? && !s.nodes[n].place.Held?
    requires !x.place.Queued? && !x.place.Held?
    ensures Inv(s.(nodes := s.nodes[n := x]))
  {
    var s' := s.(nodes := s.nodes[n := x]);
    forall k | s.base <= k < |s.line| ensures SlotOk(s', k) { assert SlotOk(s, k); }
    forall k | s.base < k < |s.line| ensures EdgeOk(s', k) { assert EdgeOk(s, k) && SlotOk(s, k - 1); }
    forall m | 0 <= m < |s.nodes| ensures NodeOk(s', m) { assert NodeOk(s, m); }
    forall t | 0 <= t < |s.producers| ensures ProducerOk(s', t) {
      assert ProducerOk(s, t);
      if s.producers[t].Build? {
        forall i | 0 <= i < |s.producers[t].chain| ensures PrivateOk(s', t, i) { assert PrivateOk(s, t, i); }
      }
    }
    assert SlotOk(s, |s.line| - 1);
  }

  lemma {:induction false} CallEnqueueKeepsInv(s: State, t: nat, source: Source, count: nat)
    requires Inv(s) && Allowed(s, CallEnqueue(t, source, count))
    ensures Inv(Apply(s, CallEnqueue(t, source, count)))
  {
    var s' := Apply(s, CallEnqueue(t, source, count));
    forall k | s.base <= k < |s.line| ensures SlotOk(s', k) { assert SlotOk(s, k); }
    forall k | s.base < k < |s.line| ensures EdgeOk(s', k) { assert EdgeOk(s, k); }
    forall m | 0 <= m < |s.nodes| ensures NodeOk(s', m) { assert NodeOk(s, m); }
    forall u | 0 <= u < |s.producers| ensures ProducerOk(s', u) {
      assert ProducerOk(s, u);
      if u != t && s.producers[u].Build? {
        forall i | 0 <= i < |s.producers[u].chain| ensures PrivateOk(s', u, i) { assert PrivateOk(s, u, i); }
      }
    }
  }

  lemma {:induction false} AllocateKeepsInv(s: State, t: nat, n: nat)
    requires Inv(s) && Allowed(s, Allocate(t, n))
    ensures Inv(Apply(s, Allocate(t, n)))
  {
    hide SlotOk, EdgeOk;
    var s' := Apply(s, Allocate(t, n));
    var chain := s.producers[t].chain;
    assert ProducerOk(s, t);
    if chain != [] { assert PrivateOk(s, t, |chain| - 1); }
    AllocateKeepsLine(s, t, n);
    forall m | 0 <= m < |s.nodes| ensures NodeOk(s', m) { assert NodeOk(s, m); }
    forall u | 0 <= u < |s.producers| ensures ProducerOk(s', u) {
      assert ProducerOk(s, u);
      if s'.producers[u].Build? {
        forall i | 0 <= i < |s'.producers[u].chain| ensures PrivateOk(s', u, i) {
          if i < |s.producers[u].chain| { assert PrivateOk(s, u, i); }
        }
      }
    }
  }

  lemma {:induction false} AllocateKeepsLine(s: State, t: nat, n: nat)
    requires Inv(s) && Allowed(s, Allocate(t, n))
    ensures var s' := Apply(s, Allocate(t, n));
      && (forall k :: s.base <= k < |s.line| ==> SlotOk(s', k))
      && (forall k :: s.base < k < |s.line| ==> EdgeOk(s', k))
      && s.head < |s'.nodes| && s'.nodes[s.head].next == Null
  {
    hide NodeOk, ConsumerOk;
    var s' := Apply(s, Allocate(t, n));
    var chain := s.producers[t].chain;
    assert ProducerOk(s, t);
    if chain != [] { assert PrivateOk(s, t, |chain| - 1); }
    forall k | s.base <= k < |s.line| ensures SlotOk(s', k) { assert SlotOk(s, k); }
    forall k | s.base < k < |s.line| ensures EdgeOk(s', k) { assert EdgeOk(s, k) && SlotOk(s, k - 1); }
    assert SlotOk(s, |s.line| - 1);
  }

  lemma {:induction false} ExchangeKeepsSlots(s: State, t: nat)
    requires Inv(s) && Allowed(s, Exchange(t))
    ensures var s' := Apply(s, Exchange(t));
      && |s'.linker| == |s'.line| == |s'.order| + 1
      && s'.nodes[s'.head].next == Null
      && (forall k :: s'.base <= k < |s'.line| ==> SlotOk(s', k))
  {
    var s' := Apply(s, Exchange(t));
    var chain := s.producers[t].chain;
    assert ProducerOk(s, t);
    forall k | s.base <= k < |s'.line| ensures SlotOk(s', k) {
      if k < |s.line| {
        assert SlotOk(s, k);
      } else {
        assert PrivateOk(s, t, k - |s.line|);
      }
    }
    assert PrivateOk(s, t, |chain| - 1);
  }

  lemma {:induction false} ExchangeKeepsEdges(s: State, t: nat)
    requires Inv(s) && Allowed(s, Exchange(t))
    ensures var s' := Apply(s, Exchange(t)); forall k :: s'.base < k < |s'.line| ==> EdgeOk(s', k)
  {
    var s' := Apply(s, Exchange(t));
    assert ProducerOk(s, t);
    forall k | s.base < k < |s'.line| ensures EdgeOk(s', k) {
      if k < |s.line| {
        assert EdgeOk(s, k) && SlotOk(s, k - 1);
      } else if k == |s.line| {
        assert SlotOk(s, k - 1);
      } else {
        assert PrivateOk(s, t, k - 1 - |s.line|);
      }
    }
  }

  lemma {:induction false} ExchangeKeepsOwners(s: State, t: nat)
    requires Inv(s) && Allowed(s, Exchange(t))
    ensures var s' := Apply(s, Exchange(t));
      && (forall n :: 0 <= n < |s'.nodes| ==> NodeOk(s', n))
      && (forall u :: 0 <= u < |s'.producers| ==> ProducerOk(s', u))
  {
    var s' := Apply(s, Exchange(t));
    assert ProducerOk(s, t);
    forall n | 0 <= n < |s.nodes| ensures NodeOk(s', n) {
      assert NodeOk(s, n);
    }
    forall u | 0 <= u < |s.producers| ensures ProducerOk(s', u) {
      assert ProducerOk(s, u);
      if u != t && s.producers[u].Build? {
        forall i | 0 <= i < |s.producers[u].chain| ensures PrivateOk(s', u, i) { assert PrivateOk(s, u, i); }
      }
    }
  }

  lemma {:induction false} StoreLinkKeepsInv(s: State, t: nat)
    requires Inv(s) && Allowed(s, StoreLink(t))
    ensures Inv(Apply(s, StoreLink(t)))
  {
    hide SlotOk, EdgeOk;
    var s' := Apply(s, StoreLink(t));
    assert ProducerOk(s, t);
    StoreLinkKeepsLine(s, t);
    forall m | 0 <= m < |s.nodes| ensures NodeOk(s', m) { assert NodeOk(s, m); }
    forall u | 0 <= u < |s.producers| ensures ProducerOk(s', u) {
      assert ProducerOk(s, u);
      if s.producers[u].Build? {
        forall i | 0 <= i < |s.producers[u].chain| ensures PrivateOk(s', u, i) { assert PrivateOk(s, u, i); }
      }
    }
  }

  lemma {:induction false} StoreLinkKeepsLine(s: State, t: nat)
    requires Inv(s) && Allowed(s, StoreLink(t))
    ensures var s' := Apply(s, StoreLink(t));
      && (forall k :: s.base <= k < |s.line| ==> SlotOk(s', k))
      && (forall k :: s.base < k < |s.line| ==> EdgeOk(s', k))
      && s.head < |s'.nodes| && s'.nodes[s.head].next == Null
      && s.nodes[s.producers[t].last].place.Queued?
  {
    hide NodeOk, PrivateOk;
    var s', at := Apply(s, StoreLink(t)), s.producers[t].k;
    assert ProducerOk(s, t) && SlotOk(s, at - 1) && SlotOk(s, |s.line| - 1);
    forall k | s.base <= k < |s.line| ensures SlotOk(s', k) { assert SlotOk(s, k); }
    forall k | s.base < k < |s.line| ensures EdgeOk(s', k) { assert EdgeOk(s, k) && SlotOk(s, k - 1); }
  }

  /** A consumer in the middle of a dequeue changes nothing but its own position. */
  lemma {:induction false} ConsumerKeepsInv(s: State, c: Consumer)
    requires Inv(s) && ConsumerOk(s.(consumer := c))
    ensures Inv(s.(consumer := c))
  {
    var s' := s.(consumer := c);
    forall k | s.base <= k < |s.line| ensures SlotOk(s', k) { assert SlotOk(s, k); }
    forall k | s.base < k < |s.line| ensures EdgeOk(s', k) { assert EdgeOk(s, k); }
    forall m | 0 <= m < |s.nodes| ensures NodeOk(s', m) { assert NodeOk(s, m); }
    forall u | 0 <= u < |s.producers| ensures ProducerOk(s', u) {
      assert ProducerOk(s, u);
      if s.producers[u].Build? {
        forall i | 0 <= i < |s.producers[u].chain| ensures PrivateOk(s', u, i) { assert PrivateOk(s, u, i); }
      }
    }
  }

  /** The old dummy goes back to the pool: no producer still has its link to store. */
  lemma {:induction false} AdvanceKeepsInv(s: State, cached: Ptr)
    requires Inv(s) && Allowed(s, ConsumerAdvance(cached))
    ensures Inv(Apply(s, ConsumerAdvance(cached)))
  {
    var s' := Apply(s, ConsumerAdvance(cached));
    assert SlotOk(s, s.base) && SlotOk(s, |s.line| - 1);
    forall k | s'.base <= k < |s.line| ensures SlotOk(s', k) { assert SlotOk(s, k); }
    forall k | s'.base < k < |s.line| ensures EdgeOk(s', k) { assert EdgeOk(s, k) && SlotOk(s, k - 1); }
    forall m | 0 <= m < |s.nodes| ensures NodeOk(s', m) { assert NodeOk(s, m); }
    forall u | 0 <= u < |s.producers| ensures ProducerOk(s', u) {
      assert ProducerOk(s, u);
      if s.producers[u].Build? {
        forall i | 0 <= i < |s.producers[u].chain| ensures PrivateOk(s', u, i) { assert PrivateOk(s, u, i); }
      }
    }
  }

  lemma {:induction false} ConsumerSees(s: State, e: Event)
    requires Inv(s) && Allowed(s, e) && (e.ConsumerLoad? || e.ConsumerRead?)
    ensures ConsumerOk(s.(consumer := Apply(s, e).consumer)) && Apply(s, e) == s.(consumer := Apply(s, e).consumer)
  {
    if e.ConsumerLoad? {
      if s.base + 1 < |s.line| { assert EdgeOk(s, s.base + 1); }
    } else {
      assert SlotOk(s, s.base + 1);
    }
  }

  lemma {:induction false} ApplyKeepsInv(s: State, e: Event)
    requires Inv(s) && Allowed(s, e)
    ensures Inv(Apply(s, e))
  {
    hide NodeOk, SlotOk, PrivateOk;
    match e
    case CallEnqueue(t, source, count) => CallEnqueueKeepsInv(s, t, source, count);
    case Allocate(t, n) => AllocateKeepsInv(s, t, n);
    case Exchange(t) =>
      ExchangeKeepsSlots(s, t);
      ExchangeKeepsEdges(s, t);
      ExchangeKeepsOwners(s, t);
      assert ProducerOk(s, t);
    case StoreLink(t) => StoreLinkKeepsInv(s, t);
    case CallDequeue => ConsumerKeepsInv(s, LoadNext);
    case ConsumerLoad =>
      ConsumerSees(s, e);
      ConsumerKeepsInv(s, Apply(s, e).consumer);
    case ConsumerRead =>
      ConsumerSees(s, e);
      ConsumerKeepsInv(s, Apply(s, e).consumer);
    case ConsumerAdvance(cached) => AdvanceKeepsInv(s, cached);
    case Scribble(n, p, v) => OutsideKeepsInv(s, n, Node(p, v, s.nodes[n].place));
    case TakeAway(n) => OutsideKeepsInv(s, n, s.nodes[n].(place := Away));
    case GiveBack(n) => OutsideKeepsInv(s, n, s.nodes[n].(place := Free));
  }

  // ---------------------------------------------------------------- runs

  /** A new queue: one node, taken from the pool, is the dummy; every other node is in the pool. */
  function Init(nodes: nat, producers: nat): State
    requires nodes > 0
  {
    State(0, 0, seq(nodes, n => Node(Null, 0, if n == 0 then Queued(0) else Free)), seq(producers, _ => Idle), Outside,
          [0], [], 0, [None])
  }

  predicate Possible(s: State, es: seq<Event>)
    decreases es
  {
    es == [] || (Allowed(s, es[0]) && Possible(Apply(s, es[0]), es[1..]))
  }

  function Exec(s: State, es: seq<Event>): State
    requires Possible(s, es)
    decreases es
  {
    if es == [] then s else Exec(Apply(s, es[0]), es[1..])
  }

  lemma {:induction false} InitInv(nodes: nat, producers: nat)
    requires nodes > 0
    ensures Inv(Init(nodes, producers))
  {
    var s := Init(nodes, producers);
    assert SlotOk(s, 0);
    forall n | 0 <= n < nodes ensures NodeOk(s, n) {}
    forall t | 0 <= t < producers ensures ProducerOk(s, t) {}
  }

  lemma {:induction false} ReachableInv(s: State, es: seq<Event>)
    requires Inv(s) && Possible(s, es)
    ensures Inv(Exec(s, es))
    decreases es
  {
    if es != [] {
      ApplyKeepsInv(s, es[0]);
      ReachableInv(Apply(s, es[0]), es[1..]);
    }
  }

  /** The values handed to the consumer in a run, in order. */
  function Dequeued(s: State, es: seq<Event>): seq<Value>
    requires Possible(s, es)
    decreases es
  {
    if es == [] then []
    else (if es[0].ConsumerAdvance? then [s.consumer.value] else []) + Dequeued(Apply(s, es[0]), es[1..])
  }

  /** The values in the order of the exchanges of a run: each producer's items stay together. */
  function Enqueued(s: State, es: seq<Event>): seq<Value>
    requires Possible(s, es)
    decreases es
  {
    if es == [] then []
    else (if es[0].Exchange? then s.producers[es[0].t].items else []) + Enqueued(Apply(s, es[0]), es[1..])
  }

  // ---------------------------------------------------------------- what the queue promises

  /** The queue as its clients see it. */
  function Abs(s: State): Box<Value>
    requires s.linker != []
  {
    Box(s.order, s.linker[1..], s.base)
  }

  /** A bulk exchange: the items go in together, and only the link to the first is missing. */
  function ExchangeAll(b: Box<Value>, items: seq<Value>, t: nat): Box<Value>
    requires items != []
  {
    b.(order := b.order + items, linker := b.linker + [Some(t)] + seq(|items| - 1, _ => None))
  }

  /**
   Every access is an access of the abstract mailbox, or is invisible there: the exchange
   fixes the order, the store of the link makes an entry reachable, the advance removes the
   first entry and delivers its value.
   */
  lemma {:induction false} RefinesMailbox(s: State, e: Event)
    requires Inv(s) && Allowed(s, e)
    ensures Shape(Abs(s))
    ensures e.Exchange? ==>
      s.producers[e.t].items != [] && Abs(Apply(s, e)) == ExchangeAll(Abs(s), s.producers[e.t].items, e.t)
    ensures e.Exchange? && |s.producers[e.t].items| == 1 ==>
      Abs(Apply(s, e)) == Mailbox.Exchange(Abs(s), s.producers[e.t].items[0], e.t)
    ensures e.StoreLink? ==>
      0 < s.producers[e.t].k <= |Abs(s).linker| && Abs(s).linker[s.producers[e.t].k - 1] == Some(e.t)
      && Abs(Apply(s, e)) == LinkUp(Abs(s), s.producers[e.t].k - 1)
    ensures e.ConsumerAdvance? ==>
      CanPop(Abs(s)) && Abs(Apply(s, e)) == Pop(Abs(s)) && s.consumer.value == Abs(s).order[Abs(s).popped]
    ensures !e.Exchange? && !e.StoreLink? && !e.ConsumerAdvance? ==> Abs(Apply(s, e)) == Abs(s)
  {
    forall i | 0 <= i < s.base ensures Abs(s).linker[i] == None {
      assert s.linker[i + 1] == None;
    }
    match e
    case Exchange(t) =>
      assert ProducerOk(s, t);
      var items := s.producers[t].items;
      assert (s.linker + [Some(t)] + seq(|items| - 1, _ => None))[1..] == s.linker[1..] + [Some(t)] + seq(|items| - 1, _ => None);
    case StoreLink(t) =>
      assert ProducerOk(s, t);
      var k := s.producers[t].k;
      assert s.linker[k := None][1..] == s.linker[1..][k - 1 := None];
    case _ =>
  }

  /**
   What one enqueue brings: the first `count` values of its source, or the first one if `count`
   is zero, in order, next to each other, on the nodes of its chain.
   */
  lemma {:induction false} EnqueueBringsAtLeastOne(s: State, t: nat)
    requires Inv(s) && Allowed(s, Exchange(t))
    ensures var Build(source, count, items, chain) := s.producers[t]; var s' := Apply(s, Exchange(t));
      && |items| == |chain| == AtLeastOne(count) && Taken(source, items)
      && s'.order == s.order + items && s'.line == s.line + chain
      && (forall i :: 0 <= i < |chain| ==>
            s'.line[|s.line| + i] < |s'.nodes| && s'.nodes[s'.line[|s.line| + i]].value == ValueAt(source, i))
  {
    assert ProducerOk(s, t);
    var s', chain := Apply(s, Exchange(t)), s.producers[t].chain;
    forall i | 0 <= i < |chain|
      ensures s'.line[|s.line| + i] < |s'.nodes|
      ensures s'.nodes[s'.line[|s.line| + i]].value == ValueAt(s.producers[t].source, i)
    {
      assert PrivateOk(s, t, i);
    }
  }

  /** `try_dequeue` fails exactly when the abstract mailbox has nothing to pop. */
  lemma {:induction false} LoadFailsIffCannotPop(s: State)
    requires Inv(s) && Allowed(s, ConsumerLoad)
    ensures Apply(s, ConsumerLoad).consumer.Outside? <==> !CanPop(Abs(s))
  {
    if s.base + 1 < |s.line| {
      assert EdgeOk(s, s.base + 1);
    }
  }

  /** A missing link belongs to exactly one producer, which is about to store it, between the right nodes. */
  lemma {:induction false} MissingLinkHasOneProducer(s: State, k: nat)
    requires Inv(s) && s.base < k < |s.line| && s.linker[k].Some?
    ensures var t := s.linker[k].value;
      && t < |s.producers| && s.producers[t] == Link(s.line[k - 1], s.line[k], k)
      && s.line[k - 1] < |s.nodes|
      && s.nodes[s.line[k - 1]].next == Null
      && forall u :: 0 <= u < |s.producers| && s.producers[u].Link? && s.producers[u].k == k ==> u == t
  {
    assert EdgeOk(s, k) && SlotOk(s, k - 1);
    forall u | 0 <= u < |s.producers| && s.producers[u].Link? && s.producers[u].k == k ensures u == s.linker[k].value {
      assert ProducerOk(s, u);
    }
  }

  /** With no producer between its exchange and its link, the first waiting node is linked. */
  lemma {:induction false} QuietQueueIsLinked(s: State)
    requires Inv(s) && s.base + 1 < |s.line|
    requires forall t :: 0 <= t < |s.producers| ==> !s.producers[t].Link?
    ensures s.tail < |s.nodes| && s.nodes[s.tail].next == At(s.line[s.base + 1])
  {
    assert EdgeOk(s, s.base + 1);
  }

  /** With no producer between its exchange and its link, `try_dequeue` fails only on an empty queue. */
  lemma {:induction false} FailureMeansEmpty(s: State)
    requires Inv(s) && Allowed(s, ConsumerLoad)
    requires forall t :: 0 <= t < |s.producers| ==> !s.producers[t].Link?
    ensures Shape(Abs(s)) && (Apply(s, ConsumerLoad).consumer.Outside? <==> Waiting(Abs(s)) == [])
  {
    RefinesMailbox(s, ConsumerLoad);
    LoadFailsIffCannotPop(s);
    if s.base + 1 < |s.line| {
      QuietQueueIsLinked(s);
    }
  }

  /** A node that leaves the queue is one that no producer will write to and no other position uses. */
  lemma {:induction false} FreedNodeIsUnreferenced(s: State, cached: Ptr)
    requires Inv(s) && Allowed(s, ConsumerAdvance(cached))
    ensures var s' := Apply(s, ConsumerAdvance(cached));
      && s.tail != s'.head && s.tail != s'.tail
      && (forall t :: 0 <= t < |s'.producers| && s'.producers[t].Link? ==> s'.producers[t].last != s.tail)
      && (forall k :: s'.base <= k < |s'.line| ==> s'.line[k] != s.tail)
  {
    var s' := Apply(s, ConsumerAdvance(cached));
    AdvanceKeepsInv(s, cached);
    forall k | s'.base <= k < |s'.line| ensures s'.line[k] != s.tail { assert SlotOk(s', k); }
    forall t | 0 <= t < |s'.producers| && s'.producers[t].Link? ensures s'.producers[t].last != s.tail {
      assert ProducerOk(s', t) && SlotOk(s', s'.producers[t].k - 1);
    }
  }

  lemma {:induction false} EventHistory(s: State, e: Event)
    requires Inv(s) && Allowed(s, e)
    ensures var s' := Apply(s, e);
      && s'.order == s.order + (if e.Exchange? then s.producers[e.t].items else [])
      && s'.base == s.base + (if e.ConsumerAdvance? then 1 else 0)
      && (e.ConsumerAdvance? ==> s.base < |s.order| && s.consumer.value == s.order[s.base])
  {
  }

  lemma {:induction false} RunHistory(s: State, es: seq<Event>)
    requires Inv(s) && Possible(s, es)
    ensures var s' := Exec(s, es);
      && s'.order == s.order + Enqueued(s, es)
      && s.base <= s'.base <= |s'.order|
      && Dequeued(s, es) == s'.order[s.base..s'.base]
    decreases es
  {
    hide SlotOk, EdgeOk, NodeOk, ProducerOk, ConsumerOk, Allowed, Apply;
    if es != [] {
      var e, s1 := es[0], Apply(s, es[0]);
      ApplyKeepsInv(s, e);
      EventHistory(s, e);
      RunHistory(s1, es[1..]);
      var s' := Exec(s, es);
      assert s1.order <= s'.order;
      if e.ConsumerAdvance? {
        assert s'.order[s.base..s'.base] == [s'.order[s.base]] + s'.order[s1.base..s'.base];
      }
    }
  }

  /** Over every run the consumer receives a prefix of what was enqueued, in exchange order, nothing twice. */
  lemma {:induction false} FifoFromStart(nodes: nat, producers: nat, es: seq<Event>)
    requires nodes > 0 && Possible(Init(nodes, producers), es)
    ensures Dequeued(Init(nodes, producers), es) <= Enqueued(Init(nodes, producers), es)
    ensures Exec(Init(nodes, producers), es).order == Enqueued(Init(nodes, producers), es)
  {
    hide Inv, Possible, Exec, Enqueued, Dequeued;
    InitInv(nodes, producers);
    assert Init(nodes, producers).order == [];
    RunHistory(Init(nodes, producers), es);
  }

  // ---------------------------------------------------------------- the code

  function NodesOf(next: seq<Ptr>, values: seq<Value>, place: seq<Place>): seq<Node>
    requires |next| == |values| == |place|
  {
    seq(|next|, n requires 0 <= n < |next| => Node(next[n], values[n], place[n]))
  }

  /** The places after producer `t` enters its chain from position `k` on. */
  function Promote(place: seq<Place>, t: nat, k: nat): seq<Place> {
    seq(|place|, n requires 0 <= n < |place| =>
      if place[n].Held? && place[n].t == t then Queued(k + place[n].i) else place[n])
  }

  lemma {:induction false} EnterPlaces(next: seq<Ptr>, values: seq<Value>, place: seq<Place>, t: nat, k: nat)
    requires |next| == |values| == |place|
    ensures NodesOf(next, values, Promote(place, t, k)) == Enter(NodesOf(next, values, place), t, k)
  {
  }

  /**
   The queue with its two ends, the link and value of every node, and for every thread the
   point its call has reached. Each method performs one access, or starts a call.
   */
  class Queue {
    var head: nat
    var tail: nat
    const next: array<Ptr>
    const values: array<Value>
    const producers: array<Producer>
    var consumer: Consumer
    var entered: nat  // auxiliary: how many nodes have entered the queue

    ghost var place: seq<Place>
    ghost var line: seq<nat>
    ghost var order: seq<Value>
    ghost var base: nat
    ghost var linker: seq<Option<nat>>

    ghost predicate Sized()
      reads this
    {
      next.Length == values.Length == |place| && entered == |line|
    }

    ghost function View(): State
      requires Sized()
      reads this, next, values, producers
    {
      State(head, tail, NodesOf(next[..], values[..], place), producers[..], consumer, line, order, base, linker)
    }

    ghost predicate Valid()
      reads this, next, values, producers
    {
      Sized() && Inv(View())
    }

    constructor (nodeCount: nat, producerCount: nat)
      requires nodeCount > 0
      ensures Valid() && View() == Init(nodeCount, producerCount)
      ensures fresh(next) && fresh(values) && fresh(producers)
    {
      head, tail := 0, 0;
      next := new Ptr[nodeCount](_ => Null);
      values := new Value[nodeCount](_ => 0);
      producers := new Producer[producerCount](_ => Idle);
      consumer := Outside;
      entered := 1;
      place := seq(nodeCount, n => if n == 0 then Queued(0) else Free);
      line, order, base, linker := [0], [], 0, [None];
      new;
      assert View().nodes == Init(nodeCount, producerCount).nodes;
      assert producers[..] == seq(producerCount, _ => Idle);
      InitInv(nodeCount, producerCount);
    }

    /** Starts `emplace`, with a count of one, or one of the forms of `enqueue_bulk`. */
    method Enqueue(t: nat, source: Source, count: nat)
      requires Valid() && Allowed(View(), CallEnqueue(t, source, count))
      modifies producers
      ensures Valid() && View() == Apply(old(View()), CallEnqueue(t, source, count))
    {
      ApplyKeepsInv(View(), CallEnqueue(t, source, count));
      producers[t] := Build(source, count, [], []);
    }

    /** One round of the building loop: a node from the pool is filled and linked behind the previous one. */
    method AllocateNode(t: nat, n: nat)
      requires Valid() && Allowed(View(), Allocate(t, n))
      modifies this`place, next, values, producers
      ensures Valid() && View() == Apply(old(View()), Allocate(t, n))
    {
      hide Inv;
      ApplyKeepsInv(View(), Allocate(t, n));
      var Build(source, count, items, chain) := producers[t];
      next[n] := Null;
      values[n] := ValueAt(source, |chain|);
      if chain != [] {
        next[chain[|chain| - 1]] := At(n);
      }
      place := place[n := Held(t, |chain|)];
      producers[t] := Build(source, count, items + [ValueAt(source, |chain|)], chain + [n]);
      assert View().nodes == Apply(old(View()), Allocate(t, n)).nodes;
    }

    /** `head_.exchange`. */
    method ExchangeHead(t: nat)
      requires Valid() && Allowed(View(), Exchange(t))
      modifies this`head, this`entered, this`place, this`line, this`order, this`linker, producers
      ensures Valid() && View() == Apply(old(View()), Exchange(t))
    {
      hide Inv;
      ApplyKeepsInv(View(), Exchange(t));
      var Build(_, _, items, chain) := producers[t];
      var oldHead := head;
      head := chain[|chain| - 1];
      producers[t] := Link(oldHead, chain[0], entered);
      entered := entered + |chain|;
      EnterPlaces(next[..], values[..], place, t, |line|);
      place := Promote(place, t, |line|);
      line, order, linker := line + chain, order + items, linker + [Some(t)] + seq(|chain| - 1, _ => None);
    }

    /** `old_head->next_.store`. */
    method LinkOldHead(t: nat)
      requires Valid() && Allowed(View(), StoreLink(t))
      modifies this`linker, next, producers
      ensures Valid() && View() == Apply(old(View()), StoreLink(t))
    {
      ApplyKeepsInv(View(), StoreLink(t));
      var Link(last, first, k) := producers[t];
      next[last] := At(first);
      producers[t] := Idle;
      linker := linker[k := None];
      assert View().nodes == Apply(old(View()), StoreLink(t)).nodes;
    }

    method TryDequeue()
      requires Valid() && Allowed(View(), CallDequeue)
      modifies this`consumer
      ensures Valid() && View() == Apply(old(View()), CallDequeue)
    {
      ApplyKeepsInv(View(), CallDequeue);
      consumer := LoadNext;
    }

    /** The load of `tail_->next_`; `found` is false when `try_dequeue` returns false. */
    method LoadTailNext() returns (found: bool)
      requires Valid() && Allowed(View(), ConsumerLoad)
      modifies this`consumer
      ensures Valid() && View() == Apply(old(View()), ConsumerLoad)
      ensures found <==> CanPop(Abs(old(View())))
    {
      ApplyKeepsInv(View(), ConsumerLoad);
      LoadFailsIffCannotPop(View());
      match next[tail]
      case Null =>
        consumer := Outside;
        found := false;
      case At(n) =>
        consumer := ReadValue(n);
        found := true;
    }

    /** The value is moved out of the node behind the dummy. */
    method MoveValueOut()
      requires Valid() && Allowed(View(), ConsumerRead)
      modifies this`consumer
      ensures Valid() && View() == Apply(old(View()), ConsumerRead)
    {
      ApplyKeepsInv(View(), ConsumerRead);
      consumer := Advance(consumer.next, values[consumer.next]);
    }

    /** `Deallocate(std::exchange(tail_, next))`: `cached` is the list the old dummy is put in front of. */
    method ReleaseDummy(cached: Ptr) returns (value: Value)
      requires Valid() && Allowed(View(), ConsumerAdvance(cached))
      modifies this`tail, this`consumer, this`place, this`base, next
      ensures Valid() && View() == Apply(old(View()), ConsumerAdvance(cached))
      ensures old(base) < |old(order)| && value == old(order)[old(base)]
    {
      hide Inv;
      ApplyKeepsInv(View(), ConsumerAdvance(cached));
      EventHistory(View(), ConsumerAdvance(cached));
      value := consumer.value;
      next[tail] := cached;
      place := place[tail := Free];
      tail := consumer.next;
      base := base + 1;
      consumer := Outside;
      assert View().nodes == Apply(old(View()), ConsumerAdvance(cached)).nodes;
    }
  }
}
