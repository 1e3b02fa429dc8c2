/**
 What callers of the free list get: when a `try_get` may come back without a node, and what an
 `add` or a `try_get` does that nobody disturbs.
 */
module FreeListCalls {
  import opened FreeListProtocol
  import opened Counting

  /**
   The last call of a thread, from its events: an add, or a get, with what it saw when it last
   read the head, and the node it took.
   */
  datatype Call = NoCall | AddCall | Getting(sawEmpty: bool, got: Ptr)

  /** The accesses of `try_get` that load the head of the list. */
  predicate ReadsHead(s: State, t: nat)
    requires t < |s.threads|
  {
    s.threads[t].LoadHead? || (s.threads[t].Unlink? && s.head != At(s.threads[t].n))
  }

  function NextCall(s: State, e: Event, t: nat, call: Call): Call
    requires Allowed(s, e)
  {
    if e.t != t then call
    else
      match e
      case CallAdd(_, _) => AddCall
      case CallTryGet(_) => Getting(false, Null)
      case Run(_) =>
        if !call.Getting? then call
        else if ReadsHead(s, t) then call.(sawEmpty := s.chain == [])
        else if s.threads[t].Take? then call.(got := At(s.threads[t].n))
        else call
  }

  function LastCall(s: State, es: seq<Event>, t: nat, call: Call): Call
    requires Possible(s, es)
    decreases es
  {
    if es == [] then call else LastCall(Apply(s, es[0]), es[1..], t, NextCall(s, es[0], t, call))
  }

  predicate SeenNull(ret: Return) {
    ret.ToLoop? && ret.seen == Null
  }

  /** A get leaves its loop only with a node, or with a null head that it read from an empty list. */
  predicate Serves(pc: Pc, call: Call) {
    call.Getting? ==>
      match pc
      case Idle => call.got.At? || call.sawEmpty
      case Release(_, head) => head == Null ==> call.sawEmpty
      case ReadHead(_, ret) => ret.ToLoop? && (SeenNull(ret) ==> call.sawEmpty)
      case SetNext(_, _, ret) => ret.ToLoop? && (SeenNull(ret) ==> call.sawEmpty)
      case SetRefs(_, _, ret) => ret.ToLoop? && (SeenNull(ret) ==> call.sawEmpty)
      case Link(_, _, ret) => ret.ToLoop? && (SeenNull(ret) ==> call.sawEmpty)
      case Unpublish(_, _, ret) => ret.ToLoop? && (SeenNull(ret) ==> call.sawEmpty)
      case AddFetch(_) => false
      case _ => true
  }

  lemma {:induction false} EventServes(s: State, e: Event, t: nat, call: Call)
    requires Inv(s) && Allowed(s, e) && t < |s.threads| && Serves(s.threads[t], call)
    ensures t < |Apply(s, e).threads| && Serves(Apply(s, e).threads[t], NextCall(s, e, t, call))
  {
    hide NodeOk, ThreadOk, CountsRight;
  }

  lemma {:induction false} RunServes(s: State, es: seq<Event>, t: nat, call: Call)
    requires Inv(s) && Possible(s, es) && t < |s.threads| && Serves(s.threads[t], call)
    ensures t < |Exec(s, es).threads| && Serves(Exec(s, es).threads[t], LastCall(s, es, t, call))
    decreases es
  {
    hide Inv, Allowed, Apply, Serves;
    if es != [] {
      EventServes(s, es[0], t, call);
      ApplyKeepsInv(s, es[0]);
      RunServes(Apply(s, es[0]), es[1..], t, NextCall(s, es[0], t, call));
    }
  }

  /** In every run a `try_get` that ends without a node saw an empty list the last time it read the head. */
  lemma {:induction false} EmptyGetSawEmpty(nodes: nat, threads: nat, es: seq<Event>, t: nat)
    requires threads < SHOULD_BE_ON_FREELIST - 1 && t < threads && Possible(Init(nodes, threads), es)
    ensures var s := Exec(Init(nodes, threads), es); var call := LastCall(Init(nodes, threads), es, t, NoCall);
      && t < |s.threads|
      && (call.Getting? && s.threads[t].Idle? && call.got == Null ==> call.sawEmpty)
  {
    InitInv(nodes, threads);
    RunServes(Init(nodes, threads), es, t, NoCall);
  }

  // ---------------------------------------------------------------- undisturbed calls

  predicate Quiet(s: State) {
    forall t :: 0 <= t < |s.threads| ==> s.threads[t].Idle?
  }

  /** A list at rest: the first node has the count one and leads to the rest. */
  lemma {:induction false} QuietFirst(s: State)
    requires Inv(s) && Quiet(s) && s.chain != []
    ensures var n := s.chain[0];
      && n < |s.nodes| && s.head == At(n) && s.nodes[n] == Node(1, ChainPtr(s.chain, 1), Listed)
  {
    assert LinkOk(s, 0);
    NothingLost(s, s.chain[0]);
  }

  /** `k` accesses of thread `t`. */
  function Steps(s: State, t: nat, k: nat): State
    requires Inv(s) && t < |s.threads|
    decreases k
  {
    if k == 0 then s
    else
      CanStep(s, t);
      Steps(Step(s, t), t, k - 1)
  }

  lemma {:induction false} CanStep(s: State, t: nat)
    requires Inv(s) && t < |s.threads|
    ensures Allowed(s, Run(t)) && Inv(Step(s, t)) && |Step(s, t).threads| == |s.threads|
  {
    assert ThreadOk(s, t);
    StepKeepsInv(s, t);
  }

  /** The thread looks at the first node and takes a reference. */
  lemma {:induction false} GetAcquires(s: State, t: nat)
    requires Inv(s) && Quiet(s) && t < |s.threads| && s.chain != []
    ensures Inv(Apply(s, CallTryGet(t)))
    ensures var n := s.chain[0];
      n < |s.nodes| && Steps(Apply(s, CallTryGet(t)), t, 3) == s.(nodes := s.nodes[n := Node(2, ChainPtr(s.chain, 1), Listed)],
                                                 threads := s.threads[t := LoadNext(n)])
  {
    QuietFirst(s);
    var n := s.chain[0];
    ApplyKeepsInv(s, CallTryGet(t));
    hide Inv;
    var s0 := Apply(s, CallTryGet(t));
    CanStep(s0, t);
    var s1 := Step(s0, t);
    assert s1 == s.(threads := s.threads[t := LoadRefs(n)]);
    CanStep(s1, t);
    var s2 := Step(s1, t);
    assert s2 == s.(threads := s.threads[t := Acquire(n, 1)]);
    CanStep(s2, t);
    assert Steps(s0, t, 3) == Steps(s1, t, 2) == Steps(s2, t, 1) == Steps(Step(s2, t), t, 0);
  }

  /** The thread reads the link, takes the node off the list and gives both references back. */
  lemma {:induction false} GetTakes(s: State, t: nat, n: nat, rest: seq<nat>)
    requires Inv(s) && t < |s.threads| && n < |s.nodes| && s.threads[t] == LoadNext(n)
    requires s.chain == [n] + rest && s.head == At(n) && s.nodes[n] == Node(2, ChainPtr(rest, 0), Listed)
    ensures Steps(s, t, 3) == State(ChainPtr(rest, 0), s.nodes[n := Node(0, ChainPtr(rest, 0), Owned)],
                                    s.threads[t := Idle], rest)
  {
    hide Inv;
    var next := ChainPtr(rest, 0);
    CanStep(s, t);
    var s1 := Step(s, t);
    assert s.nodes[n := s.nodes[n]] == s.nodes;
    assert s1 == s.(threads := s.threads[t := Unlink(n, next)]);
    CanStep(s1, t);
    var s2 := Step(s1, t);
    assert s.chain[1..] == rest;
    assert s2 == State(next, s.nodes[n := Node(2, next, Taken(t))], s.threads[t := Take(n)], rest);
    CanStep(s2, t);
    assert Steps(s, t, 3) == Steps(s1, t, 2) == Steps(s2, t, 1) == Steps(Step(s2, t), t, 0);
    assert (2 + WORD - 2) % WORD == 0;
  }

  lemma {:induction false} StepsAdd(s: State, t: nat, k: nat, m: nat)
    requires Inv(s) && t < |s.threads|
    ensures Inv(Steps(s, t, k)) && |Steps(s, t, k).threads| == |s.threads|
    ensures Steps(s, t, k + m) == Steps(Steps(s, t, k), t, m)
    decreases k
  {
    hide Inv, Step;
    if k > 0 {
      CanStep(s, t);
      StepsAdd(Step(s, t), t, k - 1, m);
    }
  }

  /** Undisturbed, a get takes the first node off a list that is not empty, in six accesses. */
  lemma {:induction false} LoneGet(s: State, t: nat)
    requires Inv(s) && Quiet(s) && t < |s.threads| && s.chain != []
    ensures Inv(Apply(s, CallTryGet(t)))
    ensures var n, rest := s.chain[0], s.chain[1..];
      && n < |s.nodes|
      && Steps(Apply(s, CallTryGet(t)), t, 6)
         == State(ChainPtr(rest, 0), s.nodes[n := s.nodes[n].(refs := 0, place := Owned)], s.threads, rest)
  {
    QuietFirst(s);
    GetAcquires(s, t);
    var n, rest := s.chain[0], s.chain[1..];
    assert s.chain == [n] + rest;
    hide Inv, Steps, Step;
    var s0 := Apply(s, CallTryGet(t));
    StepsAdd(s0, t, 3, 3);
    GetTakes(Steps(s0, t, 3), t, n, rest);
    assert s.threads[t := LoadNext(n)][t := Idle] == s.threads;
  }

  /** On an empty list it comes back after the first access, with nothing changed. */
  lemma {:induction false} LoneGetOnEmpty(s: State, t: nat)
    requires Inv(s) && Quiet(s) && t < |s.threads| && s.chain == []
    ensures Inv(Apply(s, CallTryGet(t))) && Steps(Apply(s, CallTryGet(t)), t, 1) == s
  {
    ApplyKeepsInv(s, CallTryGet(t));
    var s0 := Apply(s, CallTryGet(t));
    CanStep(s0, t);
    assert Steps(s0, t, 1) == Steps(Step(s0, t), t, 0);
    assert s.threads[t := LoadHead][t := Idle] == s.threads;
  }

  /** Undisturbed, an add puts its node in front of the list, in five accesses. */
  lemma {:induction false} LoneAdd(s: State, t: nat, n: nat)
    requires Inv(s) && Quiet(s) && Allowed(s, CallAdd(t, n))
    ensures Inv(Apply(s, CallAdd(t, n)))
    ensures Steps(Apply(s, CallAdd(t, n)), t, 5)
      == State(At(n), s.nodes[n := Node(1, s.head, Listed)], s.threads, [n] + s.chain)
  {
    NothingLost(s, n);
    ApplyKeepsInv(s, CallAdd(t, n));
    assert s.nodes[n].refs == 0;
    hide Inv;
    var s0 := Apply(s, CallAdd(t, n));
    AddPrepares(s0, t, n);
    StepsAdd(s0, t, 3, 2);
    hide Steps;
    AddLinks(Steps(s0, t, 3), t, n);
    assert s.threads[t := AddFetch(n)][t := Idle] == s.threads;
  }

  /** The flag, the head, the link. */
  lemma {:induction false} AddPrepares(s: State, t: nat, n: nat)
    requires Inv(s) && t < |s.threads| && n < |s.nodes| && s.threads[t] == AddFetch(n) && s.nodes[n].refs == 0
    ensures Steps(s, t, 3) == s.(nodes := s.nodes[n := Node(SHOULD_BE_ON_FREELIST, s.head, Place.Adding(t))],
                                 threads := s.threads[t := SetRefs(n, s.head, ToCaller)])
  {
    hide Inv;
    CanStep(s, t);
    var s1 := Step(s, t);
    CanStep(s1, t);
    var s2 := Step(s1, t);
    CanStep(s2, t);
    assert s1.nodes[n := s1.nodes[n]] == s1.nodes;
    assert Steps(s, t, 3) == Steps(s1, t, 2) == Steps(s2, t, 1) == Steps(Step(s2, t), t, 0);
  }

  /** The count and the head. */
  lemma {:induction false} AddLinks(s: State, t: nat, n: nat)
    requires Inv(s) && t < |s.threads| && n < |s.nodes| && s.threads[t] == SetRefs(n, s.head, ToCaller)
    ensures Steps(s, t, 2) == State(At(n), s.nodes[n := Node(1, s.nodes[n].next, Listed)], s.threads[t := Idle], [n] + s.chain)
  {
    hide Inv;
    CanStep(s, t);
    var s1 := Step(s, t);
    CanStep(s1, t);
    assert Steps(s, t, 2) == Steps(s1, t, 1) == Steps(Step(s1, t), t, 0);
  }
}
