/**
 The queues on top of the node pool. What is one place in `NodePool`, outside the pool, is
 here the hand of the thread inside a call, or one live queue: its nodes from the dummy to
 the head, as `MpscQueue` links them.
 */
module NodeOwners {
  import opened Counting
  import opened NodePool
  import opened Optional

  /** `hands[t]` are the nodes thread `t` has allocated or taken out and not yet passed on; a queue without nodes is gone. */
  datatype Owners = Owners(pool: NodePool.State, hands: seq<seq<nat>>, queues: seq<seq<nat>>)

  datatype Action =
    | Pool(e: NodePool.Event)
    | Create(t: nat)
    | Enqueue(t: nat, q: nat)
    | Dequeue(t: nat, q: nat)
    | GiveBack(t: nat)
    | Destroy(q: nat)

  // ---------------------------------------------------------------- the steps

  predicate Allocates(s: Owners, e: NodePool.Event) {
    e.Run? && e.t < |s.pool.threads| && s.pool.threads[e.t].pc.Take? && s.pool.threads[e.t].list.At?
  }

  function Last(xs: seq<nat>): nat
    requires xs != []
  {
    xs[|xs| - 1]
  }

  function ButLast(xs: seq<nat>): seq<nat>
    requires xs != []
  {
    xs[..|xs| - 1]
  }

  /** Threads allocate, build, enqueue and dequeue as the queue's code does; a thread ends with nothing in hand. */
  predicate CanDo(s: Owners, a: Action) {
    match a
    case Pool(e) =>
      && NodePool.Allowed(s.pool, e) && !e.Deallocate? && !e.GiveUp?
      && (e.Run? ==> e.t < |s.hands|)
      && (e.ThreadExit? ==> e.t < |s.hands| && s.hands[e.t] == [])
    case Create(t) => t < |s.hands| && s.hands[t] != []
    case Enqueue(t, q) => t < |s.hands| && s.hands[t] != [] && q < |s.queues| && s.queues[q] != []
    case Dequeue(t, q) => t < |s.hands| && q < |s.queues| && |s.queues[q]| > 1
    case GiveBack(t) => t < |s.hands| && s.hands[t] != [] && t < |s.pool.threads| && s.pool.threads[t].pc.Idle?
    case Destroy(q) => q < |s.queues| && |s.queues[q]| == 1
  }

  /** What of it concerns the pool. */
  function PoolEvents(s: Owners, a: Action): seq<NodePool.Event>
    requires CanDo(s, a)
  {
    match a
    case Pool(e) => [e]
    case GiveBack(t) => [NodePool.Deallocate(t, Last(s.hands[t]))]
    case Destroy(q) => [NodePool.GiveUp(s.queues[q][0])]
    case _ => []
  }

  /** The pool does its part if it can; `PoolAgrees` shows that it always can. */
  function StepPool(p: NodePool.State, es: seq<NodePool.Event>): NodePool.State {
    if NodePool.Possible(p, es) then NodePool.Exec(p, es) else p
  }

  function Do(s: Owners, a: Action): Owners
    requires CanDo(s, a)
  {
    var s1 := s.(pool := StepPool(s.pool, PoolEvents(s, a)));
    match a
    case Pool(e) =>
      if Allocates(s, e) then s1.(hands := s.hands[e.t := s.hands[e.t] + [s.pool.threads[e.t].list.node]]) else s1
    case Create(t) => s1.(hands := s.hands[t := ButLast(s.hands[t])], queues := s.queues + [[Last(s.hands[t])]])
    case Enqueue(t, q) => s1.(hands := s.hands[t := []], queues := s.queues[q := s.queues[q] + s.hands[t]])
    case Dequeue(t, q) =>
      s1.(hands := s.hands[t := s.hands[t] + [s.queues[q][0]]], queues := s.queues[q := s.queues[q][1..]])
    case GiveBack(t) => s1.(hands := s.hands[t := ButLast(s.hands[t])])
    case Destroy(q) => s1.(queues := s.queues[q := []])
  }

  // ---------------------------------------------------------------- the invariant

  function Occurs(n: nat): seq<nat> -> int {
    (xs: seq<nat>) => multiset(xs)[n]
  }

  /** In how many hands and queues, and how often there, node `n` is. */
  function Owned(hands: seq<seq<nat>>, queues: seq<seq<nat>>, n: nat): int {
    Sum(hands, Occurs(n)) + Sum(queues, Occurs(n))
  }

  function IsInUse(p: NodePool.State, n: nat): int {
    if n < |p.place| && p.place[n].InUse? then 1 else 0
  }

  ghost predicate OwnersOk(s: Owners) {
    && NodePool.Inv(s.pool) && |s.hands| == |s.pool.threads|
    && (forall n: nat :: Owned(s.hands, s.queues, n) == IsInUse(s.pool, n))
  }

  /** What is in a hand or a queue is outside the pool. */
  lemma {:induction false} OwnedIsInUse(s: Owners, n: nat)
    requires OwnersOk(s)
    requires (exists t :: 0 <= t < |s.hands| && n in s.hands[t]) || (exists q :: 0 <= q < |s.queues| && n in s.queues[q])
    ensures n < |s.pool.place| && s.pool.place[n].InUse?
  {
    SumNonNegative(s.hands, Occurs(n));
    SumNonNegative(s.queues, Occurs(n));
    if t :| 0 <= t < |s.hands| && n in s.hands[t] {
      SumAtLeast(s.hands, t, Occurs(n));
    } else {
      var q :| 0 <= q < |s.queues| && n in s.queues[q];
      SumAtLeast(s.queues, q, Occurs(n));
    }
    assert Owned(s.hands, s.queues, n) == IsInUse(s.pool, n);
  }

  lemma {:induction false} OneEvent(p: NodePool.State, e: NodePool.Event)
    requires NodePool.Inv(p) && NodePool.Allowed(p, e)
    ensures NodePool.Possible(p, [e]) && StepPool(p, [e]) == NodePool.Apply(p, e) && NodePool.Inv(StepPool(p, [e]))
  {
    assert [e][1..] == [] && NodePool.Exec(NodePool.Apply(p, e), []) == NodePool.Apply(p, e);
    NodePool.ApplyKeepsInv(p, e);
  }

  /** The pool's part of every action is possible, and its invariant is kept. */
  lemma {:induction false} PoolAgrees(s: Owners, a: Action)
    requires OwnersOk(s) && CanDo(s, a)
    ensures forall e :: e in PoolEvents(s, a) ==> NodePool.Allowed(s.pool, e) && Do(s, a).pool == NodePool.Apply(s.pool, e)
    ensures PoolEvents(s, a) == [] ==> Do(s, a).pool == s.pool
    ensures NodePool.Possible(s.pool, PoolEvents(s, a)) && NodePool.Inv(Do(s, a).pool)
  {
    hide NodePool.Inv, NodePool.Apply, NodePool.Exec, NodePool.Possible;
    match a
    case Pool(e) => OneEvent(s.pool, e);
    case GiveBack(t) =>
      OwnedIsInUse(s, Last(s.hands[t]));
      PlacesAndNodes(s.pool);
      OneEvent(s.pool, NodePool.Deallocate(t, Last(s.hands[t])));
    case Destroy(q) =>
      OwnedIsInUse(s, s.queues[q][0]);
      OneEvent(s.pool, NodePool.GiveUp(s.queues[q][0]));
    case _ => NoEvent(s.pool);
  }

  lemma {:induction false} NoEvent(p: NodePool.State)
    ensures NodePool.Possible(p, []) && StepPool(p, []) == p
  {
  }

  lemma {:induction false} PlacesAndNodes(p: NodePool.State)
    requires NodePool.Inv(p)
    ensures |p.place| == |p.next|
  {
  }

  /** The node handed out was in a cache. */
  lemma {:induction false} TakePlaces(p: NodePool.State, t: nat, n: nat)
    requires NodePool.Inv(p) && t < |p.threads| && p.threads[t].pc.Take?
    ensures CanTake(p, t) && |StepTake(p, t).threads| == |p.threads|
    ensures IsInUse(StepTake(p, t), n) == IsInUse(p, n) + (if p.threads[t].list == At(n) then 1 else 0)
  {
    TakeKeeps(p, t);
    assert ThreadOk(p, t) && CacheNode(p, t, |p.threads[t].cache| - 1);
  }

  /** A chunk is split off from nodes nobody has had yet. */
  lemma {:induction false} SplitPlaces(p: NodePool.State, t: nat, n: nat)
    requires NodePool.Inv(p) && t < |p.threads| && p.threads[t].pc.Split?
    ensures CanSplit(p, t) && |StepSplit(p, t).threads| == |p.threads| && IsInUse(StepSplit(p, t), n) == IsInUse(p, n)
  {
    SplitIsSafe(p, t);
    assert ThreadOk(p, t);
    if n < |p.place| {
      assert PlaceOk(p, n);
    }
  }

  /** Neither a chunk taken from the stack nor a reserved page is anybody's yet. */
  lemma {:induction false} RefillPlaces(p: NodePool.State, e: NodePool.Event, n: nat)
    requires NodePool.Allowed(p, e) && e.Run? && !p.threads[e.t].pc.Take? && !p.threads[e.t].pc.Split?
    ensures |NodePool.Apply(p, e).threads| == |p.threads| && IsInUse(NodePool.Apply(p, e), n) == IsInUse(p, n)
  {
  }

  /** Calls, and what happens to nodes outside the pool. */
  lemma {:induction false} CallPlaces(p: NodePool.State, e: NodePool.Event, n: nat)
    requires NodePool.Allowed(p, e) && !e.Run?
    ensures |NodePool.Apply(p, e).threads| == |p.threads|
    ensures IsInUse(NodePool.Apply(p, e), n) == IsInUse(p, n) - (if (e.Deallocate? || e.GiveUp?) && e.n == n then 1 else 0)
  {
  }

  /** What a pool event does to the places outside the pool. */
  lemma {:induction false} PoolPlaces(p: NodePool.State, e: NodePool.Event, n: nat)
    requires NodePool.Inv(p) && NodePool.Allowed(p, e)
    ensures |NodePool.Apply(p, e).threads| == |p.threads|
    ensures IsInUse(NodePool.Apply(p, e), n) == IsInUse(p, n)
      + (if e.Run? && p.threads[e.t].pc.Take? && p.threads[e.t].list == At(n) then 1 else 0)
      - (if (e.Deallocate? || e.GiveUp?) && e.n == n then 1 else 0)
  {
    hide NodePool.Inv, IsInUse, StepTake, StepSplit, StepPop, StepLock, StepDeallocate;
    if !e.Run? {
      CallPlaces(p, e, n);
    } else if p.threads[e.t].pc.Take? {
      TakePlaces(p, e.t, n);
    } else if p.threads[e.t].pc.Split? {
      SplitPlaces(p, e.t, n);
    } else {
      RefillPlaces(p, e, n);
    }
  }

  lemma {:induction false} ActionKeeps(s: Owners, a: Action)
    requires OwnersOk(s) && CanDo(s, a)
    ensures OwnersOk(Do(s, a))
  {
    var s' := Do(s, a);
    PoolAgrees(s, a);
    forall n: nat ensures Owned(s'.hands, s'.queues, n) == IsInUse(s'.pool, n) {
      assert Owned(s.hands, s.queues, n) == IsInUse(s.pool, n);
      ActionCounts(s, a, n);
    }
    forall e | e in PoolEvents(s, a) ensures |s'.pool.threads| == |s.pool.threads| {
      PoolPlaces(s.pool, e, 0);
    }
  }

  /** By how much an action changes the number of places of node `n` outside the pool. */
  function Change(s: Owners, a: Action, n: nat): int
    requires CanDo(s, a)
  {
    match a
    case Pool(e) => if Allocates(s, e) && s.pool.threads[e.t].list.node == n then 1 else 0
    case GiveBack(t) => if Last(s.hands[t]) == n then -1 else 0
    case Destroy(q) => if s.queues[q][0] == n then -1 else 0
    case _ => 0
  }

  lemma {:induction false} ActionCounts(s: Owners, a: Action, n: nat)
    requires OwnersOk(s) && CanDo(s, a)
    ensures var s' := Do(s, a);
      Owned(s'.hands, s'.queues, n) - Owned(s.hands, s.queues, n) == Change(s, a, n) == IsInUse(s'.pool, n) - IsInUse(s.pool, n)
  {
    hide Do, Owned, IsInUse;
    OwnedChange(s, a, n);
    PoolChange(s, a, n);
  }

  lemma {:induction false} PoolChange(s: Owners, a: Action, n: nat)
    requires OwnersOk(s) && CanDo(s, a)
    ensures IsInUse(Do(s, a).pool, n) == IsInUse(s.pool, n) + Change(s, a, n)
  {
    hide NodePool.Inv, NodePool.Apply, NodePool.Allowed, NodePool.Exec, NodePool.Possible, IsInUse, Do;
    PoolAgrees(s, a);
    forall e | e in PoolEvents(s, a) ensures IsInUse(Do(s, a).pool, n) == IsInUse(s.pool, n) + Change(s, a, n) {
      PoolPlaces(s.pool, e, n);
      if e.Run? {
        Runs(s.pool, e);
      }
    }
    assert PoolEvents(s, a) != [] ==> PoolEvents(s, a)[0] in PoolEvents(s, a);
  }

  lemma {:induction false} Runs(p: NodePool.State, e: NodePool.Event)
    requires NodePool.Inv(p) && NodePool.Allowed(p, e) && e.Run?
    ensures e.t < |p.threads| && (p.threads[e.t].pc.Take? ==> p.threads[e.t].list.At?)
  {
  }

  lemma {:induction false} AddLast(xss: seq<seq<nat>>, t: nat, m: nat, n: nat)
    requires t < |xss|
    ensures Sum(xss[t := xss[t] + [m]], Occurs(n)) == Sum(xss, Occurs(n)) + (if m == n then 1 else 0)
  {
    SumUpdate(xss, t, xss[t] + [m], Occurs(n));
  }

  lemma {:induction false} DropLast(xss: seq<seq<nat>>, t: nat, n: nat)
    requires t < |xss| && xss[t] != []
    ensures Sum(xss[t := ButLast(xss[t])], Occurs(n)) == Sum(xss, Occurs(n)) - (if Last(xss[t]) == n then 1 else 0)
  {
    assert xss[t] == ButLast(xss[t]) + [Last(xss[t])];
    SumUpdate(xss, t, ButLast(xss[t]), Occurs(n));
  }

  lemma {:induction false} DropFirst(xss: seq<seq<nat>>, t: nat, n: nat)
    requires t < |xss| && xss[t] != []
    ensures Sum(xss[t := xss[t][1..]], Occurs(n)) == Sum(xss, Occurs(n)) - (if xss[t][0] == n then 1 else 0)
  {
    assert xss[t] == [xss[t][0]] + xss[t][1..];
    SumUpdate(xss, t, xss[t][1..], Occurs(n));
  }

  lemma {:induction false} MoveAll(hands: seq<seq<nat>>, t: nat, queues: seq<seq<nat>>, q: nat, n: nat)
    requires t < |hands| && q < |queues|
    ensures Sum(hands[t := []], Occurs(n)) + Sum(queues[q := queues[q] + hands[t]], Occurs(n))
      == Sum(hands, Occurs(n)) + Sum(queues, Occurs(n))
  {
    SumUpdate(hands, t, [], Occurs(n));
    SumUpdate(queues, q, queues[q] + hands[t], Occurs(n));
  }

  lemma {:induction false} NewQueue(queues: seq<seq<nat>>, m: nat, n: nat)
    ensures Sum(queues + [[m]], Occurs(n)) == Sum(queues, Occurs(n)) + (if m == n then 1 else 0)
  {
    SumConcat(queues, [[m]], Occurs(n));
  }

  lemma {:induction false} OwnedChange(s: Owners, a: Action, n: nat)
    requires CanDo(s, a)
    ensures var s' := Do(s, a); Owned(s'.hands, s'.queues, n) == Owned(s.hands, s.queues, n) + Change(s, a, n)
  {
    hide NodePool.Allowed, StepPool, Sum, Last, ButLast;
    match a
    case Pool(e) =>
      if Allocates(s, e) {
        AddLast(s.hands, e.t, s.pool.threads[e.t].list.node, n);
      }
    case Create(t) =>
      DropLast(s.hands, t, n);
      NewQueue(s.queues, Last(s.hands[t]), n);
    case Enqueue(t, q) => MoveAll(s.hands, t, s.queues, q, n);
    case Dequeue(t, q) =>
      AddLast(s.hands, t, s.queues[q][0], n);
      DropFirst(s.queues, q, n);
    case GiveBack(t) => DropLast(s.hands, t, n);
    case Destroy(q) =>
      assert s.queues[q][1..] == [];
      DropFirst(s.queues, q, n);
  }

  // ---------------------------------------------------------------- runs

  predicate Start(s: Owners) {
    NodePool.Init(s.pool) && s.queues == [] && s.hands == seq(|s.pool.threads|, _ => [])
  }

  predicate CanRun(s: Owners, acts: seq<Action>)
    decreases acts
  {
    acts == [] || (CanDo(s, acts[0]) && CanRun(Do(s, acts[0]), acts[1..]))
  }

  function Run(s: Owners, acts: seq<Action>): Owners
    requires CanRun(s, acts)
    decreases acts
  {
    if acts == [] then s else Run(Do(s, acts[0]), acts[1..])
  }

  /** The pool's part of a whole run. */
  function PoolRun(s: Owners, acts: seq<Action>): seq<NodePool.Event>
    requires CanRun(s, acts)
    decreases acts
  {
    if acts == [] then [] else PoolEvents(s, acts[0]) + PoolRun(Do(s, acts[0]), acts[1..])
  }

  lemma {:induction false} StartOk(s: Owners)
    requires Start(s)
    ensures OwnersOk(s)
  {
    NodePool.ReachableInv(s.pool, []);
    forall n: nat ensures Owned(s.hands, s.queues, n) == 0 {
      SumNotPositive(s.hands, Occurs(n));
      SumNonNegative(s.hands, Occurs(n));
    }
  }

  lemma {:induction false} RunKeeps(s: Owners, acts: seq<Action>)
    requires OwnersOk(s) && CanRun(s, acts)
    ensures OwnersOk(Run(s, acts))
    decreases acts
  {
    if acts != [] {
      ActionKeeps(s, acts[0]);
      RunKeeps(Do(s, acts[0]), acts[1..]);
    }
  }

  lemma {:induction false} PoolRunsOn(p: NodePool.State, es: seq<NodePool.Event>, fs: seq<NodePool.Event>)
    requires NodePool.Possible(p, es) && NodePool.Possible(NodePool.Exec(p, es), fs)
    ensures NodePool.Possible(p, es + fs) && NodePool.Exec(p, es + fs) == NodePool.Exec(NodePool.Exec(p, es), fs)
    decreases es
  {
    if es == [] {
      assert es + fs == fs;
    } else {
      assert (es + fs)[1..] == es[1..] + fs;
      PoolRunsOn(NodePool.Apply(p, es[0]), es[1..], fs);
    }
  }

  /** Every run of the queues is, for the pool, one of its runs: all that `NodePool` proves holds under the queues. */
  lemma {:induction false} PoolIsRun(s: Owners, acts: seq<Action>)
    requires OwnersOk(s) && CanRun(s, acts)
    ensures NodePool.Possible(s.pool, PoolRun(s, acts))
    ensures NodePool.Exec(s.pool, PoolRun(s, acts)) == Run(s, acts).pool
    decreases acts
  {
    if acts != [] {
      PoolAgrees(s, acts[0]);
      ActionKeeps(s, acts[0]);
      PoolIsRun(Do(s, acts[0]), acts[1..]);
      PoolRunsOn(s.pool, PoolEvents(s, acts[0]), PoolRun(Do(s, acts[0]), acts[1..]));
    }
  }

  // ---------------------------------------------------------------- the theorem

  /** Node `n` is the i-th in the hand of thread `t`. */
  predicate InHand(s: Owners, n: nat, t: nat, i: nat) {
    t < |s.hands| && i < |s.hands[t]| && s.hands[t][i] == n
  }

  /** Node `n` is the i-th of queue `q`. */
  predicate InQueue(s: Owners, n: nat, q: nat, i: nat) {
    q < |s.queues| && i < |s.queues[q]| && s.queues[q][i] == n
  }

  lemma {:induction false} TwiceInOne(xs: seq<nat>, i: nat, j: nat)
    requires i < j < |xs| && xs[i] == xs[j]
    ensures multiset(xs)[xs[i]] >= 2
  {
    assert xs == xs[..j] + xs[j..];
    assert xs[i] in xs[..j] && xs[j] in xs[j..];
  }

  /** With one occurrence in all, the place is one list and one position. */
  lemma {:induction false} OnePlace(xss: seq<seq<nat>>, n: nat, a: nat, i: nat, b: nat, j: nat)
    requires a < |xss| && i < |xss[a]| && xss[a][i] == n
    requires b < |xss| && j < |xss[b]| && xss[b][j] == n
    requires Sum(xss, Occurs(n)) <= 1
    ensures a == b && i == j
  {
    if a != b {
      SumAtLeastTwo(xss, if a < b then a else b, if a < b then b else a, Occurs(n));
    } else if i != j {
      TwiceInOne(xss[a], if i < j then i else j, if i < j then j else i);
      SumAtLeast(xss, a, Occurs(n));
    }
  }

  /**
   In every reachable state a node outside the pool is in exactly one place: at one position of
   one thread's hand, or at one position of one live queue. All others are in neither.
   */
  lemma {:induction false} OneOwner(s: Owners, acts: seq<Action>, n: nat)
    requires Start(s) && CanRun(s, acts)
    ensures var z := Run(s, acts);
      && ((exists t, i :: InHand(z, n, t, i)) || (exists q, i :: InQueue(z, n, q, i)) <==>
          n < |z.pool.place| && z.pool.place[n] == InUse)
      && (forall t, i, u, j :: InHand(z, n, t, i) && InHand(z, n, u, j) ==> t == u && i == j)
      && (forall q, i, r, j :: InQueue(z, n, q, i) && InQueue(z, n, r, j) ==> q == r && i == j)
      && (forall t, i, q, j :: !(InHand(z, n, t, i) && InQueue(z, n, q, j)))
  {
    StartOk(s);
    RunKeeps(s, acts);
    var z := Run(s, acts);
    var w := Occurs(n);
    assert Owned(z.hands, z.queues, n) == IsInUse(z.pool, n);
    SumNonNegative(z.hands, w);
    SumNonNegative(z.queues, w);
    forall t, i, u, j | InHand(z, n, t, i) && InHand(z, n, u, j) ensures t == u && i == j {
      OnePlace(z.hands, n, t, i, u, j);
    }
    forall q, i, r, j | InQueue(z, n, q, i) && InQueue(z, n, r, j) ensures q == r && i == j {
      OnePlace(z.queues, n, q, i, r, j);
    }
    forall t, i, q, j ensures !(InHand(z, n, t, i) && InQueue(z, n, q, j)) {
      if InHand(z, n, t, i) && InQueue(z, n, q, j) {
        SumAtLeast(z.hands, t, w);
        SumAtLeast(z.queues, q, w);
      }
    }
    if t, i :| InHand(z, n, t, i) {
      OwnedIsInUse(z, n);
    } else if q, i :| InQueue(z, n, q, i) {
      OwnedIsInUse(z, n);
    } else if n < |z.pool.place| && z.pool.place[n] == InUse {
      SomePlace(z, n);
    }
  }

  lemma {:induction false} SomePlace(z: Owners, n: nat)
    requires Owned(z.hands, z.queues, n) > 0
    ensures (exists t, i :: InHand(z, n, t, i)) || (exists q, i :: InQueue(z, n, q, i))
  {
    if Sum(z.hands, Occurs(n)) > 0 {
      var t := SumWitness(z.hands, Occurs(n));
      var i :| 0 <= i < |z.hands[t]| && z.hands[t][i] == n;
      assert InHand(z, n, t, i);
    } else {
      var q := SumWitness(z.queues, Occurs(n));
      var i :| 0 <= i < |z.queues[q]| && z.queues[q][i] == n;
      assert InQueue(z, n, q, i);
    }
  }
}
