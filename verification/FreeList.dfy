/**
 The reference-counted lock-free free list of the moodycamel queue (`FreeList`).

 A node's 32-bit word `freeListRefs` holds a reference count in its low 31 bits and the
 should-be-on-free-list flag in the top bit. The model takes one step per access to
 shared memory, by any number of threads, in any order.
 */
module FreeListProtocol {
  import opened Counting

  const SHOULD_BE_ON_FREELIST: nat := 0x8000_0000
  const WORD: nat := 0x1_0000_0000

  datatype Ptr = Null | At(node: nat)

  /** Where `add_knowing_refcount_is_zero` returns to: `add`'s caller, or the loop of `try_get`. */
  datatype Return = ToCaller | ToLoop(seen: Ptr)

  /** The next shared-memory access of a thread, with its live local variables. */
  datatype Pc =
    | Idle
    | LoadHead
      // add
    | AddFetch(n: nat)
      // add_knowing_refcount_is_zero
    | ReadHead(n: nat, ret: Return)
    | SetNext(n: nat, head: Ptr, ret: Return)
    | SetRefs(n: nat, head: Ptr, ret: Return)
    | Link(n: nat, head: Ptr, ret: Return)
    | Unpublish(n: nat, head: Ptr, ret: Return)
      // try_get
    | LoadRefs(n: nat)
    | Acquire(n: nat, refs: nat)
    | LoadNext(n: nat)
    | Unlink(n: nat, next: Ptr)
    | Take(n: nat)
    | Release(n: nat, head: Ptr)
  {
    predicate OnNode() {
      !Idle? && !LoadHead?
    }
  }

  /**
   Where a node is: an auxiliary history of the node, which no step of the code reads.
   `Owned` nodes belong to a caller; `Deferred` ones wait for the last getter to re-add them.
   */
  datatype Place =
    | Owned
    | Returning(who: nat)
    | Deferred
    | Adding(who: nat)
    | Publishing(who: nat)
    | Listed
    | Taken(who: nat)

  datatype Node = Node(refs: nat, next: Ptr, place: Place)

  /** `chain`, too, is auxiliary: the nodes reached from `head`, in order. */
  datatype State = State(head: Ptr, nodes: seq<Node>, threads: seq<Pc>, chain: seq<nat>)

  datatype Event =
    | CallAdd(t: nat, n: nat)
    | CallTryGet(t: nat)
    | Run(t: nat)

  // ---------------------------------------------------------------- the steps

  /** The head of `try_get`'s loop: leave with null, or look at the node. */
  function LoopOn(p: Ptr): Pc {
    match p
    case Null => Idle
    case At(n) => LoadRefs(n)
  }

  function AfterAdding(ret: Return): Pc {
    match ret
    case ToCaller => Idle
    case ToLoop(p) => LoopOn(p)
  }

  datatype Outcome = Outcome(node: Node, head: Ptr, pc: Pc)

  /** One access of thread `t`, which concerns the node `pc.n` (in state `x`) and the list head. */
  function Act(x: Node, head: Ptr, pc: Pc, t: nat): Outcome
    requires pc.OnNode()
  {
    match pc
    case AddFetch(n) =>
      var y := x.(refs := (x.refs + SHOULD_BE_ON_FREELIST) % WORD);
      if x.refs == 0 then Outcome(y.(place := Adding(t)), head, ReadHead(n, ToCaller))
      else Outcome(y.(place := Deferred), head, Idle)
    case ReadHead(n, ret) => Outcome(x, head, SetNext(n, head, ret))
    case SetNext(n, h, ret) => Outcome(x.(next := h), head, SetRefs(n, h, ret))
    case SetRefs(n, h, ret) => Outcome(x.(refs := 1, place := Publishing(t)), head, Link(n, h, ret))
    case Link(n, h, ret) =>
      if head == h then Outcome(x.(place := Listed), At(n), AfterAdding(ret))
      else Outcome(x, head, Unpublish(n, head, ret))
    case Unpublish(n, h, ret) =>
      var y := x.(refs := (x.refs + (SHOULD_BE_ON_FREELIST - 1)) % WORD);
      if x.refs == 1 then Outcome(y.(place := Adding(t)), head, SetNext(n, h, ret))
      else Outcome(y.(place := Deferred), head, AfterAdding(ret))
    case LoadRefs(n) =>
      if x.refs % SHOULD_BE_ON_FREELIST == 0 then Outcome(x, head, LoadHead)
      else Outcome(x, head, Acquire(n, x.refs))
    case Acquire(n, r) =>
      if x.refs == r then Outcome(x.(refs := (r + 1) % WORD), head, LoadNext(n))
      else Outcome(x, head, LoadHead)
    case LoadNext(n) => Outcome(x, head, Unlink(n, x.next))
    case Unlink(n, nx) =>
      if head == At(n) then Outcome(x.(place := Taken(t)), nx, Take(n))
      else Outcome(x, head, Release(n, head))
    case Take(n) => Outcome(x.(refs := (x.refs + WORD - 2) % WORD, place := Owned), head, Idle)
    case Release(n, p) =>
      var y := x.(refs := (x.refs + WORD - 1) % WORD);
      if x.refs == SHOULD_BE_ON_FREELIST + 1 then Outcome(y.(place := Adding(t)), head, ReadHead(n, ToLoop(p)))
      else Outcome(y, head, LoopOn(p))
  }

  /** The list after the access: a successful `Link` puts the node in front, a successful `Unlink` takes it off. */
  function ChainAfter(chain: seq<nat>, head: Ptr, pc: Pc): seq<nat> {
    if pc.Link? && head == pc.head then [pc.n] + chain
    else if pc.Unlink? && head == At(pc.n) && chain != [] then chain[1..]
    else chain
  }

  function Step(s: State, t: nat): State
    requires t < |s.threads|
    requires s.threads[t].OnNode() ==> s.threads[t].n < |s.nodes|
  {
    var pc := s.threads[t];
    match pc
    case Idle => s
    case LoadHead => s.(threads := s.threads[t := LoopOn(s.head)])
    case _ =>
      var o := Act(s.nodes[pc.n], s.head, pc, t);
      State(o.head, s.nodes[pc.n := o.node], s.threads[t := o.pc], ChainAfter(s.chain, s.head, pc))
  }

  /** What a client may do: only the owner of a node adds it, and a thread makes one call at a time. */
  predicate Allowed(s: State, e: Event) {
    match e
    case CallAdd(t, n) =>
      t < |s.threads| && s.threads[t].Idle? && n < |s.nodes| && s.nodes[n].place == Owned
    case CallTryGet(t) => t < |s.threads| && s.threads[t].Idle?
    case Run(t) => t < |s.threads| && (s.threads[t].OnNode() ==> s.threads[t].n < |s.nodes|)
  }

  function Apply(s: State, e: Event): State
    requires Allowed(s, e)
  {
    match e
    case CallAdd(t, n) =>
      s.(nodes := s.nodes[n := s.nodes[n].(place := Returning(t))], threads := s.threads[t := AddFetch(n)])
    case CallTryGet(t) => s.(threads := s.threads[t := LoadHead])
    case Run(t) => Step(s, t)
  }

  // ---------------------------------------------------------------- the invariant

  /** Whether a thread at `pc` holds one of the references counted in the low bits of `n`. */
  predicate Holds(pc: Pc, n: nat) {
    (pc.LoadNext? || pc.Unlink? || pc.Take? || pc.Release?) && pc.n == n
  }

  function HoldWeight(n: nat): Pc -> int {
    pc => if Holds(pc, n) then 1 else 0
  }

  /** The number of getters holding `n`. */
  function Holders(threads: seq<Pc>, n: nat): int {
    Sum(threads, HoldWeight(n))
  }

  /** The reference the list, or the thread publishing or taking the node, has on it. */
  function Share(p: Place): nat {
    if p.Publishing? || p.Listed? || p.Taken? then 1 else 0
  }

  function Flag(p: Place): nat {
    if p.Deferred? || p.Adding? then SHOULD_BE_ON_FREELIST else 0
  }

  /** The low bits count share plus holders, the top bit is the flag. */
  predicate CountsRight(x: Node, holders: int) {
    && x.refs == Flag(x.place) + Share(x.place) + holders
    && (x.place.Adding? ==> holders == 0)
    && (x.place.Deferred? ==> holders > 0)
  }

  /** What a thread `t` at `pc` knows about the node it works on. */
  predicate PcAgrees(x: Node, pc: Pc, t: nat) {
    match pc
    case AddFetch(_) => x.place == Returning(t)
    case ReadHead(_, _) => x.place == Adding(t)
    case SetNext(_, _, _) => x.place == Adding(t)
    case SetRefs(_, h, _) => x.place == Adding(t) && x.next == h
    case Link(_, h, _) => x.place == Publishing(t) && x.next == h
    case Unpublish(_, _, _) => x.place == Publishing(t)
    case Acquire(_, r) => r % SHOULD_BE_ON_FREELIST != 0
    case Unlink(_, nx) => x.next == nx
    case Take(_) => x.place == Taken(t)
    case _ => true
  }

  predicate InHands(p: Place) {
    p.Returning? || p.Adding? || p.Publishing? || p.Taken?
  }

  /** A thread at `pc` is busy with `n` in the way its place `p` says. */
  predicate WorksOn(pc: Pc, n: nat, p: Place) {
    match p
    case Returning(_) => pc == AddFetch(n)
    case Adding(_) => (pc.ReadHead? || pc.SetNext? || pc.SetRefs?) && pc.n == n
    case Publishing(_) => (pc.Link? || pc.Unpublish?) && pc.n == n
    case Taken(_) => pc == Take(n)
    case _ => true
  }

  predicate PtrOk(nodes: nat, p: Ptr) {
    p.At? ==> p.node < nodes
  }

  predicate ReturnOk(nodes: nat, ret: Return) {
    ret.ToLoop? ==> PtrOk(nodes, ret.seen)
  }

  /** A program point that names only existing nodes. */
  predicate PcOk(nodes: nat, pc: Pc) {
    && (pc.OnNode() ==> pc.n < nodes)
    && (pc.ReadHead? ==> ReturnOk(nodes, pc.ret))
    && (pc.SetNext? || pc.SetRefs? || pc.Link? || pc.Unpublish? ==> ReturnOk(nodes, pc.ret) && PtrOk(nodes, pc.head))
    && (pc.Release? ==> PtrOk(nodes, pc.head))
    && (pc.Unlink? ==> PtrOk(nodes, pc.next))
  }

  function ChainPtr(chain: seq<nat>, i: nat): Ptr {
    if i < |chain| then At(chain[i]) else Null
  }

  /** The i-th node of the chain is listed and points to the one behind it. */
  predicate LinkOk(s: State, i: nat) {
    && i < |s.chain| && s.chain[i] < |s.nodes|
    && s.nodes[s.chain[i]].place == Listed
    && s.nodes[s.chain[i]].next == ChainPtr(s.chain, i + 1)
  }

  /** The list from `head` runs through exactly the `Listed` nodes, each once. */
  ghost predicate ChainOk(s: State) {
    && s.head == ChainPtr(s.chain, 0)
    && (forall i :: 0 <= i < |s.chain| ==> LinkOk(s, i))
    && (forall i, j :: 0 <= i < j < |s.chain| ==> s.chain[i] != s.chain[j])
    && (forall n :: 0 <= n < |s.nodes| && s.nodes[n].place == Listed ==> n in s.chain)
  }

  predicate NodeOk(s: State, n: nat) {
    && n < |s.nodes|
    && PtrOk(|s.nodes|, s.nodes[n].next)
    && CountsRight(s.nodes[n], Holders(s.threads, n))
    && var p := s.nodes[n].place;
       InHands(p) ==> p.who < |s.threads| && WorksOn(s.threads[p.who], n, p)
  }

  predicate ThreadOk(s: State, t: nat) {
    && t < |s.threads|
    && PcOk(|s.nodes|, s.threads[t])
    && (s.threads[t].OnNode() ==> PcAgrees(s.nodes[s.threads[t].n], s.threads[t], t))
  }

  /** Fewer than 2^31 - 1 threads: the count cannot overflow into the flag. */
  predicate FewThreads(s: State) {
    |s.threads| < SHOULD_BE_ON_FREELIST - 1
  }

  ghost predicate Inv(s: State) {
    && FewThreads(s)
    && ChainOk(s)
    && (forall n :: 0 <= n < |s.nodes| ==> NodeOk(s, n))
    && (forall t :: 0 <= t < |s.threads| ==> ThreadOk(s, t))
  }

  // ---------------------------------------------------------------- one access, locally

  /** The access keeps the count right, given that it is counted right before. */
  lemma {:induction false} ActKeepsCount(x: Node, head: Ptr, pc: Pc, t: nat, holders: int)
    requires pc.OnNode() && PcAgrees(x, pc, t) && CountsRight(x, holders)
    requires HoldWeight(pc.n)(pc) <= holders < SHOULD_BE_ON_FREELIST - 1
    requires head == At(pc.n) ==> x.place == Listed
    ensures var o := Act(x, head, pc, t);
      CountsRight(o.node, holders - HoldWeight(pc.n)(pc) + HoldWeight(pc.n)(o.pc))
  {
  }

  /** What the thread itself knows afterwards. */
  lemma {:induction false} ActKeepsOwn(x: Node, head: Ptr, pc: Pc, t: nat)
    requires pc.OnNode() && PcAgrees(x, pc, t)
    ensures var o := Act(x, head, pc, t);
      && (o.pc.OnNode() && o.pc.n != pc.n ==> o.pc.LoadRefs?)
      && (o.pc.OnNode() && o.pc.n == pc.n ==> PcAgrees(o.node, o.pc, t))
      && (InHands(o.node.place) && (o.node.place != x.place || x.place.who == t) ==>
            o.node.place.who == t && (PcAgrees(x, pc, t) && (InHands(x.place) ==> WorksOn(pc, pc.n, x.place)) ==> WorksOn(o.pc, pc.n, o.node.place)))
  {
  }

  /** What another thread knows about the same node is not disturbed. */
  lemma {:induction false} ActKeepsOther(x: Node, head: Ptr, pc: Pc, t: nat, pcu: Pc, u: nat, holders: int)
    requires pc.OnNode() && pcu.OnNode() && pc.n == pcu.n && t != u
    requires PcAgrees(x, pc, t) && PcAgrees(x, pcu, u) && CountsRight(x, holders)
    requires HoldWeight(pc.n)(pc) <= holders < SHOULD_BE_ON_FREELIST - 1
    requires HoldWeight(pc.n)(pcu) <= holders
    requires head == At(pc.n) ==> x.place == Listed
    ensures PcAgrees(Act(x, head, pc, t).node, pcu, u)
  {
  }

  /** A node in the hands of another thread stays there. */
  lemma {:induction false} ActKeepsHands(x: Node, head: Ptr, pc: Pc, t: nat, holders: int)
    requires pc.OnNode() && PcAgrees(x, pc, t) && CountsRight(x, holders)
    requires HoldWeight(pc.n)(pc) <= holders < SHOULD_BE_ON_FREELIST - 1
    requires head == At(pc.n) ==> x.place == Listed
    requires InHands(x.place) && x.place.who != t
    ensures Act(x, head, pc, t).node.place == x.place
  {
  }

  /** A thread still looking at a node that belongs to a caller leaves it with the caller. */
  lemma {:induction false} ActKeepsOwned(x: Node, head: Ptr, pc: Pc, t: nat, holders: int)
    requires pc.OnNode() && PcAgrees(x, pc, t) && CountsRight(x, holders) && x.place == Owned
    requires 0 <= holders < SHOULD_BE_ON_FREELIST - 1 && head != At(pc.n)
    ensures Act(x, head, pc, t).node.place == Owned
  {
  }

  // ---------------------------------------------------------------- one access, globally

  lemma {:induction false} HoldersAfter(threads: seq<Pc>, t: nat, pc: Pc, n: nat)
    requires t < |threads|
    ensures Holders(threads[t := pc], n) == Holders(threads, n) - HoldWeight(n)(threads[t]) + HoldWeight(n)(pc)
  {
    SumUpdate(threads, t, pc, HoldWeight(n));
  }

  lemma {:induction false} HoldersBounds(threads: seq<Pc>, n: nat)
    ensures 0 <= Holders(threads, n) <= |threads|
    ensures forall t :: 0 <= t < |threads| && Holds(threads[t], n) ==> Holders(threads, n) >= 1
  {
    SumNonNegative(threads, HoldWeight(n));
    SumAtMostLength(threads, HoldWeight(n));
    forall t | 0 <= t < |threads| && Holds(threads[t], n) ensures Holders(threads, n) >= 1 {
      SumAtLeast(threads, t, HoldWeight(n));
    }
  }

  lemma {:induction false} HeadListed(s: State)
    requires ChainOk(s)
    ensures s.head.At? ==> s.head.node < |s.nodes| && s.nodes[s.head.node].place == Listed && s.chain != []
    ensures s.chain != [] ==> LinkOk(s, 0)
  {
    if s.chain != [] { assert LinkOk(s, 0); }
  }

  /** The node a thread works on. */
  lemma {:induction false} StepKeepsOwnNode(s: State, t: nat)
    requires Inv(s) && t < |s.threads| && s.threads[t].OnNode() && s.threads[t].n < |s.nodes|
    ensures NodeOk(Step(s, t), s.threads[t].n)
  {
    var pc, n := s.threads[t], s.threads[t].n;
    assert ThreadOk(s, t) && NodeOk(s, n);
    HeadListed(s);
    HoldersBounds(s.threads, n);
    var o := Act(s.nodes[n], s.head, pc, t);
    HoldersAfter(s.threads, t, o.pc, n);
    ActKeepsCount(s.nodes[n], s.head, pc, t, Holders(s.threads, n));
    ActKeepsOwn(s.nodes[n], s.head, pc, t);
    if InHands(s.nodes[n].place) && s.nodes[n].place.who != t {
      ActKeepsHands(s.nodes[n], s.head, pc, t, Holders(s.threads, n));
    }
  }

  /** Every other node. */
  lemma {:induction false} StepKeepsOtherNode(s: State, t: nat, n: nat)
    requires Inv(s) && t < |s.threads| && n < |s.nodes| && s.threads[t].OnNode()
    requires s.threads[t].n < |s.nodes| && n != s.threads[t].n
    ensures NodeOk(Step(s, t), n)
  {
    var pc := s.threads[t];
    assert ThreadOk(s, t) && NodeOk(s, n);
    HeadListed(s);
    HoldersBounds(s.threads, n);
    var o := Act(s.nodes[pc.n], s.head, pc, t);
    HoldersAfter(s.threads, t, o.pc, n);
    ActKeepsOwn(s.nodes[pc.n], s.head, pc, t);
  }

  lemma {:induction false} StepKeepsNode(s: State, t: nat, n: nat)
    requires Inv(s) && t < |s.threads| && n < |s.nodes| && s.threads[t].OnNode()
    requires s.threads[t].n < |s.nodes|
    ensures NodeOk(Step(s, t), n)
  {
    hide Inv, NodeOk, Step;
    if n == s.threads[t].n {
      StepKeepsOwnNode(s, t);
    } else {
      StepKeepsOtherNode(s, t, n);
    }
  }

  lemma {:induction false} StepKeepsOwnThread(s: State, t: nat)
    requires Inv(s) && t < |s.threads| && s.threads[t].OnNode()
    requires s.threads[t].n < |s.nodes|
    ensures ThreadOk(Step(s, t), t)
  {
    var pc := s.threads[t];
    assert ThreadOk(s, t) && NodeOk(s, pc.n);
    HeadListed(s);
    ActKeepsOwn(s.nodes[pc.n], s.head, pc, t);
  }

  lemma {:induction false} StepKeepsOtherThread(s: State, t: nat, u: nat)
    requires Inv(s) && t < |s.threads| && u < |s.threads| && t != u && s.threads[t].OnNode()
    requires s.threads[t].n < |s.nodes|
    ensures ThreadOk(Step(s, t), u)
  {
    var pc, pcu := s.threads[t], s.threads[u];
    assert ThreadOk(s, t) && ThreadOk(s, u) && NodeOk(s, pc.n);
    HeadListed(s);
    if pcu.OnNode() && pcu.n == pc.n {
      HoldersBounds(s.threads, pc.n);
      ActKeepsOther(s.nodes[pc.n], s.head, pc, t, pcu, u, Holders(s.threads, pc.n));
    }
  }

  lemma {:induction false} StepKeepsThread(s: State, t: nat, u: nat)
    requires Inv(s) && t < |s.threads| && u < |s.threads| && s.threads[t].OnNode()
    requires s.threads[t].n < |s.nodes|
    ensures ThreadOk(Step(s, t), u)
  {
    hide Inv, ThreadOk, Step;
    if t == u {
      StepKeepsOwnThread(s, t);
    } else {
      StepKeepsOtherThread(s, t, u);
    }
  }

  /** A successful `Link` grows the list by one node at the front. */
  lemma {:induction false} LinkKeepsChain(s: State, t: nat)
    requires Inv(s) && t < |s.threads| && s.threads[t].Link? && s.head == s.threads[t].head
    requires s.threads[t].n < |s.nodes|
    ensures ChainOk(Step(s, t))
  {
    var s', n := Step(s, t), s.threads[t].n;
    assert ThreadOk(s, t);
    forall i | 0 <= i < |s'.chain| ensures LinkOk(s', i) && (i > 0 ==> s'.chain[i] != n) {
      if i > 0 { assert LinkOk(s, i - 1); }
    }
    forall i, j | 0 <= i < j < |s'.chain| ensures s'.chain[i] != s'.chain[j] {
      if i > 0 { assert s.chain[i - 1] != s.chain[j - 1]; }
    }
    forall m | 0 <= m < |s'.nodes| && s'.nodes[m].place == Listed ensures m in s'.chain {
      if m != n { assert m in s.chain; }
    }
  }

  /** A successful `Unlink` takes the first node off: its `next`, read earlier, is still the second node. */
  lemma {:induction false} UnlinkKeepsChain(s: State, t: nat)
    requires Inv(s) && t < |s.threads| && s.threads[t].Unlink? && s.head == At(s.threads[t].n)
    requires s.threads[t].n < |s.nodes|
    ensures ChainOk(Step(s, t))
  {
    var s' := Step(s, t);
    HeadListed(s);
    assert ThreadOk(s, t) && LinkOk(s, 0);
    forall i | 0 <= i < |s'.chain| ensures LinkOk(s', i) {
      assert LinkOk(s, i + 1);
    }
  }

  /** The list is untouched by a change that keeps it, keeps which nodes are listed and keeps their links. */
  lemma {:induction false} ChainFrame(s: State, s': State)
    requires ChainOk(s) && s'.head == s.head && s'.chain == s.chain && |s'.nodes| == |s.nodes|
    requires forall n :: 0 <= n < |s.nodes| ==>
      && (s'.nodes[n].place == Listed <==> s.nodes[n].place == Listed)
      && (s.nodes[n].place == Listed ==> s'.nodes[n].next == s.nodes[n].next)
    ensures ChainOk(s')
  {
    forall i | 0 <= i < |s'.chain| ensures LinkOk(s', i) { assert LinkOk(s, i); }
  }

  /** Every other access leaves the list, and the nodes on it, as they are. */
  lemma {:induction false} StepKeepsChain(s: State, t: nat)
    requires Inv(s) && t < |s.threads| && s.threads[t].OnNode()
    requires s.threads[t].n < |s.nodes|
    ensures ChainOk(Step(s, t))
  {
    var s', pc := Step(s, t), s.threads[t];
    assert ThreadOk(s, t) && NodeOk(s, pc.n);
    HoldersBounds(s.threads, pc.n);
    if pc.Link? && s.head == pc.head {
      LinkKeepsChain(s, t);
    } else if pc.Unlink? && s.head == At(pc.n) {
      UnlinkKeepsChain(s, t);
    } else {
      ChainFrame(s, s');
    }
  }

  /** Every access of every thread keeps the invariant. */
  lemma {:induction false} StepKeepsInv(s: State, t: nat)
    requires Inv(s) && t < |s.threads|
    ensures s.threads[t].OnNode() ==> s.threads[t].n < |s.nodes|
    ensures Inv(Step(s, t))
  {
    assert ThreadOk(s, t);
    var s' := Step(s, t);
    if s.threads[t].OnNode() {
      StepKeepsChain(s, t);
      forall n | 0 <= n < |s'.nodes| ensures NodeOk(s', n) { StepKeepsNode(s, t, n); }
      forall u | 0 <= u < |s'.threads| ensures ThreadOk(s', u) { StepKeepsThread(s, t, u); }
    } else {
      HeadListed(s);
      IdleStepKeepsInv(s, t, s'.threads[t]);
    }
  }

  /** A thread that holds nothing may move to the start of a `try_get` round. */
  lemma {:induction false} IdleStepKeepsInv(s: State, t: nat, pc: Pc)
    requires Inv(s) && t < |s.threads| && !s.threads[t].OnNode()
    requires pc.Idle? || pc.LoadHead? || (pc.LoadRefs? && pc.n < |s.nodes|)
    ensures Inv(s.(threads := s.threads[t := pc]))
  {
    var s' := s.(threads := s.threads[t := pc]);
    forall n | 0 <= n < |s'.nodes| ensures NodeOk(s', n) {
      assert NodeOk(s, n);
      HoldersAfter(s.threads, t, pc, n);
    }
    forall u | 0 <= u < |s'.threads| ensures ThreadOk(s', u) { assert ThreadOk(s, u); }
    ChainFrame(s, s');
  }

  lemma {:induction false} CallAddKeepsOthers(s: State, t: nat, n: nat)
    requires Allowed(s, CallAdd(t, n))
    requires forall m :: 0 <= m < |s.nodes| ==> NodeOk(s, m)
    requires forall u :: 0 <= u < |s.threads| ==> ThreadOk(s, u)
    ensures var s' := Apply(s, CallAdd(t, n));
      && (forall m :: 0 <= m < |s.nodes| ==> NodeOk(s', m))
      && (forall u :: 0 <= u < |s.threads| ==> ThreadOk(s', u))
  {
    var s' := Apply(s, CallAdd(t, n));
    forall m | 0 <= m < |s.nodes| ensures NodeOk(s', m) {
      assert NodeOk(s, m);
      HoldersAfter(s.threads, t, AddFetch(n), m);
    }
    forall u | 0 <= u < |s.threads| ensures ThreadOk(s', u) { assert ThreadOk(s, u); }
  }

  lemma {:induction false} CallAddKeepsInv(s: State, t: nat, n: nat)
    requires Inv(s) && Allowed(s, CallAdd(t, n))
    ensures Inv(Apply(s, CallAdd(t, n)))
  {
    CallAddKeepsOthers(s, t, n);
    ChainFrame(s, Apply(s, CallAdd(t, n)));
  }

  lemma {:induction false} ApplyKeepsInv(s: State, e: Event)
    requires Inv(s) && Allowed(s, e)
    ensures Inv(Apply(s, e))
  {
    match e
    case CallAdd(t, n) => CallAddKeepsInv(s, t, n);
    case CallTryGet(t) => IdleStepKeepsInv(s, t, LoadHead);
    case Run(t) => StepKeepsInv(s, t);
  }

  // ---------------------------------------------------------------- runs

  /** All nodes belong to callers, the list is empty, nobody is inside a call. */
  function Init(nodes: nat, threads: nat): State {
    State(Null, seq(nodes, _ => Node(0, Null, Owned)), seq(threads, _ => Idle), [])
  }

  predicate Possible(s: State, es: seq<Event>)
    decreases es
  {
    es == [] || (Allowed(s, es[0]) && Possible(Apply(s, es[0]), es[1..]))
  }

  function Exec(s: State, es: seq<Event>): State
    requires Possible(s, es)
    decreases es
  {
    if es == [] then s else Exec(Apply(s, es[0]), es[1..])
  }

  lemma {:induction false} InitInv(nodes: nat, threads: nat)
    requires threads < SHOULD_BE_ON_FREELIST - 1
    ensures Inv(Init(nodes, threads))
  {
    var s := Init(nodes, threads);
    forall n | 0 <= n < nodes ensures NodeOk(s, n) {
      SumNonNegative(s.threads, HoldWeight(n));
      SumNotPositive(s.threads, HoldWeight(n));
      assert Holders(s.threads, n) == 0;
      assert s.nodes[n] == Node(0, Null, Owned);
    }
    forall t | 0 <= t < threads ensures ThreadOk(s, t) {
      assert s.threads[t] == Idle;
    }
  }

  /** The invariant holds after every run, of any length, of any number of threads. */
  lemma {:induction false} ReachableInv(s: State, es: seq<Event>)
    requires Inv(s) && Possible(s, es)
    ensures Inv(Exec(s, es))
    decreases es
  {
    if es != [] {
      ApplyKeepsInv(s, es[0]);
      ReachableInv(Apply(s, es[0]), es[1..]);
    }
  }

  // ---------------------------------------------------------------- what the list promises

  lemma {:induction false} WordSplits(s: State, n: nat)
    requires Inv(s) && n < |s.nodes|
    ensures s.nodes[n].refs % SHOULD_BE_ON_FREELIST == Share(s.nodes[n].place) + Holders(s.threads, n)
    ensures s.nodes[n].refs / SHOULD_BE_ON_FREELIST == 1 <==> s.nodes[n].place.Deferred? || s.nodes[n].place.Adding?
    ensures s.nodes[n].refs < WORD
  {
    assert NodeOk(s, n);
    HoldersBounds(s.threads, n);
    var low := Share(s.nodes[n].place) + Holders(s.threads, n);
    assert 0 <= low < SHOULD_BE_ON_FREELIST;
    assert s.nodes[n].refs == low || s.nodes[n].refs == SHOULD_BE_ON_FREELIST + low;
  }

  /** The word splits exactly into flag and count: the count never runs into the flag bit. */
  lemma {:induction false} ReferenceCounts(nodes: nat, threads: nat, es: seq<Event>, n: nat)
    requires threads < SHOULD_BE_ON_FREELIST - 1 && n < nodes
    requires Possible(Init(nodes, threads), es)
    ensures var s := Exec(Init(nodes, threads), es);
      && n < |s.nodes|
      && s.nodes[n].refs % SHOULD_BE_ON_FREELIST == Share(s.nodes[n].place) + Holders(s.threads, n)
      && (s.nodes[n].refs / SHOULD_BE_ON_FREELIST == 1 <==> s.nodes[n].place.Deferred? || s.nodes[n].place.Adding?)
      && s.nodes[n].refs < WORD
  {
    InitInv(nodes, threads);
    ReachableInv(Init(nodes, threads), es);
    SizesFixed(Init(nodes, threads), es);
    WordSplits(Exec(Init(nodes, threads), es), n);
  }

  lemma {:induction false} SizesFixed(s: State, es: seq<Event>)
    requires Possible(s, es)
    ensures |Exec(s, es).nodes| == |s.nodes| && |Exec(s, es).threads| == |s.threads|
    decreases es
  {
    if es != [] {
      SizesFixed(Apply(s, es[0]), es[1..]);
    }
  }

  /** A getter whose CAS succeeds really installs the second node of the list as the head. */
  lemma {:induction false} UnlinkInstallsSuccessor(s: State, t: nat)
    requires Inv(s) && t < |s.threads| && s.threads[t].Unlink? && s.head == At(s.threads[t].n)
    ensures s.threads[t].n < |s.nodes|
    ensures s.chain != [] && s.chain[0] == s.threads[t].n
    ensures s.threads[t].next == ChainPtr(s.chain, 1)
    ensures Step(s, t).chain == s.chain[1..] && Step(s, t).head == ChainPtr(s.chain[1..], 0)
  {
    assert ThreadOk(s, t);
    HeadListed(s);
  }

  /** The assertion the source makes after unlinking: the flag bit is clear. */
  lemma {:induction false} TakenIsUnflagged(s: State, t: nat)
    requires Inv(s) && t < |s.threads| && s.threads[t].Take?
    ensures s.threads[t].n < |s.nodes|
    ensures s.nodes[s.threads[t].n].refs < SHOULD_BE_ON_FREELIST
    ensures Step(s, t).nodes[s.threads[t].n].refs == s.nodes[s.threads[t].n].refs - 2
  {
    assert ThreadOk(s, t) && NodeOk(s, s.threads[t].n);
    HoldersBounds(s.threads, s.threads[t].n);
  }

  predicate AddsBack(pc: Pc) {
    pc.ReadHead? || pc.SetNext? || pc.SetRefs? || pc.Link? || pc.Unpublish?
  }

  /** At most one thread at a time runs `add_knowing_refcount_is_zero` on a node. */
  lemma {:induction false} OneAdderPerNode(s: State, t: nat, u: nat)
    requires Inv(s) && t < |s.threads| && u < |s.threads|
    requires AddsBack(s.threads[t]) && AddsBack(s.threads[u]) && s.threads[t].n == s.threads[u].n
    ensures t == u
  {
    assert ThreadOk(s, t) && ThreadOk(s, u);
  }

  lemma {:induction false} OwnedStays(s: State, e: Event, n: nat)
    requires Inv(s) && Allowed(s, e) && n < |s.nodes| && s.nodes[n].place == Owned
    requires !(e.CallAdd? && e.n == n)
    ensures n < |Apply(s, e).nodes| && Apply(s, e).nodes[n].place == Owned
  {
    if e.Run? && s.threads[e.t].OnNode() && s.threads[e.t].n == n {
      assert ThreadOk(s, e.t) && NodeOk(s, n);
      HeadListed(s);
      HoldersBounds(s.threads, n);
      ActKeepsOwned(s.nodes[n], s.head, s.threads[e.t], e.t, Holders(s.threads, n));
    }
  }

  /** A node that was handed out stays its owner's until somebody adds it. */
  lemma {:induction false} OwnedUntilAdded(s: State, es: seq<Event>, n: nat)
    requires Inv(s) && Possible(s, es) && n < |s.nodes| && s.nodes[n].place == Owned
    requires forall i :: 0 <= i < |es| ==> !(es[i].CallAdd? && es[i].n == n)
    ensures n < |Exec(s, es).nodes| && Exec(s, es).nodes[n].place == Owned
    decreases es
  {
    if es != [] {
      var s1 := Apply(s, es[0]);
      ApplyKeepsInv(s, es[0]);
      OwnedStays(s, es[0], n);
      OwnedUntilAdded(s1, es[1..], n);
    }
  }

  /** No node is handed to two callers without an `add` of it in between. */
  lemma {:induction false} HandedOutOnce(s: State, t: nat, es: seq<Event>, u: nat, n: nat)
    requires Inv(s) && t < |s.threads| && s.threads[t] == Take(n)
    requires Allowed(s, Run(t)) && Possible(Step(s, t), es)
    requires u < |Exec(Step(s, t), es).threads| && Exec(Step(s, t), es).threads[u] == Take(n)
    ensures exists i :: 0 <= i < |es| && es[i].CallAdd? && es[i].n == n
  {
    StepKeepsInv(s, t);
    ReachableInv(Step(s, t), es);
    if forall i :: 0 <= i < |es| ==> !(es[i].CallAdd? && es[i].n == n) {
      OwnedUntilAdded(Step(s, t), es, n);
      OwnedIsNotTaken(Exec(Step(s, t), es), u, n);
    }
  }

  lemma {:induction false} OwnedIsNotTaken(s: State, u: nat, n: nat)
    requires Inv(s) && u < |s.threads| && n < |s.nodes| && s.nodes[n].place == Owned
    ensures s.threads[u] != Take(n)
  {
    assert ThreadOk(s, u);
  }

  /** When all calls have returned every node is either its owner's, with count zero, or on the list once. */
  lemma {:induction false} NothingLost(s: State, n: nat)
    requires Inv(s) && n < |s.nodes|
    requires forall t :: 0 <= t < |s.threads| ==> s.threads[t].Idle?
    ensures
      || (s.nodes[n].place == Owned && s.nodes[n].refs == 0 && n !in s.chain)
      || (s.nodes[n].place == Listed && s.nodes[n].refs == 1 && n in s.chain)
  {
    assert NodeOk(s, n);
    SumNotPositive(s.threads, HoldWeight(n));
    HoldersBounds(s.threads, n);
    if n in s.chain {
      var i :| 0 <= i < |s.chain| && s.chain[i] == n;
      assert LinkOk(s, i);
    }
  }

  // ---------------------------------------------------------------- the code

  /**
   The list as the source keeps it: a head, an array of nodes, and for every thread the point
   its call has reached. `Resume` performs the next shared-memory access of one thread.
   */
  class FreeList {
    var freeListHead: Ptr
    const nodes: array<Node>
    const pcs: array<Pc>
    ghost var chain: seq<nat>

    constructor (nodeCount: nat, threadCount: nat)
      ensures View() == Init(nodeCount, threadCount)
      ensures fresh(nodes) && fresh(pcs)
    {
      freeListHead := Null;
      nodes := new Node[nodeCount](_ => Node(0, Null, Owned));
      pcs := new Pc[threadCount](_ => Idle);
      chain := [];
      new;
      assert nodes[..] == seq(nodeCount, _ => Node(0, Null, Owned));
      assert pcs[..] == seq(threadCount, _ => Idle);
    }

    ghost function View(): State
      reads this, nodes, pcs
    {
      State(freeListHead, nodes[..], pcs[..], chain)
    }

    /** `add(node)` is entered by the node's owner. */
    method Add(t: nat, n: nat)
      requires Inv(View()) && Allowed(View(), CallAdd(t, n))
      modifies nodes, pcs
      ensures View() == Apply(old(View()), CallAdd(t, n)) && Inv(View())
    {
      CallAddKeepsInv(View(), t, n);
      nodes[n] := nodes[n].(place := Returning(t));
      pcs[t] := AddFetch(n);
    }

    /** `try_get()` is entered. */
    method TryGet(t: nat)
      requires Inv(View()) && Allowed(View(), CallTryGet(t))
      modifies pcs
      ensures View() == Apply(old(View()), CallTryGet(t)) && Inv(View())
    {
      IdleStepKeepsInv(View(), t, LoadHead);
      pcs[t] := LoadHead;
    }

    /** An atomic addition to `freeListRefs`, modulo the word size; returns the value before. */
    method FetchAdd(n: nat, delta: nat) returns (before: nat)
      requires n < nodes.Length
      modifies nodes
      ensures before == old(nodes[n].refs)
      ensures nodes[..] == old(nodes[..])[n := old(nodes[n]).(refs := (before + delta) % WORD)]
    {
      before := nodes[n].refs;
      nodes[n] := nodes[n].(refs := (before + delta) % WORD);
    }

    /** Thread `t` performs the access of `add`. */
    method ResumeAdd(t: nat)
      requires Inv(View()) && Allowed(View(), Run(t)) && pcs[t].AddFetch?
      modifies nodes, pcs
      ensures View() == Step(old(View()), t)
    {
      var n := pcs[t].n;
      var refs := FetchAdd(n, SHOULD_BE_ON_FREELIST);
      if refs == 0 {
        nodes[n] := nodes[n].(place := Adding(t));
        pcs[t] := ReadHead(n, ToCaller);
      } else {
        nodes[n] := nodes[n].(place := Deferred);
        pcs[t] := Idle;
      }
    }

    /** Thread `t` performs its next access in `add_knowing_refcount_is_zero`. */
    method ResumeAdding(t: nat)
      requires Inv(View()) && Allowed(View(), Run(t)) && AddsBack(pcs[t])
      modifies this, nodes, pcs
      ensures View() == Step(old(View()), t)
    {
      var n := pcs[t].n;
      match pcs[t] {
        case ReadHead(_, ret) =>
          pcs[t] := SetNext(n, freeListHead, ret);
        case SetNext(_, head, ret) =>
          nodes[n] := nodes[n].(next := head);
          pcs[t] := SetRefs(n, head, ret);
        case SetRefs(_, head, ret) =>
          nodes[n] := nodes[n].(refs := 1, place := Publishing(t));
          pcs[t] := Link(n, head, ret);
        case Link(_, head, ret) =>
          if freeListHead == head {
            freeListHead := At(n);
            chain := [n] + chain;
            nodes[n] := nodes[n].(place := Listed);
            pcs[t] := AfterAdding(ret);
          } else {
            pcs[t] := Unpublish(n, freeListHead, ret);
          }
        case Unpublish(_, head, ret) =>
          var refs := FetchAdd(n, SHOULD_BE_ON_FREELIST - 1);
          if refs == 1 {
            nodes[n] := nodes[n].(place := Adding(t));
            pcs[t] := SetNext(n, head, ret);
          } else {
            nodes[n] := nodes[n].(place := Deferred);
            pcs[t] := AfterAdding(ret);
          }
      }
    }

    /** Thread `t` performs its next access in `try_get`; `got` is the node returned with it, if one is. */
    method ResumeTryGet(t: nat) returns (got: Ptr)
      requires Inv(View()) && Allowed(View(), Run(t)) && !AddsBack(pcs[t]) && !pcs[t].AddFetch?
      modifies this, nodes, pcs
      ensures View() == Step(old(View()), t)
      ensures got == if old(pcs[t]).Take? then At(old(pcs[t]).n) else Null
    {
      hide Inv;
      got := Null;
      match pcs[t] {
        case Idle =>
        case LoadHead =>
          pcs[t] := LoopOn(freeListHead);
        case LoadRefs(n) =>
          var refs := nodes[n].refs;
          pcs[t] := if refs % SHOULD_BE_ON_FREELIST == 0 then LoadHead else Acquire(n, refs);
        case Acquire(n, refs) =>
          if nodes[n].refs == refs {
            nodes[n] := nodes[n].(refs := (refs + 1) % WORD);
            pcs[t] := LoadNext(n);
          } else {
            pcs[t] := LoadHead;
          }
        case LoadNext(n) =>
          pcs[t] := Unlink(n, nodes[n].next);
        case Unlink(n, next) =>
          if freeListHead == At(n) {
            freeListHead := next;
            chain := if chain == [] then [] else chain[1..];
            nodes[n] := nodes[n].(place := Taken(t));
            pcs[t] := Take(n);
          } else {
            pcs[t] := Release(n, freeListHead);
          }
        case Take(n) =>
          var refs := FetchAdd(n, WORD - 2);
          nodes[n] := nodes[n].(place := Owned);
          pcs[t] := Idle;
          got := At(n);
        case Release(n, head) =>
          var refs := FetchAdd(n, WORD - 1);
          if refs == SHOULD_BE_ON_FREELIST + 1 {
            nodes[n] := nodes[n].(place := Adding(t));
            pcs[t] := ReadHead(n, ToLoop(head));
          } else {
            pcs[t] := LoopOn(head);
          }
      }
    }

    /** Thread `t` performs its next access, wherever it is. */
    method Resume(t: nat) returns (got: Ptr)
      requires Inv(View()) && Allowed(View(), Run(t))
      modifies this, nodes, pcs
      ensures View() == Step(old(View()), t) && Inv(View())
      ensures got == if old(pcs[t]).Take? then At(old(pcs[t]).n) else Null
    {
      StepKeepsInv(View(), t);
      got := Null;
      if pcs[t].AddFetch? {
        ResumeAdd(t);
      } else if AddsBack(pcs[t]) {
        ResumeAdding(t);
      } else {
        got := ResumeTryGet(t);
      }
    }
  }
}
