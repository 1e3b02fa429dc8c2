/**
 The tagged-pointer stack of chunks that the daking queues share. A popper reads
 `next_chunk_` of a node that another thread may have popped already and overwritten; the
 compare-and-swap on pointer and tag must then fail. The tag is taken as unbounded.
 */
module ChunkStack {

  /** `At(n)` may be garbage: `next_chunk_` shares its memory with a value. */
  datatype Ptr = Null | At(node: nat)

  datatype Tagged = Tagged(node: Ptr, tag: nat)

  datatype Pc =
    | Idle
    | PushLoad(n: nat)
    | PushWrite(n: nat, top: Tagged)
    | PushCas(n: nat, top: Tagged)
    | PopLoad
    | PopRead(top: Tagged)
    | PopCas(top: Tagged, next: Ptr)

  /** Where a chunk is (auxiliary): at a height in the stack, being pushed, or anywhere else. */
  datatype Place = Elsewhere | Pushing(t: nat) | Stacked(height: nat)

  /** `stack` (auxiliary) lists the chunks from the bottom to the top. */
  datatype State = State(top: Tagged, next: seq<Ptr>, threads: seq<Pc>, stack: seq<nat>, place: seq<Place>)

  /** `spurious`: a weak compare-and-swap may fail although the values agree. */
  datatype Event =
    | CallPush(t: nat, n: nat)
    | CallPop(t: nat)
    | Run(t: nat, spurious: bool)
    | Overwrite(n: nat, garbage: Ptr)

  function TopOf(stack: seq<nat>): Ptr {
    if stack == [] then Null else At(stack[|stack| - 1])
  }

  // ---------------------------------------------------------------- the steps

  /** The head of the loop of `Try_pop`. */
  function PopLoop(top: Tagged): Pc {
    if top.node == Null then Idle else PopRead(top)
  }

  function Goto(s: State, t: nat, pc: Pc): State
    requires t < |s.threads|
  {
    s.(threads := s.threads[t := pc])
  }

  function Step(s: State, t: nat, spurious: bool): State
    requires Runnable(s, t)
  {
    match s.threads[t]
    case Idle => s
    case PushLoad(n) => Goto(s, t, PushWrite(n, s.top))
    case PushWrite(n, top) => Goto(s.(next := s.next[n := top.node]), t, PushCas(n, top))
    case PushCas(n, top) =>
      if s.top == top && !spurious then
        Goto(s.(top := Tagged(At(n), top.tag + 1), stack := s.stack + [n], place := s.place[n := Stacked(|s.stack|)]), t, Idle)
      else Goto(s, t, PushWrite(n, s.top))
    case PopLoad => Goto(s, t, PopLoop(s.top))
    case PopRead(top) => Goto(s, t, PopCas(top, s.next[top.node.node]))
    case PopCas(top, next) =>
      if s.top == top && !spurious then
        Goto(s.(top := Tagged(next, top.tag + 1),
                stack := if s.stack == [] then [] else s.stack[..|s.stack| - 1],
                place := s.place[top.node.node := Elsewhere]), t, Idle)
      else Goto(s, t, PopLoop(s.top))
  }

  /** The node a thread works on exists. */
  predicate Runnable(s: State, t: nat) {
    && t < |s.threads| && |s.next| == |s.place|
    && var pc := s.threads[t];
       && (pc.PushLoad? || pc.PushWrite? || pc.PushCas? ==> pc.n < |s.next|)
       && (pc.PopRead? || pc.PopCas? ==> pc.top.node.At? && pc.top.node.node < |s.next|)
  }

  /** A chunk is pushed by who has it; the memory of a chunk that is not in the stack is anybody's to overwrite. */
  predicate Allowed(s: State, e: Event) {
    match e
    case CallPush(t, n) => t < |s.threads| && s.threads[t].Idle? && n < |s.place| && s.place[n].Elsewhere?
    case CallPop(t) => t < |s.threads| && s.threads[t].Idle?
    case Run(t, _) => Runnable(s, t)
    case Overwrite(n, _) => n < |s.next| && n < |s.place| && s.place[n].Elsewhere?
  }

  function Apply(s: State, e: Event): State
    requires Allowed(s, e)
  {
    match e
    case CallPush(t, n) => Goto(s.(place := s.place[n := Pushing(t)]), t, PushLoad(n))
    case CallPop(t) => Goto(s, t, PopLoad)
    case Run(t, spurious) => Step(s, t, spurious)
    case Overwrite(n, garbage) => s.(next := s.next[n := garbage])
  }

  // ---------------------------------------------------------------- the invariant

  /** The chunk at height `i` points to the one below. */
  predicate HeightOk(s: State, i: nat) {
    && i < |s.stack| && s.stack[i] < |s.next| && s.stack[i] < |s.place|
    && s.place[s.stack[i]] == Stacked(i)
    && s.next[s.stack[i]] == TopOf(s.stack[..i])
  }

  predicate PlaceOk(s: State, n: nat) {
    && n < |s.place|
    && match s.place[n] {
         case Elsewhere => true
         case Pushing(t) => t < |s.threads| && var pc := s.threads[t]; (pc.PushLoad? || pc.PushWrite? || pc.PushCas?) && pc.n == n
         case Stacked(i) => i < |s.stack| && s.stack[i] == n
       }
  }

  /** A remembered top is in the past, unless the tags agree: then it is the present one. */
  predicate Remembered(s: State, top: Tagged) {
    && top.tag <= s.top.tag
    && (top.tag == s.top.tag ==> top == s.top)
    && (top.node.At? ==> top.node.node < |s.next|)
  }

  predicate ThreadOk(s: State, t: nat) {
    && t < |s.threads|
    && var pc := s.threads[t];
       && (pc.PushLoad? || pc.PushWrite? || pc.PushCas? ==> pc.n < |s.place| && s.place[pc.n] == Pushing(t))
       && (pc.PushWrite? ==> Remembered(s, pc.top))
       && (pc.PushCas? ==> Remembered(s, pc.top) && pc.n < |s.next| && s.next[pc.n] == pc.top.node)
       && (pc.PopRead? ==> Remembered(s, pc.top) && pc.top.node.At?)
       && (pc.PopCas? ==>
             Remembered(s, pc.top) && pc.top.node.At?
             && (pc.top.tag == s.top.tag ==> s.stack != [] && pc.next == TopOf(s.stack[..|s.stack| - 1])))
  }

  ghost predicate Inv(s: State) {
    && |s.next| == |s.place|
    && s.top.node == TopOf(s.stack)
    && (forall i :: 0 <= i < |s.stack| ==> HeightOk(s, i))
    && (forall n :: 0 <= n < |s.place| ==> PlaceOk(s, n))
    && (forall t :: 0 <= t < |s.threads| ==> ThreadOk(s, t))
  }

  lemma {:induction false} ThreadRunnable(s: State, t: nat)
    requires Inv(s) && t < |s.threads|
    ensures Runnable(s, t)
  {
    assert ThreadOk(s, t);
  }

  lemma {:induction false} TopIsStacked(s: State)
    requires Inv(s) && s.stack != []
    ensures HeightOk(s, |s.stack| - 1)
  {
  }

  lemma {:induction false} StepKeepsHeights(s: State, t: nat, spurious: bool)
    requires Inv(s) && Runnable(s, t)
    ensures var s' := Step(s, t, spurious);
      && s'.top.node == TopOf(s'.stack)
      && (forall i :: 0 <= i < |s'.stack| ==> HeightOk(s', i))
  {
    var s' := Step(s, t, spurious);
    assert ThreadOk(s, t);
    if s.stack != [] { TopIsStacked(s); }
    forall i | 0 <= i < |s'.stack| ensures HeightOk(s', i) {
      if i < |s.stack| {
        assert HeightOk(s, i);
        assert s'.stack[..i] == s.stack[..i];
      } else {
        assert s'.stack[..i] == s.stack;
      }
    }
  }

  lemma {:induction false} StepKeepsPlaces(s: State, t: nat, spurious: bool)
    requires Inv(s) && Runnable(s, t)
    ensures var s' := Step(s, t, spurious); forall n :: 0 <= n < |s'.place| ==> PlaceOk(s', n)
  {
    var s' := Step(s, t, spurious);
    assert ThreadOk(s, t);
    if s.stack != [] { TopIsStacked(s); }
    forall n | 0 <= n < |s'.place| ensures PlaceOk(s', n) { assert PlaceOk(s, n); }
  }

  lemma {:induction false} StepKeepsSelf(s: State, t: nat, spurious: bool)
    requires Inv(s) && Runnable(s, t)
    ensures ThreadOk(Step(s, t, spurious), t)
  {
    assert ThreadOk(s, t);
    if s.stack != [] { TopIsStacked(s); }
  }

  lemma {:induction false} StepKeepsOther(s: State, t: nat, spurious: bool, u: nat)
    requires Inv(s) && Runnable(s, t) && u < |s.threads| && u != t
    ensures ThreadOk(Step(s, t, spurious), u)
  {
    assert ThreadOk(s, t) && ThreadOk(s, u);
    if s.stack != [] { TopIsStacked(s); }
  }

  lemma {:induction false} OtherKeepsInv(s: State, e: Event)
    requires Inv(s) && Allowed(s, e) && !e.Run?
    ensures Inv(Apply(s, e))
  {
    var s' := Apply(s, e);
    forall i | 0 <= i < |s'.stack| ensures HeightOk(s', i) { assert HeightOk(s, i); }
    forall n | 0 <= n < |s'.place| ensures PlaceOk(s', n) { assert PlaceOk(s, n); }
    forall u | 0 <= u < |s'.threads| ensures ThreadOk(s', u) { assert ThreadOk(s, u); }
  }

  lemma {:induction false} ApplyKeepsInv(s: State, e: Event)
    requires Inv(s) && Allowed(s, e)
    ensures Inv(Apply(s, e))
  {
    if e.Run? {
      StepKeepsHeights(s, e.t, e.spurious);
      StepKeepsPlaces(s, e.t, e.spurious);
      forall u | 0 <= u < |s.threads| ensures ThreadOk(Step(s, e.t, e.spurious), u) {
        if u == e.t {
          StepKeepsSelf(s, e.t, e.spurious);
        } else {
          StepKeepsOther(s, e.t, e.spurious, u);
        }
      }
    } else {
      OtherKeepsInv(s, e);
    }
  }

  // ---------------------------------------------------------------- runs

  function Init(nodes: nat, threads: nat): State {
    State(Tagged(Null, 0), seq(nodes, _ => Null), seq(threads, _ => Idle), [], seq(nodes, _ => Elsewhere))
  }

  predicate Possible(s: State, es: seq<Event>)
    decreases es
  {
    es == [] || (Allowed(s, es[0]) && Possible(Apply(s, es[0]), es[1..]))
  }

  function Exec(s: State, es: seq<Event>): State
    requires Possible(s, es)
    decreases es
  {
    if es == [] then s else Exec(Apply(s, es[0]), es[1..])
  }

  lemma {:induction false} InitInv(nodes: nat, threads: nat)
    ensures Inv(Init(nodes, threads))
  {
    var s := Init(nodes, threads);
    forall n | 0 <= n < nodes ensures PlaceOk(s, n) {}
    forall t | 0 <= t < threads ensures ThreadOk(s, t) {}
  }

  lemma {:induction false} ReachableInv(s: State, es: seq<Event>)
    requires Inv(s) && Possible(s, es)
    ensures Inv(Exec(s, es))
    decreases es
  {
    if es != [] {
      ApplyKeepsInv(s, es[0]);
      ReachableInv(Apply(s, es[0]), es[1..]);
    }
  }

  // ---------------------------------------------------------------- what the stack promises

  /** The compare-and-swap of thread `t` would succeed now. */
  predicate CasSucceeds(s: State, t: nat) {
    t < |s.threads| && (s.threads[t].PushCas? || s.threads[t].PopCas?) && s.top == s.threads[t].top
  }

  /**
   No ABA: whatever was read from `next_chunk_`, a compare-and-swap that succeeds pushes onto
   the very stack it was prepared for, or installs the true successor of the popped chunk.
   */
  lemma {:induction false} CasRefinesStack(s: State, t: nat)
    requires Inv(s) && CasSucceeds(s, t)
    ensures Runnable(s, t)
    ensures var s' := Step(s, t, false);
      && s'.top.tag == s.top.tag + 1
      && (s.threads[t].PushCas? ==> s'.stack == s.stack + [s.threads[t].n] && s.threads[t].n !in s.stack)
      && (s.threads[t].PopCas? ==>
            && s.stack != [] && s.threads[t].top.node == At(s.stack[|s.stack| - 1])
            && s'.stack == s.stack[..|s.stack| - 1]
            && s.threads[t].next == TopOf(s'.stack))
  {
    assert ThreadOk(s, t);
    if s.threads[t].PushCas? {
      forall i | 0 <= i < |s.stack| ensures s.stack[i] != s.threads[t].n { assert HeightOk(s, i); }
    }
  }

  /** Every other event, a failing compare-and-swap included, leaves stack, top and tag as they are. */
  lemma {:induction false} OnlyCasChangesStack(s: State, e: Event)
    requires Inv(s) && Allowed(s, e) && !(e.Run? && !e.spurious && CasSucceeds(s, e.t))
    ensures Apply(s, e).stack == s.stack && Apply(s, e).top == s.top
  {
  }

  /** A pop that reports an empty stack saw one. */
  lemma {:induction false} EmptyPopSawEmptyStack(s: State, t: nat, spurious: bool)
    requires Inv(s) && Runnable(s, t) && (s.threads[t].PopLoad? || s.threads[t].PopCas?)
    requires Step(s, t, spurious).threads[t].Idle? && !(CasSucceeds(s, t) && !spurious)
    ensures s.stack == []
  {
  }

  /** A chunk is on the stack at most once. */
  lemma {:induction false} NoChunkTwice(s: State, i: nat, j: nat)
    requires Inv(s) && i < |s.stack| && j < |s.stack| && s.stack[i] == s.stack[j]
    ensures i == j
  {
    assert HeightOk(s, i) && HeightOk(s, j);
  }

  /** The number of successful compare-and-swaps in a run. */
  function Swaps(s: State, es: seq<Event>): nat
    requires Possible(s, es)
    decreases es
  {
    if es == [] then 0
    else (if es[0].Run? && !es[0].spurious && CasSucceeds(s, es[0].t) then 1 else 0) + Swaps(Apply(s, es[0]), es[1..])
  }

  /** The tag counts the successful compare-and-swaps, so equal tags mean the same moment. */
  lemma {:induction false} TagCountsSwaps(s: State, es: seq<Event>)
    requires Inv(s) && Possible(s, es)
    ensures Exec(s, es).top.tag == s.top.tag + Swaps(s, es)
    ensures Exec(s, es).top.tag == s.top.tag ==> Exec(s, es).stack == s.stack && Exec(s, es).top == s.top
    decreases es
  {
    if es != [] {
      var e := es[0];
      ApplyKeepsInv(s, e);
      if e.Run? && !e.spurious && CasSucceeds(s, e.t) {
        CasRefinesStack(s, e.t);
      } else {
        OnlyCasChangesStack(s, e);
      }
      TagCountsSwaps(Apply(s, e), es[1..]);
    }
  }

  // ---------------------------------------------------------------- the code

  /** The stack with its tagged top, the `next_chunk_` of every node, and the threads' positions. */
  class Stack {
    var top: Tagged
    const nextChunk: array<Ptr>
    const pcs: array<Pc>
    ghost var stack: seq<nat>
    ghost var place: seq<Place>

    ghost function View(): State
      reads this, nextChunk, pcs
    {
      State(top, nextChunk[..], pcs[..], stack, place)
    }

    constructor (nodes: nat, threads: nat)
      ensures View() == Init(nodes, threads) && Inv(View())
      ensures fresh(nextChunk) && fresh(pcs)
    {
      top := Tagged(Null, 0);
      nextChunk := new Ptr[nodes](_ => Null);
      pcs := new Pc[threads](_ => Idle);
      stack, place := [], seq(nodes, _ => Elsewhere);
      new;
      assert nextChunk[..] == seq(nodes, _ => Null) && pcs[..] == seq(threads, _ => Idle);
      InitInv(nodes, threads);
    }

    method Push(t: nat, n: nat)
      requires Inv(View()) && Allowed(View(), CallPush(t, n))
      modifies this`place, pcs
      ensures Inv(View()) && View() == Apply(old(View()), CallPush(t, n))
    {
      ApplyKeepsInv(View(), CallPush(t, n));
      place := place[n := Pushing(t)];
      pcs[t] := PushLoad(n);
    }

    method TryPop(t: nat)
      requires Inv(View()) && Allowed(View(), CallPop(t))
      modifies pcs
      ensures Inv(View()) && View() == Apply(old(View()), CallPop(t))
    {
      ApplyKeepsInv(View(), CallPop(t));
      pcs[t] := PopLoad;
    }

    method ResumePush(t: nat, spurious: bool)
      requires Runnable(View(), t) && (pcs[t].PushLoad? || pcs[t].PushWrite? || pcs[t].PushCas?)
      modifies this, nextChunk, pcs
      ensures View() == Step(old(View()), t, spurious)
    {
      match pcs[t]
      case PushLoad(n) =>
        pcs[t] := PushWrite(n, top);
      case PushWrite(n, oldTop) =>
        nextChunk[n] := oldTop.node;
        pcs[t] := PushCas(n, oldTop);
      case PushCas(n, oldTop) =>
        if top == oldTop && !spurious {
          top := Tagged(At(n), oldTop.tag + 1);
          place := place[n := Stacked(|stack|)];
          stack := stack + [n];
          pcs[t] := Idle;
        } else {
          pcs[t] := PushWrite(n, top);
        }
    }

    /** `chunk` is what `Try_pop` returns with this access, if it returns a chunk with it. */
    method ResumePop(t: nat, spurious: bool) returns (chunk: Ptr)
      requires Runnable(View(), t) && (pcs[t].PopLoad? || pcs[t].PopRead? || pcs[t].PopCas?)
      modifies this, pcs
      ensures View() == Step(old(View()), t, spurious)
      ensures chunk == if old(CasSucceeds(View(), t)) && !spurious then old(pcs[t]).top.node else Null
    {
      chunk := Null;
      match pcs[t]
      case PopLoad =>
        pcs[t] := PopLoop(top);
      case PopRead(oldTop) =>
        pcs[t] := PopCas(oldTop, nextChunk[oldTop.node.node]);
      case PopCas(oldTop, next) =>
        if top == oldTop && !spurious {
          top := Tagged(next, oldTop.tag + 1);
          stack := if stack == [] then [] else stack[..|stack| - 1];
          place := place[oldTop.node.node := Elsewhere];
          pcs[t] := Idle;
          chunk := oldTop.node;
        } else {
          pcs[t] := PopLoop(top);
        }
    }
  }
}
