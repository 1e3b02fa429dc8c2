/** What callers of the chunk stack get: the chunks they pushed, last in first out, whatever else goes on. */
module ChunkStackCalls {
  import opened ChunkStack

  /** The threads' last pushes, as the events of the calls gave them. */
  function Asked(e: Event, asked: map<nat, nat>): map<nat, nat> {
    if e.CallPush? then asked[e.t := e.n] else asked
  }

  /** The stack that the successful swaps make of the chunks that were to be pushed. */
  function NextStack(s: State, e: Event, asked: map<nat, nat>, stack: seq<nat>): seq<nat> {
    if e.Run? && !e.spurious && CasSucceeds(s, e.t) then
      if s.threads[e.t].PushCas? then (if e.t in asked then stack + [asked[e.t]] else stack)
      else if stack == [] then [] else stack[..|stack| - 1]
    else stack
  }

  function StackOf(s: State, es: seq<Event>, asked: map<nat, nat>, stack: seq<nat>): seq<nat>
    requires Possible(s, es)
    decreases es
  {
    if es == [] then stack
    else StackOf(Apply(s, es[0]), es[1..], Asked(es[0], asked), NextStack(s, es[0], asked, stack))
  }

  /** A push works on the chunk it was called with. */
  predicate Carries(s: State, asked: map<nat, nat>) {
    forall t :: 0 <= t < |s.threads| && (s.threads[t].PushLoad? || s.threads[t].PushWrite? || s.threads[t].PushCas?) ==>
      t in asked && asked[t] == s.threads[t].n
  }

  lemma {:induction false} EventStacks(s: State, e: Event, asked: map<nat, nat>)
    requires Inv(s) && Allowed(s, e) && Carries(s, asked)
    ensures Carries(Apply(s, e), Asked(e, asked)) && Apply(s, e).stack == NextStack(s, e, asked, s.stack)
  {
    if e.Run? && !e.spurious && CasSucceeds(s, e.t) {
      CasRefinesStack(s, e.t);
    } else {
      OnlyCasChangesStack(s, e);
    }
  }

  lemma {:induction false} StacksAlong(s: State, es: seq<Event>, asked: map<nat, nat>)
    requires Inv(s) && Possible(s, es) && Carries(s, asked)
    ensures Exec(s, es).stack == StackOf(s, es, asked, s.stack)
    decreases es
  {
    hide Inv, Allowed, Apply, Carries, NextStack;
    if es != [] {
      EventStacks(s, es[0], asked);
      ApplyKeepsInv(s, es[0]);
      StacksAlong(Apply(s, es[0]), es[1..], Asked(es[0], asked));
    }
  }

  /** Over every run the stack is what a sequential stack of the chunks given to the calls would be. */
  lemma {:induction false} StackIsOfCalls(nodes: nat, threads: nat, es: seq<Event>)
    requires Possible(Init(nodes, threads), es)
    ensures Exec(Init(nodes, threads), es).stack == StackOf(Init(nodes, threads), es, map[], [])
  {
    InitInv(nodes, threads);
    StacksAlong(Init(nodes, threads), es, map[]);
  }

  /** Undisturbed, a push puts its chunk on top, in three accesses. */
  lemma {:induction false} LonePush(s: State, t: nat, n: nat)
    requires Inv(s) && Allowed(s, CallPush(t, n))
    ensures var s1 := Apply(s, CallPush(t, n));
      && Runnable(s1, t) && Runnable(Step(s1, t, false), t) && Runnable(Step(Step(s1, t, false), t, false), t)
      && var z := Step(Step(Step(s1, t, false), t, false), t, false);
         z.threads[t].Idle? && z.stack == s.stack + [n] && z.top.node == At(n) && n < |z.next| && z.next[n] == TopOf(s.stack)
  {
  }

  /** Undisturbed, a pop takes the top chunk, in three accesses, or finds the stack empty in one. */
  lemma {:induction false} LonePop(s: State, t: nat)
    requires Inv(s) && Allowed(s, CallPop(t))
    ensures var s1 := Apply(s, CallPop(t));
      && Runnable(s1, t)
      && (s.stack == [] ==> Step(s1, t, false).threads[t].Idle? && Step(s1, t, false).stack == [])
      && (s.stack != [] ==>
            && Runnable(Step(s1, t, false), t) && Runnable(Step(Step(s1, t, false), t, false), t)
            && var z := Step(Step(Step(s1, t, false), t, false), t, false);
               && z.threads[t].Idle? && z.stack == s.stack[..|s.stack| - 1] && z.top.node == TopOf(z.stack)
               && Step(Step(s1, t, false), t, false).threads[t].top.node == At(s.stack[|s.stack| - 1]))
  {
    if s.stack != [] {
      TopIsStacked(s);
    }
  }
}
