/**
 When the wait of `AsyncDestroy` is a promise. The wait ends as soon as the actor's scope is
 empty, and a push that has won the activation but not yet handed the actor to the scheduler
 is not in the scope. Hence the exact condition at the time of the call: the wait ends only
 with the instance reset if and only if no push is under way then.
 */
module ActorDestruction {
  import opened ActorProtocol
  import opened Counting
  import opened Mailbox
  import opened Words

  /** The wait of thread `t` in `AsyncDestroy` can end. */
  predicate CanReturn(s: State, t: nat) {
    t < |s.threads| && s.threads[t].DestroyWait? && Outstanding(s) == 0
  }

  /** The instance was reset, once, and the counter is the number of messages left. */
  predicate Complete(s: State) {
    Shape(s.sh.box) && s.sh.resets == 1 && s.sh.count == |Waiting(s.sh.box)|
  }

  predicate NoPush(s: State) {
    forall u :: 0 <= u < |s.threads| ==> !InPush(s.threads[u])
  }

  predicate NoPushCalled(es: seq<Event>) {
    forall i :: 0 <= i < |es| ==> !es[i].CallPush?
  }

  /** The threads go on with what they are doing and pick up tasks, but nobody makes a new call. */
  predicate NoCalls(es: seq<Event>) {
    forall i :: 0 <= i < |es| ==> es[i].Run? || es[i].StartTask?
  }

  lemma {:induction false} First(s: State, e: Event, es: seq<Event>)
    requires Allowed(s, e) && Possible(Apply(s, e), es)
    ensures Possible(s, [e] + es) && Exec(s, [e] + es) == Exec(Apply(s, e), es)
  {
    assert ([e] + es)[1..] == es;
  }

  // ---------------------------------------------------------------- without a push

  lemma {:induction false} NoPushStep(s: State, e: Event)
    requires NoPush(s) && Allowed(s, e) && !e.CallPush?
    ensures NoPush(Apply(s, e))
  {
    var s1 := Apply(s, e);
    assert s1.threads == s.threads[e.t := s1.threads[e.t]];
  }

  lemma {:induction false} NoPushStays(s: State, es: seq<Event>)
    requires NoPush(s) && Possible(s, es) && NoPushCalled(es)
    ensures NoPush(Exec(s, es))
    decreases es
  {
    hide NoPush, Apply, Allowed;
    if es != [] {
      NoPushStep(s, es[0]);
      NoPushStays(Apply(s, es[0]), es[1..]);
    }
  }

  /** If no push is under way at the call and none is called afterwards, the wait ends only when all is done. */
  lemma {:induction false} DestroyWithoutPush(s: State, t: nat, es: seq<Event>)
    requires Inv(s) && NoPush(s) && Allowed(s, CallDestroy(t))
    requires Possible(Apply(s, CallDestroy(t)), es) && NoPushCalled(es)
    requires CanReturn(Exec(Apply(s, CallDestroy(t)), es), t)
    ensures Complete(Exec(Apply(s, CallDestroy(t)), es))
  {
    var s1 := Apply(s, CallDestroy(t));
    ApplyKeepsInv(s, CallDestroy(t));
    ReachableInv(s1, es);
    NoPushStays(s1, es);
    DestroyIsComplete(Exec(s1, es), t);
  }

  // ---------------------------------------------------------------- with a push

  /** From here the wait of `t` can end, without further calls, while the instance is alive. */
  ghost predicate Fails(s: State, t: nat) {
    exists es :: NoCalls(es) && Possible(s, es) && CanReturn(Exec(s, es), t) && Alive(Exec(s, es).sh)
  }

  lemma {:induction false} Then(s: State, e: Event, t: nat)
    requires Allowed(s, e) && (e.Run? || e.StartTask?) && Fails(Apply(s, e), t)
    ensures Fails(s, t)
  {
    var es :| NoCalls(es) && Possible(Apply(s, e), es) && CanReturn(Exec(Apply(s, e), es), t) && Alive(Exec(Apply(s, e), es).sh);
    First(s, e, es);
    assert NoCalls([e] + es);
  }

  /** Thread `t` has called `AsyncDestroy` and not yet set the flag; nobody else has. */
  ghost predicate Called(s: State, t: nat) {
    Inv(s) && t < |s.threads| && s.threads[t] == DestroyCas && !s.sh.destroying && Alive(s.sh)
  }

  lemma {:induction false} PushSpares(sh: Shared, pc: Pc, t: nat)
    requires InPush(pc) && (pc.PushLink? ==> pc.i < |sh.box.linker|)
    ensures var sh' := ActPush(sh, pc, t).0; sh'.destroying == sh.destroying && sh'.resets == sh.resets
  {
    match pc
    case PushExchange(_) =>
    case _ =>
  }

  lemma {:induction false} TaskSpares(sh: Shared, pc: Pc)
    requires InTask(pc) && !pc.RunReset?
    ensures var sh' := ActTask(sh, pc).0; sh'.destroying == sh.destroying && sh'.resets == sh.resets
  {
    match pc
    case RunPop(_) =>
    case _ =>
  }

  /** Only a destroyer sets the flag, and only a task that has seen it resets the instance. */
  lemma {:induction false} StepSpares(s: State, v: nat)
    requires CanAct(s, v) && !s.threads[v].DestroyCas? && !s.threads[v].RunReset?
    ensures Step(s, v).sh.destroying == s.sh.destroying && Step(s, v).sh.resets == s.sh.resets
    ensures Step(s, v).threads == s.threads[v := Step(s, v).threads[v]]
  {
    hide ActPush, ActTask, Outstanding;
    if InPush(s.threads[v]) {
      PushSpares(s.sh, s.threads[v], v);
    } else if InTask(s.threads[v]) {
      TaskSpares(s.sh, s.threads[v]);
    }
  }

  /** Any other thread but a second destroyer can go on, and does not reset the instance. */
  lemma {:induction false} OtherGoesOn(s: State, t: nat, v: nat)
    requires Called(s, t) && v < |s.threads| && v != t && !s.threads[v].DestroyCas?
    requires s.threads[v].PushExchange? ==> |s.sh.box.order| + 2 < WORD
    ensures Allowed(s, Run(v)) && Called(Step(s, v), t)
    ensures Step(s, v).threads == s.threads[v := Step(s, v).threads[v]]
  {
    hide Core, LinkerOk, Step;
    StepKeepsInv(s, v);
    assert ThreadAgrees(s.sh, s.threads[v], v);
    StepSpares(s, v);
  }

  /** A token in a thread is the only one, and the flag is set. */
  lemma {:induction false} TokenMeansActive(s: State, v: nat)
    requires Inv(s) && v < |s.threads| && HasToken(s.threads[v])
    ensures s.sh.activated && s.sh.scheduled == 0
  {
    SumAtLeast(s.threads, v, TokenWeight);
  }

  lemma {:induction false} DestroyerStep(s: State, t: nat)
    requires t < |s.threads| && Shape(s.sh.box)
    requires (s.threads[t].DestroyCas? && !s.sh.destroying) || s.threads[t].DestroyCount? || s.threads[t].DestroyActivate?
    ensures CanAct(s, t) && Shape(Step(s, t).sh.box) && Step(s, t).sh.resets == s.sh.resets
    ensures Step(s, t).sh.activated == (s.sh.activated || s.threads[t].DestroyActivate?)
    ensures Step(s, t).threads == s.threads[t := match s.threads[t] {
      case DestroyCas => DestroyCount
      case DestroyCount => DestroyActivate
      case _ => if s.sh.activated then DestroyWait else DestroySchedule }]
    ensures Outstanding(Step(s, t)) == Outstanding(s)
  {
    SumUpdate(s.threads, t, Step(s, t).threads[t], TaskWeight);
  }

  /** The destroyer alone comes to its wait if the actor is active, and otherwise to its own `Schedule`. */
  lemma {:induction false} DestroyerAsks(s: State, t: nat)
    requires t < |s.threads| && Shape(s.sh.box) && s.threads[t].DestroyCas? && !s.sh.destroying
    ensures Allowed(s, Run(t)) && Allowed(Step(s, t), Run(t)) && Allowed(Step(Step(s, t), t), Run(t))
    ensures var z := Step(Step(Step(s, t), t), t);
      && z.sh.resets == s.sh.resets && Outstanding(z) == Outstanding(s)
      && z.threads == s.threads[t := if s.sh.activated then DestroyWait else DestroySchedule]
  {
    hide Step, Outstanding;
    DestroyerStep(s, t);
    var s1 := Step(s, t);
    DestroyerStep(s1, t);
    var s2 := Step(s1, t);
    DestroyerStep(s2, t);
  }

  /** With the scope empty and the activation in a push's hands, the destroyer asks in vain. */
  lemma {:induction false} AsksInVain(s: State, t: nat, p: nat)
    requires Called(s, t) && p < |s.threads| && s.threads[p] == PushSchedule && Outstanding(s) == 0
    ensures Fails(s, t)
  {
    TokenMeansActive(s, p);
    DestroyerAsks(s, t);
    hide Inv, Step, Outstanding;
    var s1 := Step(s, t);
    var s2 := Step(s1, t);
    var s3 := Step(s2, t);
    assert CanReturn(s3, t) && Alive(s3.sh);
    assert NoCalls([]) && Possible(s3, []) && Exec(s3, []) == s3;
    Then(s2, Run(t), t);
    Then(s1, Run(t), t);
    Then(s, Run(t), t);
  }

  /** How many steps a task without the token has left at most, if the token is elsewhere. */
  function LeftOver(pc: Pc): int {
    if pc.RunLoadCount? then 2
    else if pc.RunActivate? || pc.RunLogRemaining? || pc.RunResetSubtract? then 1
    else 0
  }

  lemma {:induction false} LeftOverStep(s: State, t: nat, p: nat, v: nat)
    requires Called(s, t) && p < |s.threads| && s.threads[p] == PushSchedule
    requires v < |s.threads| && InTask(s.threads[v])
    ensures Allowed(s, Run(v)) && Called(Step(s, v), t) && p < |Step(s, v).threads| && Step(s, v).threads[p] == PushSchedule
    ensures Sum(Step(s, v).threads, LeftOver) < Sum(s.threads, LeftOver)
  {
    TokenMeansActive(s, p);
    OneToken(s, v, p);
    OtherGoesOn(s, t, v);
    hide Inv;
    SumUpdate(s.threads, v, Step(s, v).threads[v], LeftOver);
  }

  /** While a push holds the token, the tasks that have released theirs come to an end. */
  lemma {:induction false} LeftOversEnd(s: State, t: nat, p: nat)
    requires Called(s, t) && p < |s.threads| && s.threads[p] == PushSchedule
    ensures Fails(s, t)
    decreases Sum(s.threads, LeftOver)
  {
    TokenMeansActive(s, p);
    SumNonNegative(s.threads, LeftOver);
    if v :| 0 <= v < |s.threads| && InTask(s.threads[v]) {
      LeftOverStep(s, t, p, v);
      LeftOversEnd(Step(s, v), t, p);
      Then(s, Run(v), t);
    } else {
      SumNotPositive(s.threads, TaskWeight);
      SumNonNegative(s.threads, TaskWeight);
      AsksInVain(s, t, p);
    }
  }

  /** A push that asks while nobody is active gets the token. */
  lemma {:induction false} PushTakesToken(s: State, t: nat, u: nat)
    requires Called(s, t) && u < |s.threads| && s.threads[u] == PushActivate && !s.sh.activated
    ensures Fails(s, t)
  {
    OtherGoesOn(s, t, u);
    LeftOversEnd(Step(s, u), t, u);
    Then(s, Run(u), t);
  }

  /** How many steps the task of thread `v` has left at most before it gives the token back. */
  function Work(sh: Shared, pc: Pc): int {
    var k := |sh.box.order| - sh.box.popped;
    match pc
    case RunSchedule => 2 * k + 7
    case RunCheckInstance => 2 * k + 6
    case RunCheckDestroy => 2 * k + 5
    case RunExecute(_, _) => 2 * k + 4
    case RunPop(_) => 2 * k + 3
    case RunSubtract(_) => 2
    case _ => 1
  }

  /** A task that meets neither flag nor reset comes closer to its release. */
  lemma {:induction false} TaskProceeds(s: State, t: nat, v: nat)
    requires Called(s, t) && v < |s.threads| && InTask(s.threads[v]) && HasToken(s.threads[v])
    ensures Allowed(s, Run(v)) && 0 < Work(s.sh, s.threads[v])
    ensures var s1 := Step(s, v); var pc := s1.threads[v];
      if s.threads[v].RunDeactivate? then !s1.sh.activated
      else if s.threads[v].RunSchedule? then
        && pc.Idle? && s1.sh.scheduled > 0
        && |s1.sh.box.order| - s1.sh.box.popped == |s.sh.box.order| - s.sh.box.popped >= 0
      else InTask(pc) && HasToken(pc) && 0 <= Work(s1.sh, pc) < Work(s.sh, s.threads[v])
  {
    hide LinkerOk;
    assert ThreadAgrees(s.sh, s.threads[v], v);
    SumAtLeast(s.threads, v, ResettingWeight);
  }

  /** The task passed its check before the flag was set: it drains, gives the token back, and the push takes it. */
  lemma {:induction false} TaskReleases(s: State, t: nat, u: nat, v: nat)
    requires Called(s, t) && u < |s.threads| && s.threads[u] == PushActivate
    requires v < |s.threads| && InTask(s.threads[v]) && HasToken(s.threads[v])
    ensures Fails(s, t)
    decreases Work(s.sh, s.threads[v])
  {
    hide Inv;
    TaskProceeds(s, t, v);
    OtherGoesOn(s, t, v);
    var s1 := Step(s, v);
    if s.threads[v].RunDeactivate? {
      PushTakesToken(s1, t, u);
    } else if s.threads[v].RunSchedule? {
      TaskStarts(s1, t, u, v);
    } else {
      TaskReleases(s1, t, u, v);
    }
    Then(s, Run(v), t);
  }

  /** A scheduled task starts on an idle thread. */
  lemma {:induction false} TaskStarts(s: State, t: nat, u: nat, w: nat)
    requires Called(s, t) && u < |s.threads| && s.threads[u] == PushActivate
    requires w < |s.threads| && s.threads[w].Idle? && s.sh.scheduled > 0
    ensures Fails(s, t)
    decreases 2 * (|s.sh.box.order| - s.sh.box.popped) + 7, 0
  {
    ApplyKeepsInv(s, StartTask(w));
    TaskReleases(Apply(s, StartTask(w)), t, u, w);
    Then(s, StartTask(w), t);
  }

  /** Wherever the token is, the push can get hold of it, or another one has. */
  lemma {:induction false} PushAsks(s: State, t: nat, u: nat, w: nat)
    requires Called(s, t) && u < |s.threads| && s.threads[u] == PushActivate
    requires w < |s.threads| && s.threads[w].Idle?
    ensures Fails(s, t)
  {
    if !s.sh.activated {
      PushTakesToken(s, t, u);
    } else if s.sh.scheduled > 0 {
      TaskStarts(s, t, u, w);
    } else {
      var v := SumWitness(s.threads, TokenWeight);
      SumAtLeast(s.threads, v, DestroyerWeight);
      if s.threads[v].PushSchedule? {
        LeftOversEnd(s, t, v);
      } else {
        TaskReleases(s, t, u, v);
      }
    }
  }

  /** The accesses a push has left. */
  function PushWork(pc: Pc): nat {
    match pc
    case PushExchange(_) => 4
    case PushLink(_) => 3
    case PushCount => 2
    case PushActivate => 1
    case _ => 0
  }

  lemma {:induction false} PushOvertakes(s: State, t: nat, u: nat, w: nat)
    requires Called(s, t) && u < |s.threads| && InPush(s.threads[u])
    requires w < |s.threads| && s.threads[w].Idle?
    requires s.threads[u].PushExchange? ==> |s.sh.box.order| + 2 < WORD
    ensures Fails(s, t)
    decreases PushWork(s.threads[u])
  {
    if s.threads[u].PushActivate? {
      PushAsks(s, t, u, w);
    } else if s.threads[u].PushSchedule? {
      LeftOversEnd(s, t, u);
    } else {
      OtherGoesOn(s, t, u);
      PushOvertakes(Step(s, u), t, u, w);
      Then(s, Run(u), t);
    }
  }

  // ---------------------------------------------------------------- the exact condition

  /** However the threads go on after the call, the wait ends only when all is done. */
  ghost predicate AlwaysComplete(s: State, t: nat)
    requires Allowed(s, CallDestroy(t))
  {
    var s1 := Apply(s, CallDestroy(t));
    forall es :: Possible(s1, es) && NoPushCalled(es) && CanReturn(Exec(s1, es), t) ==> Complete(Exec(s1, es))
  }

  /** A push under way at the call can end up with the token while the scope is empty. */
  lemma {:induction false} PushAtCallDefeatsDestroy(s: State, t: nat, u: nat, w: nat) returns (es: seq<Event>)
    requires Inv(s) && t < |s.threads| && s.threads[t].Idle? && !s.sh.destroying
    requires u < |s.threads| && InPush(s.threads[u]) && (s.threads[u].PushExchange? ==> |s.sh.box.order| + 2 < WORD)
    requires w < |s.threads| && w != t && s.threads[w].Idle?
    ensures NoCalls(es) && Possible(Apply(s, CallDestroy(t)), es)
    ensures var z := Exec(Apply(s, CallDestroy(t)), es); CanReturn(z, t) && Alive(z.sh)
  {
    var s1 := Apply(s, CallDestroy(t));
    ApplyKeepsInv(s, CallDestroy(t));
    PushOvertakes(s1, t, u, w);
    es :| NoCalls(es) && Possible(s1, es) && CanReturn(Exec(s1, es), t) && Alive(Exec(s1, es).sh);
  }

  /**
   The first `AsyncDestroy`, called while some other thread is free to run tasks and fewer than
   2^64 messages have been pushed: its wait ends only when the destruction is complete,
   whatever the schedule, if and only if no push is under way at the call.
   */
  lemma {:induction false} CompleteIffNoPush(s: State, t: nat, w: nat)
    requires Inv(s) && t < |s.threads| && s.threads[t].Idle? && !s.sh.destroying
    requires w < |s.threads| && w != t && s.threads[w].Idle? && |s.sh.box.order| + 2 < WORD
    ensures AlwaysComplete(s, t) <==> NoPush(s)
  {
    var s1 := Apply(s, CallDestroy(t));
    if NoPush(s) {
      forall es | Possible(s1, es) && NoPushCalled(es) && CanReturn(Exec(s1, es), t) ensures Complete(Exec(s1, es)) {
        DestroyWithoutPush(s, t, es);
      }
    } else {
      var u :| 0 <= u < |s.threads| && InPush(s.threads[u]);
      var es := PushAtCallDefeatsDestroy(s, t, u, w);
      assert NoPushCalled(es) && !Complete(Exec(s1, es));
    }
  }

  /**
   The shortest way to fail. Called on an empty scope, the destroyer gets to its wait, which can
   end at once with the instance alive, if and only if some push stands between winning the
   activation and handing the actor to the scheduler.
   */
  lemma {:induction false} FailsAtOnceIffPushHoldsToken(s: State, t: nat)
    requires Inv(s) && t < |s.threads| && s.threads[t].Idle? && !s.sh.destroying && Outstanding(s) == 0
    ensures var es := [CallDestroy(t), Run(t), Run(t), Run(t)];
      && Possible(s, es)
      && (CanReturn(Exec(s, es), t) && Alive(Exec(s, es).sh) <==>
          exists u :: 0 <= u < |s.threads| && s.threads[u].PushSchedule?)
  {
    hide Step, Outstanding, Core, ThreadAgrees, LinkerOk;
    EmptyScopeToken(s);
    var s1 := Apply(s, CallDestroy(t));
    CallIsNoTask(s, t);
    DestroyerAsks(s1, t);
    FourEvents(s, CallDestroy(t), Run(t), Run(t), Run(t));
  }

  lemma {:induction false} CallIsNoTask(s: State, t: nat)
    requires Allowed(s, CallDestroy(t))
    ensures Outstanding(Apply(s, CallDestroy(t))) == Outstanding(s)
  {
    SumUpdate(s.threads, t, DestroyCas, TaskWeight);
  }

  /** On an empty scope the token can only be in a push. */
  lemma {:induction false} EmptyScopeToken(s: State)
    requires Inv(s) && !s.sh.destroying && Outstanding(s) == 0
    ensures s.sh.scheduled == 0 && Alive(s.sh) && Shape(s.sh.box)
    ensures s.sh.activated <==> exists u :: 0 <= u < |s.threads| && s.threads[u].PushSchedule?
  {
    SumNonNegative(s.threads, TaskWeight);
    if u :| 0 <= u < |s.threads| && s.threads[u].PushSchedule? {
      SumAtLeast(s.threads, u, TokenWeight);
    }
    if s.sh.activated {
      var v := SumWitness(s.threads, TokenWeight);
      SumAtLeast(s.threads, v, DestroyerWeight);
      SumAtLeast(s.threads, v, TaskWeight);
      assert s.threads[v].PushSchedule?;
    }
  }

  lemma {:induction false} FourEvents(s: State, a: Event, b: Event, c: Event, d: Event)
    requires Allowed(s, a) && Allowed(Apply(s, a), b) && Allowed(Apply(Apply(s, a), b), c)
    requires Allowed(Apply(Apply(Apply(s, a), b), c), d)
    ensures Possible(s, [a, b, c, d]) && Exec(s, [a, b, c, d]) == Apply(Apply(Apply(Apply(s, a), b), c), d)
  {
    hide Allowed, Apply;
    var s1 := Apply(s, a);
    var s2 := Apply(s1, b);
    var s3 := Apply(s2, c);
    First(s3, d, []);
    First(s2, c, [d] + []);
    First(s1, b, [c] + ([d] + []));
    First(s, a, [b] + ([c] + ([d] + [])));
    assert [a, b, c, d] == [a] + ([b] + ([c] + ([d] + [])));
  }

  /** The condition is not idle: for every limit a new actor has a run that ends the wait with the instance alive. */
  lemma {:induction false} OverlappingPushDefeatsDestroy(limit: nat, threads: nat, m: Msg) returns (es: seq<Event>)
    requires 3 <= threads < WORD
    ensures Possible(Init(limit, threads), es)
    ensures CanReturn(Exec(Init(limit, threads), es), 1) && Alive(Exec(Init(limit, threads), es).sh)
  {
    var s0 := Init(limit, threads);
    InitInv(limit, threads);
    var s1 := Apply(s0, CallPush(0, m));
    ApplyKeepsInv(s0, CallPush(0, m));
    var s2 := Apply(s1, CallDestroy(1));
    var rest := PushAtCallDefeatsDestroy(s1, 1, 0, 2);
    First(s1, CallDestroy(1), rest);
    First(s0, CallPush(0, m), [CallDestroy(1)] + rest);
    es := [CallPush(0, m)] + ([CallDestroy(1)] + rest);
  }
}
