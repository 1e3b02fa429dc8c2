/**
 What an actor does for its callers: the messages of the pushes of a run enter the mailbox as
 they were passed, an activation drains as much as it may, and nothing that waits has to wait
 for a new call.
 */
module ActorProgress {
  import opened ActorDestruction
  import opened ActorProtocol
  import opened Counting
  import opened Mailbox
  import opened Optional
  import opened Words

  // ---------------------------------------------------------------- what callers pushed

  /** The messages of the threads' last calls, as the events of the calls gave them. */
  function Asked(e: Event, asked: map<nat, Msg>): map<nat, Msg> {
    if e.CallPush? then asked[e.t := e.m] else asked
  }

  /** The step with which a push enters the mailbox. */
  predicate Enters(s: State, e: Event) {
    e.Run? && e.t < |s.threads| && s.threads[e.t].PushExchange?
  }

  /** What the push of this step was called with. */
  function Entering(s: State, e: Event, asked: map<nat, Msg>): seq<Msg> {
    if Enters(s, e) && e.t in asked then [asked[e.t]] else []
  }

  /** The messages of a run in the order in which their pushes entered, read off the events of the calls. */
  function Pushed(s: State, es: seq<Event>, asked: map<nat, Msg>): seq<Msg>
    requires Possible(s, es)
    decreases es
  {
    if es == [] then []
    else Entering(s, es[0], asked) + Pushed(Apply(s, es[0]), es[1..], Asked(es[0], asked))
  }

  /** A push carries the message it was called with. */
  predicate Carries(s: State, asked: map<nat, Msg>) {
    forall t :: 0 <= t < |s.threads| && s.threads[t].PushExchange? ==> t in asked && s.threads[t].m == asked[t]
  }

  lemma {:induction false} OrderAfterPush(sh: Shared, pc: Pc, t: nat)
    requires InPush(pc) && (pc.PushLink? ==> pc.i < |sh.box.linker|)
    ensures var (sh', pc') := ActPush(sh, pc, t);
      sh'.box.order == sh.box.order + (if pc.PushExchange? then [pc.m] else []) && !pc'.PushExchange?
  {
  }

  lemma {:induction false} OrderAfterTask(sh: Shared, pc: Pc)
    requires InTask(pc)
    ensures var (sh', pc') := ActTask(sh, pc); sh'.box.order == sh.box.order && !pc'.PushExchange?
  {
    match pc
    case RunPop(_) =>
    case RunExecute(_, _) =>
    case RunSubtract(_) =>
    case _ =>
  }

  lemma {:induction false} EventOrder(s: State, e: Event, asked: map<nat, Msg>)
    requires Allowed(s, e) && Carries(s, asked)
    ensures Carries(Apply(s, e), Asked(e, asked))
    ensures Apply(s, e).sh.box.order == s.sh.box.order + Entering(s, e, asked)
  {
    if e.Run? {
      RunOrder(s, e.t);
      hide Step;
    }
  }

  lemma {:induction false} RunOrder(s: State, t: nat)
    requires CanAct(s, t)
    ensures var s' := Step(s, t); var pc := s.threads[t];
      && s'.threads == s.threads[t := s'.threads[t]] && !s'.threads[t].PushExchange?
      && s'.sh.box.order == s.sh.box.order + (if pc.PushExchange? then [pc.m] else [])
  {
    hide ActPush, ActTask, Outstanding;
    if InPush(s.threads[t]) {
      OrderAfterPush(s.sh, s.threads[t], t);
    } else if InTask(s.threads[t]) {
      OrderAfterTask(s.sh, s.threads[t]);
    }
  }

  lemma {:induction false} OrderAlong(s: State, es: seq<Event>, asked: map<nat, Msg>)
    requires Possible(s, es) && Carries(s, asked)
    ensures Exec(s, es).sh.box.order == s.sh.box.order + Pushed(s, es, asked)
    decreases es
  {
    hide Allowed, Apply, Entering, Carries, Asked;
    if es != [] {
      EventOrder(s, es[0], asked);
      OrderAlong(Apply(s, es[0]), es[1..], Asked(es[0], asked));
    }
  }

  /** Over every run the mailbox order is the messages of the calls, each once, in the order of their exchanges. */
  lemma {:induction false} OrderIsPushed(limit: nat, threads: nat, es: seq<Event>)
    requires Possible(Init(limit, threads), es)
    ensures Exec(Init(limit, threads), es).sh.box.order == Pushed(Init(limit, threads), es, map[])
  {
    OrderAlong(Init(limit, threads), es, map[]);
  }

  // ---------------------------------------------------------------- one activation

  /** In the drain loop a message that can be popped is popped and then executed, unless the bound is reached. */
  lemma {:induction false} DrainStep(s: State, t: nat)
    requires Inv(s) && t < |s.threads| && (s.threads[t].RunPop? || s.threads[t].RunExecute?)
    ensures CanAct(s, t)
    ensures var s' := Step(s, t); var pc, pc' := s.threads[t], s'.threads[t]; var bound := MaxPerActivation(s.sh.limit);
      && (pc.RunPop? && CanPop(s.sh.box) ==>
            && pc' == RunExecute(s.sh.box.order[s.sh.box.popped], pc.done)
            && s'.sh.box == Pop(s.sh.box) && s'.sh.executed == s.sh.executed)
      && (pc.RunExecute? ==>
            && s'.sh.executed == s.sh.executed + [pc.m] && s'.sh.box == s.sh.box
            && (pc' == RunPop(pc.done + 1) || pc' == RunSubtract(pc.done + 1)))
      && (pc'.RunSubtract? ==> pc'.done == bound || (pc.RunPop? && pc'.done == pc.done && !CanPop(s.sh.box)))
  {
    assert ThreadAgrees(s.sh, s.threads[t], t);
    hide Core, LinkerOk, ThreadAgrees, Outstanding;
    BoxShape(s);
  }

  lemma {:induction false} BoxShape(s: State)
    requires Inv(s)
    ensures Shape(s.sh.box)
  {
  }

  /** How many messages can be popped one after the other before one whose link is missing. */
  function Linked(b: Box<Msg>, i: nat): nat
    requires |b.linker| == |b.order|
    decreases |b.order| - i
  {
    if i < |b.order| && b.linker[i] == None then 1 + Linked(b, i + 1) else 0
  }

  function Min(a: int, b: int): int { if a < b then a else b }

  predicate OnlyRuns(es: seq<Event>, t: nat) {
    forall i :: 0 <= i < |es| ==> es[i] == Run(t)
  }

  /** One message, popped and executed. */
  lemma {:induction false} DrainOne(s: State, t: nat)
    requires Inv(s) && t < |s.threads| && s.threads[t].RunPop? && CanPop(s.sh.box)
    ensures CanAct(s, t) && CanAct(Step(s, t), t) && Inv(Step(Step(s, t), t))
    ensures Step(s, t).threads[t].RunExecute? && Shape(s.sh.box)
    ensures var done, b := s.threads[t].done, s.sh.box;
      Step(Step(s, t), t) == State(
        s.sh.(box := Pop(b), executed := s.sh.executed + [b.order[b.popped]]),
        s.threads[t := if done + 1 == MaxPerActivation(s.sh.limit) then RunSubtract(done + 1) else RunPop(done + 1)])
  {
    assert ThreadAgrees(s.sh, s.threads[t], t);
    StepKeepsInv(s, t);
    StepKeepsInv(Step(s, t), t);
    BoxShape(s);
    hide Core, LinkerOk, ThreadAgrees, Outstanding;
  }

  lemma {:induction false} DrainEnds(s: State, t: nat)
    requires Inv(s) && t < |s.threads| && s.threads[t].RunPop? && !CanPop(s.sh.box)
    ensures Shape(s.sh.box) && Linked(s.sh.box, s.sh.box.popped) == 0 && CanAct(s, t)
    ensures Step(s, t) == State(s.sh, s.threads[t := RunSubtract(s.threads[t].done)])
  {
    StepKeepsInv(s, t);
    BoxShape(s);
    hide Core, LinkerOk, ThreadAgrees, Outstanding;
  }

  lemma {:induction false} BelowBound(s: State, t: nat)
    requires Inv(s) && t < |s.threads| && s.threads[t].RunPop?
    ensures s.threads[t].done < MaxPerActivation(s.sh.limit)
  {
    assert ThreadAgrees(s.sh, s.threads[t], t);
  }

  /** Between `s` and `z` thread `t` has executed the smaller of its bound and the number of linked messages. */
  predicate Drained(s: State, t: nat, z: State)
    requires Shape(s.sh.box) && t < |s.threads| && s.threads[t].RunPop?
  {
    var b, done := s.sh.box, s.threads[t].done;
    var n := Drains(b, MaxPerActivation(s.sh.limit), done);
    && 0 <= n <= |b.order| - b.popped
    && z.threads == s.threads[t := RunSubtract(done + n)]
    && z.sh == s.sh.(box := b.(popped := b.popped + n), executed := s.sh.executed + b.order[b.popped..b.popped + n])
  }

  /** The state after one message more. */
  function AfterOne(s: State, t: nat, done: nat): State
    requires t < |s.threads| && s.sh.box.popped < |s.sh.box.order|
  {
    State(s.sh.(box := Pop(s.sh.box), executed := s.sh.executed + [s.sh.box.order[s.sh.box.popped]]),
          s.threads[t := if done + 1 == MaxPerActivation(s.sh.limit) then RunSubtract(done + 1) else RunPop(done + 1)])
  }

  /** With the bound reached, that is all. */
  lemma {:induction false} DrainedToBound(s: State, t: nat)
    requires t < |s.threads| && s.threads[t].RunPop? && Shape(s.sh.box) && CanPop(s.sh.box)
    requires s.threads[t].done + 1 == MaxPerActivation(s.sh.limit)
    ensures Drained(s, t, AfterOne(s, t, s.threads[t].done))
  {
    hide MaxPerActivation, Linked, Shape, CanPop;
    OneMoreLinked(s.sh.box, MaxPerActivation(s.sh.limit), s.threads[t].done);
    OneMore(s.sh.executed, s.sh.box.order, s.sh.box.popped, 1);
  }

  /** Otherwise the rest follows. */
  lemma {:induction false} DrainedAfter(s: State, t: nat, z: State)
    requires t < |s.threads| && s.threads[t].RunPop? && Shape(s.sh.box) && CanPop(s.sh.box)
    requires s.threads[t].done + 1 < MaxPerActivation(s.sh.limit)
    requires Shape(Pop(s.sh.box)) && Drained(AfterOne(s, t, s.threads[t].done), t, z)
    ensures Drained(s, t, z)
  {
    hide MaxPerActivation, Linked, CanPop;
    var b, bound, done := s.sh.box, MaxPerActivation(s.sh.limit), s.threads[t].done;
    OneMoreLinked(b, bound, done);
    var n := Drains(b, bound, done);
    OneMore(s.sh.executed, b.order, b.popped, n);
    hide Drains, AfterOne;
    assert n == 1 + Drains(Pop(b), bound, done + 1);
  }

  /** How many messages an activation drains that has drained `done`. */
  function Drains(b: Box<Msg>, bound: nat, done: nat): int
    requires |b.linker| == |b.order|
  {
    Min(bound - done, Linked(b, b.popped))
  }

  lemma {:induction false} OneMoreLinked(b: Box<Msg>, bound: nat, done: nat)
    requires Shape(b) && CanPop(b) && done < bound
    ensures Drains(b, bound, done) == 1 + (if done + 1 == bound then 0 else Drains(Pop(b), bound, done + 1))
    ensures 1 <= Drains(b, bound, done) <= |b.order| - b.popped
    ensures Drains(Pop(b), bound, done + 1) >= 0
  {
    LinkedIgnoresPopped(b, Pop(b), b.popped + 1);
    LinkedFits(b, b.popped + 1);
  }

  lemma {:induction false} LinkedFits(b: Box<Msg>, i: nat)
    requires |b.linker| == |b.order| && i <= |b.order|
    ensures Linked(b, i) <= |b.order| - i
    decreases |b.order| - i
  {
    if i < |b.order| && b.linker[i] == None {
      LinkedFits(b, i + 1);
    }
  }

  /**
   An activation that runs alone executes exactly the smaller of its bound and the number of
   linked messages, the first ones in order, before it leaves the drain loop.
   */
  lemma {:induction false} LoneDrain(s: State, t: nat) returns (es: seq<Event>)
    requires Inv(s) && t < |s.threads| && s.threads[t].RunPop?
    ensures OnlyRuns(es, t) && Possible(s, es) && Shape(s.sh.box) && Drained(s, t, Exec(s, es))
    decreases |s.sh.box.order| - s.sh.box.popped
  {
    hide Inv, Step, Drained, MaxPerActivation, Shape, CanPop;
    LastPop(s, t);
    if !CanPop(s.sh.box) {
      First(s, Run(t), []);
      es := [Run(t)] + [];
    } else {
      OnePop(s, t);
      var s1 := Step(s, t);
      var s2 := Step(s1, t);
      var rest := [];
      if s2.threads[t].RunPop? {
        rest := LoneDrain(s2, t);
        DrainedAfter(s, t, Exec(s2, rest));
      } else {
        DrainedToBound(s, t);
      }
      First(s1, Run(t), rest);
      First(s, Run(t), [Run(t)] + rest);
      es := [Run(t)] + ([Run(t)] + rest);
    }
  }

  lemma {:induction false} LastPop(s: State, t: nat)
    requires Inv(s) && t < |s.threads| && s.threads[t].RunPop?
    ensures Shape(s.sh.box) && Allowed(s, Run(t)) && Apply(s, Run(t)) == Step(s, t)
    ensures !CanPop(s.sh.box) ==> Drained(s, t, Step(s, t))
  {
    BoxShape(s);
    BelowBound(s, t);
    if !CanPop(s.sh.box) {
      DrainEnds(s, t);
    }
    hide Core, LinkerOk, ThreadAgrees, Outstanding, ActPush, ActTask;
  }

  lemma {:induction false} OnePop(s: State, t: nat)
    requires Inv(s) && t < |s.threads| && s.threads[t].RunPop? && CanPop(s.sh.box)
    ensures var s1 := Step(s, t);
      && CanAct(s1, t) && Allowed(s1, Run(t)) && Apply(s1, Run(t)) == Step(s1, t)
      && Inv(Step(s1, t)) && Shape(Pop(s.sh.box)) && s.sh.box.popped < |s.sh.box.order|
      && Step(s1, t) == AfterOne(s, t, s.threads[t].done)
      && (s.threads[t].done + 1 < MaxPerActivation(s.sh.limit) <==> Step(s1, t).threads[t].RunPop?)
      && s.threads[t].done + 1 <= MaxPerActivation(s.sh.limit)
  {
    BelowBound(s, t);
    DrainOne(s, t);
    BoxShape(Step(Step(s, t), t));
    hide Inv, Step, MaxPerActivation, Core;
  }

  lemma {:induction false} OneMore(executed: seq<Msg>, order: seq<Msg>, i: nat, n: int)
    requires 1 <= n && i + n <= |order|
    ensures executed + order[i..i + n] == executed + [order[i]] + order[i + 1..i + n]
  {
    assert order[i..i + n] == [order[i]] + order[i + 1..i + n];
  }

  lemma {:induction false} LinkedIgnoresPopped(a: Box<Msg>, b: Box<Msg>, i: nat)
    requires |a.linker| == |a.order| && b.order == a.order && b.linker == a.linker
    ensures Linked(a, i) == Linked(b, i)
    decreases |a.order| - i
  {
    if i < |a.order| && a.linker[i] == None {
      LinkedIgnoresPopped(a, b, i + 1);
    }
  }

  // ---------------------------------------------------------------- progress

  /** A live instance that nobody has asked to destroy. */
  ghost predicate Live(s: State) {
    Inv(s) && Alive(s.sh) && !s.sh.destroying
  }

  /** From here everything pushed so far can be executed without a new call. */
  ghost predicate Finishes(s: State) {
    exists es :: NoCalls(es) && Possible(s, es) && Exec(s, es).sh.executed == s.sh.box.order
  }

  lemma {:induction false} Onward(s: State, e: Event)
    requires Allowed(s, e) && (e.Run? || e.StartTask?) && Finishes(Apply(s, e)) && Apply(s, e).sh.box.order == s.sh.box.order
    ensures Finishes(s)
  {
    var es :| NoCalls(es) && Possible(Apply(s, e), es) && Exec(Apply(s, e), es).sh.executed == Apply(s, e).sh.box.order;
    First(s, e, es);
    assert NoCalls([e] + es);
  }

  lemma {:induction false} Already(s: State)
    requires s.sh.executed == s.sh.box.order
    ensures Finishes(s)
  {
    assert NoCalls([]) && Possible(s, []) && Exec(s, []) == s;
  }

  /** Any thread but a caller of `AsyncDestroy` and a push before its exchange can go on. */
  lemma {:induction false} LiveStep(s: State, v: nat)
    requires Live(s) && v < |s.threads| && !s.threads[v].DestroyCas? && !s.threads[v].PushExchange?
    ensures Allowed(s, Run(v)) && Live(Step(s, v)) && Step(s, v).sh.box.order == s.sh.box.order
    ensures Step(s, v).threads == s.threads[v := Step(s, v).threads[v]] && !Step(s, v).threads[v].PushExchange?
  {
    hide Core, LinkerOk;
    StepKeepsInv(s, v);
    assert ThreadAgrees(s.sh, s.threads[v], v);
    StepSpares(s, v);
    RunOrder(s, v);
  }

  /** The accesses of pushes that are between their exchange and their count. */
  function Landing(pc: Pc): int {
    if pc.PushLink? then 2 else if pc.PushCount? then 1 else 0
  }

  /** Every entry is linked and counted. */
  predicate Landed(s: State) {
    forall t :: 0 <= t < |s.threads| ==> !s.threads[t].PushLink? && !s.threads[t].PushCount?
  }

  /** With all pushes landed the count says how many messages wait, and the next one can be popped. */
  lemma {:induction false} LandedFacts(s: State)
    requires Live(s) && Landed(s)
    ensures Shape(s.sh.box) && 0 <= Sum(s.threads, DoneWeight)
    ensures s.sh.count == (|s.sh.box.order| - s.sh.box.popped + Sum(s.threads, DoneWeight)) % WORD
    ensures s.sh.box.popped < |s.sh.box.order| ==> CanPop(s.sh.box)
  {
    var box := s.sh.box;
    SumsFacts(s.threads);
    SumNotPositive(s.threads, UncountedWeight);
    SumNonNegative(s.threads, DestroyCountWeight);
    SumNonNegative(s.threads, ResettingWeight);
    if box.popped < |box.order| {
      assert LinkerOk(s, box.popped);
    }
  }

  /** How far a thread is from the next pop, counted backwards through the activation. */
  function Rank(pc: Pc): int {
    match pc
    case RunExecute(_, _) => 13
    case RunSubtract(_) => 12
    case RunDeactivate => 11
    case RunLoadCount => 10
    case RunActivate => 9
    case PushActivate => 9
    case RunSchedule => 8
    case PushSchedule => 8
    case RunCheckInstance => 6
    case RunCheckDestroy => 5
    case RunPop(_) => 4
    case _ => 0
  }

  function Distance(s: State): int {
    Sum(s.threads, Rank) + 7 * s.sh.scheduled
  }

  predicate SomeIdle(s: State) {
    exists w :: 0 <= w < |s.threads| && s.threads[w].Idle?
  }

  /** The thread through which the next message gets executed: it has the token, or it is on the way to it. */
  predicate Carrier(s: State, v: nat) {
    && v < |s.threads|
    && var pc := s.threads[v];
       if s.sh.activated then HasToken(pc) && !pc.DestroySchedule?
       else pc.PushActivate? || pc.RunLoadCount? || pc.RunActivate?
  }

  lemma {:induction false} SomeCarrier(s: State) returns (v: nat)
    requires Live(s) && Landed(s) && s.sh.scheduled == 0 && s.sh.box.popped < |s.sh.box.order|
    ensures Carrier(s, v)
  {
    if s.sh.activated {
      v := SumWitness(s.threads, TokenWeight);
      SumAtLeast(s.threads, v, DestroyerWeight);
    } else {
      v := SumWitness(s.threads, WayWeight);
    }
  }

  /** Its next step pops a message or comes closer to that. */
  lemma {:induction false} CarrierProceeds(s: State, v: nat)
    requires Live(s) && Landed(s) && s.sh.scheduled == 0 && Carrier(s, v) && s.sh.box.popped < |s.sh.box.order|
    ensures Allowed(s, Run(v)) && Live(Step(s, v)) && Landed(Step(s, v))
    ensures var s' := Step(s, v); var pc' := s'.threads[v];
      && s'.sh.box.order == s.sh.box.order
      && (s'.sh.scheduled > 0 ==> SomeIdle(s'))
      && (s'.sh.box.popped == s.sh.box.popped + 1
          || (s'.sh.box.popped == s.sh.box.popped && Rank(pc') + 7 * s'.sh.scheduled < Rank(s.threads[v])))
  {
    LandedFacts(s);
    LiveStep(s, v);
    NoResetting(s, v);
    if s.threads[v].RunLoadCount? {
      CountsWaiting(s);
    }
    hide Inv, ActPush, ActTask, Outstanding, Alive;
    var s' := Step(s, v);
    assert s'.threads[v].Idle? ==> SomeIdle(s');
    if InTask(s.threads[v]) {
      TaskProceeds(s.sh, s.threads[v]);
    } else {
      PushProceeds(s.sh, s.threads[v], v);
    }
  }

  lemma {:induction false} TaskProceeds(sh: Shared, pc: Pc)
    requires InTask(pc) && (HasToken(pc) || pc.RunLoadCount? || pc.RunActivate?) && !pc.RunReset? && !pc.RunResetDeactivate?
    requires Alive(sh) && !sh.destroying && sh.scheduled == 0 && CanPop(sh.box)
    requires (pc.RunLoadCount? ==> sh.count > 0) && (pc.RunActivate? ==> !sh.activated)
    ensures var (sh', pc') := ActTask(sh, pc);
      && !pc'.PushLink? && !pc'.PushCount? && (sh'.scheduled > 0 ==> pc'.Idle?)
      && (sh'.box.popped == sh.box.popped + 1
          || (sh'.box.popped == sh.box.popped && Rank(pc') + 7 * sh'.scheduled < Rank(pc)))
  {
    match pc
    case RunPop(_) =>
    case RunExecute(_, _) =>
    case RunSubtract(_) =>
    case _ =>
  }

  lemma {:induction false} PushProceeds(sh: Shared, pc: Pc, t: nat)
    requires pc.PushSchedule? || (pc.PushActivate? && !sh.activated)
    requires sh.scheduled == 0
    ensures var (sh', pc') := ActPush(sh, pc, t);
      && !pc'.PushLink? && !pc'.PushCount? && (sh'.scheduled > 0 ==> pc'.Idle?)
      && sh'.box == sh.box && Rank(pc') + 7 * sh'.scheduled < Rank(pc)
  {
  }

  lemma {:induction false} NoResetting(s: State, v: nat)
    requires Live(s) && v < |s.threads|
    ensures !s.threads[v].RunReset? && !s.threads[v].RunResetDeactivate? && !s.threads[v].RunResetSubtract?
  {
    assert ThreadAgrees(s.sh, s.threads[v], v);
    SumAtLeast(s.threads, v, ResettingWeight);
  }

  /** While nobody is active the count is the number of waiting messages. */
  lemma {:induction false} CountsWaiting(s: State)
    requires Live(s) && Landed(s) && !s.sh.activated && s.sh.box.popped < |s.sh.box.order|
    ensures s.sh.count > 0
  {
    LandedFacts(s);
    SumsFacts(s.threads);
  }

  lemma {:induction false} WaitingGetDone(s: State)
    requires Live(s) && Landed(s) && (s.sh.scheduled > 0 ==> SomeIdle(s))
    ensures Finishes(s)
    decreases |s.sh.box.order| - s.sh.box.popped, Distance(s)
  {
    LandedFacts(s);
    SumNonNegative(s.threads, Rank);
    if s.sh.box.popped == |s.sh.box.order| {
      LastOneDone(s);
    } else if s.sh.scheduled > 0 {
      var w :| 0 <= w < |s.threads| && s.threads[w].Idle?;
      TaskStarting(s, w);
      WaitingGetDone(Apply(s, StartTask(w)));
      Onward(s, StartTask(w));
    } else {
      var v := SomeCarrier(s);
      CarrierProceeds(s, v);
      LiveStep(s, v);
      SumUpdate(s.threads, v, Step(s, v).threads[v], Rank);
      WaitingGetDone(Step(s, v));
      Onward(s, Run(v));
    }
  }

  lemma {:induction false} TaskStarting(s: State, w: nat)
    requires Live(s) && Landed(s) && s.sh.scheduled > 0 && w < |s.threads| && s.threads[w].Idle?
    ensures var s' := Apply(s, StartTask(w));
      && Live(s') && Landed(s') && s'.sh.scheduled == 0 && s'.sh.box == s.sh.box && Distance(s') < Distance(s)
  {
    ApplyKeepsInv(s, StartTask(w));
    SumUpdate(s.threads, w, RunCheckInstance, Rank);
    SumNonNegative(s.threads, TokenWeight);
  }

  /** All are popped; the last one may still be executing. */
  lemma {:induction false} LastOneDone(s: State)
    requires Live(s) && s.sh.box.popped == |s.sh.box.order|
    ensures Finishes(s)
  {
    BoxShape(s);
    InOrderExactlyOnce(s);
    if v :| 0 <= v < |s.threads| && s.threads[v].RunExecute? {
      DrainStep(s, v);
      LiveStep(s, v);
      Already(Step(s, v));
      Onward(s, Run(v));
    } else {
      Already(s);
    }
  }

  lemma {:induction false} PushesLand(s: State)
    requires Live(s) && (s.sh.scheduled > 0 ==> SomeIdle(s))
    ensures Finishes(s)
    decreases Sum(s.threads, Landing)
  {
    SumNonNegative(s.threads, Landing);
    if v :| 0 <= v < |s.threads| && (s.threads[v].PushLink? || s.threads[v].PushCount?) {
      LiveStep(s, v);
      LandingStep(s, v);
      SumUpdate(s.threads, v, Step(s, v).threads[v], Landing);
      SumNonNegative(Step(s, v).threads, Landing);
      PushesLand(Step(s, v));
      Onward(s, Run(v));
    } else {
      WaitingGetDone(s);
    }
  }

  lemma {:induction false} LandingStep(s: State, v: nat)
    requires CanAct(s, v) && (s.threads[v].PushLink? || s.threads[v].PushCount?)
    ensures Landing(Step(s, v).threads[v]) < Landing(s.threads[v])
    ensures Step(s, v).sh.scheduled == s.sh.scheduled && (SomeIdle(s) ==> SomeIdle(Step(s, v)))
  {
    hide Outstanding;
    if SomeIdle(s) {
      var w :| 0 <= w < |s.threads| && s.threads[w].Idle?;
      assert Step(s, v).threads[w].Idle?;
    }
  }

  /**
   Progress. From every state with a live instance, no destroy request and a free thread, some
   run without new calls executes every message pushed so far, in order.
   */
  lemma {:induction false} EverythingGetsExecuted(s: State, w: nat) returns (es: seq<Event>)
    requires Live(s) && w < |s.threads| && s.threads[w].Idle?
    ensures NoCalls(es) && Possible(s, es) && Exec(s, es).sh.executed == s.sh.box.order
  {
    PushesLand(s);
    es :| NoCalls(es) && Possible(s, es) && Exec(s, es).sh.executed == s.sh.box.order;
  }

  // ---------------------------------------------------------------- the destruction, too, gets done

  /** Thread `t` waits in `AsyncDestroy`. */
  ghost predicate Awaits(s: State, t: nat) {
    Inv(s) && t < |s.threads| && s.threads[t].DestroyWait?
  }

  /** From here the wait of `t` can end, without new calls, with the instance reset. */
  ghost predicate Ends(s: State, t: nat) {
    exists es :: NoCalls(es) && Possible(s, es) && CanReturn(Exec(s, es), t) && Exec(s, es).sh.resets == 1
  }

  lemma {:induction false} EndsLater(s: State, e: Event, t: nat)
    requires Allowed(s, e) && (e.Run? || e.StartTask?) && Ends(Apply(s, e), t)
    ensures Ends(s, t)
  {
    var es :| NoCalls(es) && Possible(Apply(s, e), es) && CanReturn(Exec(Apply(s, e), es), t) && Exec(Apply(s, e), es).sh.resets == 1;
    First(s, e, es);
    assert NoCalls([e] + es);
  }

  /** How far a thread is from the reset, or from having left the scope, counted backwards. */
  function Remaining(pc: Pc): int {
    match pc
    case RunExecute(_, _) => 16
    case RunPop(_) => 15
    case RunSubtract(_) => 14
    case RunDeactivate => 13
    case PushLink(_) => 13
    case RunLoadCount => 12
    case PushCount => 12
    case RunActivate => 11
    case PushActivate => 11
    case RunSchedule => 10
    case PushSchedule => 10
    case RunCheckInstance => 8
    case RunCheckDestroy => 7
    case RunReset => 6
    case RunResetDeactivate => 5
    case RunResetSubtract => 4
    case RunLogRemaining => 1
    case _ => 0
  }

  function ToGo(s: State): int {
    Sum(s.threads, Remaining) + 9 * s.sh.scheduled
  }

  /** A thread whose next step brings the end closer. */
  predicate Helps(pc: Pc, sh: Shared) {
    if Alive(sh) then
      if sh.activated then HasToken(pc) && !pc.DestroySchedule? else WayWeight(pc) > 0
    else InTask(pc)
  }

  lemma {:induction false} SomeHelper(s: State, t: nat) returns (v: nat)
    requires Awaits(s, t) && s.sh.scheduled == 0 && (Alive(s.sh) || Outstanding(s) != 0)
    ensures v < |s.threads| && v != t && Helps(s.threads[v], s.sh)
  {
    assert ThreadAgrees(s.sh, s.threads[t], t);
    if !Alive(s.sh) {
      SumNonNegative(s.threads, TaskWeight);
      v := SumWitness(s.threads, TaskWeight);
    } else if s.sh.activated {
      v := SumWitness(s.threads, TokenWeight);
      if s.threads[v].DestroySchedule? {
        SumAtLeastTwo(s.threads, if t < v then t else v, if t < v then v else t, DestroyerWeight);
      }
    } else {
      v := SumWitness(s.threads, WayWeight);
    }
  }

  lemma {:induction false} HelperProceeds(s: State, t: nat, v: nat)
    requires Awaits(s, t) && s.sh.scheduled == 0 && v < |s.threads| && v != t && Helps(s.threads[v], s.sh)
    ensures Allowed(s, Run(v)) && Awaits(Step(s, v), t)
    ensures var s' := Step(s, v);
      && s'.threads == s.threads[v := s'.threads[v]] && (s'.sh.scheduled > 0 ==> SomeIdle(s'))
      && 0 <= s'.sh.box.popped <= |s'.sh.box.order| == |s.sh.box.order|
      && (s'.sh.box.popped == s.sh.box.popped + 1
          || (s'.sh.box.popped == s.sh.box.popped
              && Remaining(s'.threads[v]) + 9 * s'.sh.scheduled < Remaining(s.threads[v])))
  {
    StepKeepsInv(s, v);
    assert ThreadAgrees(s.sh, s.threads[v], v);
    BoxShape(s);
    BoxShape(Step(s, v));
    Requested(s, t);
    hide Inv, Core, LinkerOk, ThreadAgrees, Outstanding, ActPush, ActTask;
    var s' := Step(s, v);
    assert s'.threads[v].Idle? ==> SomeIdle(s');
    if InTask(s.threads[v]) {
      TaskHelps(s.sh, s.threads[v]);
    } else {
      PushHelps(s.sh, s.threads[v], v);
    }
  }

  lemma {:induction false} Requested(s: State, t: nat)
    requires Awaits(s, t)
    ensures s.sh.destroying && s.sh.asked
  {
    assert ThreadAgrees(s.sh, s.threads[t], t);
    SumAtLeast(s.threads, t, DestroyerWeight);
  }

  lemma {:induction false} TaskHelps(sh: Shared, pc: Pc)
    requires InTask(pc) && Helps(pc, sh) && sh.destroying && sh.scheduled == 0
    ensures var (sh', pc') := ActTask(sh, pc);
      && (sh'.scheduled > 0 ==> pc'.Idle?) && sh'.box.order == sh.box.order
      && (sh'.box.popped == sh.box.popped + 1
          || (sh'.box.popped == sh.box.popped && Remaining(pc') + 9 * sh'.scheduled < Remaining(pc)))
  {
    match pc
    case RunPop(_) =>
    case RunExecute(_, _) =>
    case RunSubtract(_) =>
    case _ =>
  }

  lemma {:induction false} PushHelps(sh: Shared, pc: Pc, t: nat)
    requires !InTask(pc) && Helps(pc, sh) && sh.scheduled == 0 && (pc.PushLink? ==> pc.i < |sh.box.linker|)
    ensures InPush(pc)
    ensures var (sh', pc') := ActPush(sh, pc, t);
      && (sh'.scheduled > 0 ==> pc'.Idle?) && sh'.box.order == sh.box.order && sh'.box.popped == sh.box.popped
      && Remaining(pc') + 9 * sh'.scheduled < Remaining(pc)
  {
  }

  lemma {:induction false} ResetAtMostOnce(s: State)
    requires Inv(s) && !Alive(s.sh)
    ensures s.sh.resets == 1
  {
    SumNonNegative(s.threads, ResettingWeight);
  }

  lemma {:induction false} WaitEnds(s: State, t: nat)
    requires Awaits(s, t) && (s.sh.scheduled > 0 ==> SomeIdle(s))
    ensures Ends(s, t)
    decreases |s.sh.box.order| - s.sh.box.popped, ToGo(s)
  {
    hide Inv, Step, Outstanding;
    BoxShape(s);
    SumNonNegative(s.threads, Remaining);
    if s.sh.scheduled > 0 {
      var w :| 0 <= w < |s.threads| && s.threads[w].Idle?;
      AwaitsStart(s, t, w);
      WaitEnds(Apply(s, StartTask(w)), t);
      EndsLater(s, StartTask(w), t);
    } else if Alive(s.sh) || Outstanding(s) != 0 {
      var v := SomeHelper(s, t);
      HelperProceeds(s, t, v);
      SumUpdate(s.threads, v, Step(s, v).threads[v], Remaining);
      SumNonNegative(Step(s, v).threads, Remaining);
      WaitEnds(Step(s, v), t);
      EndsLater(s, Run(v), t);
    } else {
      ResetAtMostOnce(s);
      assert NoCalls([]) && Possible(s, []) && Exec(s, []) == s;
    }
  }

  lemma {:induction false} AwaitsStart(s: State, t: nat, w: nat)
    requires Awaits(s, t) && s.sh.scheduled > 0 && w < |s.threads| && s.threads[w].Idle?
    ensures var s' := Apply(s, StartTask(w));
      Awaits(s', t) && s'.sh.scheduled == 0 && s'.sh.box == s.sh.box && 0 <= ToGo(s') < ToGo(s)
  {
    ApplyKeepsInv(s, StartTask(w));
    SumUpdate(s.threads, w, RunCheckInstance, Remaining);
    SumNonNegative(s.threads, Remaining);
    SumNonNegative(s.threads, TokenWeight);
  }

  /** The accesses of the first caller of `AsyncDestroy` that lead to its wait. */
  function BeforeWait(pc: Pc): int {
    if pc.DestroyCount? then 3 else if pc.DestroyActivate? then 2 else if pc.DestroySchedule? then 1 else 0
  }

  /**
   Destruction gets done. From every state in which the first caller of `AsyncDestroy` has set
   the flag and a thread is free, some run without new calls ends its wait with the instance
   reset: the actor is activated once more if need be, and the scope becomes empty.
   */
  lemma {:induction false} DestructionGetsDone(s: State, t: nat, w: nat)
    requires Inv(s) && t < |s.threads| && (BeforeWait(s.threads[t]) > 0 || s.threads[t].DestroyWait?)
    requires w < |s.threads| && s.threads[w].Idle?
    ensures Ends(s, t)
    decreases BeforeWait(s.threads[t])
  {
    if s.threads[t].DestroyWait? {
      WaitEnds(s, t);
    } else {
      StepKeepsInv(s, t);
      BoxShape(s);
      DestroyerGoesOn(s, t);
      DestructionGetsDone(Step(s, t), t, w);
      EndsLater(s, Run(t), t);
    }
  }

  lemma {:induction false} DestroyerGoesOn(s: State, t: nat)
    requires CanAct(s, t) && BeforeWait(s.threads[t]) > 0
    ensures var s' := Step(s, t);
      && s'.threads == s.threads[t := s'.threads[t]]
      && BeforeWait(s'.threads[t]) < BeforeWait(s.threads[t])
      && (BeforeWait(s'.threads[t]) > 0 || s'.threads[t].DestroyWait?)
  {
    hide Outstanding;
  }
}
