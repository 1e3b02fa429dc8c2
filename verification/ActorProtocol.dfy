/**
 The activation protocol of an actor: `PushMessage`, `TryActivate`, `PullMailboxAndRun`
 and `AsyncDestroy`, one step per access to shared state, for any number of threads.

 `pending_message_count_` is a 64-bit unsigned counter and is modelled modulo 2^64: a
 consumer can subtract a message before its producer has counted it.
 */
module ActorProtocol {
  import opened Counting
  import opened Mailbox
  import opened Optional
  import opened Words

  type Msg = nat

  /** The next access of a thread, with its live local variables. */
  datatype Pc =
    | Idle
      // PushMessage
    | PushExchange(m: Msg)
    | PushLink(i: nat)
    | PushCount
    | PushActivate
    | PushSchedule
      // AsyncDestroy
    | DestroyCas
    | DestroyCount
    | DestroyActivate
    | DestroySchedule
    | DestroyWait
      // PullMailboxAndRun, as a task of the scheduler
    | RunCheckInstance
    | RunLogRemaining
    | RunCheckDestroy
    | RunReset
    | RunResetDeactivate
    | RunResetSubtract
    | RunPop(done: nat)
    | RunExecute(m: Msg, done: nat)
    | RunSubtract(done: nat)
    | RunDeactivate
    | RunLoadCount
    | RunActivate
    | RunSchedule

  /**
   The shared state. `limit` is `max_message_executed_per_activation`, `scheduled` the tasks
   spawned and not yet started, `resets` how often the user instance was reset.

   `executed`, `asked`, `added`, `subtracted` and `lost` are auxiliary: the messages executed
   so far; whether the destroyer has made its activation attempt; whether the count holds its
   increment and whether it was taken back; whether a task found the instance gone.
   */
  datatype Shared = Shared(
    box: Box<Msg>,
    count: nat,
    activated: bool,
    destroying: bool,
    resets: nat,
    scheduled: nat,
    limit: nat,
    executed: seq<Msg>,
    asked: bool,
    added: bool,
    subtracted: bool,
    lost: bool)

  datatype State = State(sh: Shared, threads: seq<Pc>)

  datatype Event =
    | CallPush(t: nat, m: Msg)
    | CallDestroy(t: nat)
    | StartTask(t: nat)
    | Run(t: nat)

  // ---------------------------------------------------------------- the steps

  function AddCount(sh: Shared, n: nat): Shared {
    sh.(count := (sh.count + n) % WORD)
  }

  function SubCount(sh: Shared, n: nat): Shared {
    sh.(count := (sh.count - n) % WORD)
  }

  function Alive(sh: Shared): bool {
    sh.resets == 0
  }

  /** The compare-and-swap of `TryActivate`: `won` is where the winner goes on, `failed` the loser. */
  function TryActivate(sh: Shared, won: Pc, failed: Pc): (Shared, Pc) {
    if sh.activated then (sh, failed) else (sh.(activated := true), won)
  }

  /** Hands the actor to the scheduler: one more task in the scope. */
  function Schedule(sh: Shared): Shared {
    sh.(scheduled := sh.scheduled + 1)
  }

  predicate InPush(pc: Pc) {
    pc.PushExchange? || pc.PushLink? || pc.PushCount? || pc.PushActivate? || pc.PushSchedule?
  }

  predicate InTask(pc: Pc) {
    pc.RunCheckInstance? || pc.RunLogRemaining? || pc.RunCheckDestroy? || pc.RunReset? || pc.RunResetDeactivate?
    || pc.RunResetSubtract? || pc.RunPop? || pc.RunExecute? || pc.RunSubtract? || pc.RunDeactivate?
    || pc.RunLoadCount? || pc.RunActivate? || pc.RunSchedule?
  }

  /** The next access of `PushMessage`. */
  function ActPush(sh: Shared, pc: Pc, t: nat): (Shared, Pc)
    requires InPush(pc) && (pc.PushLink? ==> pc.i < |sh.box.linker|)
  {
    match pc
    case PushExchange(m) => (sh.(box := Exchange(sh.box, m, t)), PushLink(|sh.box.order|))
    case PushLink(i) => (sh.(box := LinkUp(sh.box, i)), PushCount)
    case PushCount => (AddCount(sh, 1), PushActivate)
    case PushActivate => TryActivate(sh, PushSchedule, Idle)
    case PushSchedule => (Schedule(sh), Idle)
  }

  /** The next access of `AsyncDestroy`. `scopeEmpty` says whether the actor's scope has no task outstanding. */
  function ActDestroy(sh: Shared, pc: Pc, scopeEmpty: bool): (Shared, Pc)
    requires !InPush(pc) && !InTask(pc)
  {
    match pc
    case Idle => (sh, Idle)
    case DestroyCas =>
      if sh.destroying then (sh, Idle) else (sh.(destroying := true), DestroyCount)
    case DestroyCount => (AddCount(sh, 1).(added := true), DestroyActivate)
    case DestroyActivate => TryActivate(sh.(asked := true), DestroySchedule, DestroyWait)
    case DestroySchedule => (Schedule(sh), DestroyWait)
    case DestroyWait => (sh, if scopeEmpty then Idle else DestroyWait)
  }

  /** The next access of `PullMailboxAndRun`. */
  function ActTask(sh: Shared, pc: Pc): (Shared, Pc)
    requires InTask(pc)
  {
    match pc
    case RunCheckInstance =>
      if Alive(sh) then (sh, RunCheckDestroy) else (sh.(lost := true), RunLogRemaining)
    case RunLogRemaining => (sh, Idle)
    case RunCheckDestroy => (sh, if sh.destroying then RunReset else RunPop(0))
    case RunReset => (sh.(resets := sh.resets + 1), RunResetDeactivate)
    case RunResetDeactivate => (sh.(activated := false), RunResetSubtract)
    case RunResetSubtract => (SubCount(sh, 1).(subtracted := true), Idle)
    case RunPop(done) =>
      if CanPop(sh.box) then (sh.(box := Pop(sh.box)), RunExecute(sh.box.order[sh.box.popped], done))
      else (sh, RunSubtract(done))
    case RunExecute(m, done) =>
      (sh.(executed := sh.executed + [m]), if done + 1 >= sh.limit then RunSubtract(done + 1) else RunPop(done + 1))
    case RunSubtract(done) => (SubCount(sh, done), RunDeactivate)
    case RunDeactivate => (sh.(activated := false), RunLoadCount)
    case RunLoadCount => (sh, if sh.count > 0 then RunActivate else Idle)
    case RunActivate => TryActivate(sh, RunSchedule, Idle)
    case RunSchedule => (Schedule(sh), Idle)
  }

  /** One access of thread `t`. */
  function Act(sh: Shared, pc: Pc, t: nat, scopeEmpty: bool): (Shared, Pc)
    requires pc.PushLink? ==> pc.i < |sh.box.linker|
  {
    if InPush(pc) then ActPush(sh, pc, t)
    else if InTask(pc) then ActTask(sh, pc)
    else ActDestroy(sh, pc, scopeEmpty)
  }

  function TaskWeight(pc: Pc): int { if InTask(pc) then 1 else 0 }

  /** The tasks of the actor's `async_scope` that have not finished. */
  function Outstanding(s: State): int {
    s.sh.scheduled + Sum(s.threads, TaskWeight)
  }

  predicate CanAct(s: State, t: nat) {
    && t < |s.threads|
    && Shape(s.sh.box)
    && (s.threads[t].PushLink? ==> s.threads[t].i < |s.sh.box.linker|)
  }

  function Step(s: State, t: nat): State
    requires CanAct(s, t)
  {
    var (sh, pc) := Act(s.sh, s.threads[t], t, Outstanding(s) == 0);
    State(sh, s.threads[t := pc])
  }

  /**
   Any idle thread may push, destroy, or pick up a scheduled task. Fewer than 2^64 - 1
   messages are pushed over the actor's life.
   */
  predicate Allowed(s: State, e: Event) {
    match e
    case CallPush(t, _) => t < |s.threads| && s.threads[t].Idle?
    case CallDestroy(t) => t < |s.threads| && s.threads[t].Idle?
    case StartTask(t) => t < |s.threads| && s.threads[t].Idle? && s.sh.scheduled > 0
    case Run(t) => CanAct(s, t) && (s.threads[t].PushExchange? ==> |s.sh.box.order| + 2 < WORD)
  }

  function Apply(s: State, e: Event): State
    requires Allowed(s, e)
  {
    match e
    case CallPush(t, m) => s.(threads := s.threads[t := PushExchange(m)])
    case CallDestroy(t) => s.(threads := s.threads[t := DestroyCas])
    case StartTask(t) =>
      State(s.sh.(scheduled := s.sh.scheduled - 1), s.threads[t := RunCheckInstance])
    case Run(t) => Step(s, t)
  }

  // ---------------------------------------------------------------- weights

  /** Between winning the `activated_` flag and giving it back. */
  predicate HasToken(pc: Pc) {
    pc.PushSchedule? || pc.DestroySchedule? || pc.RunSchedule? || pc.RunCheckInstance? || pc.RunCheckDestroy?
    || pc.RunReset? || pc.RunResetDeactivate? || pc.RunPop? || pc.RunExecute? || pc.RunSubtract? || pc.RunDeactivate?
  }

  function TokenWeight(pc: Pc): int { if HasToken(pc) then 1 else 0 }

  /** Messages popped in the current activation and not yet subtracted. */
  function DoneWeight(pc: Pc): int {
    match pc
    case RunPop(d) => d
    case RunExecute(_, d) => d + 1
    case RunSubtract(d) => d
    case _ => 0
  }

  /** Messages in the mailbox order whose producer has not counted them yet. */
  function UncountedWeight(pc: Pc): int { if pc.PushLink? || pc.PushCount? then 1 else 0 }

  /** A message popped and still being executed. */
  function ExecutingWeight(pc: Pc): int { if pc.RunExecute? then 1 else 0 }

  /** On the way to `TryActivate`: in a push, or in the re-check after an activation. */
  function WayWeight(pc: Pc): int {
    if pc.PushLink? || pc.PushCount? || pc.PushActivate? || pc.RunLoadCount? || pc.RunActivate? then 1 else 0
  }

  function DestroyCountWeight(pc: Pc): int { if pc.DestroyCount? then 1 else 0 }

  function DestroyAskWeight(pc: Pc): int { if pc.DestroyCount? || pc.DestroyActivate? then 1 else 0 }

  /** Past the compare-and-swap of `AsyncDestroy`. */
  function DestroyerWeight(pc: Pc): int {
    if pc.DestroyCount? || pc.DestroyActivate? || pc.DestroySchedule? || pc.DestroyWait? then 1 else 0
  }

  function ResettingWeight(pc: Pc): int { if pc.RunResetDeactivate? || pc.RunResetSubtract? then 1 else 0 }

  function One(b: bool): int { if b then 1 else 0 }

  datatype Sums = Sums(token: int, done: int, uncounted: int, executing: int, way: int, dcount: int, dask: int, destroyers: int, resetting: int)

  function SumsOf(threads: seq<Pc>): Sums {
    Sums(Sum(threads, TokenWeight), Sum(threads, DoneWeight), Sum(threads, UncountedWeight), Sum(threads, ExecutingWeight),
         Sum(threads, WayWeight), Sum(threads, DestroyCountWeight), Sum(threads, DestroyAskWeight),
         Sum(threads, DestroyerWeight), Sum(threads, ResettingWeight))
  }

  function SumsAfter(k: Sums, a: Pc, b: Pc): Sums {
    Sums(k.token - TokenWeight(a) + TokenWeight(b),
         k.done - DoneWeight(a) + DoneWeight(b),
         k.uncounted - UncountedWeight(a) + UncountedWeight(b),
         k.executing - ExecutingWeight(a) + ExecutingWeight(b),
         k.way - WayWeight(a) + WayWeight(b),
         k.dcount - DestroyCountWeight(a) + DestroyCountWeight(b),
         k.dask - DestroyAskWeight(a) + DestroyAskWeight(b),
         k.destroyers - DestroyerWeight(a) + DestroyerWeight(b),
         k.resetting - ResettingWeight(a) + ResettingWeight(b))
  }

  lemma {:induction false} SumsUpdate(threads: seq<Pc>, t: nat, pc: Pc)
    requires t < |threads|
    ensures SumsOf(threads[t := pc]) == SumsAfter(SumsOf(threads), threads[t], pc)
  {
    SumUpdate(threads, t, pc, TokenWeight);
    SumUpdate(threads, t, pc, DoneWeight);
    SumUpdate(threads, t, pc, UncountedWeight);
    SumUpdate(threads, t, pc, ExecutingWeight);
    SumUpdate(threads, t, pc, WayWeight);
    SumUpdate(threads, t, pc, DestroyCountWeight);
    SumUpdate(threads, t, pc, DestroyAskWeight);
    SumUpdate(threads, t, pc, DestroyerWeight);
    SumUpdate(threads, t, pc, ResettingWeight);
  }

  /** What holds of the sums over any threads: without a token, nothing is popped and unsubtracted. */
  predicate Facts(k: Sums) {
    && k.token >= 0 && k.done >= 0 && k.uncounted >= 0 && k.executing >= 0
    && k.dcount >= 0 && k.destroyers >= 0 && k.resetting >= 0
    && k.way >= k.uncounted
    && k.dask >= k.dcount
    && (k.token == 0 ==> k.done == 0 && k.executing == 0)
    && k.token >= k.executing
    && k.uncounted < WORD
  }

  lemma {:induction false} SumsFacts(threads: seq<Pc>)
    requires |threads| < WORD
    ensures Facts(SumsOf(threads))
  {
    SumNonNegative(threads, TokenWeight);
    SumNonNegative(threads, DoneWeight);
    SumNonNegative(threads, UncountedWeight);
    SumNonNegative(threads, ExecutingWeight);
    SumNonNegative(threads, DestroyCountWeight);
    SumNonNegative(threads, DestroyerWeight);
    SumNonNegative(threads, ResettingWeight);
    SumMonotone(threads, UncountedWeight, WayWeight);
    SumMonotone(threads, DestroyCountWeight, DestroyAskWeight);
    SumMonotone(threads, ExecutingWeight, TokenWeight);
    SumAtMostLength(threads, UncountedWeight);
    if SumsOf(threads).token == 0 {
      forall t | 0 <= t < |threads| ensures DoneWeight(threads[t]) <= 0 {
        SumAtLeast(threads, t, TokenWeight);
      }
      SumNotPositive(threads, DoneWeight);
    }
  }

  // ---------------------------------------------------------------- the invariant

  function MaxPerActivation(limit: nat): nat { if limit == 0 then 1 else limit }

  /**
   The count without wrap-around: mailbox length, plus executed and not yet subtracted, minus
   pushed and not yet counted, plus the open destroy request.
   */
  function TrueCount(sh: Shared, done: int, uncounted: int): int {
    |sh.box.order| - sh.box.popped + done - uncounted + One(sh.added) - One(sh.subtracted)
  }

  /** One activation token: in a thread, in a scheduled task, or lost to a task that found no instance. */
  predicate TokenOk(sh: Shared, token: int, resetting: int) {
    && token + sh.scheduled + One(sh.lost) == One(sh.activated)
    && (sh.lost ==> sh.resets == 1)
    && resetting + One(sh.subtracted) == sh.resets <= 1
  }

  predicate CountOk(sh: Shared, done: int, uncounted: int) {
    && |sh.box.order| + 1 < WORD
    && sh.count == TrueCount(sh, done, uncounted) % WORD
  }

  /** What was executed is a prefix of the push order, at most one message short of what was popped. */
  predicate OrderOk(sh: Shared, executing: int) {
    && Shape(sh.box)
    && |sh.executed| + executing == sh.box.popped
    && sh.executed <= sh.box.order
  }

  /** At most one destroyer, which counts its request before it asks for an activation; no reset before it. */
  predicate DestroyOk(sh: Shared, dcount: int, dask: int, destroyers: int) {
    && destroyers <= One(sh.destroying)
    && dcount == One(sh.destroying) - One(sh.added)
    && dask == One(sh.destroying) - One(sh.asked)
    && (!sh.destroying ==> sh.resets == 0)
  }

  /** While nobody holds the token, waiting messages and a destroyer's request have somebody on the way. */
  predicate WayOk(sh: Shared, way: int) {
    (sh.asked || sh.box.popped < |sh.box.order|) && Alive(sh) && !sh.activated ==> way > 0
  }

  /** The shared state agrees with what the threads are doing. */
  predicate Core(sh: Shared, k: Sums) {
    && TokenOk(sh, k.token, k.resetting)
    && CountOk(sh, k.done, k.uncounted)
    && OrderOk(sh, k.executing)
    && DestroyOk(sh, k.dcount, k.dask, k.destroyers)
    && WayOk(sh, k.way)
  }

  predicate NeedsInstance(pc: Pc) {
    pc.RunCheckDestroy? || pc.RunReset? || pc.RunPop? || pc.RunExecute? || pc.RunSubtract? || pc.RunDeactivate?
  }

  /** What thread `t` at `pc` may rely on. */
  predicate ThreadAgrees(sh: Shared, pc: Pc, t: nat) {
    && (NeedsInstance(pc) ==> Alive(sh))
    && (pc.RunReset? ==> sh.destroying)
    && (pc.DestroySchedule? || pc.DestroyWait? ==> sh.asked)
    && (pc.PushLink? ==> pc.i < |sh.box.linker| && sh.box.linker[pc.i] == Some(t))
    && (pc.RunPop? ==> pc.done < MaxPerActivation(sh.limit))
    && (pc.RunExecute? ==>
          && pc.done < MaxPerActivation(sh.limit)
          && 0 < sh.box.popped <= |sh.box.order| && pc.m == sh.box.order[sh.box.popped - 1])
    && (pc.RunSubtract? ==> pc.done <= MaxPerActivation(sh.limit))
  }

  /** A missing link belongs to a producer that is about to store it. */
  predicate LinkerOk(s: State, i: nat) {
    && i < |s.sh.box.linker|
    && (s.sh.box.linker[i].Some? ==>
          s.sh.box.linker[i].value < |s.threads| && s.threads[s.sh.box.linker[i].value] == PushLink(i))
  }

  ghost predicate Inv(s: State) {
    && |s.threads| < WORD
    && Core(s.sh, SumsOf(s.threads))
    && (forall t :: 0 <= t < |s.threads| ==> ThreadAgrees(s.sh, s.threads[t], t))
    && (forall i :: 0 <= i < |s.sh.box.linker| ==> LinkerOk(s, i))
  }

  // ---------------------------------------------------------------- one access, locally

  lemma {:induction false} NoWrap(x: int)
    requires 0 - WORD < x < WORD && x % WORD == 0
    ensures x == 0
  {
  }

  /** `PushMessage`: the message enters the order first and is counted later. */
  lemma {:induction false} PushKeepsCore(sh: Shared, pc: Pc, t: nat, k: Sums)
    requires InPush(pc)
    requires Core(sh, k) && ThreadAgrees(sh, pc, t) && Facts(k) && Facts(SumsAfter(k, pc, Idle))
    requires pc.PushExchange? ==> |sh.box.order| + 2 < WORD
    ensures var (sh', pc') := ActPush(sh, pc, t); Core(sh', SumsAfter(k, pc, pc'))
  {
    hide CountOk, TrueCount, OrderOk, DestroyOk;
    PushKeepsCounts(sh, pc, t, k);
  }

  lemma {:induction false} PushKeepsCounts(sh: Shared, pc: Pc, t: nat, k: Sums)
    requires InPush(pc)
    requires Core(sh, k) && ThreadAgrees(sh, pc, t) && Facts(k) && Facts(SumsAfter(k, pc, Idle))
    requires pc.PushExchange? ==> |sh.box.order| + 2 < WORD
    ensures var (sh', pc') := ActPush(sh, pc, t);
      var k' := SumsAfter(k, pc, pc');
      && CountOk(sh', k'.done, k'.uncounted)
      && OrderOk(sh', k'.executing)
      && DestroyOk(sh', k'.dcount, k'.dask, k'.destroyers)
  {
    hide TokenOk, WayOk;
    if pc.PushCount? { WordAdd(TrueCount(sh, k.done, k.uncounted), 1); }
  }

  /** `AsyncDestroy`: only the first caller counts and asks. */
  lemma {:induction false} DestroyKeepsCore(sh: Shared, pc: Pc, t: nat, scopeEmpty: bool, k: Sums)
    requires !InPush(pc) && !InTask(pc)
    requires Core(sh, k) && ThreadAgrees(sh, pc, t) && Facts(k) && Facts(SumsAfter(k, pc, Idle))
    ensures var (sh', pc') := ActDestroy(sh, pc, scopeEmpty); Core(sh', SumsAfter(k, pc, pc'))
  {
    hide CountOk, TrueCount, OrderOk;
    DestroyKeepsCount(sh, pc, scopeEmpty, k);
  }

  lemma {:induction false} DestroyKeepsCount(sh: Shared, pc: Pc, scopeEmpty: bool, k: Sums)
    requires !InPush(pc) && !InTask(pc)
    requires CountOk(sh, k.done, k.uncounted) && OrderOk(sh, k.executing)
    requires pc.DestroyCount? ==> !sh.added
    ensures var (sh', pc') := ActDestroy(sh, pc, scopeEmpty);
      var k' := SumsAfter(k, pc, pc');
      CountOk(sh', k'.done, k'.uncounted) && OrderOk(sh', k'.executing)
  {
    if pc.DestroyCount? { WordAdd(TrueCount(sh, k.done, k.uncounted), 1); }
  }

  /** A task that finds the instance gone, or resets it. */
  lemma {:induction false} ResetKeepsCore(sh: Shared, pc: Pc, t: nat, k: Sums)
    requires pc.RunCheckInstance? || pc.RunLogRemaining? || pc.RunCheckDestroy? || pc.RunReset? || pc.RunResetDeactivate? || pc.RunResetSubtract?
    requires Core(sh, k) && ThreadAgrees(sh, pc, t) && Facts(k) && Facts(SumsAfter(k, pc, Idle))
    ensures var (sh', pc') := ActTask(sh, pc); Core(sh', SumsAfter(k, pc, pc'))
  {
    hide CountOk, TrueCount, OrderOk;
    ResetKeepsCount(sh, pc, k);
  }

  lemma {:induction false} ResetKeepsCount(sh: Shared, pc: Pc, k: Sums)
    requires pc.RunCheckInstance? || pc.RunLogRemaining? || pc.RunCheckDestroy? || pc.RunReset? || pc.RunResetDeactivate? || pc.RunResetSubtract?
    requires CountOk(sh, k.done, k.uncounted) && OrderOk(sh, k.executing)
    requires pc.RunResetSubtract? ==> !sh.subtracted
    ensures var (sh', pc') := ActTask(sh, pc);
      var k' := SumsAfter(k, pc, pc');
      CountOk(sh', k'.done, k'.uncounted) && OrderOk(sh', k'.executing)
  {
    if pc.RunResetSubtract? { WordAdd(TrueCount(sh, k.done, k.uncounted), -1); }
  }

  /** The drain loop. */
  lemma {:induction false} DrainKeepsCore(sh: Shared, pc: Pc, t: nat, k: Sums)
    requires pc.RunPop? || pc.RunExecute?
    requires Core(sh, k) && ThreadAgrees(sh, pc, t) && Facts(k) && Facts(SumsAfter(k, pc, Idle))
    ensures var (sh', pc') := ActTask(sh, pc); Core(sh', SumsAfter(k, pc, pc'))
  {
    if pc.RunExecute? { assert sh.executed + [pc.m] <= sh.box.order; }
  }

  /** The messages executed are subtracted and the token is given back. */
  lemma {:induction false} ReleaseKeepsCore(sh: Shared, pc: Pc, t: nat, k: Sums)
    requires pc.RunSubtract? || pc.RunDeactivate?
    requires Core(sh, k) && ThreadAgrees(sh, pc, t) && Facts(k) && Facts(SumsAfter(k, pc, Idle))
    ensures var (sh', pc') := ActTask(sh, pc); Core(sh', SumsAfter(k, pc, pc'))
  {
    if pc.RunSubtract? { WordAdd(TrueCount(sh, k.done, k.uncounted), 0 - pc.done); }
  }

  /** The re-check gives up only if the count is zero, and then a producer is still to count. */
  lemma {:induction false} RecheckKeepsCore(sh: Shared, pc: Pc, t: nat, k: Sums)
    requires pc.RunLoadCount? || pc.RunActivate? || pc.RunSchedule?
    requires Core(sh, k) && ThreadAgrees(sh, pc, t) && Facts(k) && Facts(SumsAfter(k, pc, Idle))
    ensures var (sh', pc') := ActTask(sh, pc); Core(sh', SumsAfter(k, pc, pc'))
  {
    if pc.RunLoadCount? && sh.count == 0 && !sh.activated && Alive(sh) {
      NoWrap(TrueCount(sh, k.done, k.uncounted));
    }
  }

  lemma {:induction false} CallKeepsOwn(sh: Shared, pc: Pc, t: nat, scopeEmpty: bool)
    requires !InTask(pc) && Shape(sh.box) && ThreadAgrees(sh, pc, t)
    ensures var (sh', pc') := Act(sh, pc, t, scopeEmpty); ThreadAgrees(sh', pc', t)
  {
  }

  lemma {:induction false} TaskKeepsOwn(sh: Shared, pc: Pc, t: nat)
    requires InTask(pc) && Shape(sh.box) && ThreadAgrees(sh, pc, t)
    ensures var (sh', pc') := ActTask(sh, pc); ThreadAgrees(sh', pc', t)
  {
  }

  /** Only the two accesses of a push touch the links. */
  lemma {:induction false} ActOnBox(sh: Shared, pc: Pc, t: nat, scopeEmpty: bool)
    requires Shape(sh.box) && ThreadAgrees(sh, pc, t)
    ensures var (sh', pc') := Act(sh, pc, t, scopeEmpty);
      && (pc.PushExchange? ==> sh'.box == Exchange(sh.box, pc.m, t) && pc' == PushLink(|sh.box.order|))
      && (pc.PushLink? ==> sh'.box == LinkUp(sh.box, pc.i) && pc' == PushCount)
      && (!pc.PushExchange? && !pc.PushLink? ==> (sh'.box == sh.box || sh'.box == Pop(sh.box)) && !pc'.PushLink?)
  {
  }

  /** The other threads' knowledge survives: whoever needs the instance shares it with nobody who resets it. */
  lemma {:induction false} ActKeepsOther(sh: Shared, pc: Pc, t: nat, scopeEmpty: bool, pcu: Pc, u: nat)
    requires Shape(sh.box) && ThreadAgrees(sh, pc, t) && ThreadAgrees(sh, pcu, u) && t != u
    requires !(HasToken(pc) && HasToken(pcu))
    ensures var (sh', pc') := Act(sh, pc, t, scopeEmpty); ThreadAgrees(sh', pcu, u)
  {
  }

  // ---------------------------------------------------------------- one access, globally

  lemma {:induction false} ActKeepsCore(sh: Shared, pc: Pc, t: nat, scopeEmpty: bool, k: Sums)
    requires Core(sh, k) && ThreadAgrees(sh, pc, t)
    requires Facts(k) && Facts(SumsAfter(k, pc, Idle))
    requires pc.PushExchange? ==> |sh.box.order| + 2 < WORD
    ensures var (sh', pc') := Act(sh, pc, t, scopeEmpty); Core(sh', SumsAfter(k, pc, pc'))
  {
    if InTask(pc) {
      if pc.RunPop? || pc.RunExecute? {
        DrainKeepsCore(sh, pc, t, k);
      } else if pc.RunSubtract? || pc.RunDeactivate? {
        ReleaseKeepsCore(sh, pc, t, k);
      } else if pc.RunLoadCount? || pc.RunActivate? || pc.RunSchedule? {
        RecheckKeepsCore(sh, pc, t, k);
      } else {
        ResetKeepsCore(sh, pc, t, k);
      }
    } else if InPush(pc) {
      PushKeepsCore(sh, pc, t, k);
    } else {
      DestroyKeepsCore(sh, pc, t, scopeEmpty, k);
    }
  }

  /** Two threads cannot both hold the activation token. */
  lemma {:induction false} OneToken(s: State, t: nat, u: nat)
    requires Inv(s) && t < |s.threads| && u < |s.threads| && t != u
    ensures !(HasToken(s.threads[t]) && HasToken(s.threads[u]))
  {
    SumAtLeastTwo(s.threads, if t < u then t else u, if t < u then u else t, TokenWeight);
  }

  lemma {:induction false} StepKeepsLinkers(s: State, t: nat)
    requires Inv(s) && CanAct(s, t)
    ensures forall i :: 0 <= i < |Step(s, t).sh.box.linker| ==> LinkerOk(Step(s, t), i)
  {
    var s', pc := Step(s, t), s.threads[t];
    assert ThreadAgrees(s.sh, pc, t);
    ActOnBox(s.sh, pc, t, Outstanding(s) == 0);
    forall i | 0 <= i < |s'.sh.box.linker| ensures LinkerOk(s', i) {
      if i < |s.sh.box.linker| { assert LinkerOk(s, i); }
    }
  }

  /** Every access of every thread keeps the invariant. */
  lemma {:induction false} StepKeepsInv(s: State, t: nat)
    requires Inv(s) && t < |s.threads|
    requires s.threads[t].PushExchange? ==> |s.sh.box.order| + 2 < WORD
    ensures CanAct(s, t) && Inv(Step(s, t))
  {
    hide TokenOk, CountOk, DestroyOk, WayOk, ActPush, ActTask, ActDestroy;
    var pc := s.threads[t];
    assert ThreadAgrees(s.sh, pc, t);
    var s' := Step(s, t);
    var k := SumsOf(s.threads);
    SumsUpdate(s.threads, t, Idle);
    SumsFacts(s.threads[t := Idle]);
    SumsFacts(s.threads);
    SumsUpdate(s.threads, t, s'.threads[t]);
    ActKeepsCore(s.sh, pc, t, Outstanding(s) == 0, k);
    if InTask(pc) {
      TaskKeepsOwn(s.sh, pc, t);
    } else {
      CallKeepsOwn(s.sh, pc, t, Outstanding(s) == 0);
    }
    forall u | 0 <= u < |s.threads| ensures ThreadAgrees(s'.sh, s'.threads[u], u) {
      if u != t {
        assert ThreadAgrees(s.sh, s.threads[u], u);
        OneToken(s, t, u);
        ActKeepsOther(s.sh, pc, t, Outstanding(s) == 0, s.threads[u], u);
      }
    }
    StepKeepsLinkers(s, t);
  }

  /** Starting a call or a scheduled task keeps the invariant. */
  lemma {:induction false} StartKeepsInv(s: State, e: Event)
    requires Inv(s) && Allowed(s, e) && !e.Run?
    ensures Inv(Apply(s, e))
  {
    StartKeepsCore(s, e);
    var s' := Apply(s, e);
    forall u | 0 <= u < |s.threads| ensures ThreadAgrees(s'.sh, s'.threads[u], u) {
      assert ThreadAgrees(s.sh, s.threads[u], u);
    }
    forall i | 0 <= i < |s'.sh.box.linker| ensures LinkerOk(s', i) {
      assert LinkerOk(s, i);
    }
  }

  lemma {:induction false} StartKeepsCore(s: State, e: Event)
    requires Core(s.sh, SumsOf(s.threads)) && Allowed(s, e) && !e.Run?
    ensures Core(Apply(s, e).sh, SumsOf(Apply(s, e).threads))
  {
    hide SumsOf, CountOk, OrderOk, DestroyOk, WayOk;
    SumsUpdate(s.threads, e.t, Apply(s, e).threads[e.t]);
    StartKeepsSums(s, e);
  }

  /** A call changes no sum; the token of a scheduled task goes to its thread. */
  lemma {:induction false} StartKeepsSums(s: State, e: Event)
    requires Core(s.sh, SumsOf(s.threads)) && Allowed(s, e) && !e.Run?
    ensures var k := SumsOf(s.threads); var k' := SumsAfter(k, s.threads[e.t], Apply(s, e).threads[e.t]); var sh' := Apply(s, e).sh;
      && k' == k.(token := k'.token)
      && k'.token + sh'.scheduled == k.token + s.sh.scheduled
      && sh' == s.sh.(scheduled := sh'.scheduled)
      && CountOk(sh', k.done, k.uncounted) && OrderOk(sh', k.executing)
      && DestroyOk(sh', k.dcount, k.dask, k.destroyers) && WayOk(sh', k.way)
  {
    hide SumsOf;
  }

  lemma {:induction false} ApplyKeepsInv(s: State, e: Event)
    requires Inv(s) && Allowed(s, e)
    ensures Inv(Apply(s, e))
  {
    if e.Run? {
      StepKeepsInv(s, e.t);
    } else {
      StartKeepsInv(s, e);
    }
  }

  // ---------------------------------------------------------------- runs

  function NewActor(limit: nat): Shared {
    Shared(Empty(), 0, false, false, 0, 0, limit, [], false, false, false, false)
  }

  function Init(limit: nat, threads: nat): State {
    State(NewActor(limit), seq(threads, _ => Idle))
  }

  predicate Possible(s: State, es: seq<Event>)
    decreases es
  {
    es == [] || (Allowed(s, es[0]) && Possible(Apply(s, es[0]), es[1..]))
  }

  function Exec(s: State, es: seq<Event>): State
    requires Possible(s, es)
    decreases es
  {
    if es == [] then s else Exec(Apply(s, es[0]), es[1..])
  }

  lemma {:induction false} InitInv(limit: nat, threads: nat)
    requires threads < WORD
    ensures Inv(Init(limit, threads))
  {
    var s := Init(limit, threads);
    SumsFacts(s.threads);
    SumNotPositive(s.threads, TokenWeight);
    SumNotPositive(s.threads, UncountedWeight);
    SumNotPositive(s.threads, DestroyAskWeight);
    SumNotPositive(s.threads, DestroyerWeight);
    SumNotPositive(s.threads, ResettingWeight);
  }

  /** The invariant holds after every run, of any length, of any number of threads. */
  lemma {:induction false} ReachableInv(s: State, es: seq<Event>)
    requires Inv(s) && Possible(s, es)
    ensures Inv(Exec(s, es))
    decreases es
  {
    if es != [] {
      ApplyKeepsInv(s, es[0]);
      ReachableInv(Apply(s, es[0]), es[1..]);
    }
  }

  // ---------------------------------------------------------------- what the protocol promises

  /** A thread that will still try to activate the actor. */
  predicate OnTheWay(pc: Pc) {
    WayWeight(pc) > 0
  }

  /** With a live instance, a waiting message and no activation, somebody is on the way to `TryActivate`. */
  lemma {:induction false} NoMessageStranded(s: State) returns (t: nat)
    requires Inv(s) && Alive(s.sh) && !s.sh.activated && Waiting(s.sh.box) != []
    ensures t < |s.threads| && OnTheWay(s.threads[t])
  {
    t := SumWitness(s.threads, WayWeight);
  }

  /** Once all calls have returned and no task is left, a live actor has an empty mailbox and an exact count. */
  lemma {:induction false} QuiescentMailboxEmpty(s: State)
    requires Inv(s) && Alive(s.sh) && s.sh.scheduled == 0
    requires forall t :: 0 <= t < |s.threads| ==> s.threads[t].Idle?
    ensures Waiting(s.sh.box) == [] && s.sh.executed == s.sh.box.order && s.sh.count == 0
  {
    SumsFacts(s.threads);
    SumNotPositive(s.threads, WayWeight);
    SumNotPositive(s.threads, TokenWeight);
    SumNotPositive(s.threads, DestroyAskWeight);
    SumNotPositive(s.threads, ResettingWeight);
  }

  /** Never two threads in the user object, or on the way into it, or resetting it. */
  lemma {:induction false} SingleThreaded(s: State, t: nat, u: nat)
    requires Inv(s) && t < |s.threads| && u < |s.threads|
    requires NeedsInstance(s.threads[t]) && NeedsInstance(s.threads[u])
    ensures t == u && Alive(s.sh) && s.sh.activated && s.sh.scheduled == 0
  {
    if t != u {
      OneToken(s, t, u);
    }
    SumAtLeast(s.threads, t, TokenWeight);
    assert ThreadAgrees(s.sh, s.threads[t], t);
  }

  /** Messages run in push order, each once: what has run, what is running and what waits make up all pushes. */
  lemma {:induction false} InOrderExactlyOnce(s: State)
    requires Inv(s)
    ensures (forall t :: 0 <= t < |s.threads| ==> !s.threads[t].RunExecute?) ==>
      s.sh.executed + Waiting(s.sh.box) == s.sh.box.order
    ensures forall t :: 0 <= t < |s.threads| && s.threads[t].RunExecute? ==>
      s.sh.executed + [s.threads[t].m] + Waiting(s.sh.box) == s.sh.box.order
  {
    SumsFacts(s.threads);
    if forall t :: 0 <= t < |s.threads| ==> !s.threads[t].RunExecute? {
      SumNotPositive(s.threads, ExecutingWeight);
      assert s.sh.executed + Waiting(s.sh.box) == s.sh.box.order;
    }
    forall t | 0 <= t < |s.threads| && s.threads[t].RunExecute?
      ensures s.sh.executed + [s.threads[t].m] + Waiting(s.sh.box) == s.sh.box.order
    {
      SumAtLeast(s.threads, t, ExecutingWeight);
      assert ThreadAgrees(s.sh, s.threads[t], t);
    }
  }

  /** An activation that ends has executed at most `limit` messages, or one if the limit is zero. */
  lemma {:induction false} ActivationIsBounded(s: State, t: nat)
    requires Inv(s) && t < |s.threads| && s.threads[t].RunSubtract?
    ensures s.threads[t].done <= MaxPerActivation(s.sh.limit)
  {
    assert ThreadAgrees(s.sh, s.threads[t], t);
  }

  /** The counter, at any moment, modulo 2^64. */
  lemma {:induction false} PendingCount(s: State)
    requires Inv(s)
    ensures s.sh.count == (|Waiting(s.sh.box)| + Sum(s.threads, DoneWeight) - Sum(s.threads, UncountedWeight)
                           + One(s.sh.added) - One(s.sh.subtracted)) % WORD
  {
    assert |Waiting(s.sh.box)| == |s.sh.box.order| - s.sh.box.popped;
  }

  /** Between its exchange and its return a `PushMessage` is in flight. */
  predicate PushInFlight(pc: Pc) {
    pc.PushLink? || pc.PushCount? || pc.PushActivate? || pc.PushSchedule?
  }

  /**
   The wait of `AsyncDestroy` can end. Unless a push is in flight, the instance was reset,
   once, and the counter equals the number of messages left.
   */
  lemma {:induction false} DestroyIsComplete(s: State, t: nat)
    requires Inv(s) && t < |s.threads| && s.threads[t].DestroyWait? && Outstanding(s) == 0
    requires forall u :: 0 <= u < |s.threads| ==> !PushInFlight(s.threads[u])
    ensures s.sh.resets == 1 && s.sh.count == |Waiting(s.sh.box)|
  {
    assert ThreadAgrees(s.sh, s.threads[t], t);
    var k := SumsOf(s.threads);
    SumsFacts(s.threads);
    SumNonNegative(s.threads, TaskWeight);
    forall u | 0 <= u < |s.threads| ensures !InTask(s.threads[u]) {
      SumAtLeast(s.threads, u, TaskWeight);
    }
    SumNotPositive(s.threads, WayWeight);
    SumNotPositive(s.threads, DoneWeight);
    SumNotPositive(s.threads, ResettingWeight);
    forall u | 0 <= u < |s.threads| ensures TokenWeight(s.threads[u]) <= 0 {
      if s.threads[u].DestroySchedule? {
        SumAtLeastTwo(s.threads, if t < u then t else u, if t < u then u else t, DestroyerWeight);
      }
    }
    SumNotPositive(s.threads, TokenWeight);
    assert |Waiting(s.sh.box)| == TrueCount(s.sh, k.done, k.uncounted);
  }

  // ---------------------------------------------------------------- after the reset

  function CheckWeight(pc: Pc): int { if pc.RunCheckInstance? then 1 else 0 }

  /** The activations that have begun since the instance went away. */
  function LateStarts(s: State): int {
    One(s.sh.lost) + Sum(s.threads, CheckWeight)
  }

  /** The tasks started in a run. */
  function Starts(es: seq<Event>): nat {
    if es == [] then 0 else (if es[0].StartTask? then 1 else 0) + Starts(es[1..])
  }

  lemma {:induction false} PushAfterReset(sh: Shared, pc: Pc, t: nat)
    requires InPush(pc) && (pc.PushLink? ==> pc.i < |sh.box.linker|)
    ensures var (sh', pc') := ActPush(sh, pc, t);
      sh'.executed == sh.executed && sh'.resets == sh.resets && sh'.lost == sh.lost && !pc'.RunCheckInstance?
  {
    match pc
    case PushExchange(_) =>
    case PushLink(_) =>
    case PushCount =>
    case PushActivate =>
    case PushSchedule =>
  }

  lemma {:induction false} DestroyAfterReset(sh: Shared, pc: Pc, scopeEmpty: bool)
    requires !InPush(pc) && !InTask(pc)
    ensures var (sh', pc') := ActDestroy(sh, pc, scopeEmpty);
      sh'.executed == sh.executed && sh'.resets == sh.resets && sh'.lost == sh.lost && !pc'.RunCheckInstance?
  {
    match pc
    case DestroyCas =>
    case DestroyCount =>
    case DestroyActivate =>
    case DestroySchedule =>
    case _ =>
  }

  lemma {:induction false} TaskAfterReset(sh: Shared, pc: Pc)
    requires InTask(pc) && !NeedsInstance(pc) && !Alive(sh)
    requires pc.RunCheckInstance? ==> !sh.lost
    ensures var (sh', pc') := ActTask(sh, pc);
      && sh'.executed == sh.executed && sh'.resets == sh.resets
      && One(sh'.lost) + CheckWeight(pc') == One(sh.lost) + CheckWeight(pc)
  {
    match pc
    case RunCheckInstance =>
    case RunResetDeactivate =>
    case RunResetSubtract =>
    case RunActivate =>
    case RunSchedule =>
    case _ =>
  }

  /** Without an instance every event keeps it so, executes nothing, and counts itself if it starts a task. */
  lemma {:induction false} EventAfterReset(s: State, e: Event)
    requires Inv(s) && Allowed(s, e) && !Alive(s.sh)
    ensures var s' := Apply(s, e);
      && s'.sh.executed == s.sh.executed && s'.sh.resets == s.sh.resets
      && LateStarts(s') == LateStarts(s) + Starts([e])
  {
    var s' := Apply(s, e);
    SumUpdate(s.threads, e.t, s'.threads[e.t], CheckWeight);
    assert Starts([e]) == if e.StartTask? then 1 else 0;
    if e.Run? {
      assert ThreadAgrees(s.sh, s.threads[e.t], e.t);
      if s.threads[e.t].RunCheckInstance? {
        SumAtLeast(s.threads, e.t, TokenWeight);
      }
      if InTask(s.threads[e.t]) {
        TaskAfterReset(s.sh, s.threads[e.t]);
      } else if InPush(s.threads[e.t]) {
        PushAfterReset(s.sh, s.threads[e.t], e.t);
      } else {
        DestroyAfterReset(s.sh, s.threads[e.t], Outstanding(s) == 0);
      }
    }
  }

  lemma {:induction false} LateStartsBound(s: State)
    requires Inv(s)
    ensures 0 <= LateStarts(s) <= 1
  {
    SumNonNegative(s.threads, CheckWeight);
    SumMonotone(s.threads, CheckWeight, TokenWeight);
  }

  lemma {:induction false} LateStartsGrow(s: State, es: seq<Event>)
    requires Inv(s) && Possible(s, es) && !Alive(s.sh)
    ensures var s' := Exec(s, es);
      && s'.sh.executed == s.sh.executed && s'.sh.resets == s.sh.resets
      && LateStarts(s') == LateStarts(s) + Starts(es)
    decreases es
  {
    if es != [] {
      EventAfterReset(s, es[0]);
      ApplyKeepsInv(s, es[0]);
      LateStartsGrow(Apply(s, es[0]), es[1..]);
    }
  }

  /** Once the instance is reset it stays reset, nothing executes any more, and at most one task ever starts. */
  lemma {:induction false} DestructionIsFinal(s: State, es: seq<Event>)
    requires Inv(s) && Possible(s, es) && !Alive(s.sh)
    ensures Exec(s, es).sh.executed == s.sh.executed
    ensures Exec(s, es).sh.resets == 1
    ensures Starts(es) <= 1
  {
    LateStartsGrow(s, es);
    ReachableInv(s, es);
    LateStartsBound(s);
    LateStartsBound(Exec(s, es));
  }

  // ---------------------------------------------------------------- the code

  /**
   The actor with its fields, and for every thread the point its call has reached. The
   three `Resume` methods perform the next access of one thread inside one source function.
   */
  class Actor {
    var mailbox: Box<Msg>
    var pendingMessageCount: nat
    var userClassInstance: bool
    var scopeScheduled: nat
    var activated: bool
    var pendingToBeDestroyed: bool
    const maxMessageExecutedPerActivation: nat
    const pcs: array<Pc>

    ghost var resets: nat
    ghost var executed: seq<Msg>
    ghost var asked: bool
    ghost var added: bool
    ghost var subtracted: bool
    ghost var lost: bool

    ghost function View(): State
      reads this, pcs
    {
      State(Shared(mailbox, pendingMessageCount, activated, pendingToBeDestroyed, resets, scopeScheduled,
                   maxMessageExecutedPerActivation, executed, asked, added, subtracted, lost),
            pcs[..])
    }

    ghost predicate Valid()
      reads this, pcs
    {
      Inv(View()) && (userClassInstance <==> resets == 0)
    }

    constructor (limit: nat, threadCount: nat)
      requires threadCount < WORD
      ensures Valid() && View() == Init(limit, threadCount) && fresh(pcs)
    {
      mailbox, pendingMessageCount := Empty(), 0;
      userClassInstance, scopeScheduled := true, 0;
      activated, pendingToBeDestroyed := false, false;
      maxMessageExecutedPerActivation := limit;
      pcs := new Pc[threadCount](_ => Idle);
      resets, executed := 0, [];
      asked, added, subtracted, lost := false, false, false, false;
      new;
      assert pcs[..] == seq(threadCount, _ => Idle);
      InitInv(limit, threadCount);
    }

    method PushMessage(t: nat, m: Msg)
      requires Valid() && Allowed(View(), CallPush(t, m))
      modifies pcs
      ensures Valid() && View() == Apply(old(View()), CallPush(t, m))
    {
      StartKeepsInv(View(), CallPush(t, m));
      pcs[t] := PushExchange(m);
    }

    method AsyncDestroy(t: nat)
      requires Valid() && Allowed(View(), CallDestroy(t))
      modifies pcs
      ensures Valid() && View() == Apply(old(View()), CallDestroy(t))
    {
      StartKeepsInv(View(), CallDestroy(t));
      pcs[t] := DestroyCas;
    }

    /** A worker thread picks up one of the actor's tasks. */
    method PullMailboxAndRun(t: nat)
      requires Valid() && Allowed(View(), StartTask(t))
      modifies this, pcs
      ensures Valid() && View() == Apply(old(View()), StartTask(t))
    {
      hide Inv, Act;
      StartKeepsInv(View(), StartTask(t));
      scopeScheduled := scopeScheduled - 1;
      pcs[t] := RunCheckInstance;
    }

    /** The compare-and-swap of `activated_` in `TryActivate`. */
    method TryActivateCas() returns (changed: bool)
      modifies this`activated
      ensures activated && changed == !old(activated)
    {
      changed := !activated;
      activated := true;
    }

    method ResumePush(t: nat)
      requires (userClassInstance <==> resets == 0) && CanAct(View(), t) && InPush(pcs[t])
      modifies this, pcs
      ensures (userClassInstance <==> resets == 0) && View() == Step(old(View()), t)
    {
      match pcs[t]
      case PushExchange(m) =>
        pcs[t] := PushLink(|mailbox.order|);
        mailbox := Exchange(mailbox, m, t);
      case PushLink(i) =>
        mailbox := LinkUp(mailbox, i);
        pcs[t] := PushCount;
      case PushCount =>
        pendingMessageCount := (pendingMessageCount + 1) % WORD;
        pcs[t] := PushActivate;
      case PushActivate =>
        var changed := TryActivateCas();
        pcs[t] := if changed then PushSchedule else Idle;
      case PushSchedule =>
        scopeScheduled := scopeScheduled + 1;
        pcs[t] := Idle;
    }

    /** `AsyncDestroy`, up to the count of the request. */
    method ResumeDestroyRequest(t: nat)
      requires (userClassInstance <==> resets == 0) && CanAct(View(), t)
      requires pcs[t].Idle? || pcs[t].DestroyCas? || pcs[t].DestroyCount?
      modifies this`pendingToBeDestroyed, this`pendingMessageCount, this`added, pcs
      ensures (userClassInstance <==> resets == 0) && View() == Step(old(View()), t)
    {
      hide ActPush, ActTask, Inv, Outstanding;
      match pcs[t]
      case Idle =>
      case DestroyCas =>
        if pendingToBeDestroyed {
          pcs[t] := Idle;
        } else {
          pendingToBeDestroyed := true;
          pcs[t] := DestroyCount;
        }
      case DestroyCount =>
        pendingMessageCount := (pendingMessageCount + 1) % WORD;
        added := true;
        pcs[t] := DestroyActivate;
    }

    /** The rest of it; `scopeEmpty` is what `on_empty` observes while the destroyer waits. */
    method ResumeDestroy(t: nat, scopeEmpty: bool)
      requires (userClassInstance <==> resets == 0) && CanAct(View(), t)
      requires pcs[t].DestroyActivate? || pcs[t].DestroySchedule? || pcs[t].DestroyWait?
      requires scopeEmpty == (Outstanding(View()) == 0)
      modifies this`asked, this`activated, this`scopeScheduled, pcs
      ensures (userClassInstance <==> resets == 0) && View() == Step(old(View()), t)
    {
      hide ActPush, ActTask, Inv, Outstanding;
      match pcs[t]
      case DestroyActivate =>
        var changed := TryActivateCas();
        asked := true;
        pcs[t] := if changed then DestroySchedule else DestroyWait;
      case DestroySchedule =>
        scopeScheduled := scopeScheduled + 1;
        pcs[t] := DestroyWait;
      case DestroyWait =>
        if scopeEmpty { pcs[t] := Idle; }
    }

    /** The checks of `PullMailboxAndRun` and the branch that destroys the instance. */
    method ResumeChecks(t: nat)
      requires (userClassInstance <==> resets == 0) && CanAct(View(), t)
      requires pcs[t].RunCheckInstance? || pcs[t].RunLogRemaining? || pcs[t].RunCheckDestroy? || pcs[t].RunReset?
            || pcs[t].RunResetDeactivate? || pcs[t].RunResetSubtract?
      modifies this, pcs
      ensures (userClassInstance <==> resets == 0) && View() == Step(old(View()), t)
    {
      hide ActPush, ActDestroy, Inv, Outstanding;
      match pcs[t]
      case RunCheckInstance =>
        if userClassInstance {
          pcs[t] := RunCheckDestroy;
        } else {
          lost := true;
          pcs[t] := RunLogRemaining;
        }
      case RunLogRemaining =>
        pcs[t] := Idle;
      case RunCheckDestroy =>
        pcs[t] := if pendingToBeDestroyed then RunReset else RunPop(0);
      case RunReset =>
        userClassInstance := false;
        resets := resets + 1;
        pcs[t] := RunResetDeactivate;
      case RunResetDeactivate =>
        activated := false;
        pcs[t] := RunResetSubtract;
      case RunResetSubtract =>
        pendingMessageCount := (pendingMessageCount - 1) % WORD;
        subtracted := true;
        pcs[t] := Idle;
    }

    /** The drain loop of `PullMailboxAndRun`. */
    method ResumeDrain(t: nat)
      requires (userClassInstance <==> resets == 0) && CanAct(View(), t)
      requires pcs[t].RunPop? || pcs[t].RunExecute?
      modifies this, pcs
      ensures (userClassInstance <==> resets == 0) && View() == Step(old(View()), t)
    {
      match pcs[t]
      case RunPop(done) =>
        if CanPop(mailbox) {
          pcs[t] := RunExecute(mailbox.order[mailbox.popped], done);
          mailbox := Pop(mailbox);
        } else {
          pcs[t] := RunSubtract(done);
        }
      case RunExecute(m, done) =>
        executed := executed + [m];
        pcs[t] := if done + 1 >= maxMessageExecutedPerActivation then RunSubtract(done + 1) else RunPop(done + 1);
    }

    /** The end of an activation, with the re-check of the counter. */
    method ResumeRelease(t: nat)
      requires (userClassInstance <==> resets == 0) && CanAct(View(), t)
      requires pcs[t].RunSubtract? || pcs[t].RunDeactivate? || pcs[t].RunLoadCount? || pcs[t].RunActivate? || pcs[t].RunSchedule?
      modifies this`pendingMessageCount, this`activated, this`scopeScheduled, pcs
      ensures (userClassInstance <==> resets == 0) && View() == Step(old(View()), t)
    {
      hide ActPush, ActDestroy, Inv, Outstanding;
      match pcs[t]
      case RunSubtract(done) =>
        pendingMessageCount := (pendingMessageCount - done) % WORD;
        pcs[t] := RunDeactivate;
      case RunDeactivate =>
        activated := false;
        pcs[t] := RunLoadCount;
      case RunLoadCount =>
        pcs[t] := if pendingMessageCount > 0 then RunActivate else Idle;
      case RunActivate =>
        var changed := TryActivateCas();
        pcs[t] := if changed then RunSchedule else Idle;
      case RunSchedule =>
        scopeScheduled := scopeScheduled + 1;
        pcs[t] := Idle;
    }

    /** Thread `t` performs its next access, wherever it is. */
    method Resume(t: nat, scopeEmpty: bool)
      requires Valid() && Allowed(View(), Run(t)) && scopeEmpty == (Outstanding(View()) == 0)
      modifies this, pcs
      ensures Valid() && View() == Step(old(View()), t)
    {
      StepKeepsInv(View(), t);
      if InPush(pcs[t]) {
        ResumePush(t);
      } else if pcs[t].Idle? || pcs[t].DestroyCas? || pcs[t].DestroyCount? {
        ResumeDestroyRequest(t);
      } else if !InTask(pcs[t]) {
        ResumeDestroy(t, scopeEmpty);
      } else if pcs[t].RunCheckInstance? || pcs[t].RunLogRemaining? || pcs[t].RunCheckDestroy? || pcs[t].RunReset?
             || pcs[t].RunResetDeactivate? || pcs[t].RunResetSubtract? {
        ResumeChecks(t);
      } else if pcs[t].RunPop? || pcs[t].RunExecute? {
        ResumeDrain(t);
      } else {
        ResumeRelease(t);
      }
    }
  }
}
