/**
 The two-level `LightweightSemaphore`: a signed atomic count in front of an operating-system
 semaphore. One step per atomic access, for any number of threads; waits may time out.

 The single-permit `tryWait` and `wait` are the many-permit forms with a maximum of one.
 */
module LightweightSemaphore {
  import opened Counting

  /** The sign of `timeout_usecs`: negative, zero, positive. */
  datatype Timeout = Forever | Now | Timed

  /** What `tryWaitMany` returns to: its caller, who already has `base`, or a wait that goes on. */
  datatype Return = ToCaller(base: nat) | ToWait(timeout: Timeout)

  datatype Pc =
    | Idle
    | Returned(got: nat)
      // tryWaitMany
    | TryLoad(max: nat, ret: Return)
    | TryCas(max: nat, seen: int, ret: Return)
      // waitManyWithPartialSpinning
    | SpinLoad(left: nat, max: nat, timeout: Timeout)
    | SpinCas(left: nat, max: nat, timeout: Timeout, seen: int)
    | FetchSub(max: nat, timeout: Timeout)
    | OsWait(max: nat, timeout: Timeout)
    | RetryLoad(max: nat)
    | RetryTryWait(max: nat)
    | RetryCas(max: nat, seen: int)
      // signal
    | FetchAdd(n: nat)
    | Post(n: nat)

  /**
   `count` is `m_count`, `posted` the value of `m_sema`, `maxSpins` is `m_maxSpins`. The
   totals `initial`, `signalled` and `acquired` are auxiliary.
   */
  datatype Shared = Shared(count: int, posted: nat, maxSpins: nat, initial: nat, signalled: nat, acquired: nat)

  datatype State = State(sh: Shared, threads: seq<Pc>)

  /** `ok` resolves what the code cannot decide: a weak CAS failing, a wait being interrupted or timing out. */
  datatype Event =
    | CallTryWait(t: nat, max: nat)
    | CallWait(t: nat, max: nat, timeout: Timeout)
    | CallSignal(t: nat, n: nat)
    | Return(t: nat)
    | Run(t: nat, ok: bool)

  // ---------------------------------------------------------------- the steps

  /** What a greedy taker of at most `max` leaves of a positive count. */
  function Leave(seen: int, max: nat): int {
    if seen > max then seen - max else 0
  }

  /** `while (--spin >= 0)` with `left` rounds to go. */
  function NextSpin(left: nat, max: nat, timeout: Timeout): Pc {
    if left == 0 then FetchSub(max, timeout) else SpinLoad(left, max, timeout)
  }

  /** The head of the loop of `tryWaitMany`: on a count that is not positive it gives up. */
  function TryLoop(spins: nat, max: nat, seen: int, ret: Return): Pc {
    if seen > 0 then TryCas(max, seen, ret)
    else match ret
      case ToCaller(base) => Returned(base)
      case ToWait(timeout) => if max > 0 then NextSpin(spins, max, timeout) else Returned(0)
  }

  /** After the first permit of a blocking wait: greedily try for the rest. */
  function AfterFirst(max: nat): Pc {
    if max > 1 then TryLoad(max - 1, ToCaller(1)) else Returned(1)
  }

  function Base(ret: Return): nat {
    match ret
    case ToCaller(base) => base
    case ToWait(_) => 0
  }

  predicate InTry(pc: Pc) {
    pc.TryLoad? || pc.TryCas? || pc.SpinLoad? || pc.SpinCas?
  }

  function ActTry(sh: Shared, pc: Pc, ok: bool): (Shared, Pc)
    requires InTry(pc)
  {
    match pc
    case TryLoad(max, ret) => (sh, TryLoop(sh.maxSpins, max, sh.count, ret))
    case TryCas(max, seen, ret) =>
      if sh.count == seen && ok && seen > 0 then
        var left := Leave(seen, max);
        (sh.(count := left, acquired := sh.acquired + (seen - left)), TryDone(max, seen - left, ret))
      else (sh, TryLoop(sh.maxSpins, max, sh.count, ret))
    case SpinLoad(left, max, timeout) =>
      if sh.count > 0 then (sh, SpinCas(left, max, timeout, sh.count)) else (sh, NextSpin(if left > 0 then left - 1 else 0, max, timeout))
    case SpinCas(left, max, timeout, seen) =>
      if sh.count == seen && seen > 0 then
        var rest := Leave(seen, max);
        (sh.(count := rest, acquired := sh.acquired + (seen - rest)), Returned(seen - rest))
      else (sh, NextSpin(if left > 0 then left - 1 else 0, max, timeout))
  }

  /** A `tryWaitMany` that took `n`: taking none of zero wanted, a wait returns as well. */
  function TryDone(max: nat, n: nat, ret: Return): Pc {
    Returned(Base(ret) + n)
  }

  predicate InWait(pc: Pc) {
    pc.FetchSub? || pc.OsWait? || pc.RetryLoad? || pc.RetryTryWait? || pc.RetryCas?
  }

  function ActWait(sh: Shared, pc: Pc, ok: bool): (Shared, Pc)
    requires InWait(pc)
  {
    match pc
    case FetchSub(max, timeout) =>
      var sh' := sh.(count := sh.count - 1);
      if sh.count > 0 then (sh'.(acquired := sh.acquired + 1), AfterFirst(max))
      else (sh', if timeout == Now then RetryLoad(max) else OsWait(max, timeout))
    case OsWait(max, timeout) =>
      if ok then
        if sh.posted > 0 then (sh.(posted := sh.posted - 1, acquired := sh.acquired + 1), AfterFirst(max))
        else (sh, pc)
      else (sh, RetryLoad(max))
    case RetryLoad(max) => (sh, if sh.count >= 0 then RetryTryWait(max) else RetryCas(max, sh.count))
    case RetryTryWait(max) =>
      if sh.posted > 0 then (sh.(posted := sh.posted - 1, acquired := sh.acquired + 1), AfterFirst(max))
      else (sh, RetryLoad(max))
    case RetryCas(max, seen) =>
      if sh.count == seen && seen < 0 then (sh.(count := seen + 1), Returned(0)) else (sh, RetryLoad(max))
  }

  /** How many of the waiters a signal of `n` must wake, on a count of `before`. */
  function ToRelease(before: int, n: nat): int {
    if -before < n then -before else n
  }

  function ActSignal(sh: Shared, pc: Pc): (Shared, Pc)
    requires pc.FetchAdd? || pc.Post?
  {
    match pc
    case FetchAdd(n) =>
      var r := ToRelease(sh.count, n);
      (sh.(count := sh.count + n, signalled := sh.signalled + n), if r > 0 then Post(r) else Returned(0))
    case Post(n) =>
      (sh.(posted := sh.posted + (if n > 0 then 1 else 0)), if n > 1 then Post(n - 1) else Returned(0))
  }

  function Act(sh: Shared, pc: Pc, ok: bool): (Shared, Pc) {
    if InTry(pc) then ActTry(sh, pc, ok)
    else if InWait(pc) then ActWait(sh, pc, ok)
    else if pc.FetchAdd? || pc.Post? then ActSignal(sh, pc)
    else (sh, pc)
  }

  predicate Allowed(s: State, e: Event) {
    && e.t < |s.threads|
    && match e {
         case CallTryWait(t, _) => s.threads[t].Idle?
         case CallWait(t, _, _) => s.threads[t].Idle?
         case CallSignal(t, _) => s.threads[t].Idle?
         case Return(t) => s.threads[t].Returned?
         case Run(_, _) => true
       }
  }

  function Apply(s: State, e: Event): State
    requires Allowed(s, e)
  {
    match e
    case CallTryWait(t, max) => s.(threads := s.threads[t := TryLoad(max, ToCaller(0))])
    case CallWait(t, max, timeout) => s.(threads := s.threads[t := TryLoad(max, ToWait(timeout))])
    case CallSignal(t, n) => s.(threads := s.threads[t := FetchAdd(n)])
    case Return(t) => s.(threads := s.threads[t := Idle])
    case Run(t, ok) =>
      var (sh, pc) := Act(s.sh, s.threads[t], ok);
      State(sh, s.threads[t := pc])
  }

  // ---------------------------------------------------------------- the invariant

  /** A thread that has decremented the count and neither got a permit nor taken the decrement back. */
  function WaiterWeight(pc: Pc): int {
    if pc.OsWait? || pc.RetryLoad? || pc.RetryTryWait? || pc.RetryCas? then 1 else 0
  }

  /** Permits a signaller has promised to the operating-system semaphore and not yet posted. */
  function PromiseWeight(pc: Pc): int {
    if pc.Post? then pc.n else 0
  }

  function Positive(n: int): int {
    if n > 0 then n else 0
  }

  function Waiters(s: State): int { Sum(s.threads, WaiterWeight) }

  function Promised(s: State): int { Sum(s.threads, PromiseWeight) }

  /** Permits nobody has yet: free in the count, posted, or promised. */
  function Available(s: State): int {
    Positive(s.sh.count) + s.sh.posted + Promised(s)
  }

  /** The two conservation laws. */
  predicate Conserved(sh: Shared, waiters: int, promised: int) {
    && waiters == sh.posted + promised + Positive(-sh.count)
    && sh.acquired + Positive(sh.count) + sh.posted + promised == sh.initial + sh.signalled
  }

  /** A seen count on which a CAS is tried passed the test before it; nothing is asked for or posted in vain. */
  predicate PcOk(pc: Pc) {
    match pc
    case TryCas(_, seen, _) => seen > 0
    case SpinCas(_, max, _, seen) => seen > 0 && max > 0
    case SpinLoad(_, max, _) => max > 0
    case FetchSub(max, _) => max > 0
    case OsWait(max, _) => max > 0
    case RetryLoad(max) => max > 0
    case RetryTryWait(max) => max > 0
    case RetryCas(max, seen) => max > 0 && seen < 0
    case Post(n) => n > 0
    case _ => true
  }

  ghost predicate Inv(s: State) {
    && Conserved(s.sh, Waiters(s), Promised(s))
    && (forall t :: 0 <= t < |s.threads| ==> PcOk(s.threads[t]))
  }

  lemma {:induction false} TryConserves(sh: Shared, pc: Pc, ok: bool, waiters: int, promised: int)
    requires InTry(pc) && PcOk(pc) && Conserved(sh, waiters, promised)
    ensures var (sh', pc') := ActTry(sh, pc, ok);
      && PcOk(pc') && WaiterWeight(pc') == 0 && PromiseWeight(pc') == 0
      && Conserved(sh', waiters, promised)
  {
  }

  /** A wait that times out takes its decrement back only while the count is negative. */
  lemma {:induction false} WaitConserves(sh: Shared, pc: Pc, ok: bool, waiters: int, promised: int)
    requires InWait(pc) && PcOk(pc) && Conserved(sh, waiters, promised)
    ensures var (sh', pc') := ActWait(sh, pc, ok);
      && PcOk(pc') && PromiseWeight(pc') == 0
      && Conserved(sh', waiters - WaiterWeight(pc) + WaiterWeight(pc'), promised)
  {
  }

  /** A signal promises exactly as many posts as it takes from the negative part of the count. */
  lemma {:induction false} SignalConserves(sh: Shared, pc: Pc, waiters: int, promised: int)
    requires (pc.FetchAdd? || pc.Post?) && PcOk(pc) && Conserved(sh, waiters, promised)
    ensures var (sh', pc') := ActSignal(sh, pc);
      && PcOk(pc') && WaiterWeight(pc') == 0
      && Conserved(sh', waiters, promised - PromiseWeight(pc) + PromiseWeight(pc'))
  {
  }

  lemma {:induction false} ApplyKeepsInv(s: State, e: Event)
    requires Inv(s) && Allowed(s, e)
    ensures Inv(Apply(s, e))
  {
    var s', pc := Apply(s, e), s.threads[e.t];
    assert PcOk(pc);
    SumUpdate(s.threads, e.t, s'.threads[e.t], WaiterWeight);
    SumUpdate(s.threads, e.t, s'.threads[e.t], PromiseWeight);
    if e.Run? {
      if InTry(pc) {
        TryConserves(s.sh, pc, e.ok, Waiters(s), Promised(s));
      } else if InWait(pc) {
        WaitConserves(s.sh, pc, e.ok, Waiters(s), Promised(s));
      } else if pc.FetchAdd? || pc.Post? {
        SignalConserves(s.sh, pc, Waiters(s), Promised(s));
      }
    }
  }

  // ---------------------------------------------------------------- runs

  function Init(initial: nat, maxSpins: nat, threads: nat): State {
    State(Shared(initial, 0, maxSpins, initial, 0, 0), seq(threads, _ => Idle))
  }

  predicate Possible(s: State, es: seq<Event>)
    decreases es
  {
    es == [] || (Allowed(s, es[0]) && Possible(Apply(s, es[0]), es[1..]))
  }

  function Exec(s: State, es: seq<Event>): State
    requires Possible(s, es)
    decreases es
  {
    if es == [] then s else Exec(Apply(s, es[0]), es[1..])
  }

  lemma {:induction false} InitInv(initial: nat, maxSpins: nat, threads: nat)
    ensures Inv(Init(initial, maxSpins, threads))
  {
    var s := Init(initial, maxSpins, threads);
    NoNegativeSums(s);
    SumNotPositive(s.threads, WaiterWeight);
    SumNotPositive(s.threads, PromiseWeight);
  }

  lemma {:induction false} NoNegativeSums(s: State)
    ensures 0 <= Waiters(s) <= |s.threads| && Promised(s) >= 0
  {
    SumNonNegative(s.threads, WaiterWeight);
    SumNonNegative(s.threads, PromiseWeight);
    SumAtMostLength(s.threads, WaiterWeight);
  }

  lemma {:induction false} ReachableInv(s: State, es: seq<Event>)
    requires Inv(s) && Possible(s, es)
    ensures Inv(Exec(s, es))
    decreases es
  {
    if es != [] {
      ApplyKeepsInv(s, es[0]);
      ReachableInv(Apply(s, es[0]), es[1..]);
    }
  }

  // ---------------------------------------------------------------- what the semaphore promises

  /** Neither timeouts nor greedy waits create or lose a permit, in any run. */
  lemma {:induction false} PermitsConserved(initial: nat, maxSpins: nat, threads: nat, es: seq<Event>)
    requires Possible(Init(initial, maxSpins, threads), es)
    ensures var s := Exec(Init(initial, maxSpins, threads), es);
      && Waiters(s) == s.sh.posted + Promised(s) + Positive(-s.sh.count)
      && s.sh.acquired + Available(s) == s.sh.initial + s.sh.signalled
  {
    InitInv(initial, maxSpins, threads);
    ReachableInv(Init(initial, maxSpins, threads), es);
  }

  /** A waiter always has either a permit on its way or a count it can give back: the retry loop cannot be stuck. */
  lemma {:induction false} WaiterCanFinish(s: State, t: nat)
    requires Inv(s) && t < |s.threads| && WaiterWeight(s.threads[t]) == 1
    ensures s.sh.count < 0 || s.sh.posted > 0 || Promised(s) > 0
  {
    SumAtLeast(s.threads, t, WaiterWeight);
  }

  /** The number of permits a signal passes to the operating system fits the threads there are. */
  lemma {:induction false} ReleaseIsBounded(s: State, n: nat)
    requires Inv(s)
    ensures ToRelease(s.sh.count, n) <= Waiters(s) <= |s.threads|
  {
    NoNegativeSums(s);
  }

  /** When all calls have returned no permit is in the operating-system semaphore and the count is exact. */
  lemma {:induction false} QuiescentCountIsExact(s: State)
    requires Inv(s) && forall t :: 0 <= t < |s.threads| ==> s.threads[t].Idle?
    ensures s.sh.posted == 0 && s.sh.count >= 0
    ensures s.sh.acquired + s.sh.count == s.sh.initial + s.sh.signalled
  {
    NoNegativeSums(s);
    SumNotPositive(s.threads, WaiterWeight);
    SumNotPositive(s.threads, PromiseWeight);
  }

  // ---------------------------------------------------------------- results

  /** Permits a thread has acquired in its present call and not yet reported. */
  function GotWeight(pc: Pc): int {
    match pc
    case Returned(got) => got
    case TryLoad(_, ret) => Base(ret)
    case TryCas(_, _, ret) => Base(ret)
    case _ => 0
  }

  /** Every permit acquired is acquired for the call that reports it. */
  lemma {:induction false} ActReportsAcquired(sh: Shared, pc: Pc, ok: bool)
    requires PcOk(pc)
    ensures var (sh', pc') := Act(sh, pc, ok);
      sh'.acquired - sh.acquired == GotWeight(pc') - GotWeight(pc)
  {
  }

  /** The signalled total grows only by the fetch-and-add of a signal. */
  lemma {:induction false} ActReportsSignalled(sh: Shared, pc: Pc, ok: bool)
    ensures var (sh', pc') := Act(sh, pc, ok);
      && sh'.signalled - sh.signalled == (if pc.FetchAdd? then pc.n else 0)
      && !pc'.FetchAdd? && sh'.initial == sh.initial
  {
  }

  // ---------------------------------------------------------------- the code

  class Semaphore {
    var mCount: int
    var mSema: nat
    const mMaxSpins: nat
    const pcs: array<Pc>
    ghost const initial: nat
    ghost var signalled: nat
    ghost var acquired: nat

    ghost function View(): State
      reads this, pcs
    {
      State(Shared(mCount, mSema, mMaxSpins, initial, signalled, acquired), pcs[..])
    }

    constructor (initialCount: nat, maxSpins: nat, threads: nat)
      ensures View() == Init(initialCount, maxSpins, threads) && Inv(View()) && fresh(pcs)
    {
      mCount, mSema, mMaxSpins := initialCount, 0, maxSpins;
      pcs := new Pc[threads](_ => Idle);
      initial, signalled, acquired := initialCount, 0, 0;
      new;
      assert pcs[..] == seq(threads, _ => Idle);
      InitInv(initialCount, maxSpins, threads);
    }

    /** Starts `tryWaitMany`, `waitMany` or `signal`, or ends a call. */
    method Call(e: Event)
      requires Inv(View()) && Allowed(View(), e) && !e.Run?
      modifies pcs
      ensures Inv(View()) && View() == Apply(old(View()), e)
    {
      ApplyKeepsInv(View(), e);
      match e
      case CallTryWait(t, max) => pcs[t] := TryLoad(max, ToCaller(0));
      case CallWait(t, max, timeout) => pcs[t] := TryLoad(max, ToWait(timeout));
      case CallSignal(t, n) => pcs[t] := FetchAdd(n);
      case Return(t) => pcs[t] := Idle;
    }

    /** `m_count.compare_exchange`; an auxiliary note of what was taken with it. */
    method CompareExchange(seen: int, desired: int, ok: bool, ghost taken: nat) returns (swapped: bool)
      modifies this`mCount, this`acquired
      ensures swapped <==> old(mCount) == seen && ok
      ensures mCount == (if swapped then desired else old(mCount))
      ensures acquired == old(acquired) + (if swapped then taken else 0)
    {
      swapped := mCount == seen && ok;
      if swapped {
        mCount := desired;
        acquired := acquired + taken;
      }
    }

    /** The next access of `tryWaitMany`, or of the spinning phase. */
    method ResumeTry(t: nat, ok: bool)
      requires Inv(View()) && Allowed(View(), Run(t, ok)) && InTry(pcs[t])
      modifies this`mCount, this`acquired, pcs
      ensures View() == Apply(old(View()), Run(t, ok))
    {
      assert PcOk(View().threads[t]);
      match pcs[t]
      case TryLoad(max, ret) =>
        pcs[t] := TryLoop(mMaxSpins, max, mCount, ret);
      case TryCas(max, seen, ret) =>
        var left := Leave(seen, max);
        var swapped := CompareExchange(seen, left, ok, seen - left);
        pcs[t] := if swapped then TryDone(max, seen - left, ret)
                  else TryLoop(mMaxSpins, max, mCount, ret);
      case SpinLoad(left, max, timeout) =>
        var seen := mCount;
        pcs[t] := if seen > 0 then SpinCas(left, max, timeout, seen)
                  else NextSpin(if left > 0 then left - 1 else 0, max, timeout);
      case SpinCas(left, max, timeout, seen) =>
        var rest := Leave(seen, max);
        var swapped := CompareExchange(seen, rest, true, seen - rest);
        pcs[t] := if swapped then Returned(seen - rest)
                  else NextSpin(if left > 0 then left - 1 else 0, max, timeout);
    }

    /** The next access of a wait after its spinning phase. */
    method ResumeWait(t: nat, ok: bool)
      requires Inv(View()) && Allowed(View(), Run(t, ok)) && InWait(pcs[t])
      modifies this`mCount, this`mSema, this`acquired, pcs
      ensures View() == Apply(old(View()), Run(t, ok))
    {
      assert PcOk(View().threads[t]);
      match pcs[t]
      case FetchSub(max, timeout) =>
        var oldCount := mCount;
        mCount := mCount - 1;
        if oldCount > 0 {
          acquired := acquired + 1;
          pcs[t] := AfterFirst(max);
        } else {
          pcs[t] := if timeout == Now then RetryLoad(max) else OsWait(max, timeout);
        }
      case OsWait(max, timeout) =>
        if !ok {
          pcs[t] := RetryLoad(max);
        } else if mSema > 0 {
          mSema := mSema - 1;
          acquired := acquired + 1;
          pcs[t] := AfterFirst(max);
        }
      case RetryLoad(max) =>
        var oldCount := mCount;
        pcs[t] := if oldCount >= 0 then RetryTryWait(max) else RetryCas(max, oldCount);
      case RetryTryWait(max) =>
        if mSema > 0 {
          mSema := mSema - 1;
          acquired := acquired + 1;
          pcs[t] := AfterFirst(max);
        } else {
          pcs[t] := RetryLoad(max);
        }
      case RetryCas(max, seen) =>
        var swapped := CompareExchange(seen, seen + 1, true, 0);
        pcs[t] := if swapped then Returned(0) else RetryLoad(max);
    }

    /** The next access of `signal`. */
    method ResumeSignal(t: nat)
      requires Inv(View()) && Allowed(View(), Run(t, true)) && (pcs[t].FetchAdd? || pcs[t].Post?)
      modifies this`mCount, this`mSema, this`signalled, pcs
      ensures View() == Apply(old(View()), Run(t, true))
    {
      assert PcOk(View().threads[t]);
      match pcs[t]
      case FetchAdd(n) =>
        var toRelease := ToRelease(mCount, n);
        mCount := mCount + n;
        signalled := signalled + n;
        pcs[t] := if toRelease > 0 then Post(toRelease) else Returned(0);
      case Post(n) =>
        mSema := mSema + 1;
        pcs[t] := if n > 1 then Post(n - 1) else Returned(0);
    }
  }
}
