/**
 What callers of the semaphore get: never more permits than they asked for, as many as there
 are, and none only for a reason.
 */
module SemaphoreCalls {
  import opened LightweightSemaphore
  import opened Counting

  /**
   The open call of a thread, from its events. `missed` says that a wait gave up waiting for
   the operating system: it was not to wait at all, or the wait failed or timed out.
   */
  datatype Call =
    | NoCall
    | TryWait(max: nat)
    | Wait(max: nat, timeout: Timeout, missed: bool)
    | Signal(n: nat)

  function NextCall(s: State, e: Event, t: nat, call: Call): Call
    requires Allowed(s, e)
  {
    if e.t != t then call
    else
      match e
      case CallTryWait(_, max) => TryWait(max)
      case CallWait(_, max, timeout) => Wait(max, timeout, timeout == Now)
      case CallSignal(_, n) => Signal(n)
      case Return(_) => NoCall
      case Run(_, ok) => if call.Wait? && s.threads[t].OsWait? && !ok then call.(missed := true) else call
  }

  function LastCall(s: State, es: seq<Event>, t: nat, call: Call): Call
    requires Possible(s, es)
    decreases es
  {
    if es == [] then call else LastCall(Apply(s, es[0]), es[1..], t, NextCall(s, es[0], t, call))
  }

  /** What a wait still asks for, with the permits it has. */
  predicate Asks(max: nat, ret: LightweightSemaphore.Return, call: Call) {
    match ret
    case ToCaller(base) =>
      || (call.TryWait? && base == 0 && max == call.max)
      || (call.Wait? && base == 1 && max + 1 == call.max && max > 0)
    case ToWait(timeout) => call.Wait? && max == call.max && timeout == call.timeout
  }

  /** The thread works for its open call, and returns at most what that asked for. */
  predicate Serves(pc: Pc, call: Call) {
    match pc
    case Idle => call.NoCall?
    case Returned(got) =>
      match call {
        case NoCall => false
        case TryWait(max) => got <= max
        case Wait(max, _, missed) => got <= max && (got == 0 && max > 0 ==> missed)
        case Signal(_) => got == 0
      }
    case TryLoad(max, ret) => Asks(max, ret, call)
    case TryCas(max, _, ret) => Asks(max, ret, call)
    case SpinLoad(_, max, timeout) => call.Wait? && max == call.max && timeout == call.timeout
    case SpinCas(_, max, timeout, _) => call.Wait? && max == call.max && timeout == call.timeout
    case FetchSub(max, timeout) => call.Wait? && max == call.max && timeout == call.timeout && (timeout == Now ==> call.missed)
    case OsWait(max, timeout) => call.Wait? && max == call.max
    case RetryLoad(max) => call.Wait? && max == call.max && call.missed
    case RetryTryWait(max) => call.Wait? && max == call.max && call.missed
    case RetryCas(max, _) => call.Wait? && max == call.max && call.missed
    case FetchAdd(n) => call == Signal(n)
    case Post(n) => call.Signal? && n <= call.n
  }

  /** Not to wait at all is to have missed the wait from the start. */
  predicate NowMisses(call: Call) {
    call.Wait? && call.timeout == Now ==> call.missed
  }

  lemma {:induction false} ActServes(sh: Shared, pc: Pc, ok: bool, call: Call)
    requires PcOk(pc) && Serves(pc, call) && NowMisses(call)
    ensures Serves(Act(sh, pc, ok).1, if call.Wait? && pc.OsWait? && !ok then call.(missed := true) else call)
  {
    if InTry(pc) {
      TryServes(sh, pc, ok, call);
    } else if InWait(pc) {
      WaitServes(sh, pc, ok, call);
    }
  }

  lemma {:induction false} TryServes(sh: Shared, pc: Pc, ok: bool, call: Call)
    requires InTry(pc) && PcOk(pc) && Serves(pc, call) && NowMisses(call)
    ensures Serves(ActTry(sh, pc, ok).1, call)
  {
  }

  lemma {:induction false} WaitServes(sh: Shared, pc: Pc, ok: bool, call: Call)
    requires InWait(pc) && PcOk(pc) && Serves(pc, call) && NowMisses(call)
    ensures Serves(ActWait(sh, pc, ok).1, if call.Wait? && pc.OsWait? && !ok then call.(missed := true) else call)
  {
  }

  lemma {:induction false} EventServes(s: State, e: Event, t: nat, call: Call)
    requires Inv(s) && Allowed(s, e) && t < |s.threads| && Serves(s.threads[t], call) && NowMisses(call)
    ensures t < |Apply(s, e).threads| && Serves(Apply(s, e).threads[t], NextCall(s, e, t, call))
    ensures NowMisses(NextCall(s, e, t, call))
  {
    if e.Run? && e.t == t {
      hide Act;
      ActServes(s.sh, s.threads[t], e.ok, call);
    }
  }

  lemma {:induction false} RunServes(s: State, es: seq<Event>, t: nat, call: Call)
    requires Inv(s) && Possible(s, es) && t < |s.threads| && Serves(s.threads[t], call) && NowMisses(call)
    ensures t < |Exec(s, es).threads| && Serves(Exec(s, es).threads[t], LastCall(s, es, t, call))
    decreases es
  {
    hide Inv, Allowed, Apply, Serves, NowMisses;
    if es != [] {
      EventServes(s, es[0], t, call);
      ApplyKeepsInv(s, es[0]);
      RunServes(Apply(s, es[0]), es[1..], t, NextCall(s, es[0], t, call));
    }
  }

  /**
   In every run a call returns at most what it asked for, and a wait returns nothing only if it
   was not to wait, or if waiting failed or timed out.
   */
  lemma {:induction false} ReturnsWithin(initial: nat, maxSpins: nat, threads: nat, es: seq<Event>, t: nat)
    requires t < threads && Possible(Init(initial, maxSpins, threads), es)
    ensures var s := Exec(Init(initial, maxSpins, threads), es);
      var call := LastCall(Init(initial, maxSpins, threads), es, t, NoCall);
      && t < |s.threads| && (s.threads[t].Idle? <==> call.NoCall?)
      && (s.threads[t].Returned? ==>
            match call {
              case NoCall => false
              case TryWait(max) => s.threads[t].got <= max
              case Wait(max, _, missed) => s.threads[t].got <= max && (s.threads[t].got == 0 && max > 0 ==> missed)
              case Signal(_) => s.threads[t].got == 0
            })
  {
    InitInv(initial, maxSpins, threads);
    RunServes(Init(initial, maxSpins, threads), es, t, NoCall);
  }

  // ---------------------------------------------------------------- how much one access takes

  function Min(a: int, b: int): int { if a < b then a else b }

  /**
   A `tryWaitMany` or a spinning wait that takes from the count takes the smaller of what it
   asks for and what is there, and returns with it; a `tryWaitMany` that gives up saw a count
   that was not positive.
   */
  lemma {:induction false} TakesGreedily(sh: Shared, pc: Pc, ok: bool)
    requires InTry(pc) && PcOk(pc)
    ensures var (sh', pc') := ActTry(sh, pc, ok);
      && (sh'.count != sh.count ==>
            && sh.count > 0 && sh'.count == sh.count - Min(pc.max, sh.count)
            && pc' == Returned(GotWeight(pc) + Min(pc.max, sh.count)))
      && (pc'.Returned? && sh'.count == sh.count && pc.max > 0 ==> sh.count <= 0 && pc' == Returned(GotWeight(pc)))
  {
  }

  /** One permit at a time from the operating system, or from the count in passing. */
  lemma {:induction false} WaitTakesOne(sh: Shared, pc: Pc, ok: bool)
    requires InWait(pc) && PcOk(pc)
    ensures var (sh', pc') := ActWait(sh, pc, ok);
      && (sh'.acquired == sh.acquired || sh'.acquired == sh.acquired + 1)
      && (sh'.acquired == sh.acquired + 1 ==> pc' == if pc.max > 1 then TryLoad(pc.max - 1, ToCaller(1)) else Returned(1))
      && (pc'.Returned? && sh'.acquired == sh.acquired ==> pc.RetryCas? && sh.count < 0 && sh'.count == sh.count + 1)
  {
  }

  /** Undisturbed, `tryWaitMany` takes the smaller of what it asks for and what is there, in at most two accesses. */
  lemma {:induction false} LoneTryWait(s: State, t: nat, max: nat)
    requires Inv(s) && t < |s.threads| && s.threads[t].Idle?
    ensures var s1 := Apply(Apply(s, CallTryWait(t, max)), Run(t, true)); var n := Min(max, s.sh.count);
      && (s.sh.count <= 0 ==> s1 == s.(threads := s.threads[t := Returned(0)]))
      && (s.sh.count > 0 ==>
            Apply(s1, Run(t, true))
            == State(s.sh.(count := s.sh.count - n, acquired := s.sh.acquired + n), s.threads[t := Returned(n)]))
  {
  }

  /** A signal adds exactly what it was called with, and posts for waiters before it returns. */
  lemma {:induction false} SignalAdds(s: State, t: nat, n: nat)
    requires Inv(s) && t < |s.threads| && s.threads[t].Idle?
    ensures var s1 := Apply(Apply(s, CallSignal(t, n)), Run(t, true)); var r := ToRelease(s.sh.count, n);
      && s1.sh == s.sh.(count := s.sh.count + n, signalled := s.sh.signalled + n)
      && s1.threads == s.threads[t := if r > 0 then Post(r) else Returned(0)]
  {
  }

  // ---------------------------------------------------------------- progress

  /** How many accesses of the try and of the spinning are left at most, if nobody else runs. */
  function Attempts(sh: Shared, pc: Pc): int {
    match pc
    case TryLoad(_, _) => 2 * sh.maxSpins + 5
    case TryCas(_, _, _) => 2 * sh.maxSpins + 4
    case SpinLoad(left, _, _) => 2 * left + 2
    case SpinCas(left, _, _, _) => 2 * left + 1
    case _ => 0
  }

  predicate FewSpins(sh: Shared, pc: Pc) {
    (pc.SpinLoad? || pc.SpinCas? ==> pc.left <= sh.maxSpins) && (pc.TryCas? || pc.SpinCas? ==> pc.seen == sh.count)
  }

  /** Undisturbed, the try and the spinning come to an end: with permits, or with the wait itself. */
  lemma {:induction false} AttemptsEnd(sh: Shared, pc: Pc)
    requires InTry(pc) && PcOk(pc) && FewSpins(sh, pc)
    ensures var (sh', pc') := ActTry(sh, pc, true);
      && (InTry(pc') ==> sh' == sh && FewSpins(sh', pc') && 0 < Attempts(sh', pc') < Attempts(sh, pc))
      && (!InTry(pc') ==> pc'.Returned? || pc'.FetchSub?)
  {
  }

  /** A permit that was posted is taken by whoever waits for it. */
  lemma {:induction false} WaiterTakesPost(sh: Shared, pc: Pc)
    requires pc.OsWait? && sh.posted > 0
    ensures var (sh', pc') := ActWait(sh, pc, true);
      sh'.posted == sh.posted - 1 && sh'.acquired == sh.acquired + 1 && sh'.count == sh.count && !InWait(pc')
  {
  }

  /** A wait that has given up is over in two accesses: it gives its count back, or takes the permit meant for it. */
  lemma {:induction false} LoneRetry(sh: Shared, pc: Pc)
    requires pc.RetryLoad? && (sh.count < 0 || sh.posted > 0)
    ensures var (sh1, pc1) := ActWait(sh, pc, true);
      && sh1 == sh && InWait(pc1)
      && var (sh2, pc2) := ActWait(sh1, pc1, true);
         if sh.count < 0 then pc2 == Returned(0) && sh2 == sh.(count := sh.count + 1)
         else !InWait(pc2) && sh2 == sh.(posted := sh.posted - 1, acquired := sh.acquired + 1)
  {
  }

  /** A wait on a count that is not positive goes on to the operating system, unless it is not to wait. */
  lemma {:induction false} WaitBegins(sh: Shared, max: nat, timeout: Timeout)
    ensures var (sh', pc') := ActWait(sh, FetchSub(max, timeout), true);
      && sh'.count == sh.count - 1
      && (sh.count <= 0 ==> pc' == if timeout == Now then RetryLoad(max) else OsWait(max, timeout))
      && (sh.count > 0 ==> sh'.acquired == sh.acquired + 1)
  {
  }

  lemma {:induction false} First(s: State, e: Event, es: seq<Event>)
    requires Allowed(s, e) && Possible(Apply(s, e), es)
    ensures Possible(s, [e] + es) && Exec(s, [e] + es) == Exec(Apply(s, e), es)
  {
    assert ([e] + es)[1..] == es;
  }

  /** A signal posts all the permits it has promised, and returns. */
  lemma {:induction false} SignalPosts(s: State, t: nat) returns (es: seq<Event>)
    requires Inv(s) && t < |s.threads| && s.threads[t].Post?
    ensures |es| == s.threads[t].n && (forall i :: 0 <= i < |es| ==> es[i] == Run(t, true)) && Possible(s, es)
    ensures Exec(s, es) == State(s.sh.(posted := s.sh.posted + s.threads[t].n), s.threads[t := Returned(0)])
    decreases s.threads[t].n
  {
    assert PcOk(s.threads[t]);
    ApplyKeepsInv(s, Run(t, true));
    var s1 := Apply(s, Run(t, true));
    var rest := [];
    if s.threads[t].n > 1 {
      rest := SignalPosts(s1, t);
    }
    First(s, Run(t, true), rest);
    es := [Run(t, true)] + rest;
  }
}
