/**
 How the consumers of an implicit producer claim slots: the optimistic and the overcommit
 counter in front of `headIndex`, read without a lock and possibly stale.

 A single `dequeue` is a `dequeue_bulk` of at most one. The four counters wrap at 2^64 in
 the source and are only ever compared circularly; here they are unbounded, every test is
 the source's test on the wrapped values, and the runs are those in which no two compared
 values are 2^63 or more apart.
 */
module DequeueCounters {
  import opened Blocks
  import opened Counting
  import opened Words

  // ---------------------------------------------------------------- the steps

  datatype Pc =
    | Idle
    | LoadTail(max: nat)
    | LoadOvercommit(max: nat, tail: nat)
    | LoadOptimistic(max: nat, tail: nat, over: nat)
    | AddOptimistic(want: nat, over: nat)
    | ReloadTail(mine: nat, want: nat, over: nat)
    | AddOvercommit(lo: nat, n: nat, actual: nat)
    | AddHead(actual: nat)
    | Holding(first: nat, n: nat)

  /** What became of one optimistic increment (auxiliary): undecided, entitled to a slot, or given back. */
  datatype Fate = Open(t: nat) | Won | Spent

  /**
   `fate[i]` belongs to the i-th optimistic increment, `claimant[j]` is the thread that
   claimed slot `j`; both are auxiliary.
   */
  datatype State = State(tail: nat, head: nat, optimistic: nat, overcommit: nat, threads: seq<Pc>, fate: seq<Fate>, claimant: seq<nat>)

  datatype Event =
    | Publish(n: nat)
    | CallDequeue(t: nat, max: nat)
    | Run(t: nat)
    | Finish(t: nat)

  /** `tail - (count - over)` as the 64-bit value the source computes, tested by `circular_less_than(0, .)`. */
  predicate SomeLeft(tail: nat, count: nat, over: nat) {
    CircularLess(0, (tail - (count - over)) % WORD)
  }

  function Goto(s: State, t: nat, pc: Pc): State
    requires t < |s.threads|
  {
    s.(threads := s.threads[t := pc])
  }

  function SetRange(fate: seq<Fate>, lo: nat, n: nat, v: Fate): seq<Fate> {
    seq(|fate|, i requires 0 <= i < |fate| => if lo <= i < lo + n then v else fate[i])
  }

  /** The amount the source computes modulo 2^64; on the branch that uses it, it is positive and small. */
  function Amount(tail: nat, count: nat, over: nat): nat {
    (tail - (count - over)) % WORD
  }

  function Step(s: State, t: nat): State
    requires t < |s.threads|
  {
    match s.threads[t]
    case Idle => s
    case LoadTail(max) => Goto(s, t, LoadOvercommit(max, s.tail))
    case LoadOvercommit(max, tail) => Goto(s, t, LoadOptimistic(max, tail, s.overcommit))
    case LoadOptimistic(max, tail, over) =>
      if SomeLeft(tail, s.optimistic, over) then
        Goto(s, t, AddOptimistic(Min(Amount(tail, s.optimistic, over), max), over))
      else Goto(s, t, Idle)
    case AddOptimistic(want, over) =>
      Goto(s.(optimistic := s.optimistic + want, fate := s.fate + seq(want, _ => Open(t))), t,
           ReloadTail(s.optimistic, want, over))
    case ReloadTail(mine, want, over) =>
      if SomeLeft(s.tail, mine, over) then
        var actual := Min(want, Amount(s.tail, mine, over));
        Goto(s.(fate := SetRange(s.fate, mine, actual, Won)), t,
             if actual < want then AddOvercommit(mine + actual, want - actual, actual) else AddHead(actual))
      else Goto(s, t, AddOvercommit(mine, want, 0))
    case AddOvercommit(lo, n, actual) =>
      Goto(s.(overcommit := s.overcommit + n, fate := SetRange(s.fate, lo, n, Spent)), t,
           if actual > 0 then AddHead(actual) else Idle)
    case AddHead(actual) =>
      Goto(s.(head := s.head + actual, claimant := s.claimant + seq(actual, _ => t)), t, Holding(s.head, actual))
    case Holding(_, _) => s
  }

  /** A dequeue asks for at least one item. The compared values are less than half a turn apart. */
  predicate Allowed(s: State, e: Event) {
    match e
    case Publish(_) => true
    case CallDequeue(t, max) => t < |s.threads| && s.threads[t].Idle? && max > 0
    case Finish(t) => t < |s.threads| && s.threads[t].Holding?
    case Run(t) =>
      && t < |s.threads|
      && match s.threads[t] {
           case LoadOptimistic(_, tail, over) => Window(0, tail - (s.optimistic - over))
           case ReloadTail(mine, _, over) => Window(0, s.tail - (mine - over))
           case _ => true
         }
  }

  function Apply(s: State, e: Event): State
    requires Allowed(s, e)
  {
    match e
    case Publish(n) => s.(tail := s.tail + n)
    case CallDequeue(t, max) => Goto(s, t, LoadTail(max))
    case Finish(t) => Goto(s, t, Idle)
    case Run(t) => Step(s, t)
  }

  // ---------------------------------------------------------------- the invariant

  function WonWeight(f: Fate): int { if f.Won? then 1 else 0 }

  function SpentWeight(f: Fate): int { if f.Spent? then 1 else 0 }

  function WonIn(fate: seq<Fate>, k: nat): int
    requires k <= |fate|
  {
    Sum(fate[..k], WonWeight)
  }

  function SpentIn(fate: seq<Fate>, k: nat): int
    requires k <= |fate|
  {
    Sum(fate[..k], SpentWeight)
  }

  /** Optimistic increments of a thread that are not yet in the head or the overcommit counter. */
  function PendingWeight(pc: Pc): int {
    match pc
    case ReloadTail(_, want, _) => want
    case AddOvercommit(_, n, actual) => n + actual
    case AddHead(actual) => actual
    case _ => 0
  }

  /** Slots a thread is entitled to and has not claimed yet. */
  function EntitledWeight(pc: Pc): int {
    match pc
    case AddOvercommit(_, _, actual) => actual
    case AddHead(actual) => actual
    case _ => 0
  }

  /** The increments `lo` to `lo + n` are thread `t`'s and undecided. */
  predicate OpenRange(fate: seq<Fate>, t: nat, lo: nat, n: nat) {
    lo + n <= |fate| && forall i :: lo <= i < lo + n ==> fate[i] == Open(t)
  }

  predicate ThreadOk(s: State, t: nat) {
    && t < |s.threads|
    && match s.threads[t] {
         case LoadTail(max) => max > 0
         case LoadOvercommit(max, tail) => max > 0 && tail <= s.tail
         case LoadOptimistic(max, tail, over) => max > 0 && tail <= s.tail && over <= s.overcommit
         case AddOptimistic(want, over) => want > 0 && over <= s.overcommit
         case ReloadTail(mine, want, over) =>
           want > 0 && OpenRange(s.fate, t, mine, want) && over <= SpentIn(s.fate, mine)
         case AddOvercommit(lo, n, actual) => n > 0 && OpenRange(s.fate, t, lo, n)
         case AddHead(actual) => actual > 0
         case Holding(first, n) =>
           n > 0 && first + n <= |s.claimant| && forall i :: first <= i < first + n ==> s.claimant[i] == t
         case _ => true
       }
  }

  /** An increment that won lies, less the ones given back before it, below the tail. */
  predicate WonBelowTail(fate: seq<Fate>, tail: nat, m: nat) {
    m < |fate| && (fate[m].Won? ==> m + 1 - SpentIn(fate, m) <= tail)
  }

  ghost predicate Inv(s: State) {
    && |s.fate| == s.optimistic
    && |s.claimant| == s.head
    && SpentIn(s.fate, |s.fate|) == s.overcommit
    && WonIn(s.fate, |s.fate|) == s.head + Sum(s.threads, EntitledWeight)
    && s.optimistic == s.overcommit + s.head + Sum(s.threads, PendingWeight)
    && (forall m :: 0 <= m < |s.fate| ==> WonBelowTail(s.fate, s.tail, m))
    && (forall t :: 0 <= t < |s.threads| ==> ThreadOk(s, t))
  }

  // ---------------------------------------------------------------- facts about the fates

  lemma {:induction false} SumSetRange(fate: seq<Fate>, lo: nat, n: nat, v: Fate, w: Fate -> int)
    requires lo + n <= |fate|
    requires forall i :: lo <= i < lo + n ==> w(fate[i]) == 0
    ensures w(v) == 0 ==> Sum(SetRange(fate, lo, n, v), w) == Sum(fate, w)
    ensures w(v) == 1 ==> Sum(SetRange(fate, lo, n, v), w) == Sum(fate, w) + n
  {
    if n == 0 {
      assert SetRange(fate, lo, 0, v) == fate;
    } else {
      SumSetRange(fate, lo, n - 1, v, w);
      var before := SetRange(fate, lo, n - 1, v);
      assert before[lo + n - 1] == fate[lo + n - 1];
      SumUpdate(before, lo + n - 1, v, w);
      assert SetRange(fate, lo, n, v) == before[lo + n - 1 := v];
    }
  }

  lemma {:induction false} SpentInMonotone(fate: seq<Fate>, k: nat, m: nat)
    requires k <= m <= |fate|
    ensures SpentIn(fate, k) <= SpentIn(fate, m)
  {
    assert fate[..m] == fate[..k] + fate[k..m];
    SumConcat(fate[..k], fate[k..m], SpentWeight);
    SumNonNegative(fate[k..m], SpentWeight);
  }

  /** Deciding open increments never lowers the number given back before any point. */
  lemma {:induction false} SpentInDecided(fate: seq<Fate>, t: nat, lo: nat, n: nat, v: Fate, m: nat)
    requires OpenRange(fate, t, lo, n) && m <= |fate|
    ensures SpentIn(fate, m) <= SpentIn(SetRange(fate, lo, n, v), m)
  {
    SumPointwise(fate[..m], SetRange(fate, lo, n, v)[..m], SpentWeight);
  }

  /** The increments before `k` that won are at most the tail, whoever made them. */
  lemma {:induction false} WonBound(fate: seq<Fate>, tail: nat, k: nat)
    requires k <= |fate|
    requires forall m :: 0 <= m < |fate| ==> WonBelowTail(fate, tail, m)
    ensures WonIn(fate, k) + SpentIn(fate, k) <= k
    ensures WonIn(fate, k) <= tail
  {
    if k == 0 {
      assert fate[..0] == [];
    } else {
      WonBound(fate, tail, k - 1);
      SumPrefixStep(fate, k - 1, WonWeight);
      SumPrefixStep(fate, k - 1, SpentWeight);
      assert WonBelowTail(fate, tail, k - 1);
    }
  }

  lemma {:induction false} PendingNonNegative(threads: seq<Pc>)
    ensures Sum(threads, PendingWeight) >= 0 && Sum(threads, EntitledWeight) >= 0
    ensures forall t :: 0 <= t < |threads| ==> Sum(threads, EntitledWeight) >= EntitledWeight(threads[t])
  {
    SumNonNegative(threads, PendingWeight);
    SumNonNegative(threads, EntitledWeight);
    forall t | 0 <= t < |threads|
      ensures Sum(threads, EntitledWeight) >= EntitledWeight(threads[t])
    {
      SumAtLeast(threads, t, EntitledWeight);
    }
  }

  /** Moving one thread changes both sums by that thread's weights. */
  lemma {:induction false} GotoSums(threads: seq<Pc>, t: nat, pc: Pc)
    requires t < |threads|
    ensures Sum(threads[t := pc], PendingWeight)
         == Sum(threads, PendingWeight) - PendingWeight(threads[t]) + PendingWeight(pc)
    ensures Sum(threads[t := pc], EntitledWeight)
         == Sum(threads, EntitledWeight) - EntitledWeight(threads[t]) + EntitledWeight(pc)
  {
    SumUpdate(threads, t, pc, PendingWeight);
    SumUpdate(threads, t, pc, EntitledWeight);
  }

  // ---------------------------------------------------------------- every step keeps the invariant

  /** A step that leaves the fates alone and lowers no counter. */
  lemma {:induction false} PlainStepKeeps(s: State, s': State, t: nat)
    requires Inv(s) && t < |s.threads|
    requires s'.fate == s.fate && s'.optimistic == s.optimistic && s'.overcommit == s.overcommit
    requires s'.tail >= s.tail && s'.head == s.head && s'.claimant == s.claimant
    requires |s'.threads| == |s.threads| && s'.threads == s.threads[t := s'.threads[t]]
    requires PendingWeight(s'.threads[t]) == PendingWeight(s.threads[t])
    requires EntitledWeight(s'.threads[t]) == EntitledWeight(s.threads[t])
    requires ThreadOk(s', t)
    ensures Inv(s')
  {
    GotoSums(s.threads, t, s'.threads[t]);
    forall m | 0 <= m < |s'.fate| ensures WonBelowTail(s'.fate, s'.tail, m) {
      assert WonBelowTail(s.fate, s.tail, m);
    }
    forall u | 0 <= u < |s'.threads| ensures ThreadOk(s', u) {
      assert ThreadOk(s, u);
    }
  }

  lemma {:induction false} LoadKeeps(s: State, t: nat)
    requires Inv(s) && Allowed(s, Run(t))
    requires s.threads[t].LoadTail? || s.threads[t].LoadOvercommit? || s.threads[t].LoadOptimistic?
    ensures Inv(Step(s, t))
  {
    assert ThreadOk(s, t);
    if s.threads[t].LoadOptimistic? {
      SomeLeftIsTrue(s.threads[t].tail, s.optimistic, s.threads[t].over);
    }
    PlainStepKeeps(s, Step(s, t), t);
  }

  /** Inside the window the source's test and amount are the true difference. */
  lemma {:induction false} SomeLeftIsTrue(tail: nat, count: nat, over: nat)
    requires Window(0, tail - (count - over))
    ensures SomeLeft(tail, count, over) <==> tail - (count - over) > 0
    ensures SomeLeft(tail, count, over) ==> Amount(tail, count, over) == tail - (count - over)
  {
    CircularIsTrueOrder(0, tail - (count - over));
    assert 0 % WORD == 0;
  }

  lemma {:induction false} AddOptimisticKeeps(s: State, t: nat)
    requires Inv(s) && Allowed(s, Run(t)) && s.threads[t].AddOptimistic?
    ensures Inv(Step(s, t))
  {
    var s' := Step(s, t);
    var want, over := s.threads[t].want, s.threads[t].over;
    var added := seq(want, _ => Open(t));
    assert s'.fate == s.fate + added;
    assert ThreadOk(s, t);
    GotoSums(s.threads, t, s'.threads[t]);
    AppendOpen(s.fate, added);
    forall m | 0 <= m < |s'.fate| ensures WonBelowTail(s'.fate, s'.tail, m) {
      if m < |s.fate| {
        assert WonBelowTail(s.fate, s.tail, m);
        assert s'.fate[..m] == s.fate[..m];
      }
    }
    forall u | 0 <= u < |s'.threads| ensures ThreadOk(s', u) {
      assert ThreadOk(s, u);
      if s.threads[u].ReloadTail? {
        assert s'.fate[..s.threads[u].mine] == s.fate[..s.threads[u].mine];
      }
      assert s'.fate[..|s.fate|] == s.fate == s.fate[..|s.fate|];
    }
  }

  lemma {:induction false} AppendOpen(fate: seq<Fate>, added: seq<Fate>)
    requires forall i :: 0 <= i < |added| ==> added[i].Open?
    ensures WonIn(fate + added, |fate + added|) == WonIn(fate, |fate|)
    ensures SpentIn(fate + added, |fate + added|) == SpentIn(fate, |fate|)
  {
    assert (fate + added)[..|fate + added|] == fate + added;
    assert fate[..|fate|] == fate;
    SumConcat(fate, added, WonWeight);
    SumConcat(fate, added, SpentWeight);
    SumNonNegative(added, WonWeight);
    SumNotPositive(added, WonWeight);
    SumNonNegative(added, SpentWeight);
    SumNotPositive(added, SpentWeight);
  }

  /** Deciding a range of `t`'s open increments: the totals, and what stays true of the others. */
  lemma {:induction false} DecideTotals(fate: seq<Fate>, t: nat, lo: nat, n: nat, v: Fate)
    requires OpenRange(fate, t, lo, n) && !v.Open?
    ensures var f := SetRange(fate, lo, n, v);
      && |f| == |fate|
      && WonIn(f, |f|) == WonIn(fate, |fate|) + (if v.Won? then n else 0)
      && SpentIn(f, |f|) == SpentIn(fate, |fate|) + (if v.Spent? then n else 0)
  {
    var f := SetRange(fate, lo, n, v);
    assert f[..|f|] == f && fate[..|fate|] == fate;
    SumSetRange(fate, lo, n, v, WonWeight);
    SumSetRange(fate, lo, n, v, SpentWeight);
  }

  lemma {:induction false} OpenElsewhere(fate: seq<Fate>, t: nat, lo: nat, n: nat, v: Fate, u: nat, a: nat, k: nat)
    requires OpenRange(fate, t, lo, n) && OpenRange(fate, u, a, k) && u != t
    ensures OpenRange(SetRange(fate, lo, n, v), u, a, k)
  {
    forall i | a <= i < a + k ensures SetRange(fate, lo, n, v)[i] == Open(u) {
      assert fate[i] == Open(u);
    }
  }

  /** Another thread's open increments stay open. */
  lemma {:induction false} OthersKeep(s: State, s': State, t: nat, lo: nat, n: nat, v: Fate, u: nat)
    requires ThreadOk(s, u) && u != t && OpenRange(s.fate, t, lo, n)
    requires s'.fate == SetRange(s.fate, lo, n, v)
    requires s'.tail == s.tail && s'.overcommit >= s.overcommit && s'.claimant == s.claimant
    requires u < |s'.threads| && s'.threads[u] == s.threads[u]
    ensures ThreadOk(s', u)
  {
    match s.threads[u]
    case ReloadTail(mine, want, _) =>
      SpentInDecided(s.fate, t, lo, n, v, mine);
      OpenElsewhere(s.fate, t, lo, n, v, u, mine, want);
    case AddOvercommit(lo', n', _) =>
      OpenElsewhere(s.fate, t, lo, n, v, u, lo', n');
    case _ =>
  }

  /**
   The reason an entitled consumer finds a slot: a stale overcommit value read before the
   increment is at most what had been given back before it.
   */
  lemma {:induction false} WinnersStayBelowTail(fate: seq<Fate>, tail: nat, t: nat, mine: nat, actual: nat, over: nat)
    requires OpenRange(fate, t, mine, actual)
    requires forall m :: 0 <= m < |fate| ==> WonBelowTail(fate, tail, m)
    requires over <= SpentIn(fate, mine) && mine + actual - over <= tail
    ensures forall m :: 0 <= m < |fate| ==> WonBelowTail(SetRange(fate, mine, actual, Won), tail, m)
  {
    forall m | 0 <= m < |fate| ensures WonBelowTail(SetRange(fate, mine, actual, Won), tail, m) {
      assert WonBelowTail(fate, tail, m);
      SpentInDecided(fate, t, mine, actual, Won, m);
      if mine <= m < mine + actual {
        SpentInMonotone(fate, mine, m);
      }
    }
  }

  lemma {:induction false} ReloadTailKeeps(s: State, t: nat)
    requires Inv(s) && Allowed(s, Run(t)) && s.threads[t].ReloadTail?
    ensures Inv(Step(s, t))
  {
    var mine, want, over := s.threads[t].mine, s.threads[t].want, s.threads[t].over;
    var s' := Step(s, t);
    assert ThreadOk(s, t);
    SomeLeftIsTrue(s.tail, mine, over);
    if SomeLeft(s.tail, mine, over) {
      var actual := Min(want, Amount(s.tail, mine, over));
      GotoSums(s.threads, t, s'.threads[t]);
      DecideTotals(s.fate, t, mine, actual, Won);
      WinnersStayBelowTail(s.fate, s.tail, t, mine, actual, over);
      forall u | 0 <= u < |s'.threads| ensures ThreadOk(s', u) {
        assert ThreadOk(s, u);
        if u != t {
          OthersKeep(s, s', t, mine, actual, Won, u);
        }
      }
    } else {
      PlainStepKeeps(s, s', t);
    }
  }

  lemma {:induction false} AddOvercommitKeeps(s: State, t: nat)
    requires Inv(s) && Allowed(s, Run(t)) && s.threads[t].AddOvercommit?
    ensures Inv(Step(s, t))
  {
    var lo, n := s.threads[t].lo, s.threads[t].n;
    var s' := Step(s, t);
    assert ThreadOk(s, t);
    GotoSums(s.threads, t, s'.threads[t]);
    DecideTotals(s.fate, t, lo, n, Spent);
    forall m | 0 <= m < |s'.fate| ensures WonBelowTail(s'.fate, s'.tail, m) {
      assert WonBelowTail(s.fate, s.tail, m);
      SpentInDecided(s.fate, t, lo, n, Spent, m);
    }
    forall u | 0 <= u < |s'.threads| ensures ThreadOk(s', u) {
      assert ThreadOk(s, u);
      if u != t {
        OthersKeep(s, s', t, lo, n, Spent, u);
      }
    }
  }

  lemma {:induction false} AddHeadKeeps(s: State, t: nat)
    requires Inv(s) && Allowed(s, Run(t)) && s.threads[t].AddHead?
    ensures Inv(Step(s, t))
  {
    var s' := Step(s, t);
    assert ThreadOk(s, t);
    GotoSums(s.threads, t, s'.threads[t]);
    forall m | 0 <= m < |s'.fate| ensures WonBelowTail(s'.fate, s'.tail, m) {
      assert WonBelowTail(s.fate, s.tail, m);
    }
    forall u | 0 <= u < |s'.threads| ensures ThreadOk(s', u) {
      assert ThreadOk(s, u);
    }
  }

  /** Every step of every thread, and every publication, keeps the invariant. */
  lemma {:induction false} StepKeepsInv(s: State, e: Event)
    requires Inv(s) && Allowed(s, e)
    ensures Inv(Apply(s, e))
  {
    match e
    case Publish(n) =>
      var s' := Apply(s, e);
      forall m | 0 <= m < |s'.fate| ensures WonBelowTail(s'.fate, s'.tail, m) {
        assert WonBelowTail(s.fate, s.tail, m);
      }
      forall u | 0 <= u < |s'.threads| ensures ThreadOk(s', u) {
        assert ThreadOk(s, u);
      }
    case CallDequeue(t, max) => PlainStepKeeps(s, Apply(s, e), t);
    case Finish(t) => PlainStepKeeps(s, Apply(s, e), t);
    case Run(t) =>
      match s.threads[t]
      case Idle => assert s.threads[t := Idle] == s.threads;
      case Holding(_, _) =>
      case AddOptimistic(_, _) => AddOptimisticKeeps(s, t);
      case ReloadTail(_, _, _) => ReloadTailKeeps(s, t);
      case AddOvercommit(_, _, _) => AddOvercommitKeeps(s, t);
      case AddHead(_) => AddHeadKeeps(s, t);
      case _ => LoadKeeps(s, t);
  }

  // ---------------------------------------------------------------- runs and theorems

  predicate Init(s: State) {
    && s.tail == 0 && s.head == 0 && s.optimistic == 0 && s.overcommit == 0
    && s.fate == [] && s.claimant == []
    && forall t :: 0 <= t < |s.threads| ==> s.threads[t] == Idle
  }

  predicate Possible(s: State, es: seq<Event>)
    decreases es
  {
    es == [] || (Allowed(s, es[0]) && Possible(Apply(s, es[0]), es[1..]))
  }

  function Exec(s: State, es: seq<Event>): State
    requires Possible(s, es)
    decreases es
  {
    if es == [] then s else Exec(Apply(s, es[0]), es[1..])
  }

  lemma {:induction false} InitInv(s: State)
    requires Init(s)
    ensures Inv(s)
  {
    IdleSums(s.threads);
    assert s.fate[..|s.fate|] == [];
    forall t | 0 <= t < |s.threads| ensures ThreadOk(s, t) {
    }
  }

  lemma {:induction false} IdleSums(threads: seq<Pc>)
    requires forall t :: 0 <= t < |threads| ==> PendingWeight(threads[t]) == EntitledWeight(threads[t]) == 0
    ensures Sum(threads, PendingWeight) == 0 && Sum(threads, EntitledWeight) == 0
  {
    SumNonNegative(threads, PendingWeight);
    SumNotPositive(threads, PendingWeight);
    SumNonNegative(threads, EntitledWeight);
    SumNotPositive(threads, EntitledWeight);
  }

  lemma {:induction false} InvAlong(s: State, es: seq<Event>)
    requires Inv(s) && Possible(s, es)
    ensures Inv(Exec(s, es))
    decreases es
  {
    if es != [] {
      StepKeepsInv(s, es[0]);
      InvAlong(Apply(s, es[0]), es[1..]);
    }
  }

  lemma {:induction false} ReachableInv(s: State, es: seq<Event>)
    requires Init(s) && Possible(s, es)
    ensures Inv(Exec(s, es))
  {
    InitInv(s);
    InvAlong(s, es);
  }

  lemma {:induction false} HeadBelowTail(s: State)
    requires Inv(s)
    ensures s.head + Sum(s.threads, EntitledWeight) <= s.tail && s.head <= s.tail
    ensures forall t :: 0 <= t < |s.threads| && s.threads[t].AddHead? ==> s.head + s.threads[t].actual <= s.tail
  {
    WonBound(s.fate, s.tail, |s.fate|);
    PendingNonNegative(s.threads);
  }

  /**
   In every reachable state the head counter plus all slots the consumers are still
   entitled to stay below the tail. So the fetch_add on the head, whenever it happens,
   returns slots that were published.
   */
  lemma {:induction false} HeadNeverPassesTail(s: State, es: seq<Event>)
    requires Init(s) && Possible(s, es)
    ensures var z := Exec(s, es);
      && z.head + Sum(z.threads, EntitledWeight) <= z.tail
      && z.head <= z.tail
      && (forall t :: 0 <= t < |z.threads| && z.threads[t].AddHead? ==> z.head + z.threads[t].actual <= z.tail)
  {
    ReachableInv(s, es);
    HeadBelowTail(Exec(s, es));
  }

  /** A slot a consumer has claimed was published, and no other consumer has claimed it. */
  lemma {:induction false} ClaimsAreDistinct(s: State, es: seq<Event>, t: nat, u: nat, i: nat)
    requires Init(s) && Possible(s, es)
    requires t < |Exec(s, es).threads| && u < |Exec(s, es).threads| && t != u
    ensures Covers(Exec(s, es), t, i) ==> i < Exec(s, es).tail && !Covers(Exec(s, es), u, i)
  {
    HeadNeverPassesTail(s, es);
    ReachableInv(s, es);
    var z := Exec(s, es);
    assert ThreadOk(z, t) && ThreadOk(z, u);
    if Covers(z, t, i) {
      assert z.claimant[i] == t;
    }
  }

  /** Thread `t` has claimed slot `i` and has not finished with it. */
  predicate Covers(s: State, t: nat, i: nat) {
    t < |s.threads| && s.threads[t].Holding? && s.threads[t].first <= i < s.threads[t].first + s.threads[t].n
  }

  /** No slot is claimed twice and none is skipped: a claim starts where all earlier claims end. */
  lemma {:induction false} ClaimsAreConsecutive(s: State, t: nat)
    requires Inv(s) && t < |s.threads| && s.threads[t].AddHead?
    ensures var s' := Step(s, t);
      && s'.claimant[..s.head] == s.claimant
      && s'.threads[t] == Holding(|s.claimant|, s.threads[t].actual)
      && |s'.claimant| == s.head + s.threads[t].actual
      && s'.claimant[s.head..] == seq(s.threads[t].actual, _ => t)
  {
  }

  /** One dequeue's claim: `n` slots from `first` on. */
  datatype Claim = Claim(t: nat, first: nat, n: nat)

  /** The claims made in a run, in order. */
  function Claims(s: State, es: seq<Event>): seq<Claim>
    requires Possible(s, es)
    decreases es
  {
    if es == [] then []
    else
      var rest := Claims(Apply(s, es[0]), es[1..]);
      if es[0].Run? && s.threads[es[0].t].AddHead? then
        [Claim(es[0].t, s.head, s.threads[es[0].t].actual)] + rest
      else rest
  }

  /** The claims cover the slots from `lo` to `hi`, each once, in order, and none is empty. */
  predicate Tile(cs: seq<Claim>, lo: nat, hi: nat) {
    if cs == [] then lo == hi
    else cs[0].first == lo && cs[0].n > 0 && Tile(cs[1..], lo + cs[0].n, hi)
  }

  /** Slot by slot, who claimed it. */
  function Owners(cs: seq<Claim>): seq<nat> {
    if cs == [] then [] else seq(cs[0].n, _ => cs[0].t) + Owners(cs[1..])
  }

  /** Over any run the claims tile the slots by which the head moves, and all of them were published. */
  lemma {:induction false} ClaimsTile(s: State, es: seq<Event>)
    requires Inv(s) && Possible(s, es)
    ensures var z := Exec(s, es);
      && Tile(Claims(s, es), s.head, z.head)
      && z.claimant == s.claimant + Owners(Claims(s, es))
      && z.head <= z.tail
    decreases es
  {
    hide Apply, Allowed, Inv, Tile, Owners;
    if es == [] {
      NoClaims(s);
      HeadBelowTail(s);
    } else {
      var e, s1 := es[0], Apply(s, es[0]);
      EventClaims(s, e);
      StepKeepsInv(s, e);
      ClaimsTile(s1, es[1..]);
      if e.Run? && s.threads[e.t].AddHead? {
        OneMoreClaim(Claim(e.t, s.head, s.threads[e.t].actual), Claims(s1, es[1..]), s.claimant, Exec(s, es).head);
      }
    }
  }

  lemma {:induction false} NoClaims(s: State)
    ensures Tile([], s.head, s.head) && s.claimant + Owners([]) == s.claimant
  {
  }

  lemma {:induction false} OneMoreClaim(c: Claim, rest: seq<Claim>, claimant: seq<nat>, hi: nat)
    requires c.n > 0 && Tile(rest, c.first + c.n, hi)
    ensures Tile([c] + rest, c.first, hi)
    ensures claimant + Owners([c] + rest) == claimant + seq(c.n, _ => c.t) + Owners(rest)
  {
    assert ([c] + rest)[1..] == rest;
    assert claimant + (seq(c.n, _ => c.t) + Owners(rest)) == claimant + seq(c.n, _ => c.t) + Owners(rest);
  }

  /** Only the `fetch_add` on the head claims, and what it claims goes to its thread. */
  lemma {:induction false} EventClaims(s: State, e: Event)
    requires Inv(s) && Allowed(s, e)
    ensures e.Run? ==> e.t < |s.threads|
    ensures var s1 := Apply(s, e);
      if e.Run? && s.threads[e.t].AddHead? then
        var n := s.threads[e.t].actual;
        n > 0 && s1.head == s.head + n && s1.claimant == s.claimant + seq(n, _ => e.t)
      else s1.head == s.head && s1.claimant == s.claimant
  {
    if e.Run? {
      assert ThreadOk(s, e.t);
    }
  }

  // ---------------------------------------------------------------- what callers asked for

  /** A dequeue at `pc` gets at most `max` slots. */
  predicate Within(pc: Pc, max: nat) {
    match pc
    case Idle => true
    case LoadTail(m) => m == max
    case LoadOvercommit(m, _) => m == max
    case LoadOptimistic(m, _, _) => m == max
    case AddOptimistic(want, _) => want <= max
    case ReloadTail(_, want, _) => want <= max
    case AddOvercommit(_, n, actual) => n + actual <= max
    case AddHead(actual) => actual <= max
    case Holding(_, n) => n <= max
  }

  /** What thread `t` asked for in its last call, as the event gave it. */
  function Wanted(es: seq<Event>, t: nat, max: nat): nat
    decreases es
  {
    if es == [] then max
    else Wanted(es[1..], t, if es[0].CallDequeue? && es[0].t == t then es[0].max else max)
  }

  lemma {:induction false} EventWithin(s: State, e: Event, t: nat, max: nat)
    requires Inv(s) && Allowed(s, e) && t < |s.threads| && Within(s.threads[t], max)
    ensures t < |Apply(s, e).threads|
    ensures Within(Apply(s, e).threads[t], if e.CallDequeue? && e.t == t then e.max else max)
  {
    assert ThreadOk(s, t);
  }

  /** In every run a dequeue claims at least one slot and at most as many as it was called for. */
  lemma {:induction false} ClaimsAreWithin(s: State, es: seq<Event>, t: nat, max: nat)
    requires Inv(s) && Possible(s, es) && t < |s.threads| && Within(s.threads[t], max)
    ensures var z := Exec(s, es);
      && t < |z.threads| && Within(z.threads[t], Wanted(es, t, max))
      && (z.threads[t].Holding? ==> 0 < z.threads[t].n <= Wanted(es, t, max))
    decreases es
  {
    if es == [] {
      assert ThreadOk(s, t);
    } else {
      hide Within, Allowed, Apply, Inv;
      EventWithin(s, es[0], t, max);
      StepKeepsInv(s, es[0]);
      ClaimsAreWithin(Apply(s, es[0]), es[1..], t, if es[0].CallDequeue? && es[0].t == t then es[0].max else max);
    }
  }

  /** With no dequeue in progress the two counters differ by exactly the head. */
  lemma {:induction false} QuiescentCounters(s: State, es: seq<Event>)
    requires Init(s) && Possible(s, es)
    requires forall t :: 0 <= t < |Exec(s, es).threads| ==> Exec(s, es).threads[t].Idle? || Exec(s, es).threads[t].Holding?
    ensures var z := Exec(s, es); z.optimistic - z.overcommit == z.head <= z.tail
  {
    HeadNeverPassesTail(s, es);
    ReachableInv(s, es);
    IdleSums(Exec(s, es).threads);
  }

  /** In any reachable state the counters differ from the head by exactly the increments still in flight. */
  lemma {:induction false} CountersAccountForFlights(s: State, es: seq<Event>)
    requires Init(s) && Possible(s, es)
    ensures var z := Exec(s, es);
      z.optimistic - z.overcommit == z.head + Sum(z.threads, PendingWeight) >= z.head
  {
    ReachableInv(s, es);
    PendingNonNegative(Exec(s, es).threads);
  }

  /**
   A dequeue that runs alone from a quiescent state takes exactly the smaller of what it
   asks for and what is there, the first ones, and fails only on an empty queue.
   */
  lemma {:induction false} SoloDequeueIsExact(s: State, t: nat, max: nat)
    requires Inv(s) && t < |s.threads| && s.threads[t].Idle? && max > 0
    requires s.optimistic - s.overcommit == s.head <= s.tail && s.tail - s.head < HALF
    ensures
      var n := Min(s.tail - s.head, max);
      var a := Apply(s, CallDequeue(t, max));
      var c := Step(Step(Step(a, t), t), t);
      if n == 0 then
        c == s
      else
        var d := Step(Step(Step(c, t), t), t);
        && d.threads[t] == Holding(s.head, n)
        && d.head == s.head + n && d.overcommit == s.overcommit && d.optimistic == s.optimistic + n
  {
    SomeLeftIsTrue(s.tail, s.optimistic, s.overcommit);
    assert s.threads[t := Idle] == s.threads;
  }

  /** The test of the single dequeue and the test of the bulk dequeue agree on all words. */
  lemma {:induction false} SingleTestIsBulkTest(tail: nat, count: nat, over: nat)
    ensures CircularLess((count - over) % WORD, tail % WORD) <==> SomeLeft(tail, count, over)
  {
    WrapDifference(count - over, tail);
    WrapDifference(0, tail - (count - over));
    assert 0 % WORD == 0;
  }

  // ---------------------------------------------------------------- the machine words

  /** A thread's locals as the 64-bit words the source keeps; `lo` is auxiliary. */
  function Wrap(pc: Pc): Pc {
    match pc
    case LoadOvercommit(max, tail) => LoadOvercommit(max, tail % WORD)
    case LoadOptimistic(max, tail, over) => LoadOptimistic(max, tail % WORD, over % WORD)
    case AddOptimistic(want, over) => AddOptimistic(want, over % WORD)
    case ReloadTail(mine, want, over) => ReloadTail(mine % WORD, want, over % WORD)
    case AddOvercommit(lo, n, actual) => AddOvercommit(lo % WORD, n, actual)
    case Holding(first, n) => Holding(first % WORD, n)
    case _ => pc
  }

  /** The 64-bit difference depends on the words alone. */
  lemma {:induction false} WordAmount(tail: nat, count: nat, over: nat)
    ensures (tail % WORD - (count % WORD - over % WORD)) % WORD == (tail - (count - over)) % WORD
  {
    var q := tail / WORD - (count / WORD - over / WORD);
    assert tail == WORD * (tail / WORD) + tail % WORD;
    assert count == WORD * (count / WORD) + count % WORD;
    assert over == WORD * (over / WORD) + over % WORD;
    assert tail - (count - over) == WORD * q + (tail % WORD - (count % WORD - over % WORD));
    WordShift(tail % WORD - (count % WORD - over % WORD), q);
  }

  /**
   The counters as the producer object holds them: four words that wrap, and the word-sized
   locals of every consumer. `model` is the unbounded state they stand for.
   */
  class Counters {
    var tailIndex: nat
    var headIndex: nat
    var dequeueOptimisticCount: nat
    var dequeueOvercommit: nat
    const pcs: array<Pc>
    ghost var model: State

    ghost predicate Valid()
      reads this, pcs
    {
      && tailIndex == model.tail % WORD
      && headIndex == model.head % WORD
      && dequeueOptimisticCount == model.optimistic % WORD
      && dequeueOvercommit == model.overcommit % WORD
      && |model.threads| == pcs.Length
      && (forall t :: 0 <= t < pcs.Length ==> pcs[t] == Wrap(model.threads[t]))
    }

    constructor (threads: nat)
      ensures Valid() && Init(model) && |model.threads| == threads && fresh(pcs)
    {
      tailIndex, headIndex, dequeueOptimisticCount, dequeueOvercommit := 0, 0, 0, 0;
      pcs := new Pc[threads](_ => Idle);
      model := State(0, 0, 0, 0, seq(threads, _ => Idle), [], []);
    }

    /** The store that ends an enqueue of `n` items. */
    method Publish(n: nat)
      requires Valid()
      modifies this`tailIndex, this`model
      ensures Valid() && model == Apply(old(model), Event.Publish(n))
    {
      WordAdd(model.tail, n);
      tailIndex := (tailIndex + n) % WORD;
      model := Apply(model, Event.Publish(n));
    }

    /** Starts `dequeue_bulk` for at most `max` items, or `dequeue` with `max` one. */
    method CallDequeue(t: nat, max: nat)
      requires Valid() && Allowed(model, Event.CallDequeue(t, max))
      modifies this`model, pcs
      ensures Valid() && model == Apply(old(model), Event.CallDequeue(t, max))
    {
      pcs[t] := LoadTail(max);
      model := Apply(model, Event.CallDequeue(t, max));
    }

    /** The consumer has read its elements. */
    method Finish(t: nat)
      requires Valid() && Allowed(model, Event.Finish(t))
      modifies this`model, pcs
      ensures Valid() && model == Apply(old(model), Event.Finish(t))
    {
      pcs[t] := Idle;
      model := Apply(model, Event.Finish(t));
    }

    /** The two loads and the test in front of the optimistic increment. */
    method ResumeLoads(t: nat)
      requires Valid() && t < pcs.Length
      requires pcs[t].LoadTail? || pcs[t].LoadOvercommit? || pcs[t].LoadOptimistic?
      modifies this`model, pcs
      ensures Valid() && model == Step(old(model), t)
    {
      ghost var pc := model.threads[t];
      match pcs[t] {
        case LoadTail(max) => pcs[t] := LoadOvercommit(max, tailIndex);
        case LoadOvercommit(max, tail) => pcs[t] := LoadOptimistic(max, tail, dequeueOvercommit);
        case LoadOptimistic(max, tail, over) =>
          WordAmount(pc.tail, model.optimistic, pc.over);
          var desired := (tail - (dequeueOptimisticCount - over)) % WORD;
          pcs[t] := if CircularLess(0, desired) then AddOptimistic(Min(desired, max), over) else Idle;
      }
      model := Step(model, t);
    }

    /** The optimistic increment, the second test, and the increment that gives back what was too much. */
    method ResumeCounts(t: nat)
      requires Valid() && t < pcs.Length
      requires pcs[t].AddOptimistic? || pcs[t].ReloadTail? || pcs[t].AddOvercommit?
      modifies this`dequeueOptimisticCount, this`dequeueOvercommit, this`model, pcs
      ensures Valid() && model == Step(old(model), t)
    {
      ghost var pc := model.threads[t];
      match pcs[t] {
        case AddOptimistic(want, over) =>
          WordAdd(model.optimistic, want);
          pcs[t] := ReloadTail(dequeueOptimisticCount, want, over);
          dequeueOptimisticCount := (dequeueOptimisticCount + want) % WORD;
        case ReloadTail(mine, want, over) =>
          WordAmount(model.tail, pc.mine, pc.over);
          var available := (tailIndex - (mine - over)) % WORD;
          if CircularLess(0, available) {
            var actual := Min(want, available);
            WordAdd(pc.mine, actual);
            pcs[t] := if actual < want then AddOvercommit((mine + actual) % WORD, want - actual, actual) else AddHead(actual);
          } else {
            pcs[t] := AddOvercommit(mine, want, 0);
          }
        case AddOvercommit(lo, n, actual) =>
          WordAdd(model.overcommit, n);
          dequeueOvercommit := (dequeueOvercommit + n) % WORD;
          pcs[t] := if actual > 0 then AddHead(actual) else Idle;
      }
      model := Step(model, t);
    }

    /** The `fetch_add` on the head; the slots claimed were published. */
    method ResumeClaim(t: nat) returns (first: nat)
      requires Valid() && Inv(model) && t < pcs.Length && pcs[t].AddHead?
      modifies this`headIndex, this`model, pcs
      ensures Valid() && Inv(model) && model == Step(old(model), t)
      ensures first == old(model.head) % WORD && model.head <= model.tail
    {
      hide Inv;
      AddHeadKeeps(model, t);
      HeadBelowTail(Step(model, t));
      var actual := pcs[t].actual;
      WordAdd(model.head, actual);
      first := headIndex;
      headIndex := (headIndex + actual) % WORD;
      pcs[t] := Holding(first, actual);
      model := Step(model, t);
    }
  }
}
