/**
 `ClusterAlignedStop`: every node tells every other node that it is about to quit, and waits
 at a latch until it has heard the same from all of them.

 Channels are reliable. A node's sending and receiving threads run until it joins them at
 the end of its own stop. Node ids are 0 to N - 1.
 */
module ClusterStop {
  import opened Counting

  /** A quit operation towards one node: not spawned, in the queue, handed to the socket, completed. */
  datatype Quit = Unspawned | Spawned | Sent | Completed

  datatype Pc =
    | Running
    | Spawning(k: nat)
    | CountingDown
    | Waiting
    | WaitScope
    | Stopped

  /** `quits[m]` is this node's quit operation towards node `m`; `heard[m]` that the one of `m` has arrived. */
  datatype Node = Node(pc: Pc, latch: int, quits: seq<Quit>, heard: seq<bool>)

  type State = seq<Node>

  datatype Event =
    | CallStop(n: nat)
    | Spawn(n: nat)
    | CountDown(n: nat)
    | PassLatch(n: nat)
    | StopThreads(n: nat)
    | SendQuit(n: nat, m: nat)
    | CompleteQuit(n: nat, m: nat)
    | Deliver(m: nat, n: nat)

  // ---------------------------------------------------------------- the steps

  /** The io threads of a node run until it has stopped them. */
  predicate ThreadsRun(s: State, n: nat) {
    n < |s| && !s[n].pc.Stopped?
  }

  /** `async_scope_.on_empty()`: every spawned operation has been completed. */
  predicate ScopeEmpty(node: Node) {
    forall m :: 0 <= m < |node.quits| ==> node.quits[m] == Unspawned || node.quits[m] == Completed
  }

  predicate Shape(s: State) {
    forall n :: 0 <= n < |s| ==> |s[n].quits| == |s[n].heard| == |s|
  }

  predicate Allowed(s: State, e: Event) {
    && Shape(s)
    && match e {
         case CallStop(n) => n < |s| && s[n].pc.Running?
         case Spawn(n) => n < |s| && s[n].pc.Spawning? && s[n].pc.k <= |s|
         case CountDown(n) => n < |s| && s[n].pc.CountingDown?
         case PassLatch(n) => n < |s| && s[n].pc.Waiting? && s[n].latch == 0
         case StopThreads(n) => n < |s| && s[n].pc.WaitScope? && ScopeEmpty(s[n])
         case SendQuit(n, m) => ThreadsRun(s, n) && m < |s| && s[n].quits[m] == Spawned
         case CompleteQuit(n, m) => ThreadsRun(s, n) && m < |s| && s[n].quits[m] == Sent
         case Deliver(m, n) =>
           && n < |s| && m < |s| && ThreadsRun(s, n) && !s[n].heard[m]
           && (s[m].quits[n] == Sent || s[m].quits[n] == Completed)
       }
  }

  function Apply(s: State, e: Event): State
    requires Allowed(s, e)
  {
    match e
    case CallStop(n) => s[n := s[n].(pc := Spawning(0))]
    case Spawn(n) =>
      var k := s[n].pc.k;
      if k == |s| then s[n := s[n].(pc := CountingDown)]
      else if k == n then s[n := s[n].(pc := Spawning(k + 1))]
      else s[n := s[n].(pc := Spawning(k + 1), quits := s[n].quits[k := Spawned])]
    case CountDown(n) => s[n := s[n].(pc := Waiting, latch := s[n].latch - 1)]
    case PassLatch(n) => s[n := s[n].(pc := WaitScope)]
    case StopThreads(n) => s[n := s[n].(pc := Stopped)]
    case SendQuit(n, m) => s[n := s[n].(quits := s[n].quits[m := Sent])]
    case CompleteQuit(n, m) => s[n := s[n].(quits := s[n].quits[m := Completed])]
    case Deliver(m, n) => s[n := s[n].(latch := s[n].latch - 1, heard := s[n].heard[m := true])]
  }

  // ---------------------------------------------------------------- the invariant

  function One(heard: bool): int { if heard then 1 else 0 }

  /** The node has counted its own latch down. */
  predicate Counted(pc: Pc) {
    pc.Waiting? || pc.WaitScope? || pc.Stopped?
  }

  /** The latch shows how many of the N nodes, this one included, are still missing. */
  predicate LatchOk(s: State, n: nat) {
    && n < |s|
    && s[n].latch == |s| - One(Counted(s[n].pc)) - Sum(s[n].heard, One)
    && (s[n].pc.WaitScope? || s[n].pc.Stopped? ==> s[n].latch == 0)
  }

  /** The quit of `n` towards `m`. */
  predicate QuitOk(s: State, n: nat, m: nat) {
    && n < |s| && m < |s| && |s[n].quits| == |s| && |s[m].heard| == |s|
    && (m == n ==> s[n].quits[m] == Unspawned && !s[n].heard[m])
    && (m != n ==>
          && (s[n].quits[m] != Unspawned <==> Reached(s[n].pc, m))
          && (s[m].heard[n] ==> s[n].quits[m] == Sent || s[n].quits[m] == Completed)
          && (s[n].pc.Stopped? ==> s[n].quits[m] == Completed))
  }

  /** The spawning loop has passed node `m`. */
  predicate Reached(pc: Pc, m: nat) {
    match pc
    case Running => false
    case Spawning(k) => m < k
    case _ => true
  }

  predicate PcOk(s: State, n: nat) {
    n < |s| && (s[n].pc.Spawning? ==> s[n].pc.k <= |s|)
  }

  ghost predicate Inv(s: State) {
    && Shape(s)
    && (forall n :: 0 <= n < |s| ==> PcOk(s, n) && LatchOk(s, n))
    && (forall n, m :: 0 <= n < |s| && 0 <= m < |s| ==> QuitOk(s, n, m))
  }

  /** Two things that are still missing keep the sum two below the length. */
  lemma {:induction false} TwoMissing(heard: seq<bool>, i: nat, j: nat)
    requires i < |heard| && j < |heard| && i != j && !heard[i] && !heard[j]
    ensures Sum(heard, One) <= |heard| - 2
  {
    SumUpdate(heard, i, true, One);
    SumUpdate(heard[i := true], j, true, One);
    SumAtMostLength(heard[i := true][j := true], One);
  }

  /** An open latch means that this node has counted down and has heard from every other one. */
  lemma {:induction false} OpenLatch(s: State, n: nat, m: nat)
    requires Inv(s) && n < |s| && m < |s| && s[n].latch <= 0
    ensures s[n].latch == 0 && Counted(s[n].pc)
    ensures m != n ==> s[n].heard[m] && (s[m].quits[n] == Sent || s[m].quits[n] == Completed)
  {
    assert LatchOk(s, n) && QuitOk(s, n, n) && QuitOk(s, m, n);
    SumUpdate(s[n].heard, n, true, One);
    SumAtMostLength(s[n].heard[n := true], One);
    if m != n && !s[n].heard[m] {
      TwoMissing(s[n].heard, n, m);
    }
  }

  /** A message that has not arrived yet finds the latch above zero. */
  lemma {:induction false} DeliverFindsOpenCount(s: State, m: nat, n: nat)
    requires Inv(s) && Allowed(s, Deliver(m, n))
    ensures m != n && s[n].latch > 0
  {
    assert QuitOk(s, n, n);
    if s[n].latch <= 0 {
      OpenLatch(s, n, m);
    }
  }

  lemma {:induction false} DeliverKeeps(s: State, m0: nat, n0: nat)
    requires Inv(s) && Allowed(s, Deliver(m0, n0))
    ensures Inv(Apply(s, Deliver(m0, n0)))
  {
    var s' := Apply(s, Deliver(m0, n0));
    DeliverFindsOpenCount(s, m0, n0);
    SumUpdate(s[n0].heard, m0, true, One);
    assert QuitOk(s, m0, n0);
    forall n | 0 <= n < |s'| ensures PcOk(s', n) && LatchOk(s', n) {
      assert PcOk(s, n) && LatchOk(s, n);
    }
    forall n, m | 0 <= n < |s'| && 0 <= m < |s'| ensures QuitOk(s', n, m) {
      assert QuitOk(s, n, m);
    }
  }

  lemma {:induction false} ApplyKeepsInv(s: State, e: Event)
    requires Inv(s) && Allowed(s, e)
    ensures Inv(Apply(s, e))
  {
    if e.Deliver? {
      DeliverKeeps(s, e.m, e.n);
    } else {
      OwnStepKeeps(s, e);
    }
  }

  lemma {:induction false} OwnStepKeeps(s: State, e: Event)
    requires Inv(s) && Allowed(s, e) && !e.Deliver?
    ensures Inv(Apply(s, e))
  {
    hide QuitOk;
    var s' := Apply(s, e);
    forall n | 0 <= n < |s'| ensures PcOk(s', n) && LatchOk(s', n) {
      assert PcOk(s, n) && LatchOk(s, n);
    }
    forall n, m | 0 <= n < |s'| && 0 <= m < |s'| ensures QuitOk(s', n, m) {
      OwnStepKeepsQuit(s, e, n, m);
    }
  }

  lemma {:induction false} OwnStepKeepsQuit(s: State, e: Event, n: nat, m: nat)
    requires Inv(s) && Allowed(s, e) && !e.Deliver? && n < |s| && m < |s|
    ensures QuitOk(Apply(s, e), n, m)
  {
    hide LatchOk;
    assert PcOk(s, n) && QuitOk(s, n, m);
  }

  // ---------------------------------------------------------------- runs

  predicate Init(s: State) {
    forall n :: 0 <= n < |s| ==> s[n] == Node(Running, |s|, seq(|s|, _ => Unspawned), seq(|s|, _ => false))
  }

  predicate Possible(s: State, es: seq<Event>)
    decreases es
  {
    es == [] || (Allowed(s, es[0]) && Possible(Apply(s, es[0]), es[1..]))
  }

  function Exec(s: State, es: seq<Event>): State
    requires Possible(s, es)
    decreases es
  {
    if es == [] then s else Exec(Apply(s, es[0]), es[1..])
  }

  lemma {:induction false} InitInv(s: State)
    requires Init(s)
    ensures Inv(s)
  {
    SumNonNegative(seq(|s|, _ => false), One);
    SumNotPositive(seq(|s|, _ => false), One);
    forall n, m | 0 <= n < |s| && 0 <= m < |s| ensures QuitOk(s, n, m) {
    }
  }

  lemma {:induction false} InvAlong(s: State, es: seq<Event>)
    requires Inv(s) && Possible(s, es)
    ensures Inv(Exec(s, es)) && |Exec(s, es)| == |s|
    decreases es
  {
    if es != [] {
      ApplyKeepsInv(s, es[0]);
      InvAlong(Apply(s, es[0]), es[1..]);
    }
  }

  lemma {:induction false} ReachableInv(s: State, es: seq<Event>)
    requires Init(s) && Possible(s, es)
    ensures Inv(Exec(s, es)) && |Exec(s, es)| == |s|
  {
    InitInv(s);
    InvAlong(s, es);
  }

  // ---------------------------------------------------------------- the theorems

  /** No node gets past its latch before every node has called stop. */
  lemma {:induction false} NobodyPassesEarly(s: State, es: seq<Event>, n: nat, m: nat)
    requires Init(s) && Possible(s, es) && n < |Exec(s, es)| && m < |Exec(s, es)|
    requires Exec(s, es)[n].pc.WaitScope? || Exec(s, es)[n].pc.Stopped?
    ensures !Exec(s, es)[m].pc.Running?
  {
    ReachableInv(s, es);
    var z := Exec(s, es);
    assert LatchOk(z, n);
    OpenLatch(z, n, m);
    if m != n {
      assert QuitOk(z, m, n);
    }
  }

  /** The latch is never counted below zero: whenever it is about to be counted down it is positive. */
  lemma {:induction false} LatchNeverNegative(s: State, es: seq<Event>, e: Event)
    requires Init(s) && Possible(s, es) && Allowed(Exec(s, es), e)
    ensures forall n :: 0 <= n < |Exec(s, es)| ==> Exec(s, es)[n].latch >= 0
    ensures e.CountDown? || e.Deliver? ==> Exec(s, es)[e.n].latch > 0
  {
    ReachableInv(s, es);
    var z := Exec(s, es);
    forall n | 0 <= n < |z| ensures z[n].latch >= 0 {
      if z[n].latch <= 0 {
        OpenLatch(z, n, n);
      }
    }
    if e.CountDown? && z[e.n].latch <= 0 {
      OpenLatch(z, e.n, e.n);
    }
    if e.Deliver? {
      DeliverFindsOpenCount(z, e.m, e.n);
    }
  }

  /** A node stops its io threads only after each of its quit messages has been sent. */
  lemma {:induction false} QuitsSentBeforeThreadsStop(s: State, es: seq<Event>, n: nat, m: nat)
    requires Init(s) && Possible(s, es) && n < |Exec(s, es)| && m < |Exec(s, es)| && m != n
    requires Exec(s, es)[n].pc.Stopped?
    ensures |Exec(s, es)[n].quits| == |Exec(s, es)| && Exec(s, es)[n].quits[m] == Completed
  {
    ReachableInv(s, es);
    assert QuitOk(Exec(s, es), n, m);
  }

  /** And no quit message is lost: a node that has stopped has heard from everybody. */
  lemma {:induction false} StoppedHasHeardAll(s: State, es: seq<Event>, n: nat, m: nat)
    requires Init(s) && Possible(s, es) && n < |Exec(s, es)| && m < |Exec(s, es)| && m != n
    requires Exec(s, es)[n].pc.Stopped?
    ensures |Exec(s, es)[n].heard| == |Exec(s, es)| && Exec(s, es)[n].heard[m] && Exec(s, es)[n].latch == 0
  {
    ReachableInv(s, es);
    assert LatchOk(Exec(s, es), n);
    OpenLatch(Exec(s, es), n, m);
  }

  // ---------------------------------------------------------------- progress

  function PcRank(size: nat, pc: Pc): int {
    match pc
    case Running => size + 6
    case Spawning(k) => if k <= size then size - k + 4 else 4
    case CountingDown => 3
    case Waiting => 2
    case WaitScope => 1
    case Stopped => 0
  }

  function QuitRank(q: Quit): int {
    match q
    case Unspawned => 3
    case Spawned => 2
    case Sent => 1
    case Completed => 0
  }

  function Unheard(heard: bool): int { if heard then 0 else 1 }

  function NodeRank(size: nat): Node -> int {
    (node: Node) => PcRank(size, node.pc) + Sum(node.quits, QuitRank) + Sum(node.heard, Unheard)
  }

  /** What is left to do in the whole cluster. */
  function Measure(s: State): int {
    Sum(s, NodeRank(|s|))
  }

  /** Every step of any node does some of what is left: the stop of the whole cluster takes a bounded number of steps. */
  lemma {:induction false} EveryStepCounts(s: State, e: Event)
    requires Inv(s) && Allowed(s, e)
    ensures 0 <= Measure(Apply(s, e)) < Measure(s)
  {
    var s' := Apply(s, e);
    var w := NodeRank(|s|);
    var n := e.n;
    SumUpdate(s, n, s'[n], w);
    assert s' == s[n := s'[n]];
    assert PcOk(s, n);
    match e {
      case Spawn(_) =>
        var k := s[n].pc.k;
        if k < |s| && k != n {
          assert QuitOk(s, n, k);
          SumUpdate(s[n].quits, k, Spawned, QuitRank);
        }
      case SendQuit(_, m) => SumUpdate(s[n].quits, m, Sent, QuitRank);
      case CompleteQuit(_, m) => SumUpdate(s[n].quits, m, Completed, QuitRank);
      case Deliver(m, _) => SumUpdate(s[n].heard, m, true, Unheard);
      case _ =>
    }
    ApplyKeepsInv(s, e);
    RankNonNegative(s');
  }

  lemma {:induction false} RankNonNegative(s: State)
    requires Inv(s)
    ensures Measure(s) >= 0
  {
    forall n | 0 <= n < |s| ensures NodeRank(|s|)(s[n]) >= 0 {
      assert PcOk(s, n);
      SumNonNegative(s[n].quits, QuitRank);
      SumNonNegative(s[n].heard, Unheard);
    }
    SumNonNegative(s, NodeRank(|s|));
  }

  /**
   No deadlock: when all nodes have called stop and some node has not finished, some node can
   take a step.
   */
  lemma {:induction false} SomebodyCanStep(s: State) returns (e: Event)
    requires Inv(s) && (forall n :: 0 <= n < |s| ==> !s[n].pc.Running?)
    requires exists n :: 0 <= n < |s| && !s[n].pc.Stopped?
    ensures Allowed(s, e)
  {
    var n :| 0 <= n < |s| && !s[n].pc.Stopped?;
    assert PcOk(s, n) && LatchOk(s, n);
    match s[n].pc {
      case Spawning(_) => e := Spawn(n);
      case CountingDown => e := CountDown(n);
      case WaitScope => e := DrainScope(s, n);
      case Waiting =>
        if s[n].latch == 0 {
          e := PassLatch(n);
        } else {
          e := WakeWaiter(s, n);
        }
    }
  }

  /** A scope that is not empty is emptied by the sending thread. */
  lemma {:induction false} DrainScope(s: State, n: nat) returns (e: Event)
    requires Inv(s) && n < |s| && s[n].pc.WaitScope?
    ensures Allowed(s, e)
  {
    if ScopeEmpty(s[n]) {
      e := StopThreads(n);
    } else {
      var m :| 0 <= m < |s[n].quits| && s[n].quits[m] != Unspawned && s[n].quits[m] != Completed;
      e := if s[n].quits[m] == Spawned then SendQuit(n, m) else CompleteQuit(n, m);
    }
  }

  /** A latch that is not open waits for a message that is on its way, or that its sender can still send. */
  lemma {:induction false} WakeWaiter(s: State, n: nat) returns (e: Event)
    requires Inv(s) && n < |s| && s[n].pc.Waiting? && s[n].latch != 0
    requires forall m :: 0 <= m < |s| ==> !s[m].pc.Running?
    ensures Allowed(s, e)
  {
    var m := Missing(s, n);
    assert QuitOk(s, m, n) && PcOk(s, m);
    if s[m].quits[n] == Sent || s[m].quits[n] == Completed {
      e := Deliver(m, n);
    } else if s[m].quits[n] == Spawned {
      e := SendQuit(m, n);
    } else {
      e := Spawn(m);
    }
  }

  lemma {:induction false} Missing(s: State, n: nat) returns (m: nat)
    requires Inv(s) && n < |s| && s[n].pc.Waiting? && s[n].latch != 0
    ensures m < |s| && m != n && !s[n].heard[m]
  {
    assert LatchOk(s, n) && QuitOk(s, n, n);
    if forall k :: 0 <= k < |s| && k != n ==> s[n].heard[k] {
      AllHeard(s[n].heard, n);
    }
    m :| m < |s| && m != n && !s[n].heard[m];
  }

  lemma {:induction false} AllHeard(heard: seq<bool>, n: nat)
    requires n < |heard| && !heard[n] && forall k :: 0 <= k < |heard| && k != n ==> heard[k]
    ensures Sum(heard, One) == |heard| - 1
  {
    SumUpdate(heard, n, true, One);
    AllOnes(heard[n := true]);
  }

  lemma {:induction false} AllOnes(heard: seq<bool>)
    requires forall k :: 0 <= k < |heard| ==> heard[k]
    ensures Sum(heard, One) == |heard|
  {
    if heard != [] {
      AllOnes(heard[1..]);
    }
  }

  /**
   If all nodes call stop once, all complete: a run in which everybody has called stop and
   that nobody can continue has stopped every node.
   */
  lemma {:induction false} AllStop(s: State, es: seq<Event>)
    requires Init(s) && Possible(s, es)
    requires forall n :: 0 <= n < |Exec(s, es)| ==> !Exec(s, es)[n].pc.Running?
    requires forall e :: !Allowed(Exec(s, es), e)
    ensures forall n :: 0 <= n < |Exec(s, es)| ==> Exec(s, es)[n].pc.Stopped? && Exec(s, es)[n].latch == 0
  {
    ReachableInv(s, es);
    var z := Exec(s, es);
    if exists n :: 0 <= n < |z| && !z[n].pc.Stopped? {
      var e := SomebodyCanStep(z);
    }
    forall n | 0 <= n < |z| ensures z[n].latch == 0 {
      assert LatchOk(z, n);
    }
  }

  /** And there is no infinite run: the number of steps is bounded by what is left at the start. */
  lemma {:induction false} RunsAreBounded(s: State, es: seq<Event>)
    requires Inv(s) && Possible(s, es)
    ensures |es| <= Measure(s)
    decreases es
  {
    if es == [] {
      RankNonNegative(s);
    } else {
      EveryStepCounts(s, es[0]);
      ApplyKeepsInv(s, es[0]);
      RunsAreBounded(Apply(s, es[0]), es[1..]);
    }
  }

  // ---------------------------------------------------------------- the steps in place

  /** What the brokers of a cluster hold for the aligned stop, node by node. */
  class Cluster {
    const pcs: array<Pc>
    const latches: array<int>
    var quits: seq<seq<Quit>>
    var heard: seq<seq<bool>>

    ghost predicate Sized()
      reads this
    {
      pcs.Length == latches.Length == |quits| == |heard|
    }

    ghost function View(): State
      requires Sized()
      reads this, pcs, latches
    {
      seq(pcs.Length, n requires 0 <= n < pcs.Length && Sized() reads this, pcs, latches =>
        Node(pcs[n], latches[n], quits[n], heard[n]))
    }

    ghost predicate Valid()
      reads this, pcs, latches
    {
      Sized() && Inv(View())
    }

    constructor (nodes: nat)
      ensures Valid() && Init(View()) && pcs.Length == nodes && fresh(pcs) && fresh(latches)
    {
      pcs := new Pc[nodes](_ => Running);
      latches := new int[nodes](_ => nodes);
      quits := seq(nodes, _ => seq(nodes, _ => Unspawned));
      heard := seq(nodes, _ => seq(nodes, _ => false));
      new;
      InitInv(View());
    }

    /** The next access of `ClusterAlignedStop` on one node. */
    method RunStop(e: Event)
      requires Valid() && Allowed(View(), e)
      requires e.CallStop? || e.Spawn? || e.CountDown? || e.PassLatch? || e.StopThreads?
      modifies this`quits, pcs, latches
      ensures Valid() && View() == Apply(old(View()), e)
    {
      ApplyKeepsInv(View(), e);
      var n := e.n;
      match e {
        case CallStop(_) => pcs[n] := Spawning(0);
        case Spawn(_) =>
          var k := pcs[n].k;
          if k == pcs.Length {
            pcs[n] := CountingDown;
          } else {
            if k != n {
              quits := quits[n := quits[n][k := Spawned]];
            }
            pcs[n] := Spawning(k + 1);
          }
        case CountDown(_) =>
          latches[n] := latches[n] - 1;
          pcs[n] := Waiting;
        case PassLatch(_) => pcs[n] := WaitScope;
        case StopThreads(_) => pcs[n] := Stopped;
      }
      assert View() == Apply(old(View()), e);
    }

    /** The send loop hands a quit message to the socket, then completes its operation. */
    method RunSender(e: Event)
      requires Valid() && Allowed(View(), e) && (e.SendQuit? || e.CompleteQuit?)
      modifies this`quits
      ensures Valid() && View() == Apply(old(View()), e)
    {
      ApplyKeepsInv(View(), e);
      quits := quits[e.n := quits[e.n][e.m := if e.SendQuit? then Sent else Quit.Completed]];
      assert View() == Apply(old(View()), e);
    }

    /** `HandleReceivedMessage` for a quit message of `m` at `n`; the latch it counts down is above zero. */
    method HandleQuit(m: nat, n: nat)
      requires Valid() && Allowed(View(), Deliver(m, n))
      modifies this`heard, latches
      ensures Valid() && View() == Apply(old(View()), Deliver(m, n))
      ensures old(latches[n]) > 0
    {
      DeliverFindsOpenCount(View(), m, n);
      ApplyKeepsInv(View(), Deliver(m, n));
      latches[n] := latches[n] - 1;
      heard := heard[n := heard[n][m := true]];
      assert View() == Apply(old(View()), Deliver(m, n));
    }
  }
}
