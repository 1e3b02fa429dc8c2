/**
 Requests get through. Every step of the brokers but the making of a new request brings the
 open operations closer to their ends, and as long as one is open somebody can take such a step.
 */
module BrokerProgress {
  import opened Broker
  import opened Counting
  import opened Optional

  // ---------------------------------------------------------------- what is left to do

  function PhaseRank(op: Op): int { Rank(op.phase) }

  function Rank(phase: Phase): int {
    match phase
    case Created => 19
    case Started => 18
    case Inserted => 17
    case Queued(_) => 16
    case Popped => 13
    case OnWire => 11
    case Received(_) => 6
    case Replied(_) => 5
    case OnWireBack => 3
    case Returned => 1
    case Completed => 0
  }

  function StageRank(q: Request): int {
    match q.stage
    case Counted => 4
    case Handed => 3
    case Answering(_) => 2
    case Erased(_) => 1
    case Pushed => 0
  }

  function SenderRank(sender: Sender): int {
    if sender.Sending? then 2 else if sender.Sent? then 1 else 0
  }

  function ReceiverRank(receiver: Receiver): int {
    if receiver.ReceiveIdle? then 0 else if receiver.Erasing? then 2 else 1
  }

  function OpsRank(ops: seq<Op>): int { Sum(ops, PhaseRank) }

  function StagesRank(qs: seq<Request>): int { Sum(qs, StageRank) }

  function Left(s: State): int {
    Sum(s.ops, OpsRank) + Sum(s.requests, StagesRank) + Sum(s.sender, SenderRank) + Sum(s.receiver, ReceiverRank) + |s.wire|
  }

  lemma {:induction false} LeftNonNegative(s: State)
    ensures Left(s) >= 0
  {
    forall n | 0 <= n < |s.ops| ensures OpsRank(s.ops[n]) >= 0 {
      SumNonNegative(s.ops[n], PhaseRank);
    }
    forall n | 0 <= n < |s.requests| ensures StagesRank(s.requests[n]) >= 0 {
      SumNonNegative(s.requests[n], StageRank);
    }
    SumNonNegative(s.ops, OpsRank);
    SumNonNegative(s.requests, StagesRank);
    SumNonNegative(s.sender, SenderRank);
    SumNonNegative(s.receiver, ReceiverRank);
  }

  /** An operation in a new phase. */
  lemma {:induction false} PhaseMoves(s: State, n: nat, id: nat, op: Op)
    requires IsOp(s, n, id)
    ensures Sum(SetOp(s, n, id, op).ops, OpsRank) == Sum(s.ops, OpsRank) - Rank(s.ops[n][id].phase) + Rank(op.phase)
  {
    SumUpdate(s.ops[n], id, op, PhaseRank);
    SumUpdate(s.ops, n, s.ops[n][id := op], OpsRank);
  }

  /** A request in a new stage. */
  lemma {:induction false} StageMoves(s: State, n: nat, r: nat, stage: Stage)
    requires n < |s.requests| && r < |s.requests[n]|
    ensures Sum(SetStage(s, n, r, stage).requests, StagesRank)
         == Sum(s.requests, StagesRank) - StageRank(s.requests[n][r]) + StageRank(s.requests[n][r].(stage := stage))
  {
    var q := s.requests[n][r].(stage := stage);
    SumUpdate(s.requests[n], r, q, StageRank);
    SumUpdate(s.requests, n, s.requests[n][r := q], StagesRank);
  }

  lemma {:induction false} NewStage(requests: seq<seq<Request>>, n: nat, q: Request)
    requires n < |requests|
    ensures Sum(requests[n := requests[n] + [q]], StagesRank) == Sum(requests, StagesRank) + StageRank(q)
  {
    SumConcat(requests[n], [q], StageRank);
    assert Sum([q], StageRank) == StageRank(q);
    SumUpdate(requests, n, requests[n] + [q], StagesRank);
  }

  // ---------------------------------------------------------------- every step counts

  lemma {:induction false} StartCounts(s: State, e: Event)
    requires Inv(s) && Allowed(s, e) && (e.Start? || e.InsertOp? || e.PushOp?)
    ensures Left(Apply(s, e)) < Left(s)
  {
    hide Inv, Sum;
    PhaseMoves(s, e.n, e.id, Apply(s, e).ops[e.n][e.id]);
  }

  lemma {:induction false} PopCounts(s: State, n: nat)
    requires Allowed(s, PopOp(n)) && s.ops[n][s.sendLog[n][s.sent[n]]].phase.Queued?
    ensures Left(Apply(s, PopOp(n))) < Left(s)
  {
    hide Sum;
    var id := s.sendLog[n][s.sent[n]];
    PhaseMoves(s, n, id, s.ops[n][id].(phase := Popped));
    SumUpdate(s.sender, n, Sending(id), SenderRank);
  }

  lemma {:induction false} SendCounts(s: State, n: nat)
    requires Allowed(s, SendOp(n)) && s.ops[n][s.sender[n].id].phase == Popped
    ensures Left(Apply(s, SendOp(n))) < Left(s)
  {
    hide Sum;
    var id := s.sender[n].id;
    PhaseMoves(s, n, id, s.ops[n][id].(phase := OnWire));
    SumUpdate(s.sender, n, Sent(id), SenderRank);
  }

  lemma {:induction false} CheckCounts(s: State, n: nat)
    requires Allowed(s, CheckFlag(n))
    ensures Left(Apply(s, CheckFlag(n))) < Left(s)
  {
    hide Sum;
    var id := s.sender[n].id;
    var op := s.ops[n][id];
    PhaseMoves(s, n, id, op.(phase := Completed, completions := op.completions + [[]]));
    SumUpdate(s.sender, n, SendIdle, SenderRank);
  }

  lemma {:induction false} SenderCounts(s: State, e: Event)
    requires Inv(s) && Allowed(s, e) && (e.PopOp? || e.SendOp? || e.CheckFlag?)
    ensures Left(Apply(s, e)) < Left(s)
  {
    SenderFacts(s, e);
    hide Inv, OpOk, NodeOk, Apply, Left;
    match e
    case PopOp(n) => PopCounts(s, n);
    case SendOp(n) => SendCounts(s, n);
    case CheckFlag(n) => CheckCounts(s, n);
  }

  lemma {:induction false} DeliverCounts(s: State, e: Event)
    requires Inv(s) && Allowed(s, e) && e.Deliver?
    ensures Left(Apply(s, e)) < Left(s)
  {
    var m, i, n := e.m, e.m.identifier, e.m.dest;
    DeliverFacts(s, m);
    hide Inv, OpOk, Sum;
    match Classify(n, i)
    case Ignore => assert |s.wire - {m}| == |s.wire| - 1;
    case Response(id) => ResponseCounts(s, m, id);
    case NewRequest => NewRequestCounts(s, m);
  }

  lemma {:induction false} ResponseCounts(s: State, m: Message, id: nat)
    requires Allowed(s, Deliver(m)) && Classify(m.dest, m.identifier) == Response(id)
    requires IsOp(s, m.identifier.requester, m.identifier.id)
    requires s.ops[m.identifier.requester][m.identifier.id].phase == OnWireBack
    ensures Left(Apply(s, Deliver(m))) < Left(s)
  {
    hide Sum;
    var i, n := m.identifier, m.dest;
    PhaseMoves(s, i.requester, i.id, s.ops[i.requester][i.id].(phase := Returned));
    SumUpdate(s.receiver, n, Erasing(s.table[n][id], m.data), ReceiverRank);
    assert |s.wire - {m}| == |s.wire| - 1;
  }

  lemma {:induction false} NewRequestCounts(s: State, m: Message)
    requires Allowed(s, Deliver(m)) && Classify(m.dest, m.identifier) == NewRequest
    requires IsOp(s, m.identifier.requester, m.identifier.id)
    requires s.ops[m.identifier.requester][m.identifier.id].phase == OnWire
    ensures Left(Apply(s, Deliver(m))) < Left(s)
  {
    hide Sum;
    var i, n := m.identifier, m.dest;
    var r := |s.requests[n]|;
    PhaseMoves(s, i.requester, i.id, s.ops[i.requester][i.id].(phase := Received(r)));
    SumUpdate(s.receiver, n, Inserting(r), ReceiverRank);
    NewStage(s.requests, n, Request(m.identifier, m.data, Counted));
    assert |s.wire - {m}| == |s.wire| - 1;
  }

  lemma {:induction false} ReceiverCounts(s: State, e: Event)
    requires Inv(s) && Allowed(s, e) && (e.InsertRequest? || e.EraseOp? || e.CompleteOp?)
    ensures Left(Apply(s, e)) < Left(s)
  {
    ReceiverFacts(s, e);
    hide Inv, OpOk, Sum;
    SumUpdate(s.receiver, e.n, Apply(s, e).receiver[e.n], ReceiverRank);
    match e
    case InsertRequest(n) => StageMoves(s, n, s.receiver[n].r, Handed);
    case EraseOp(n) =>
    case CompleteOp(n) =>
      var id := s.receiver[n].id;
      PhaseMoves(s, n, id, Apply(s, e).ops[n][id]);
  }

  /** The request of an answering step is that of an operation. */
  predicate Answers(s: State, e: Event, i: Identifier) {
    && (e.BeginReply? || e.EraseRequest? || e.PushReply? || e.SendReply?) && Allowed(s, e)
    && AnsweredBy(s, e) == i && IsOp(s, i.requester, i.id)
    && (e.BeginReply? ==> s.pending[e.n][e.r] == i)
    && (e.PushReply? ==> s.ops[i.requester][i.id].phase == Received(e.r))
    && (e.SendReply? ==> s.ops[i.requester][i.id].phase == Replied(s.replied[e.n]))
  }

  lemma {:induction false} BeginCounts(s: State, e: Event, i: Identifier)
    requires Answers(s, e, i) && (e.BeginReply? || e.EraseRequest?)
    ensures Left(Apply(s, e)) < Left(s)
  {
    hide Sum;
    if e.BeginReply? {
      StageMoves(s, e.n, e.r, Answering(e.data));
      PhaseMoves(s, i.requester, i.id, s.ops[i.requester][i.id].(answer := Some(e.data)));
    } else {
      StageMoves(s, e.n, e.r, Erased(s.requests[e.n][e.r].stage.data));
    }
  }

  lemma {:induction false} PushCounts(s: State, e: Event, i: Identifier)
    requires Answers(s, e, i) && (e.PushReply? || e.SendReply?)
    ensures Left(Apply(s, e)) < Left(s)
  {
    hide Sum;
    if e.PushReply? {
      StageMoves(s, e.n, e.r, Pushed);
      PhaseMoves(s, i.requester, i.id, s.ops[i.requester][i.id].(phase := Replied(|s.replyLog[e.n]|)));
    } else {
      PhaseMoves(s, i.requester, i.id, s.ops[i.requester][i.id].(phase := OnWireBack));
    }
  }

  lemma {:induction false} ReplyCounts(s: State, e: Event)
    requires Inv(s) && Allowed(s, e) && (e.BeginReply? || e.EraseRequest? || e.PushReply? || e.SendReply?)
    ensures Left(Apply(s, e)) < Left(s)
  {
    ReplyFacts(s, e);
    hide Inv, Apply, Left, NodeOk;
    if e.BeginReply? || e.EraseRequest? {
      BeginCounts(s, e, AnsweredBy(s, e));
    } else {
      PushCounts(s, e, AnsweredBy(s, e));
    }
  }

  /** Every step but the making of a new request lowers what is left to do. */
  lemma {:induction false} EveryStepCounts(s: State, e: Event)
    requires Inv(s) && Allowed(s, e) && !e.SendRequest?
    ensures Inv(Apply(s, e)) && 0 <= Left(Apply(s, e)) < Left(s)
  {
    ApplyKeepsInv(s, e);
    LeftNonNegative(Apply(s, e));
    hide Inv, Apply, Allowed, Left;
    match e
    case Start(_, _) => StartCounts(s, e);
    case InsertOp(_, _) => StartCounts(s, e);
    case PushOp(_, _) => StartCounts(s, e);
    case PopOp(_) => SenderCounts(s, e);
    case SendOp(_) => SenderCounts(s, e);
    case CheckFlag(_) => SenderCounts(s, e);
    case Deliver(_) => DeliverCounts(s, e);
    case InsertRequest(_) => ReceiverCounts(s, e);
    case EraseOp(_) => ReceiverCounts(s, e);
    case CompleteOp(_) => ReceiverCounts(s, e);
    case _ => ReplyCounts(s, e);
  }

  predicate NoRequests(es: seq<Event>) {
    forall i :: 0 <= i < |es| ==> !es[i].SendRequest?
  }

  /** So what happens between two new requests ends. */
  lemma {:induction false} RunsAreBounded(s: State, es: seq<Event>)
    requires Inv(s) && Possible(s, es) && NoRequests(es)
    ensures Inv(Exec(s, es)) && |es| <= Left(s)
    decreases es
  {
    hide Inv, Apply, Allowed, Left;
    LeftNonNegative(s);
    if es != [] {
      EveryStepCounts(s, es[0]);
      RunsAreBounded(Apply(s, es[0]), es[1..]);
    }
  }

  // ---------------------------------------------------------------- somebody can step

  /** A sending thread with something to send can go on. */
  lemma {:induction false} SenderCan(s: State, n: nat) returns (e: Event)
    requires Inv(s) && n < Size(s)
    requires s.sender[n].SendIdle? ==> s.sent[n] < |s.sendLog[n]| || s.replied[n] < |s.replyLog[n]|
    ensures Allowed(s, e) && !e.SendRequest?
  {
    NodeFacts(s, n);
    if s.sender[n].Sending? {
      e := SendOp(n);
    } else if s.sender[n].Sent? {
      e := CheckFlag(n);
    } else if s.sent[n] < |s.sendLog[n]| {
      SendFacts(s, n, s.sent[n]);
      e := PopOp(n);
    } else {
      e := SendReply(n);
    }
  }

  /** A receiving thread that is busy, or for which a message is on the wire, can go on. */
  lemma {:induction false} ReceiverCan(s: State, n: nat, m: Message) returns (e: Event)
    requires Inv(s) && n < Size(s) && (s.receiver[n].ReceiveIdle? ==> m in s.wire && m.dest == n)
    ensures Allowed(s, e) && !e.SendRequest?
  {
    NodeFacts(s, n);
    match s.receiver[n]
    case ReceiveIdle =>
      DeliverFacts(s, m);
      e := Deliver(m);
    case Inserting(_) => e := InsertRequest(n);
    case Erasing(_, _) => e := EraseOp(n);
    case Completing(_, _) => e := CompleteOp(n);
  }

  /** As long as an operation is open, somebody can take a step towards its end. */
  lemma {:induction false} SomebodyCanStep(s: State, n: nat, id: nat) returns (e: Event)
    requires Inv(s) && IsOp(s, n, id) && s.ops[n][id].phase != Completed
    ensures Allowed(s, e) && !e.SendRequest?
  {
    OpFacts(s, n, id);
    var op := s.ops[n][id];
    var to := op.identifier.responder;
    hide Inv, NodeOk;
    match op.phase
    case Created => e := Start(n, id);
    case Started => e := InsertOp(n, id);
    case Inserted => e := PushOp(n, id);
    case Queued(_) => e := SenderCan(s, n);
    case Popped => e := SenderCan(s, n);
    case OnWire =>
      if op.identifier.flag == Normal {
        e := ReceiverCan(s, to, Message(to, op.identifier, op.data));
      } else {
        e := SenderCan(s, n);
      }
    case Received(r) =>
      match s.requests[to][r].stage {
        case Counted => e := ReceiverCan(s, to, Message(to, op.identifier, op.data));
        case Handed => e := BeginReply(to, r, []);
        case Answering(_) => e := EraseRequest(to, r);
        case Erased(_) => e := PushReply(to, r);
      }
    case Replied(_) => e := SenderCan(s, to);
    case OnWireBack => e := ReceiverCan(s, n, Message(n, op.identifier, op.answer.value));
    case Returned => e := ReceiverCan(s, n, Message(n, op.identifier, op.answer.value));
  }

  /** Nothing but a new request can happen. */
  ghost predicate Done(s: State) {
    forall e :: Allowed(s, e) ==> e.SendRequest?
  }

  /** There always is such an end, a finite number of steps away. */
  lemma {:induction false} SomeRunEnds(s: State) returns (es: seq<Event>)
    requires Inv(s)
    ensures NoRequests(es) && Possible(s, es) && Done(Exec(s, es))
    decreases Left(s)
  {
    hide Inv, Apply, Allowed, Left;
    LeftNonNegative(s);
    es := [];
    if e :| Allowed(s, e) && !e.SendRequest? {
      EveryStepCounts(s, e);
      var rest := SomeRunEnds(Apply(s, e));
      assert ([e] + rest)[1..] == rest;
      es := [e] + rest;
    }
  }

  /**
   Every run in which the threads go on as long as they can completes every operation it made:
   each normal one exactly once, with the data that its responder gave for it.
   */
  lemma {:induction false} EveryOperationCompletes(s: State, es: seq<Event>, n: nat, id: nat)
    requires Init(s) && Possible(s, es) && Done(Exec(s, es)) && IsOp(Exec(s, es), n, id)
    ensures var op := Exec(s, es).ops[n][id];
      && op.phase == Completed
      && (op.identifier.flag == Normal ==> op.answer.Some? && op.completions == [op.answer.value])
  {
    ReachableInv(s, es);
    OpFacts(Exec(s, es), n, id);
    if Exec(s, es).ops[n][id].phase != Completed {
      var e := SomebodyCanStep(Exec(s, es), n, id);
    }
  }
}
