/**
 The message brokers of a cluster: requests, replies and the tables that correlate them.

 Any number of nodes run one sending and one receiving thread each; operations are started
 by any thread, and any worker answers a request that has been handed out. The network is
 reliable and may reorder messages. Node ids are 0 to N - 1.
 */
module Broker {
  import opened Optional

  type Data = seq<int>

  datatype Flag = Normal | Quit | Heartbeat

  datatype Identifier = Identifier(requester: nat, responder: nat, id: nat, flag: Flag)

  datatype Message = Message(dest: nat, identifier: Identifier, data: Data)

  datatype Reply = Reply(identifier: Identifier, data: Data)

  /**
   How far an operation is. From `OnWire` on, the phase of a normal operation says where the
   request or the reply to it is (auxiliary): on the wire, in entry `r` of the responder's
   list of received requests, at position `k` of the responder's queue of replies, on the wire
   back, or with the receiving thread of the requester.
   */
  datatype Phase =
    | Created
    | Started
    | Inserted
    | Queued(k: nat)
    | Popped
    | OnWire
    | Received(r: nat)
    | Replied(k: nat)
    | OnWireBack
    | Returned
    | Completed

  /** `completions` lists what `Complete` was called with; `answer` is the reply given to this request (auxiliary). */
  datatype Op = Op(identifier: Identifier, data: Data, phase: Phase, completions: seq<Data>, answer: Option<Data>)

  datatype Sender = SendIdle | Sending(id: nat) | Sent(id: nat)

  datatype Receiver = ReceiveIdle | Inserting(r: nat) | Erasing(id: nat, data: Data) | Completing(id: nat, data: Data)

  /** A received request, from the counter on: entered in the table, being answered, erased, reply queued. */
  datatype Stage = Counted | Handed | Answering(data: Data) | Erased(data: Data) | Pushed

  datatype Request = Request(identifier: Identifier, data: Data, stage: Stage)

  /**
   One element per node. The length of `ops` is the counter of requests, that of `requests`
   the counter of received requests; a queue is the part of its log that has not been popped.
   */
  datatype State = State(
    ops: seq<seq<Op>>,
    table: seq<map<nat, nat>>,
    sendLog: seq<seq<nat>>,
    sent: seq<nat>,
    sender: seq<Sender>,
    receiver: seq<Receiver>,
    requests: seq<seq<Request>>,
    pending: seq<map<nat, Identifier>>,
    replyLog: seq<seq<Reply>>,
    replied: seq<nat>,
    wire: set<Message>)

  datatype Event =
    | SendRequest(n: nat, dest: nat, data: Data, flag: Flag)
    | Start(n: nat, id: nat)
    | InsertOp(n: nat, id: nat)
    | PushOp(n: nat, id: nat)
    | PopOp(n: nat)
    | SendOp(n: nat)
    | CheckFlag(n: nat)
    | Deliver(m: Message)
    | InsertRequest(n: nat)
    | BeginReply(n: nat, r: nat, data: Data)
    | EraseRequest(n: nat, r: nat)
    | PushReply(n: nat, r: nat)
    | SendReply(n: nat)
    | EraseOp(n: nat)
    | CompleteOp(n: nat)

  // ---------------------------------------------------------------- the steps

  function Size(s: State): nat { |s.ops| }

  predicate Shape(s: State) {
    && |s.table| == |s.sendLog| == |s.sent| == |s.sender| == |s.receiver| == Size(s)
    && |s.requests| == |s.pending| == |s.replyLog| == |s.replied| == Size(s)
  }

  predicate IsOp(s: State, n: nat, id: nat) {
    n < Size(s) && id < |s.ops[n]|
  }

  function SetOp(s: State, n: nat, id: nat, op: Op): State
    requires IsOp(s, n, id)
  {
    s.(ops := s.ops[n := s.ops[n][id := op]])
  }

  function SetPhase(s: State, n: nat, id: nat, phase: Phase): State
    requires IsOp(s, n, id)
  {
    SetOp(s, n, id, s.ops[n][id].(phase := phase))
  }

  function SetStage(s: State, n: nat, r: nat, stage: Stage): State
    requires n < |s.requests| && r < |s.requests[n]|
  {
    s.(requests := s.requests[n := s.requests[n][r := s.requests[n][r].(stage := stage)]])
  }

  /** The phase of the operation that `identifier` names moves on. */
  function SetPhaseOf(s: State, identifier: Identifier, phase: Phase): State {
    if IsOp(s, identifier.requester, identifier.id) then SetPhase(s, identifier.requester, identifier.id, phase) else s
  }

  /** What the receiving thread does with a message: the flag first, then the two node ids. */
  datatype Handling = Ignore | Response(id: nat) | NewRequest | Invalid

  function Classify(n: nat, identifier: Identifier): Handling {
    if identifier.flag != Normal then Ignore
    else if identifier.requester == n then Response(identifier.id)
    else if identifier.responder == n then NewRequest
    else Invalid
  }

  /** A lookup that misses throws; `LookupsNeverMiss` shows that these never do. */
  predicate Allowed(s: State, e: Event) {
    && Shape(s)
    && match e {
         case SendRequest(n, dest, _, _) => n < Size(s) && dest < Size(s)
         case Start(n, id) => IsOp(s, n, id) && s.ops[n][id].phase == Created
         case InsertOp(n, id) => IsOp(s, n, id) && s.ops[n][id].phase == Started
         case PushOp(n, id) => IsOp(s, n, id) && s.ops[n][id].phase == Inserted
         case PopOp(n) => n < Size(s) && s.sender[n] == SendIdle && s.sent[n] < |s.sendLog[n]| && IsOp(s, n, s.sendLog[n][s.sent[n]])
         case SendOp(n) => n < Size(s) && s.sender[n].Sending? && IsOp(s, n, s.sender[n].id)
         case CheckFlag(n) => n < Size(s) && s.sender[n].Sent? && IsOp(s, n, s.sender[n].id)
         case Deliver(m) =>
           && m in s.wire && m.dest < Size(s) && s.receiver[m.dest] == ReceiveIdle
           && match Classify(m.dest, m.identifier) {
                case Response(id) => id in s.table[m.dest]
                case Invalid => false
                case _ => true
              }
         case InsertRequest(n) => n < Size(s) && s.receiver[n].Inserting? && s.receiver[n].r < |s.requests[n]|
         case BeginReply(n, r, _) =>
           n < Size(s) && r < |s.requests[n]| && s.requests[n][r].stage == Handed && r in s.pending[n]
         case EraseRequest(n, r) => n < Size(s) && r < |s.requests[n]| && s.requests[n][r].stage.Answering?
         case PushReply(n, r) => n < Size(s) && r < |s.requests[n]| && s.requests[n][r].stage.Erased?
         case SendReply(n) => n < Size(s) && s.sender[n] == SendIdle && s.replied[n] < |s.replyLog[n]|
         case EraseOp(n) => n < Size(s) && s.receiver[n].Erasing?
         case CompleteOp(n) => n < Size(s) && s.receiver[n].Completing? && IsOp(s, n, s.receiver[n].id)
       }
  }

  /** An operation is entered in the table under its own id. */
  function Put(table: map<nat, nat>, id: nat): map<nat, nat> {
    table[id := id]
  }

  function Send(s: State, m: Message): State {
    s.(wire := s.wire + {m})
  }

  /** A request to the own node is refused before the counter moves. */
  function StepSendRequest(s: State, n: nat, dest: nat, data: Data, flag: Flag): State
    requires n < Size(s)
  {
    if dest == n then s
    else s.(ops := s.ops[n := s.ops[n] + [Op(Identifier(n, dest, |s.ops[n]|, flag), data, Created, [], None)]])
  }

  /** The start of an operation: into the table, then into the queue. */
  function StepStart(s: State, e: Event): State
    requires Allowed(s, e) && (e.Start? || e.InsertOp? || e.PushOp?)
  {
    match e
    case Start(n, id) => SetPhase(s, n, id, Started)
    case InsertOp(n, id) => SetPhase(s.(table := s.table[n := Put(s.table[n], id)]), n, id, Inserted)
    case PushOp(n, id) =>
      SetPhase(s.(sendLog := s.sendLog[n := s.sendLog[n] + [id]]), n, id, Queued(|s.sendLog[n]|))
  }

  /** One operation of the send loop; quit and heartbeat operations are completed at once and stay in the table. */
  function StepSender(s: State, e: Event): State
    requires Allowed(s, e) && (e.PopOp? || e.SendOp? || e.CheckFlag?)
  {
    match e
    case PopOp(n) =>
      var id := s.sendLog[n][s.sent[n]];
      SetPhase(s.(sent := s.sent[n := s.sent[n] + 1], sender := s.sender[n := Sending(id)]), n, id, Popped)
    case SendOp(n) =>
      var id := s.sender[n].id;
      var op := s.ops[n][id];
      SetPhase(Send(s.(sender := s.sender[n := Sent(id)]), Message(op.identifier.responder, op.identifier, op.data)),
               n, id, OnWire)
    case CheckFlag(n) =>
      var id := s.sender[n].id;
      var op := s.ops[n][id];
      var s1 := s.(sender := s.sender[n := SendIdle]);
      if op.identifier.flag == Normal then s1
      else SetOp(s1, n, id, op.(phase := Completed, completions := op.completions + [[]]))
  }

  /** `HandleReceivedMessage`, up to the lookup of the operation or the new request number. */
  function StepDeliver(s: State, m: Message): State
    requires Allowed(s, Deliver(m))
  {
    var s1 := s.(wire := s.wire - {m});
    var n := m.dest;
    match Classify(n, m.identifier)
    case Ignore => s1
    case Response(id) =>
      SetPhaseOf(s1.(receiver := s.receiver[n := Erasing(s.table[n][id], m.data)]), m.identifier, Returned)
    case NewRequest =>
      SetPhaseOf(s1.(requests := s.requests[n := s.requests[n] + [Request(m.identifier, m.data, Counted)]],
                     receiver := s.receiver[n := Inserting(|s.requests[n]|)]), m.identifier, Received(|s.requests[n]|))
    case Invalid => s1
  }

  /** The other half: the table entry of the request, or the erased and completed operation. */
  function StepReceiver(s: State, e: Event): State
    requires Allowed(s, e) && (e.InsertRequest? || e.EraseOp? || e.CompleteOp?)
  {
    match e
    case InsertRequest(n) =>
      var r := s.receiver[n].r;
      SetStage(s.(pending := s.pending[n := s.pending[n][r := s.requests[n][r].identifier]],
                  receiver := s.receiver[n := ReceiveIdle]), n, r, Handed)
    case EraseOp(n) =>
      var Erasing(id, data) := s.receiver[n];
      s.(table := s.table[n := s.table[n] - {id}], receiver := s.receiver[n := Completing(id, data)])
    case CompleteOp(n) =>
      var Completing(id, data) := s.receiver[n];
      var op := s.ops[n][id];
      SetOp(s.(receiver := s.receiver[n := ReceiveIdle]), n, id,
            op.(phase := Completed, completions := op.completions + [data]))
  }

  /** `ReplyRequest`, and the reply half of the send loop. */
  function StepReply(s: State, e: Event): State
    requires Allowed(s, e) && (e.BeginReply? || e.EraseRequest? || e.PushReply? || e.SendReply?)
  {
    match e
    case BeginReply(n, r, data) =>
      var identifier := s.pending[n][r];
      var s1 := SetStage(s, n, r, Answering(data));
      if IsOp(s, identifier.requester, identifier.id) then
        SetOp(s1, identifier.requester, identifier.id, s.ops[identifier.requester][identifier.id].(answer := Some(data)))
      else s1
    case EraseRequest(n, r) =>
      SetStage(s.(pending := s.pending[n := s.pending[n] - {r}]), n, r, Erased(s.requests[n][r].stage.data))
    case PushReply(n, r) =>
      var request := s.requests[n][r];
      SetPhaseOf(SetStage(s.(replyLog := s.replyLog[n := s.replyLog[n] + [Reply(request.identifier, request.stage.data)]]),
                          n, r, Pushed), request.identifier, Replied(|s.replyLog[n]|))
    case SendReply(n) =>
      var reply := s.replyLog[n][s.replied[n]];
      SetPhaseOf(Send(s.(replied := s.replied[n := s.replied[n] + 1]),
                      Message(reply.identifier.requester, reply.identifier, reply.data)), reply.identifier, OnWireBack)
  }

  function Apply(s: State, e: Event): State
    requires Allowed(s, e)
  {
    match e
    case SendRequest(n, dest, data, flag) => StepSendRequest(s, n, dest, data, flag)
    case Start(_, _) => StepStart(s, e)
    case InsertOp(_, _) => StepStart(s, e)
    case PushOp(_, _) => StepStart(s, e)
    case PopOp(_) => StepSender(s, e)
    case SendOp(_) => StepSender(s, e)
    case CheckFlag(_) => StepSender(s, e)
    case Deliver(m) => StepDeliver(s, m)
    case InsertRequest(_) => StepReceiver(s, e)
    case EraseOp(_) => StepReceiver(s, e)
    case CompleteOp(_) => StepReceiver(s, e)
    case BeginReply(_, _, _) => StepReply(s, e)
    case EraseRequest(_, _) => StepReply(s, e)
    case PushReply(_, _) => StepReply(s, e)
    case SendReply(_) => StepReply(s, e)
  }

  // ---------------------------------------------------------------- the invariant

  /** The operation is in the table, under its own id. */
  predicate InTable(s: State, n: nat, id: nat) {
    n < |s.table| && id in s.table[n] && s.table[n][id] == id
  }

  /** The request of the operation is entry `r` of its responder's list, in a given stage. */
  predicate AtResponder(s: State, op: Op, r: nat) {
    && op.identifier.responder < |s.requests| && r < |s.requests[op.identifier.responder]|
    && s.requests[op.identifier.responder][r].identifier == op.identifier
  }

  predicate OpOk(s: State, n: nat, id: nat) {
    && Shape(s) && IsOp(s, n, id)
    && var op := s.ops[n][id]; var to := op.identifier.responder;
    && op.identifier.requester == n && op.identifier.id == id && to < Size(s) && to != n
    && (op.completions == [] <==> op.phase != Completed)
    && (op.identifier.flag != Normal ==>
          op.phase.Created? || op.phase.Started? || op.phase.Inserted? || op.phase.Queued? || op.phase.Popped?
          || op.phase.OnWire? || op.phase.Completed?)
    && match op.phase {
         case Created => op.answer == None
         case Started => op.answer == None
         case Inserted => op.answer == None && InTable(s, n, id)
         case Queued(k) =>
           op.answer == None && InTable(s, n, id) && s.sent[n] <= k < |s.sendLog[n]| && s.sendLog[n][k] == id
         case Popped => op.answer == None && InTable(s, n, id) && s.sender[n] == Sending(id)
         case OnWire =>
           && op.answer == None && InTable(s, n, id)
           && (op.identifier.flag == Normal ==> Message(to, op.identifier, op.data) in s.wire)
           && (op.identifier.flag != Normal ==> s.sender[n] == Sent(id))
         case Received(r) =>
           && InTable(s, n, id) && AtResponder(s, op, r)
           && s.requests[to][r].data == op.data
           && match s.requests[to][r].stage {
                case Counted => op.answer == None && s.receiver[to] == Inserting(r)
                case Handed => op.answer == None && r in s.pending[to]
                case Answering(data) => op.answer == Some(data)
                case Erased(data) => op.answer == Some(data)
                case Pushed => false
              }
         case Replied(k) =>
           && InTable(s, n, id) && op.answer.Some?
           && s.replied[to] <= k < |s.replyLog[to]| && s.replyLog[to][k] == Reply(op.identifier, op.answer.value)
         case OnWireBack =>
           InTable(s, n, id) && op.answer.Some? && Message(n, op.identifier, op.answer.value) in s.wire
         case Returned =>
           && op.answer.Some?
           && (s.receiver[n] == Erasing(id, op.answer.value) || s.receiver[n] == Completing(id, op.answer.value))
         case Completed =>
           if op.identifier.flag == Normal then op.answer.Some? && op.completions == [op.answer.value]
           else InTable(s, n, id) && op.completions == [[]]
       }
  }

  /** A message on the wire is the request of an operation, or the reply to one. */
  predicate MessageOk(s: State, m: Message) {
    && IsOp(s, m.identifier.requester, m.identifier.id)
    && var op := s.ops[m.identifier.requester][m.identifier.id];
    && op.identifier == m.identifier
    && (m.identifier.flag == Normal ==>
          || (m.dest == m.identifier.responder && op.phase == OnWire && m.data == op.data)
          || (m.dest == m.identifier.requester && op.phase == OnWireBack && op.answer == Some(m.data)))
    && (m.identifier.flag != Normal ==> m.dest == m.identifier.responder)
  }

  predicate SendOk(s: State, n: nat, k: nat) {
    && Shape(s) && n < Size(s) && k < |s.sendLog[n]|
    && IsOp(s, n, s.sendLog[n][k])
    && (k >= s.sent[n] ==> s.ops[n][s.sendLog[n][k]].phase == Queued(k))
  }

  predicate ReplyOk(s: State, n: nat, k: nat) {
    && Shape(s) && n < Size(s) && k < |s.replyLog[n]|
    && var i := s.replyLog[n][k].identifier;
    && (k >= s.replied[n] ==>
          IsOp(s, i.requester, i.id) && s.ops[i.requester][i.id].identifier == i
          && s.ops[i.requester][i.id].phase == Replied(k) && i.responder == n)
  }

  predicate RequestOk(s: State, n: nat, r: nat) {
    && Shape(s) && n < Size(s) && r < |s.requests[n]|
    && var q := s.requests[n][r];
    && q.identifier.responder == n && q.identifier.flag == Normal
    && IsOp(s, q.identifier.requester, q.identifier.id)
    && s.ops[q.identifier.requester][q.identifier.id].identifier == q.identifier
    && (q.stage != Pushed ==> s.ops[q.identifier.requester][q.identifier.id].phase == Received(r))
    && (q.stage == Handed || q.stage.Answering? ==> r in s.pending[n] && s.pending[n][r] == q.identifier)
    && (q.stage == Counted ==> s.receiver[n] == Inserting(r))
  }

  predicate NodeOk(s: State, n: nat) {
    && Shape(s) && n < Size(s)
    && s.sent[n] <= |s.sendLog[n]| && s.replied[n] <= |s.replyLog[n]|
    && match s.sender[n] {
         case SendIdle => true
         case Sending(id) => IsOp(s, n, id) && s.ops[n][id].phase == Popped
         case Sent(id) =>
           IsOp(s, n, id) && (s.ops[n][id].identifier.flag != Normal ==> s.ops[n][id].phase == OnWire)
       }
    && match s.receiver[n] {
         case ReceiveIdle => true
         case Inserting(r) => r < |s.requests[n]| && s.requests[n][r].stage == Counted
         case Erasing(id, data) =>
           IsOp(s, n, id) && s.ops[n][id].phase == Returned && s.ops[n][id].answer == Some(data)
         case Completing(id, data) =>
           IsOp(s, n, id) && s.ops[n][id].phase == Returned && s.ops[n][id].answer == Some(data)
       }
  }

  ghost predicate NodesOk(s: State) {
    Shape(s) && forall n :: 0 <= n < Size(s) ==> NodeOk(s, n)
  }

  ghost predicate OpsOk(s: State) {
    Shape(s) && forall n, id :: 0 <= n < Size(s) && 0 <= id < |s.ops[n]| ==> OpOk(s, n, id)
  }

  ghost predicate WireOk(s: State) {
    forall m :: m in s.wire ==> MessageOk(s, m)
  }

  ghost predicate LogsOk(s: State) {
    && Shape(s)
    && (forall n, k :: 0 <= n < Size(s) && 0 <= k < |s.sendLog[n]| ==> SendOk(s, n, k))
    && (forall n, k :: 0 <= n < Size(s) && 0 <= k < |s.replyLog[n]| ==> ReplyOk(s, n, k))
  }

  ghost predicate RequestsOk(s: State) {
    Shape(s) && forall n, r :: 0 <= n < Size(s) && 0 <= r < |s.requests[n]| ==> RequestOk(s, n, r)
  }

  ghost predicate Inv(s: State) {
    NodesOk(s) && OpsOk(s) && WireOk(s) && LogsOk(s) && RequestsOk(s)
  }

  // ---------------------------------------------------------------- every step keeps the invariant

  lemma {:induction false} OpFacts(s: State, n: nat, id: nat)
    requires Inv(s) && IsOp(s, n, id)
    ensures OpOk(s, n, id)
  {
  }

  lemma {:induction false} MessageFacts(s: State, m: Message)
    requires Inv(s) && m in s.wire
    ensures MessageOk(s, m)
  {
  }

  lemma {:induction false} SendFacts(s: State, n: nat, k: nat)
    requires Inv(s) && Shape(s) && n < Size(s) && k < |s.sendLog[n]|
    ensures SendOk(s, n, k)
  {
  }

  lemma {:induction false} ReplyLogFacts(s: State, n: nat, k: nat)
    requires Inv(s) && Shape(s) && n < Size(s) && k < |s.replyLog[n]|
    ensures ReplyOk(s, n, k)
  {
  }

  lemma {:induction false} RequestFacts(s: State, n: nat, r: nat)
    requires Inv(s) && Shape(s) && n < Size(s) && r < |s.requests[n]|
    ensures RequestOk(s, n, r)
  {
  }

  lemma {:induction false} NodeFacts(s: State, n: nat)
    requires Inv(s) && n < Size(s)
    ensures NodeOk(s, n)
  {
  }

  /** The operation the sending thread works on. */
  lemma {:induction false} SenderFacts(s: State, e: Event)
    requires Inv(s) && Allowed(s, e) && (e.PopOp? || e.SendOp? || e.CheckFlag?)
    ensures var id := if e.PopOp? then s.sendLog[e.n][s.sent[e.n]] else s.sender[e.n].id;
      && OpOk(s, e.n, id) && NodeOk(s, e.n)
      && (e.PopOp? ==> s.ops[e.n][id].phase == Queued(s.sent[e.n]))
      && (e.SendOp? ==> s.ops[e.n][id].phase == Popped)
  {
    assert NodeOk(s, e.n);
    if e.PopOp? {
      assert SendOk(s, e.n, s.sent[e.n]);
    }
  }

  /** A message is a request at its responder or the reply at its requester, and the receiving thread sees which. */
  lemma {:induction false} DeliverFacts(s: State, m: Message)
    requires Inv(s) && m in s.wire
    ensures IsOp(s, m.identifier.requester, m.identifier.id) && OpOk(s, m.identifier.requester, m.identifier.id)
    ensures var op := s.ops[m.identifier.requester][m.identifier.id];
      && op.identifier == m.identifier
      && match Classify(m.dest, m.identifier) {
           case Ignore => m.identifier.flag != Normal
           case NewRequest => m.dest == m.identifier.responder && op.phase == OnWire && m.data == op.data
           case Response(id) =>
             && id == m.identifier.id && m.dest == m.identifier.requester && op.phase == OnWireBack
             && op.answer == Some(m.data) && InTable(s, m.dest, id)
           case Invalid => false
         }
  {
    assert MessageOk(s, m);
    assert OpOk(s, m.identifier.requester, m.identifier.id);
  }

  lemma {:induction false} ReceiverFacts(s: State, e: Event)
    requires Inv(s) && Allowed(s, e) && (e.InsertRequest? || e.EraseOp? || e.CompleteOp?)
    ensures NodeOk(s, e.n)
    ensures e.InsertRequest? ==> RequestOk(s, e.n, s.receiver[e.n].r)
    ensures e.InsertRequest? ==>
      var i := s.requests[e.n][s.receiver[e.n].r].identifier; OpOk(s, i.requester, i.id) && i.requester != e.n
    ensures e.EraseOp? || e.CompleteOp? ==> OpOk(s, e.n, s.receiver[e.n].id)
  {
    assert NodeOk(s, e.n);
    if e.InsertRequest? {
      assert RequestOk(s, e.n, s.receiver[e.n].r);
      var i := s.requests[e.n][s.receiver[e.n].r].identifier;
      assert OpOk(s, i.requester, i.id);
    } else {
      assert OpOk(s, e.n, s.receiver[e.n].id);
    }
  }

  function AnsweredBy(s: State, e: Event): Identifier
    requires Allowed(s, e) && (e.BeginReply? || e.EraseRequest? || e.PushReply? || e.SendReply?)
  {
    if e.SendReply? then s.replyLog[e.n][s.replied[e.n]].identifier else s.requests[e.n][e.r].identifier
  }

  lemma {:induction false} ReplyFacts(s: State, e: Event)
    requires Inv(s) && Allowed(s, e) && (e.BeginReply? || e.EraseRequest? || e.PushReply? || e.SendReply?)
    ensures NodeOk(s, e.n)
    ensures var i := AnsweredBy(s, e);
      && OpOk(s, i.requester, i.id) && s.ops[i.requester][i.id].identifier == i && i.responder == e.n && i.requester != e.n
      && (e.BeginReply? ==> s.pending[e.n][e.r] == i)
      && (!e.SendReply? ==> RequestOk(s, e.n, e.r))
      && (e.SendReply? ==> s.ops[i.requester][i.id].phase == Replied(s.replied[e.n]))
  {
    assert NodeOk(s, e.n);
    if e.SendReply? {
      assert ReplyOk(s, e.n, s.replied[e.n]);
    } else {
      assert RequestOk(s, e.n, e.r);
    }
    var i := AnsweredBy(s, e);
    assert OpOk(s, i.requester, i.id);
  }

  lemma {:induction false} SendRequestOps(s: State, e: Event)
    requires Inv(s) && Allowed(s, e) && (e.SendRequest?)
    ensures var s' := Apply(s, e); OpsOk(s')
  {
    var s' := Apply(s, e);
    forall n, id | 0 <= n < Size(s') && 0 <= id < |s'.ops[n]| ensures OpOk(s', n, id) {
      if id < |s.ops[n]| {
        assert OpOk(s, n, id);
      }
    }
  }

  lemma {:induction false} SendRequestRest(s: State, e: Event)
    requires Inv(s) && Allowed(s, e) && (e.SendRequest?)
    ensures var s' := Apply(s, e); NodesOk(s') && WireOk(s')
  {
    var s' := Apply(s, e);
    forall n | 0 <= n < Size(s') ensures NodeOk(s', n) {
      assert NodeOk(s, n);
    }
    forall m | m in s'.wire ensures MessageOk(s', m) {
      if m in s.wire {
        assert MessageOk(s, m);
      }
    }
  }

  lemma {:induction false} SendRequestLogs(s: State, e: Event)
    requires Inv(s) && Allowed(s, e) && (e.SendRequest?)
    ensures var s' := Apply(s, e); RequestsOk(s') && LogsOk(s')
  {
    var s' := Apply(s, e);
    forall n, k | 0 <= n < Size(s') && 0 <= k < |s'.sendLog[n]| ensures SendOk(s', n, k) {
      if k < |s.sendLog[n]| {
        assert SendOk(s, n, k);
      }
    }
    forall n, k | 0 <= n < Size(s') && 0 <= k < |s'.replyLog[n]| ensures ReplyOk(s', n, k) {
      if k < |s.replyLog[n]| {
        assert ReplyOk(s, n, k);
      }
    }
    forall n, r | 0 <= n < Size(s') && 0 <= r < |s'.requests[n]| ensures RequestOk(s', n, r) {
      if r < |s.requests[n]| {
        assert RequestOk(s, n, r);
      }
    }
  }

  lemma {:induction false} StartOp(s: State, e: Event, n: nat, id: nat)
    requires Inv(s) && Allowed(s, e) && (e.Start? || e.InsertOp? || e.PushOp?)
    requires IsOp(StepStart(s, e), n, id)
    ensures OpOk(StepStart(s, e), n, id)
  {
    hide Inv;
    OpFacts(s, e.n, e.id);
    NodeFacts(s, e.n);
    if IsOp(s, n, id) {
      OpFacts(s, n, id);
    }
  }

  lemma {:induction false} StartOps(s: State, e: Event)
    requires Inv(s) && Allowed(s, e) && (e.Start? || e.InsertOp? || e.PushOp?)
    ensures OpsOk(StepStart(s, e))
  {
    hide OpOk;
    var s' := StepStart(s, e);
    forall n, id | 0 <= n < Size(s') && 0 <= id < |s'.ops[n]| ensures OpOk(s', n, id) {
      StartOp(s, e, n, id);
    }
  }

  lemma {:induction false} StartRest(s: State, e: Event)
    requires Inv(s) && Allowed(s, e) && (e.Start? || e.InsertOp? || e.PushOp?)
    ensures var s' := StepStart(s, e); NodesOk(s') && WireOk(s')
  {
    var s' := StepStart(s, e);
    assert OpOk(s, e.n, e.id);
    forall n | 0 <= n < Size(s') ensures NodeOk(s', n) {
      assert NodeOk(s, n);
    }
    forall m | m in s'.wire ensures MessageOk(s', m) {
      if m in s.wire {
        assert MessageOk(s, m);
      }
    }
  }

  lemma {:induction false} StartLogs(s: State, e: Event)
    requires Inv(s) && Allowed(s, e) && (e.Start? || e.InsertOp? || e.PushOp?)
    ensures var s' := StepStart(s, e); RequestsOk(s') && LogsOk(s')
  {
    var s' := StepStart(s, e);
    assert OpOk(s, e.n, e.id);
    forall n, k | 0 <= n < Size(s') && 0 <= k < |s'.sendLog[n]| ensures SendOk(s', n, k) {
      if k < |s.sendLog[n]| {
        assert SendOk(s, n, k);
      }
    }
    forall n, k | 0 <= n < Size(s') && 0 <= k < |s'.replyLog[n]| ensures ReplyOk(s', n, k) {
      if k < |s.replyLog[n]| {
        assert ReplyOk(s, n, k);
      }
    }
    forall n, r | 0 <= n < Size(s') && 0 <= r < |s'.requests[n]| ensures RequestOk(s', n, r) {
      if r < |s.requests[n]| {
        assert RequestOk(s, n, r);
      }
    }
  }

  lemma {:induction false} SenderOp(s: State, e: Event, n: nat, id: nat)
    requires Inv(s) && Allowed(s, e) && (e.PopOp? || e.SendOp? || e.CheckFlag?)
    requires IsOp(StepSender(s, e), n, id)
    ensures OpOk(StepSender(s, e), n, id)
  {
    hide Inv;
    SenderFacts(s, e);
    if IsOp(s, n, id) {
      OpFacts(s, n, id);
    }
  }

  lemma {:induction false} SenderOps(s: State, e: Event)
    requires Inv(s) && Allowed(s, e) && (e.PopOp? || e.SendOp? || e.CheckFlag?)
    ensures OpsOk(StepSender(s, e))
  {
    hide OpOk;
    var s' := StepSender(s, e);
    forall n, id | 0 <= n < Size(s') && 0 <= id < |s'.ops[n]| ensures OpOk(s', n, id) {
      SenderOp(s, e, n, id);
    }
  }

  lemma {:induction false} SenderNode(s: State, e: Event, n: nat)
    requires Inv(s) && Allowed(s, e) && (e.PopOp? || e.SendOp? || e.CheckFlag?) && n < Size(s)
    ensures NodeOk(StepSender(s, e), n)
  {
    hide Inv;
    SenderFacts(s, e);
    NodeFacts(s, n);
  }

  lemma {:induction false} SenderMessage(s: State, e: Event, m: Message)
    requires Inv(s) && Allowed(s, e) && (e.PopOp? || e.SendOp? || e.CheckFlag?) && m in StepSender(s, e).wire
    ensures MessageOk(StepSender(s, e), m)
  {
    hide Inv;
    SenderFacts(s, e);
    if m in s.wire {
      MessageFacts(s, m);
    }
  }

  lemma {:induction false} SenderRest(s: State, e: Event)
    requires Inv(s) && Allowed(s, e) && (e.PopOp? || e.SendOp? || e.CheckFlag?)
    ensures var s' := StepSender(s, e); NodesOk(s') && WireOk(s')
  {
    hide NodeOk, MessageOk;
    var s' := StepSender(s, e);
    forall n | 0 <= n < Size(s') ensures NodeOk(s', n) {
      SenderNode(s, e, n);
    }
    forall m | m in s'.wire ensures MessageOk(s', m) {
      SenderMessage(s, e, m);
    }
  }

  lemma {:induction false} SenderLogs(s: State, e: Event)
    requires Inv(s) && Allowed(s, e) && (e.PopOp? || e.SendOp? || e.CheckFlag?)
    ensures var s' := StepSender(s, e); RequestsOk(s') && LogsOk(s')
  {
    var s' := StepSender(s, e);
    SenderFacts(s, e);
    forall n, k | 0 <= n < Size(s') && 0 <= k < |s'.sendLog[n]| ensures SendOk(s', n, k) {
      if k < |s.sendLog[n]| {
        assert SendOk(s, n, k);
      }
    }
    forall n, k | 0 <= n < Size(s') && 0 <= k < |s'.replyLog[n]| ensures ReplyOk(s', n, k) {
      if k < |s.replyLog[n]| {
        assert ReplyOk(s, n, k);
      }
    }
    forall n, r | 0 <= n < Size(s') && 0 <= r < |s'.requests[n]| ensures RequestOk(s', n, r) {
      if r < |s.requests[n]| {
        assert RequestOk(s, n, r);
      }
    }
  }

  lemma {:induction false} DeliverOp(s: State, e: Event, n: nat, id: nat)
    requires Inv(s) && Allowed(s, e) && (e.Deliver?)
    requires IsOp(StepDeliver(s, e.m), n, id)
    ensures OpOk(StepDeliver(s, e.m), n, id)
  {
    hide Inv, OpOk;
    if n == e.m.identifier.requester && id == e.m.identifier.id {
      DeliveredOp(s, e.m);
    } else {
      OtherOp(s, e.m, n, id);
    }
  }

  /** The operation that the message belongs to. */
  lemma {:induction false} DeliveredOp(s: State, m: Message)
    requires Inv(s) && Allowed(s, Deliver(m)) && IsOp(StepDeliver(s, m), m.identifier.requester, m.identifier.id)
    ensures OpOk(StepDeliver(s, m), m.identifier.requester, m.identifier.id)
  {
    hide Inv;
    DeliverFacts(s, m);
  }

  /** Any other one. */
  lemma {:induction false} OtherOp(s: State, m: Message, n: nat, id: nat)
    requires Inv(s) && Allowed(s, Deliver(m)) && IsOp(StepDeliver(s, m), n, id)
    requires n != m.identifier.requester || id != m.identifier.id
    ensures OpOk(StepDeliver(s, m), n, id)
  {
    hide Inv;
    DeliverFacts(s, m);
    OpFacts(s, n, id);
  }

  lemma {:induction false} DeliverOps(s: State, e: Event)
    requires Inv(s) && Allowed(s, e) && (e.Deliver?)
    ensures OpsOk(StepDeliver(s, e.m))
  {
    hide OpOk;
    var s' := StepDeliver(s, e.m);
    forall n, id | 0 <= n < Size(s') && 0 <= id < |s'.ops[n]| ensures OpOk(s', n, id) {
      DeliverOp(s, e, n, id);
    }
  }

  lemma {:induction false} DeliverNode(s: State, e: Event, n: nat)
    requires Inv(s) && Allowed(s, e) && e.Deliver? && n < Size(s)
    ensures NodeOk(StepDeliver(s, e.m), n)
  {
    hide Inv;
    DeliverFacts(s, e.m);
    NodeFacts(s, n);
  }

  lemma {:induction false} DeliverMessage(s: State, e: Event, m: Message)
    requires Inv(s) && Allowed(s, e) && e.Deliver? && m in StepDeliver(s, e.m).wire
    ensures MessageOk(StepDeliver(s, e.m), m)
  {
    hide Inv;
    DeliverFacts(s, e.m);
    MessageFacts(s, m);
    MessageFacts(s, e.m);
  }

  lemma {:induction false} DeliverRest(s: State, e: Event)
    requires Inv(s) && Allowed(s, e) && e.Deliver?
    ensures var s' := StepDeliver(s, e.m); NodesOk(s') && WireOk(s')
  {
    hide NodeOk, MessageOk;
    var s' := StepDeliver(s, e.m);
    forall n | 0 <= n < Size(s') ensures NodeOk(s', n) {
      DeliverNode(s, e, n);
    }
    forall m | m in s'.wire ensures MessageOk(s', m) {
      DeliverMessage(s, e, m);
    }
  }

  lemma {:induction false} DeliverRequest(s: State, e: Event, n: nat, r: nat)
    requires Inv(s) && Allowed(s, e) && e.Deliver? && n < Size(s) && r < |StepDeliver(s, e.m).requests[n]|
    ensures RequestOk(StepDeliver(s, e.m), n, r)
  {
    hide Inv;
    DeliverFacts(s, e.m);
    if r < |s.requests[n]| {
      RequestFacts(s, n, r);
    }
  }

  lemma {:induction false} DeliverLogs(s: State, e: Event)
    requires Inv(s) && Allowed(s, e) && e.Deliver?
    ensures var s' := StepDeliver(s, e.m); RequestsOk(s') && LogsOk(s')
  {
    hide RequestOk;
    DeliverFacts(s, e.m);
    var s' := StepDeliver(s, e.m);
    forall n, k | 0 <= n < Size(s') && 0 <= k < |s'.sendLog[n]| ensures SendOk(s', n, k) {
      SendFacts(s, n, k);
    }
    forall n, k | 0 <= n < Size(s') && 0 <= k < |s'.replyLog[n]| ensures ReplyOk(s', n, k) {
      ReplyLogFacts(s, n, k);
    }
    forall n, r | 0 <= n < Size(s') && 0 <= r < |s'.requests[n]| ensures RequestOk(s', n, r) {
      DeliverRequest(s, e, n, r);
    }
  }

  lemma {:induction false} ReceiverOp(s: State, e: Event, n: nat, id: nat)
    requires Inv(s) && Allowed(s, e) && (e.InsertRequest? || e.EraseOp? || e.CompleteOp?)
    requires IsOp(StepReceiver(s, e), n, id)
    ensures OpOk(StepReceiver(s, e), n, id)
  {
    hide Inv;
    ReceiverFacts(s, e);
    if IsOp(s, n, id) {
      OpFacts(s, n, id);
    }
  }

  lemma {:induction false} ReceiverOps(s: State, e: Event)
    requires Inv(s) && Allowed(s, e) && (e.InsertRequest? || e.EraseOp? || e.CompleteOp?)
    ensures OpsOk(StepReceiver(s, e))
  {
    hide OpOk;
    var s' := StepReceiver(s, e);
    forall n, id | 0 <= n < Size(s') && 0 <= id < |s'.ops[n]| ensures OpOk(s', n, id) {
      ReceiverOp(s, e, n, id);
    }
  }

  lemma {:induction false} ReceiverRest(s: State, e: Event)
    requires Inv(s) && Allowed(s, e) && (e.InsertRequest? || e.EraseOp? || e.CompleteOp?)
    ensures var s' := StepReceiver(s, e); NodesOk(s') && WireOk(s')
  {
    var s' := StepReceiver(s, e);
    ReceiverFacts(s, e);
    forall n | 0 <= n < Size(s') ensures NodeOk(s', n) {
      assert NodeOk(s, n);
    }
    forall m | m in s'.wire ensures MessageOk(s', m) {
      if m in s.wire {
        assert MessageOk(s, m);
      }
    }
  }

  lemma {:induction false} ReceiverLogs(s: State, e: Event)
    requires Inv(s) && Allowed(s, e) && (e.InsertRequest? || e.EraseOp? || e.CompleteOp?)
    ensures var s' := StepReceiver(s, e); RequestsOk(s') && LogsOk(s')
  {
    var s' := StepReceiver(s, e);
    ReceiverFacts(s, e);
    forall n, k | 0 <= n < Size(s') && 0 <= k < |s'.sendLog[n]| ensures SendOk(s', n, k) {
      if k < |s.sendLog[n]| {
        assert SendOk(s, n, k);
      }
    }
    forall n, k | 0 <= n < Size(s') && 0 <= k < |s'.replyLog[n]| ensures ReplyOk(s', n, k) {
      if k < |s.replyLog[n]| {
        assert ReplyOk(s, n, k);
      }
    }
    forall n, r | 0 <= n < Size(s') && 0 <= r < |s'.requests[n]| ensures RequestOk(s', n, r) {
      if r < |s.requests[n]| {
        assert RequestOk(s, n, r);
      }
    }
  }

  lemma {:induction false} AnswerOp(s: State, e: Event, n: nat, id: nat)
    requires Inv(s) && Allowed(s, e) && (e.BeginReply? || e.EraseRequest?)
    requires IsOp(StepReply(s, e), n, id)
    ensures OpOk(StepReply(s, e), n, id)
  {
    hide Inv;
    ReplyFacts(s, e);
    OpFacts(s, n, id);
  }

  lemma {:induction false} PushReplyOp(s: State, e: Event, n: nat, id: nat)
    requires Inv(s) && Allowed(s, e) && e.PushReply?
    requires IsOp(StepReply(s, e), n, id)
    ensures OpOk(StepReply(s, e), n, id)
  {
    hide Inv;
    ReplyFacts(s, e);
    OpFacts(s, n, id);
  }

  lemma {:induction false} SendReplyOp(s: State, e: Event, n: nat, id: nat)
    requires Inv(s) && Allowed(s, e) && e.SendReply?
    requires IsOp(StepReply(s, e), n, id)
    ensures OpOk(StepReply(s, e), n, id)
  {
    hide Inv;
    ReplyFacts(s, e);
    OpFacts(s, n, id);
  }

  lemma {:induction false} ReplyOps(s: State, e: Event)
    requires Inv(s) && Allowed(s, e) && (e.BeginReply? || e.EraseRequest? || e.PushReply? || e.SendReply?)
    ensures OpsOk(StepReply(s, e))
  {
    hide OpOk;
    var s' := StepReply(s, e);
    forall n, id | 0 <= n < Size(s') && 0 <= id < |s'.ops[n]| ensures OpOk(s', n, id) {
      if e.BeginReply? || e.EraseRequest? {
        AnswerOp(s, e, n, id);
      } else if e.PushReply? {
        PushReplyOp(s, e, n, id);
      } else {
        SendReplyOp(s, e, n, id);
      }
    }
  }

  lemma {:induction false} ReplyRest(s: State, e: Event)
    requires Inv(s) && Allowed(s, e) && (e.BeginReply? || e.EraseRequest? || e.PushReply? || e.SendReply?)
    ensures var s' := StepReply(s, e); NodesOk(s') && WireOk(s')
  {
    hide NodeOk, MessageOk;
    var s' := StepReply(s, e);
    forall n | 0 <= n < Size(s') ensures NodeOk(s', n) {
      ReplyNode(s, e, n);
    }
    forall m | m in s'.wire ensures MessageOk(s', m) {
      ReplyMessage(s, e, m);
    }
  }

  lemma {:induction false} AnsweringNode(s: State, e: Event, n: nat)
    requires Inv(s) && Allowed(s, e) && (e.BeginReply? || e.EraseRequest?) && n < Size(s)
    ensures NodeOk(StepReply(s, e), n)
  {
    hide Inv;
    ReplyFacts(s, e);
    NodeFacts(s, n);
  }

  lemma {:induction false} QueuedReplyNode(s: State, e: Event, n: nat)
    requires Inv(s) && Allowed(s, e) && (e.PushReply? || e.SendReply?) && n < Size(s)
    ensures NodeOk(StepReply(s, e), n)
  {
    hide Inv;
    ReplyFacts(s, e);
    NodeFacts(s, n);
  }

  lemma {:induction false} ReplyNode(s: State, e: Event, n: nat)
    requires Inv(s) && Allowed(s, e) && (e.BeginReply? || e.EraseRequest? || e.PushReply? || e.SendReply?) && n < Size(s)
    ensures NodeOk(StepReply(s, e), n)
  {
    hide Inv, StepReply, NodeOk;
    if e.BeginReply? || e.EraseRequest? {
      AnsweringNode(s, e, n);
    } else {
      QueuedReplyNode(s, e, n);
    }
  }

  lemma {:induction false} ReplyMessage(s: State, e: Event, m: Message)
    requires Inv(s) && Allowed(s, e) && (e.BeginReply? || e.EraseRequest? || e.PushReply? || e.SendReply?) && m in StepReply(s, e).wire
    ensures MessageOk(StepReply(s, e), m)
  {
    hide Inv;
    ReplyFacts(s, e);
    if m in s.wire {
      MessageFacts(s, m);
    }
  }

  lemma {:induction false} ReplySend(s: State, e: Event, n: nat, k: nat)
    requires Inv(s) && Allowed(s, e) && (e.BeginReply? || e.EraseRequest? || e.PushReply? || e.SendReply?) && n < Size(s) && k < |s.sendLog[n]|
    ensures SendOk(StepReply(s, e), n, k)
  {
    hide Inv;
    ReplyFacts(s, e);
    SendFacts(s, n, k);
  }

  lemma {:induction false} ReplyReply(s: State, e: Event, n: nat, k: nat)
    requires Inv(s) && Allowed(s, e) && (e.BeginReply? || e.EraseRequest? || e.PushReply? || e.SendReply?) && n < Size(s) && k < |StepReply(s, e).replyLog[n]|
    ensures ReplyOk(StepReply(s, e), n, k)
  {
    hide Inv;
    ReplyFacts(s, e);
    if k < |s.replyLog[n]| {
      ReplyLogFacts(s, n, k);
    }
  }

  lemma {:induction false} ReplyRequest(s: State, e: Event, n: nat, r: nat)
    requires Inv(s) && Allowed(s, e) && (e.BeginReply? || e.EraseRequest? || e.PushReply? || e.SendReply?) && n < Size(s) && r < |s.requests[n]|
    ensures RequestOk(StepReply(s, e), n, r)
  {
    hide Inv, OpOk, NodeOk;
    ReplyFacts(s, e);
    RequestFacts(s, n, r);
  }

  lemma {:induction false} ReplyLogs(s: State, e: Event)
    requires Inv(s) && Allowed(s, e) && (e.BeginReply? || e.EraseRequest? || e.PushReply? || e.SendReply?)
    ensures var s' := StepReply(s, e); RequestsOk(s') && LogsOk(s')
  {
    hide SendOk, ReplyOk, RequestOk;
    var s' := StepReply(s, e);
    forall n, k | 0 <= n < Size(s') && 0 <= k < |s'.sendLog[n]| ensures SendOk(s', n, k) {
      ReplySend(s, e, n, k);
    }
    forall n, k | 0 <= n < Size(s') && 0 <= k < |s'.replyLog[n]| ensures ReplyOk(s', n, k) {
      ReplyReply(s, e, n, k);
    }
    forall n, r | 0 <= n < Size(s') && 0 <= r < |s'.requests[n]| ensures RequestOk(s', n, r) {
      ReplyRequest(s, e, n, r);
    }
  }

  /** Every step of every thread of every node keeps the invariant. */
  lemma {:induction false} ApplyKeepsInv(s: State, e: Event)
    requires Inv(s) && Allowed(s, e)
    ensures Inv(Apply(s, e))
  {
    hide NodesOk, OpsOk, WireOk, LogsOk, RequestsOk;
    match e
    case SendRequest(_, _, _, _) => SendRequestOps(s, e); SendRequestRest(s, e); SendRequestLogs(s, e);
    case Start(_, _) => StartOps(s, e); StartRest(s, e); StartLogs(s, e);
    case InsertOp(_, _) => StartOps(s, e); StartRest(s, e); StartLogs(s, e);
    case PushOp(_, _) => StartOps(s, e); StartRest(s, e); StartLogs(s, e);
    case PopOp(_) => SenderOps(s, e); SenderRest(s, e); SenderLogs(s, e);
    case SendOp(_) => SenderOps(s, e); SenderRest(s, e); SenderLogs(s, e);
    case CheckFlag(_) => SenderOps(s, e); SenderRest(s, e); SenderLogs(s, e);
    case Deliver(_) => DeliverOps(s, e); DeliverRest(s, e); DeliverLogs(s, e);
    case InsertRequest(_) => ReceiverOps(s, e); ReceiverRest(s, e); ReceiverLogs(s, e);
    case EraseOp(_) => ReceiverOps(s, e); ReceiverRest(s, e); ReceiverLogs(s, e);
    case CompleteOp(_) => ReceiverOps(s, e); ReceiverRest(s, e); ReceiverLogs(s, e);
    case BeginReply(_, _, _) => ReplyOps(s, e); ReplyRest(s, e); ReplyLogs(s, e);
    case EraseRequest(_, _) => ReplyOps(s, e); ReplyRest(s, e); ReplyLogs(s, e);
    case PushReply(_, _) => ReplyOps(s, e); ReplyRest(s, e); ReplyLogs(s, e);
    case SendReply(_) => ReplyOps(s, e); ReplyRest(s, e); ReplyLogs(s, e);
  }

  // ---------------------------------------------------------------- runs and theorems

  predicate Init(s: State) {
    && Shape(s) && s.wire == {}
    && forall n :: 0 <= n < Size(s) ==>
         && s.ops[n] == [] && s.table[n] == map[] && s.sendLog[n] == [] && s.sent[n] == 0 && s.sender[n] == SendIdle
         && s.receiver[n] == ReceiveIdle && s.requests[n] == [] && s.pending[n] == map[] && s.replyLog[n] == [] && s.replied[n] == 0
  }

  predicate Possible(s: State, es: seq<Event>)
    decreases es
  {
    es == [] || (Allowed(s, es[0]) && Possible(Apply(s, es[0]), es[1..]))
  }

  function Exec(s: State, es: seq<Event>): State
    requires Possible(s, es)
    decreases es
  {
    if es == [] then s else Exec(Apply(s, es[0]), es[1..])
  }

  lemma {:induction false} InvAlong(s: State, es: seq<Event>)
    requires Inv(s) && Possible(s, es)
    ensures Inv(Exec(s, es))
    decreases es
  {
    hide Inv, Allowed, Apply;
    if es != [] {
      ApplyKeepsInv(s, es[0]);
      InvAlong(Apply(s, es[0]), es[1..]);
    }
  }

  lemma {:induction false} ReachableInv(s: State, es: seq<Event>)
    requires Init(s) && Possible(s, es)
    ensures Inv(Exec(s, es))
  {
    InvAlong(s, es);
  }

  /**
   An operation is completed at most once. A normal operation is completed with exactly the
   data that its responder passed to `ReplyRequest` for this very request.
   */
  lemma {:induction false} CompletedOnceWithItsReply(s: State, es: seq<Event>, n: nat, id: nat)
    requires Init(s) && Possible(s, es) && IsOp(Exec(s, es), n, id)
    ensures var op := Exec(s, es).ops[n][id];
      && op.identifier.requester == n && op.identifier.id == id
      && |op.completions| <= 1
      && (op.completions != [] && op.identifier.flag == Normal ==> op.answer == Some(op.completions[0]))
      && (op.completions != [] && op.identifier.flag != Normal ==> op.completions == [[]])
  {
    ReachableInv(s, es);
    OpFacts(Exec(s, es), n, id);
  }

  /** Node `n` has entered request `r`, and it is the request of operation `id` of node `from`, with the data that was sent. */
  lemma {:induction false} RequestsArriveIntact(s: State, es: seq<Event>, n: nat, r: nat)
    requires Init(s) && Possible(s, es) && n < Size(Exec(s, es)) && |Exec(s, es).requests| == Size(Exec(s, es))
    requires r < |Exec(s, es).requests[n]| && Exec(s, es).requests[n][r].stage != Pushed
    ensures var z := Exec(s, es); var i := z.requests[n][r].identifier;
      && IsOp(z, i.requester, i.id) && z.ops[i.requester][i.id].identifier == i
      && i.responder == n && i.requester != n && i.flag == Normal
      && z.requests[n][r].data == z.ops[i.requester][i.id].data
      && z.ops[i.requester][i.id].completions == []
  {
    ReachableInv(s, es);
    var z := Exec(s, es);
    RequestFacts(z, n, r);
    var i := z.requests[n][r].identifier;
    OpFacts(z, i.requester, i.id);
  }

  /**
   No lookup throws: a response finds its operation, under its own id; a worker that answers
   a request finds its identifier; a message is never classified as neither.
   */
  lemma {:induction false} LookupsNeverMiss(s: State, es: seq<Event>)
    requires Init(s) && Possible(s, es)
    ensures var z := Exec(s, es);
      && Shape(z)
      && (forall m :: m in z.wire && m.dest < Size(z) && z.receiver[m.dest] == ReceiveIdle ==> Allowed(z, Deliver(m)))
      && (forall n, r, data :: 0 <= n < Size(z) && 0 <= r < |z.requests[n]| && z.requests[n][r].stage == Handed ==>
            Allowed(z, BeginReply(n, r, data)))
  {
    ReachableInv(s, es);
    var z := Exec(s, es);
    forall m | m in z.wire && m.dest < Size(z) && z.receiver[m.dest] == ReceiveIdle ensures Allowed(z, Deliver(m)) {
      DeliverFacts(z, m);
    }
    forall n, r, data | 0 <= n < Size(z) && 0 <= r < |z.requests[n]| && z.requests[n][r].stage == Handed
      ensures Allowed(z, BeginReply(n, r, data))
    {
      RequestFacts(z, n, r);
    }
  }

  /**
   Requests and responses are told apart exactly: what arrives at the requester is the reply
   to one of its open operations, what arrives at the responder is a request not seen before.
   */
  lemma {:induction false} NoConfusion(s: State, es: seq<Event>, m: Message)
    requires Init(s) && Possible(s, es) && m in Exec(s, es).wire && m.identifier.flag == Normal
    ensures var z := Exec(s, es); var i := m.identifier;
      && IsOp(z, i.requester, i.id) && i.requester != i.responder
      && var op := z.ops[i.requester][i.id];
      && op.identifier == i && op.completions == []
      && (Classify(m.dest, i) == Response(i.id) <==> m.dest == i.requester)
      && (Classify(m.dest, i) == NewRequest <==> m.dest == i.responder)
      && (m.dest == i.requester || m.dest == i.responder)
      && (m.dest == i.requester ==> op.answer == Some(m.data))
      && (m.dest == i.responder ==> op.answer == None && m.data == op.data)
  {
    ReachableInv(s, es);
    DeliverFacts(Exec(s, es), m);
  }

  /** A request to the own node is refused and leaves no trace, not even in the counter. */
  lemma {:induction false} SelfSendRefused(s: State, n: nat, data: Data, flag: Flag)
    requires Shape(s) && n < Size(s)
    ensures Apply(s, SendRequest(n, n, data, flag)) == s
  {
  }

  /** Quit and heartbeat operations stay in the table for good: they are completed but never erased. */
  lemma {:induction false} ControlOpsStayInTable(s: State, es: seq<Event>, n: nat, id: nat)
    requires Init(s) && Possible(s, es) && IsOp(Exec(s, es), n, id)
    requires Exec(s, es).ops[n][id].identifier.flag != Normal && Exec(s, es).ops[n][id].phase == Completed
    ensures InTable(Exec(s, es), n, id)
  {
    ReachableInv(s, es);
    OpFacts(Exec(s, es), n, id);
  }

  /** A normal operation that waits for its reply is in the table. */
  lemma {:induction false} WaitingOpsAreInTable(s: State, es: seq<Event>, n: nat, id: nat)
    requires Init(s) && Possible(s, es) && IsOp(Exec(s, es), n, id)
    requires var p := Exec(s, es).ops[n][id].phase; p.OnWire? || p.Received? || p.Replied? || p.OnWireBack?
    ensures InTable(Exec(s, es), n, id)
  {
    ReachableInv(s, es);
    OpFacts(Exec(s, es), n, id);
  }

  /**
   An operation that has been started and not completed is never lost: some thread can take
   the step that brings it on, except that its responder may still be computing the reply, or
   that the thread in question is busy with another message.
   */
  lemma {:induction false} NoOperationIsLost(s: State, es: seq<Event>, n: nat, id: nat)
    requires Init(s) && Possible(s, es) && IsOp(Exec(s, es), n, id)
    ensures var z := Exec(s, es); var op := z.ops[n][id]; var to := op.identifier.responder;
      && Shape(z) && to < Size(z)
      && match op.phase {
           case Created => Allowed(z, Start(n, id))
           case Started => Allowed(z, InsertOp(n, id))
           case Inserted => Allowed(z, PushOp(n, id))
           case Queued(k) => z.sent[n] <= k < |z.sendLog[n]| && z.sendLog[n][k] == id
           case Popped => Allowed(z, SendOp(n))
           case OnWire =>
             if op.identifier.flag == Normal then Message(to, op.identifier, op.data) in z.wire else Allowed(z, CheckFlag(n))
           case Received(r) =>
             && r < |z.requests[to]| && z.requests[to][r].identifier == op.identifier
             && match z.requests[to][r].stage {
                  case Counted => Allowed(z, InsertRequest(to))
                  case Handed => forall data :: Allowed(z, BeginReply(to, r, data))
                  case Answering(_) => Allowed(z, EraseRequest(to, r))
                  case Erased(_) => Allowed(z, PushReply(to, r))
                  case Pushed => false
                }
           case Replied(k) => z.replied[to] <= k < |z.replyLog[to]| && z.replyLog[to][k].identifier == op.identifier
           case OnWireBack => op.answer.Some? && Message(n, op.identifier, op.answer.value) in z.wire
           case Returned => Allowed(z, EraseOp(n)) || Allowed(z, CompleteOp(n))
           case Completed => |op.completions| == 1
         }
  {
    hide Inv, Exec, Possible, Init;
    ReachableInv(s, es);
    var z := Exec(s, es);
    OpFacts(z, n, id);
    NodeFacts(z, n);
    var to := z.ops[n][id].identifier.responder;
    NodeFacts(z, to);
    if z.ops[n][id].phase.Received? {
      RequestFacts(z, to, z.ops[n][id].phase.r);
    }
  }

  // ---------------------------------------------------------------- the steps in place

  /** The brokers of all nodes, and the network between them. */
  class Cluster {
    var ops: seq<seq<Op>>
    var table: seq<map<nat, nat>>
    var sendLog: seq<seq<nat>>
    var sent: seq<nat>
    var sender: seq<Sender>
    var receiver: seq<Receiver>
    var requests: seq<seq<Request>>
    var pending: seq<map<nat, Identifier>>
    var replyLog: seq<seq<Reply>>
    var replied: seq<nat>
    var wire: set<Message>

    ghost function View(): State
      reads this
    {
      State(ops, table, sendLog, sent, sender, receiver, requests, pending, replyLog, replied, wire)
    }

    constructor (nodes: nat)
      ensures Init(View()) && Inv(View()) && Size(View()) == nodes
    {
      ops, table := seq(nodes, _ => []), seq(nodes, _ => map[]);
      sendLog, sent, sender := seq(nodes, _ => []), seq(nodes, _ => 0), seq(nodes, _ => SendIdle);
      receiver, requests := seq(nodes, _ => ReceiveIdle), seq(nodes, _ => []);
      pending, replyLog, replied := seq(nodes, _ => map[]), seq(nodes, _ => []), seq(nodes, _ => 0);
      wire := {};
    }

    /** Moves the operation that `i` names on, if there is one. */
    method Mark(i: Identifier, phase: Phase)
      modifies this`ops
      ensures View() == SetPhaseOf(old(View()), i, phase)
    {
      if i.requester < |ops| && i.id < |ops[i.requester]| {
        ops := ops[i.requester := ops[i.requester][i.id := ops[i.requester][i.id].(phase := phase)]];
      }
    }

    method MarkRequest(n: nat, r: nat, stage: Stage)
      requires n < |requests| && r < |requests[n]|
      modifies this`requests
      ensures View() == SetStage(old(View()), n, r, stage)
    {
      requests := requests[n := requests[n][r := requests[n][r].(stage := stage)]];
    }

    /** `SendRequest`: the identifier of the new operation, or nothing for a request to the own node. */
    method SendRequest(n: nat, dest: nat, data: Data, flag: Flag) returns (id: Option<nat>)
      requires Inv(View()) && Allowed(View(), Event.SendRequest(n, dest, data, flag))
      modifies this`ops
      ensures Inv(View()) && View() == Apply(old(View()), Event.SendRequest(n, dest, data, flag))
      ensures id == None <==> dest == n
      ensures id.Some? ==> id.value == |old(ops)[n]|
    {
      ApplyKeepsInv(View(), Event.SendRequest(n, dest, data, flag));
      if dest == n {
        return None;
      }
      id := Some(|ops[n]|);
      ops := ops[n := ops[n] + [Op(Identifier(n, dest, |ops[n]|, flag), data, Created, [], None)]];
    }

    /** `start` and `PushOperation`: the flag, the table, the queue. */
    method PushOperation(e: Event)
      requires Inv(View()) && Allowed(View(), e) && (e.Start? || e.InsertOp? || e.PushOp?)
      modifies this`ops, this`table, this`sendLog
      ensures Inv(View()) && View() == Apply(old(View()), e)
    {
      hide Inv;
      ApplyKeepsInv(View(), e);
      OpFacts(View(), e.n, e.id);
      var i := ops[e.n][e.id].identifier;
      match e
      case Start(n, id) => Mark(i, Started);
      case InsertOp(n, id) =>
        table := table[n := Put(table[n], id)];
        Mark(i, Inserted);
      case PushOp(n, id) =>
        var k := |sendLog[n]|;
        sendLog := sendLog[n := sendLog[n] + [id]];
        Mark(i, Queued(k));
    }

    /** One access of the operation half of `SendProcessLoop`. */
    method RunSender(e: Event)
      requires Inv(View()) && Allowed(View(), e) && (e.PopOp? || e.SendOp? || e.CheckFlag?)
      modifies this`ops, this`sent, this`sender, this`wire
      ensures Inv(View()) && View() == Apply(old(View()), e)
    {
      hide Inv;
      ApplyKeepsInv(View(), e);
      SenderFacts(View(), e);
      match e
      case PopOp(n) =>
        var id := sendLog[n][sent[n]];
        sent := sent[n := sent[n] + 1];
        sender := sender[n := Sending(id)];
        Mark(ops[n][id].identifier, Popped);
      case SendOp(n) =>
        var id := sender[n].id;
        var op := ops[n][id];
        sender := sender[n := Sent(id)];
        wire := wire + {Message(op.identifier.responder, op.identifier, op.data)};
        Mark(op.identifier, OnWire);
      case CheckFlag(n) =>
        var id := sender[n].id;
        var op := ops[n][id];
        sender := sender[n := SendIdle];
        if op.identifier.flag != Normal {
          ops := ops[n := ops[n][id := op.(phase := Completed, completions := op.completions + [[]])]];
        }
    }

    /** `HandleReceivedMessage`, with the lookup or the new number. It never throws. */
    method HandleReceivedMessage(m: Message)
      requires Inv(View()) && m in wire && m.dest < |ops| && Shape(View()) && receiver[m.dest] == ReceiveIdle
      modifies this`ops, this`receiver, this`requests, this`wire
      ensures Inv(View()) && Allowed(old(View()), Deliver(m)) && View() == Apply(old(View()), Deliver(m))
    {
      hide Inv;
      DeliverFacts(View(), m);
      ApplyKeepsInv(View(), Deliver(m));
      var n := m.dest;
      wire := wire - {m};
      if m.identifier.flag != Normal {
        return;
      }
      if m.identifier.requester == n {
        receiver := receiver[n := Erasing(table[n][m.identifier.id], m.data)];
        Mark(m.identifier, Returned);
      } else {
        var r := |requests[n]|;
        requests := requests[n := requests[n] + [Request(m.identifier, m.data, Counted)]];
        receiver := receiver[n := Inserting(r)];
        Mark(m.identifier, Received(r));
      }
    }

    /** The rest of it: the entry for the handler, or erasing and completing the operation. */
    method RunReceiver(e: Event)
      requires Inv(View()) && Allowed(View(), e) && (e.InsertRequest? || e.EraseOp? || e.CompleteOp?)
      modifies this`ops, this`table, this`receiver, this`requests, this`pending
      ensures Inv(View()) && View() == Apply(old(View()), e)
    {
      hide Inv;
      ApplyKeepsInv(View(), e);
      match e
      case InsertRequest(n) =>
        var r := receiver[n].r;
        pending := pending[n := pending[n][r := requests[n][r].identifier]];
        receiver := receiver[n := ReceiveIdle];
        MarkRequest(n, r, Handed);
      case EraseOp(n) =>
        table := table[n := table[n] - {receiver[n].id}];
        receiver := receiver[n := Completing(receiver[n].id, receiver[n].data)];
      case CompleteOp(n) =>
        var Completing(id, data) := receiver[n];
        var op := ops[n][id];
        receiver := receiver[n := ReceiveIdle];
        ops := ops[n := ops[n][id := op.(phase := Completed, completions := op.completions + [data])]];
    }

    /** `ReplyRequest`: look up, erase, queue; and the reply half of the send loop. */
    method RunReply(e: Event)
      requires Inv(View()) && Allowed(View(), e) && (e.BeginReply? || e.EraseRequest? || e.PushReply? || e.SendReply?)
      modifies this`ops, this`requests, this`pending, this`replyLog, this`replied, this`wire
      ensures Inv(View()) && View() == Apply(old(View()), e)
    {
      ApplyKeepsInv(View(), e);
      hide Inv, StepReply;
      match e
      case BeginReply(n, r, data) => LookUpRequest(n, r, data);
      case EraseRequest(n, r) => EraseRequest(n, r);
      case PushReply(n, r) => QueueReply(n, r);
      case SendReply(n) => SendQueuedReply(n);
    }

    /** The identifier of the request is looked up under its number. */
    method LookUpRequest(n: nat, r: nat, data: Data)
      requires Allowed(View(), Event.BeginReply(n, r, data))
      modifies this`ops, this`requests
      ensures View() == StepReply(old(View()), Event.BeginReply(n, r, data))
    {
      var i := pending[n][r];
      MarkRequest(n, r, Answering(data));
      if i.requester < |ops| && i.id < |ops[i.requester]| {
        ops := ops[i.requester := ops[i.requester][i.id := ops[i.requester][i.id].(answer := Some(data))]];
      }
    }

    method EraseRequest(n: nat, r: nat)
      requires Allowed(View(), Event.EraseRequest(n, r))
      modifies this`requests, this`pending
      ensures View() == StepReply(old(View()), Event.EraseRequest(n, r))
    {
      pending := pending[n := pending[n] - {r}];
      MarkRequest(n, r, Erased(requests[n][r].stage.data));
    }

    method QueueReply(n: nat, r: nat)
      requires Allowed(View(), Event.PushReply(n, r))
      modifies this`ops, this`requests, this`replyLog
      ensures View() == StepReply(old(View()), Event.PushReply(n, r))
    {
      var q, k := requests[n][r], |replyLog[n]|;
      replyLog := replyLog[n := replyLog[n] + [Reply(q.identifier, q.stage.data)]];
      MarkRequest(n, r, Pushed);
      Mark(q.identifier, Replied(k));
    }

    /** The reply half of the send loop. */
    method SendQueuedReply(n: nat)
      requires Allowed(View(), Event.SendReply(n))
      modifies this`ops, this`replied, this`wire
      ensures View() == StepReply(old(View()), Event.SendReply(n))
    {
      var reply := replyLog[n][replied[n]];
      replied := replied[n := replied[n] + 1];
      wire := wire + {Message(reply.identifier.requester, reply.identifier, reply.data)};
      Mark(reply.identifier, OnWireBack);
    }
  }
}
