/**
 The registries of a cluster on top of its brokers: what arrives as a request is decoded and
 handled at its responder, and what the handler replies with is what `ReplyRequest` gets. The
 data of a reply is no longer free, and nothing is assumed about when a reply is given.
 */
module Replying {
  import B = Broker
  import H = RequestHandlers
  import opened Counting
  import opened Optional

  /** How requests are read and replies are written. */
  datatype Codec = Codec(decode: B.Data -> H.Request, encode: H.Body -> B.Data)

  datatype Nodes = Nodes(broker: B.State, registries: seq<H.State>)

  /** A step of the brokers, a request handed to its registry, or the end of an awaited method call. */
  datatype Action =
    | Net(e: B.Event)
    | Arrive(n: nat, r: nat, w: H.World)
    | Resume(n: nat, r: nat, result: H.Result<H.Data>)

  // ---------------------------------------------------------------- the steps

  /** The step of node `n`'s registry. */
  function RegistryEvent(c: Codec, s: Nodes, a: Action): H.Event
    requires CanDo(c, s, a) && !a.Net?
  {
    match a
    case Arrive(n, r, w) => H.Arrive(r, c.decode(s.broker.requests[n][r].data), w)
    case Resume(n, r, result) => H.Resume(r, result)
  }

  /** Only the registry replies, and a request is handed to it once, when it has been entered. */
  predicate CanDo(c: Codec, s: Nodes, a: Action) {
    match a
    case Net(e) => B.Allowed(s.broker, e) && !e.BeginReply?
    case Arrive(n, r, w) =>
      && n < |s.registries| && n < |s.broker.requests| && r < |s.broker.requests[n]|
      && !s.broker.requests[n][r].stage.Counted?
      && H.Allowed(s.registries[n], H.Arrive(r, c.decode(s.broker.requests[n][r].data), w))
    case Resume(n, r, result) => n < |s.registries| && H.Allowed(s.registries[n], H.Resume(r, result))
  }

  /** What of it concerns the brokers: a reply of the registry starts `ReplyRequest`. */
  function BrokerEvents(c: Codec, s: Nodes, a: Action): seq<B.Event>
    requires CanDo(c, s, a)
  {
    if a.Net? then [a.e]
    else
      var before, after := s.registries[a.n].replies, H.Apply(s.registries[a.n], RegistryEvent(c, s, a)).replies;
      if |after| > |before| then [B.BeginReply(a.n, a.r, c.encode(after[|before|].body))] else []
  }

  /** The brokers do their part if they can; `BrokerAgrees` shows that they always can. */
  function StepBroker(b: B.State, es: seq<B.Event>): B.State {
    if B.Possible(b, es) then B.Exec(b, es) else b
  }

  function Do(c: Codec, s: Nodes, a: Action): Nodes
    requires CanDo(c, s, a)
  {
    Nodes(StepBroker(s.broker, BrokerEvents(c, s, a)),
          if a.Net? then s.registries
          else s.registries[a.n := H.Apply(s.registries[a.n], RegistryEvent(c, s, a))])
  }

  // ---------------------------------------------------------------- what the brokers' steps leave alone

  predicate Sending(e: B.Event) {
    e.SendRequest? || e.Start? || e.InsertOp? || e.PushOp? || e.PopOp? || e.SendOp? || e.CheckFlag?
  }

  predicate Receiving(e: B.Event) {
    e.Deliver? || e.InsertRequest? || e.EraseOp? || e.CompleteOp?
  }

  /** Request `r` of node `n` is kept, and its stage moves on as `ReplyRequest` and the receiving thread let it. */
  predicate Stays(b: B.State, b': B.State, n: nat, r: nat, replied: bool) {
    && n < |b.requests| && n < |b'.requests| && r < |b.requests[n]| && r < |b'.requests[n]|
    && b'.requests[n][r].identifier == b.requests[n][r].identifier
    && b'.requests[n][r].data == b.requests[n][r].data
    && (b'.requests[n][r].stage.Counted? ==> b.requests[n][r].stage.Counted?)
    && (b.requests[n][r].stage.Counted? ==> b'.requests[n][r].stage.Counted? || b'.requests[n][r].stage.Handed?)
    && (b.requests[n][r].stage.Handed? && !replied ==> b'.requests[n][r].stage.Handed?)
  }

  lemma {:induction false} SendingStays(b: B.State, e: B.Event, n: nat, r: nat)
    requires B.Allowed(b, e) && n < B.Size(b) && r < |b.requests[n]|
    requires Sending(e)
    ensures Stays(b, B.Apply(b, e), n, r, false)
  {
  }

  lemma {:induction false} ReceivingStays(b: B.State, e: B.Event, n: nat, r: nat)
    requires B.Allowed(b, e) && n < B.Size(b) && r < |b.requests[n]|
    requires Receiving(e)
    ensures Stays(b, B.Apply(b, e), n, r, false)
  {
  }

  lemma {:induction false} ReplyingStays(b: B.State, e: B.Event, n: nat, r: nat)
    requires B.Allowed(b, e) && n < B.Size(b) && r < |b.requests[n]|
    requires !Sending(e) && !Receiving(e)
    ensures Stays(b, B.Apply(b, e), n, r, e.BeginReply? && e.n == n && e.r == r)
  {
  }

  /** Received requests stay, and one that has been handed out waits for its reply. */
  lemma {:induction false} RequestStays(b: B.State, e: B.Event, n: nat, r: nat)
    requires B.Allowed(b, e) && n < B.Size(b) && r < |b.requests[n]|
    ensures Stays(b, B.Apply(b, e), n, r, e.BeginReply? && e.n == n && e.r == r)
  {
    hide B.Allowed, B.Apply, Stays;
    if Sending(e) {
      SendingStays(b, e, n, r);
    } else if Receiving(e) {
      ReceivingStays(b, e, n, r);
    } else {
      ReplyingStays(b, e, n, r);
    }
  }

  lemma {:induction false} SendingSize(b: B.State, e: B.Event)
    requires B.Allowed(b, e) && Sending(e)
    ensures B.Shape(B.Apply(b, e)) && B.Size(B.Apply(b, e)) == B.Size(b)
  {
  }

  lemma {:induction false} ReceivingSize(b: B.State, e: B.Event)
    requires B.Allowed(b, e) && Receiving(e)
    ensures B.Shape(B.Apply(b, e)) && B.Size(B.Apply(b, e)) == B.Size(b)
  {
  }

  lemma {:induction false} SizeStays(b: B.State, e: B.Event)
    requires B.Allowed(b, e)
    ensures B.Shape(B.Apply(b, e)) && B.Size(B.Apply(b, e)) == B.Size(b)
  {
    if Sending(e) {
      SendingSize(b, e);
    } else if Receiving(e) {
      ReceivingSize(b, e);
    }
  }

  lemma {:induction false} NewRequestIsCounted(b: B.State, e: B.Event, n: nat, r: nat)
    requires B.Allowed(b, e) && n < B.Size(b) && |b.requests[n]| <= r < |B.Apply(b, e).requests[n]|
    ensures B.Apply(b, e).requests[n][r].stage.Counted?
  {
  }

  /** Operation `id` of node `n` is as it was, or new, and nobody has answered it. */
  predicate KeepsAnswer(b: B.State, b': B.State, n: nat, id: nat) {
    && n < |b.ops| && B.IsOp(b', n, id)
    && var op := b'.ops[n][id];
       if id < |b.ops[n]| then
         op.identifier == b.ops[n][id].identifier && op.data == b.ops[n][id].data && op.answer == b.ops[n][id].answer
       else op.answer == None
  }

  lemma {:induction false} SendingAnswers(b: B.State, e: B.Event, n: nat, id: nat)
    requires B.Allowed(b, e) && Sending(e) && n < B.Size(b) && B.IsOp(B.Apply(b, e), n, id)
    ensures KeepsAnswer(b, B.Apply(b, e), n, id)
  {
  }

  lemma {:induction false} ReceivingAnswers(b: B.State, e: B.Event, n: nat, id: nat)
    requires B.Allowed(b, e) && Receiving(e) && n < B.Size(b) && B.IsOp(B.Apply(b, e), n, id)
    ensures KeepsAnswer(b, B.Apply(b, e), n, id)
  {
  }

  /** Only `ReplyRequest` answers an operation. */
  lemma {:induction false} AnswerStays(b: B.State, e: B.Event, n: nat, id: nat)
    requires B.Allowed(b, e) && !e.BeginReply? && n < B.Size(b) && B.IsOp(B.Apply(b, e), n, id)
    ensures KeepsAnswer(b, B.Apply(b, e), n, id)
  {
    if Sending(e) {
      SendingAnswers(b, e, n, id);
    } else if Receiving(e) {
      ReceivingAnswers(b, e, n, id);
    }
  }

  // ---------------------------------------------------------------- the invariant

  /** The registry has given exactly one reply to a request whose handling has ended normally, and none to any other. */
  ghost predicate OneEach(h: H.State) {
    forall r: nat :: H.RepliesTo(h, r) == (if r in h.progress && h.progress[r] == H.Ended(H.Normally) then 1 else 0)
  }

  /** What the registry has not answered, the broker has not begun to reply to. */
  predicate RequestOk(s: Nodes, n: nat, r: nat) {
    && n < |s.registries| && n < |s.broker.requests| && r < |s.broker.requests[n]|
    && var h, stage := s.registries[n], s.broker.requests[n][r].stage;
    && (r in h.progress ==> !stage.Counted?)
    && (r !in h.progress || h.progress[r] != H.Ended(H.Normally) ==> stage.Counted? || stage.Handed?)
  }

  /** The reply number `k` of the registry at the operation's responder is to this operation's request, as it was sent, and is its answer. */
  predicate AnsweredBy(c: Codec, s: Nodes, op: B.Op, r: nat, k: nat) {
    && B.AtResponder(s.broker, op, r)
    && var to := op.identifier.responder;
    && s.broker.requests[to][r].data == op.data
    && to < |s.registries| && k < |s.registries[to].replies|
    && s.registries[to].replies[k].requestId == r
    && op.answer == Some(c.encode(s.registries[to].replies[k].body))
  }

  ghost predicate OpAnswered(c: Codec, s: Nodes, n: nat, id: nat) {
    && B.IsOp(s.broker, n, id)
    && (s.broker.ops[n][id].answer.Some? ==> exists r, k :: AnsweredBy(c, s, s.broker.ops[n][id], r, k))
  }

  ghost predicate Inv(c: Codec, s: Nodes) {
    && B.Inv(s.broker) && B.Shape(s.broker) && |s.registries| == B.Size(s.broker)
    && (forall n :: 0 <= n < |s.registries| ==> OneEach(s.registries[n]))
    && (forall n, r: nat :: 0 <= n < |s.registries| && r in s.registries[n].progress ==> r < |s.broker.requests[n]|)
    && (forall n, r :: 0 <= n < |s.registries| && 0 <= r < |s.broker.requests[n]| ==> RequestOk(s, n, r))
    && (forall n, id :: 0 <= n < B.Size(s.broker) && 0 <= id < |s.broker.ops[n]| ==> OpAnswered(c, s, n, id))
  }

  // ---------------------------------------------------------------- every action keeps it

  lemma {:induction false} OneEvent(b: B.State, e: B.Event)
    requires B.Inv(b) && B.Allowed(b, e)
    ensures B.Possible(b, [e]) && StepBroker(b, [e]) == B.Apply(b, e) && B.Inv(B.Apply(b, e))
  {
    hide B.Inv, B.Allowed, B.Apply;
    assert [e][1..] == [] && B.Exec(B.Apply(b, e), []) == B.Apply(b, e);
    B.ApplyKeepsInv(b, e);
  }

  lemma {:induction false} NoEvent(b: B.State)
    ensures B.Possible(b, []) && StepBroker(b, []) == b
  {
  }

  /** The event of a registry, and the number of its request. */
  lemma {:induction false} RegistryStep(c: Codec, s: Nodes, a: Action)
    requires Inv(c, s) && CanDo(c, s, a) && !a.Net?
    ensures var e := RegistryEvent(c, s, a);
      && a.n < |s.registries| && H.Allowed(s.registries[a.n], e) && e.id == a.r
      && OneEach(H.Apply(s.registries[a.n], e))
      && a.r < |s.broker.requests[a.n]| && s.broker.requests[a.n][a.r].stage.Handed?
  {
    hide B.Inv, B.Allowed, B.Apply;
    var e, h := RegistryEvent(c, s, a), s.registries[a.n];
    assert a.r < |s.broker.requests[a.n]|;
    assert RequestOk(s, a.n, a.r);
    assert OneEach(h);
    forall r: nat ensures H.RepliesTo(H.Apply(h, e), r)
      == (if r in H.Apply(h, e).progress && H.Apply(h, e).progress[r] == H.Ended(H.Normally) then 1 else 0) {
      assert H.RepliesTo(h, r) == (if r in h.progress && h.progress[r] == H.Ended(H.Normally) then 1 else 0);
      H.OneReply(h, e, r);
    }
  }

  /** The brokers' part of every action is possible: `ReplyRequest` finds its request, each time. */
  lemma {:induction false} BrokerAgrees(c: Codec, s: Nodes, a: Action)
    requires Inv(c, s) && CanDo(c, s, a)
    ensures forall e :: e in BrokerEvents(c, s, a) ==> B.Allowed(s.broker, e) && Do(c, s, a).broker == B.Apply(s.broker, e)
    ensures BrokerEvents(c, s, a) == [] ==> Do(c, s, a).broker == s.broker
    ensures B.Possible(s.broker, BrokerEvents(c, s, a)) && B.Inv(Do(c, s, a).broker)
  {
    hide B.Inv, B.Apply, B.Exec, B.Possible, B.Allowed;
    if a.Net? {
      OneEvent(s.broker, a.e);
    } else {
      RegistryStep(c, s, a);
      if BrokerEvents(c, s, a) == [] {
        NoEvent(s.broker);
      } else {
        CanReply(s.broker, a.n, a.r, BrokerEvents(c, s, a)[0].data);
        OneEvent(s.broker, BrokerEvents(c, s, a)[0]);
      }
    }
  }

  lemma {:induction false} CanReply(b: B.State, n: nat, r: nat, data: B.Data)
    requires B.Inv(b) && B.Shape(b) && n < B.Size(b) && r < |b.requests[n]| && b.requests[n][r].stage.Handed?
    ensures B.Allowed(b, B.BeginReply(n, r, data))
  {
    B.RequestFacts(b, n, r);
  }

  /** Replies and requests that are kept keep an operation answered. */
  lemma {:induction false} AnsweredStays(c: Codec, s: Nodes, s': Nodes, op: B.Op, op': B.Op, r: nat, k: nat)
    requires AnsweredBy(c, s, op, r, k)
    requires op'.identifier == op.identifier && op'.data == op.data && op'.answer == op.answer
    requires Stays(s.broker, s'.broker, op.identifier.responder, r, true)
    requires |s'.registries| == |s.registries|
    requires s.registries[op.identifier.responder].replies <= s'.registries[op.identifier.responder].replies
    ensures AnsweredBy(c, s', op', r, k)
  {
  }

  /** What an action does to a registry and its requests. */
  lemma {:induction false} ActionFrame(c: Codec, s: Nodes, a: Action)
    requires Inv(c, s) && CanDo(c, s, a)
    ensures var s' := Do(c, s, a);
      && B.Shape(s'.broker) && B.Size(s'.broker) == B.Size(s.broker) && |s'.registries| == |s.registries|
      && (forall n :: 0 <= n < |s.registries| ==>
            s.registries[n].replies <= s'.registries[n].replies && OneEach(s'.registries[n])
            && (a.Net? || n != a.n ==> s'.registries[n] == s.registries[n]))
  {
    hide B.Inv, B.Allowed, B.Apply, B.Exec, B.Possible, Stays, OneEach, RequestOk, OpAnswered;
    BrokerAgrees(c, s, a);
    var s', es := Do(c, s, a), BrokerEvents(c, s, a);
    if !a.Net? {
      RegistryStep(c, s, a);
      H.OneReply(s.registries[a.n], RegistryEvent(c, s, a), 0);
    }
    if es != [] {
      assert es[0] in es;
      SizeStays(s.broker, es[0]);
    }
  }

  /** What it does to a received request. */
  lemma {:induction false} ActionStays(c: Codec, s: Nodes, a: Action, n: nat, r: nat)
    requires Inv(c, s) && CanDo(c, s, a) && n < |s.registries| && r < |s.broker.requests[n]|
    ensures var b' := Do(c, s, a).broker;
      && Stays(s.broker, b', n, r, !a.Net? && n == a.n && r == a.r && BrokerEvents(c, s, a) != [])
      && Stays(s.broker, b', n, r, true)
  {
    hide B.Inv, B.Allowed, B.Apply, B.Exec, B.Possible, OneEach, RequestOk, OpAnswered;
    BrokerAgrees(c, s, a);
    var es := BrokerEvents(c, s, a);
    if es == [] {
      SameStays(s.broker, n, r);
    } else {
      assert es[0] in es;
      RequestStays(s.broker, es[0], n, r);
    }
  }

  lemma {:induction false} SameStays(b: B.State, n: nat, r: nat)
    requires n < |b.requests| && r < |b.requests[n]|
    ensures Stays(b, b, n, r, false)
  {
  }

  lemma {:induction false} ActionKeepsRequests(c: Codec, s: Nodes, a: Action, n: nat, r: nat)
    requires Inv(c, s) && CanDo(c, s, a) && n < |s.registries| && n < |Do(c, s, a).broker.requests|
    ensures r in Do(c, s, a).registries[n].progress ==> r < |Do(c, s, a).broker.requests[n]|
    ensures r < |Do(c, s, a).broker.requests[n]| ==> RequestOk(Do(c, s, a), n, r)
  {
    hide B.Inv, B.Allowed, B.Apply, B.Exec, B.Possible, OneEach, OpAnswered;
    BrokerAgrees(c, s, a);
    ActionFrame(c, s, a);
    var s', es := Do(c, s, a), BrokerEvents(c, s, a);
    if !a.Net? {
      RegistryStep(c, s, a);
      H.AddsOwnReply(s.registries[a.n], RegistryEvent(c, s, a));
    }
    if r < |s.broker.requests[n]| {
      assert RequestOk(s, n, r);
      ActionStays(c, s, a, n, r);
    } else if r < |s'.broker.requests[n]| {
      assert es != [] && es[0] in es;
      NewRequestIsCounted(s.broker, es[0], n, r);
    }
  }

  /** The reply goes to the operation whose request it is. */
  lemma {:induction false} ReplyAnswers(b: B.State, n: nat, r: nat, data: B.Data, from: nat, id: nat)
    requires B.Inv(b) && B.Allowed(b, B.BeginReply(n, r, data)) && B.IsOp(b, from, id)
    ensures var op, op' := b.ops[from][id], B.Apply(b, B.BeginReply(n, r, data)).ops[from][id];
      && op'.identifier == op.identifier && op'.data == op.data
      && (op'.answer != op.answer ==>
            op'.answer == Some(data) && op.identifier.responder == n && b.requests[n][r].identifier == op.identifier
            && b.requests[n][r].data == op.data)
  {
    B.RequestFacts(b, n, r);
    B.OpFacts(b, from, id);
  }

  lemma {:induction false} ReplyKeepsOps(b: B.State, n: nat, r: nat, data: B.Data, from: nat)
    requires B.Allowed(b, B.BeginReply(n, r, data)) && from < B.Size(b)
    ensures |B.Apply(b, B.BeginReply(n, r, data)).ops[from]| == |b.ops[from]|
  {
  }

  lemma {:induction false} ActionKeepsAnswers(c: Codec, s: Nodes, a: Action, from: nat, id: nat)
    requires Inv(c, s) && CanDo(c, s, a) && B.IsOp(Do(c, s, a).broker, from, id) && from < |s.registries|
    ensures OpAnswered(c, Do(c, s, a), from, id)
  {
    hide B.Inv, B.Allowed, B.Apply, B.Exec, B.Possible, OneEach, RequestOk, Stays;
    BrokerAgrees(c, s, a);
    ActionFrame(c, s, a);
    var s', es := Do(c, s, a), BrokerEvents(c, s, a);
    var op' := s'.broker.ops[from][id];
    if es != [] {
      assert es[0] in es;
      if a.Net? {
        AnswerStays(s.broker, es[0], from, id);
      } else {
        ReplyKeepsOps(s.broker, a.n, a.r, es[0].data, from);
        ReplyAnswers(s.broker, a.n, a.r, es[0].data, from, id);
      }
    }
    if op'.answer.Some? {
      var op := s.broker.ops[from][id];
      if op.answer == op'.answer {
        assert OpAnswered(c, s, from, id);
        var r, k :| AnsweredBy(c, s, op, r, k);
        ActionStays(c, s, a, op.identifier.responder, r);
        AnsweredStays(c, s, s', op, op', r, k);
      } else {
        NewAnswer(c, s, a, op');
      }
    }
  }

  /** The reply just given is the answer to its operation. */
  lemma {:induction false} NewAnswer(c: Codec, s: Nodes, a: Action, op': B.Op)
    requires Inv(c, s) && CanDo(c, s, a) && !a.Net? && BrokerEvents(c, s, a) != []
    requires op'.answer == Some(BrokerEvents(c, s, a)[0].data) && op'.identifier.responder == a.n
    requires a.n < |s.broker.requests| && a.r < |s.broker.requests[a.n]|
    requires s.broker.requests[a.n][a.r].identifier == op'.identifier && s.broker.requests[a.n][a.r].data == op'.data
    ensures exists r, k :: AnsweredBy(c, Do(c, s, a), op', r, k)
  {
    hide B.Inv, B.Allowed, B.Apply, B.Exec, B.Possible, OneEach, RequestOk, OpAnswered;
    ActionFrame(c, s, a);
    RegistryStep(c, s, a);
    H.OneReply(s.registries[a.n], RegistryEvent(c, s, a), 0);
    var s' := Do(c, s, a);
    ActionStays(c, s, a, a.n, a.r);
    assert AnsweredBy(c, s', op', a.r, |s.registries[a.n].replies|);
  }

  lemma {:induction false} ActionKeeps(c: Codec, s: Nodes, a: Action)
    requires Inv(c, s) && CanDo(c, s, a)
    ensures Inv(c, Do(c, s, a))
  {
    hide B.Inv, B.Allowed, B.Apply, B.Exec, B.Possible, OneEach, RequestOk, OpAnswered, Stays, Do;
    BrokerAgrees(c, s, a);
    ActionFrame(c, s, a);
    var s' := Do(c, s, a);
    forall n, r: nat | 0 <= n < |s'.registries| && r in s'.registries[n].progress ensures r < |s'.broker.requests[n]| {
      ActionKeepsRequests(c, s, a, n, r);
    }
    forall n, r | 0 <= n < |s'.registries| && 0 <= r < |s'.broker.requests[n]| ensures RequestOk(s', n, r) {
      ActionKeepsRequests(c, s, a, n, r);
    }
    forall n, id | 0 <= n < B.Size(s'.broker) && 0 <= id < |s'.broker.ops[n]| ensures OpAnswered(c, s', n, id) {
      ActionKeepsAnswers(c, s, a, n, id);
    }
  }

  // ---------------------------------------------------------------- runs and theorems

  predicate Start(s: Nodes) {
    B.Init(s.broker) && s.registries == seq(B.Size(s.broker), _ => H.New())
  }

  predicate CanRun(c: Codec, s: Nodes, acts: seq<Action>)
    decreases acts
  {
    acts == [] || (CanDo(c, s, acts[0]) && CanRun(c, Do(c, s, acts[0]), acts[1..]))
  }

  function Run(c: Codec, s: Nodes, acts: seq<Action>): Nodes
    requires CanRun(c, s, acts)
    decreases acts
  {
    if acts == [] then s else Run(c, Do(c, s, acts[0]), acts[1..])
  }

  lemma {:induction false} StartOk(c: Codec, s: Nodes)
    requires Start(s)
    ensures Inv(c, s)
  {
    B.ReachableInv(s.broker, []);
    assert B.Exec(s.broker, []) == s.broker;
  }

  lemma {:induction false} RunKeeps(c: Codec, s: Nodes, acts: seq<Action>)
    requires Inv(c, s) && CanRun(c, s, acts)
    ensures Inv(c, Run(c, s, acts))
    decreases acts
  {
    hide Inv, CanDo, Do;
    if acts != [] {
      ActionKeeps(c, s, acts[0]);
      RunKeeps(c, Do(c, s, acts[0]), acts[1..]);
    }
  }

  /** The brokers' part of a whole run. */
  function BrokerRun(c: Codec, s: Nodes, acts: seq<Action>): seq<B.Event>
    requires CanRun(c, s, acts)
    decreases acts
  {
    if acts == [] then [] else BrokerEvents(c, s, acts[0]) + BrokerRun(c, Do(c, s, acts[0]), acts[1..])
  }

  lemma {:induction false} RunsOn(b: B.State, es: seq<B.Event>, fs: seq<B.Event>)
    requires B.Possible(b, es) && B.Possible(B.Exec(b, es), fs)
    ensures B.Possible(b, es + fs) && B.Exec(b, es + fs) == B.Exec(B.Exec(b, es), fs)
    decreases es
  {
    hide B.Allowed, B.Apply;
    if es == [] {
      assert es + fs == fs;
    } else {
      assert (es + fs)[1..] == es[1..] + fs;
      RunsOn(B.Apply(b, es[0]), es[1..], fs);
    }
  }

  /** Every run of the cluster is, for the brokers, one of their runs: all that `Broker` proves holds under the registries. */
  lemma {:induction false} BrokersRun(c: Codec, s: Nodes, acts: seq<Action>)
    requires Inv(c, s) && CanRun(c, s, acts)
    ensures B.Possible(s.broker, BrokerRun(c, s, acts))
    ensures B.Exec(s.broker, BrokerRun(c, s, acts)) == Run(c, s, acts).broker
    decreases acts
  {
    if acts == [] {
      NoEvent(s.broker);
    } else {
      hide Inv, CanDo, B.Allowed, B.Apply, B.Possible, B.Exec;
      BrokerAgrees(c, s, acts[0]);
      ActionKeeps(c, s, acts[0]);
      BrokersRun(c, Do(c, s, acts[0]), acts[1..]);
      RunsOn(s.broker, BrokerEvents(c, s, acts[0]), BrokerRun(c, Do(c, s, acts[0]), acts[1..]));
    }
  }

  /** The part of node `n`'s registry in a run. */
  function RegistryRun(c: Codec, s: Nodes, acts: seq<Action>, n: nat): seq<H.Event>
    requires CanRun(c, s, acts)
    decreases acts
  {
    if acts == [] then []
    else
      (if !acts[0].Net? && acts[0].n == n then [RegistryEvent(c, s, acts[0])] else [])
      + RegistryRun(c, Do(c, s, acts[0]), acts[1..], n)
  }

  /** It is one of the registry's runs. */
  lemma {:induction false} RegistriesRun(c: Codec, s: Nodes, acts: seq<Action>, n: nat)
    requires Inv(c, s) && CanRun(c, s, acts) && n < |s.registries|
    ensures n < |Run(c, s, acts).registries|
    ensures H.Possible(s.registries[n], RegistryRun(c, s, acts, n))
    ensures H.Exec(s.registries[n], RegistryRun(c, s, acts, n)) == Run(c, s, acts).registries[n]
    decreases acts
  {
    if acts != [] {
      var a := acts[0];
      ActionKeeps(c, s, a);
      ActionFrame(c, s, a);
      if !a.Net? {
        RegistryStep(c, s, a);
      }
      RegistriesRun(c, Do(c, s, a), acts[1..], n);
      var rest := RegistryRun(c, Do(c, s, a), acts[1..], n);
      if !a.Net? && a.n == n {
        assert ([RegistryEvent(c, s, a)] + rest)[1..] == rest;
      } else {
        assert [] + rest == rest;
      }
    }
  }

  /** Received requests stay as they are through a run. */
  lemma {:induction false} RequestsAlong(c: Codec, s: Nodes, acts: seq<Action>, n: nat, r: nat)
    requires Inv(c, s) && CanRun(c, s, acts) && n < |s.registries| && r < |s.broker.requests[n]|
    ensures var z := Run(c, s, acts);
      n < |z.broker.requests| && r < |z.broker.requests[n]| && z.broker.requests[n][r].data == s.broker.requests[n][r].data
    decreases acts
  {
    if acts != [] {
      ActionKeeps(c, s, acts[0]);
      ActionFrame(c, s, acts[0]);
      ActionStays(c, s, acts[0], n, r);
      hide CanDo, Do, B.Inv, OneEach, RequestOk, OpAnswered;
      RequestsAlong(c, Do(c, s, acts[0]), acts[1..], n, r);
    }
  }

  /** What reaches a registry is what its broker received, decoded. */
  lemma {:induction false} ArrivalsAreDecoded(c: Codec, s: Nodes, acts: seq<Action>, n: nat, e: H.Event)
    requires Inv(c, s) && CanRun(c, s, acts) && n < |s.registries| && e in RegistryRun(c, s, acts, n) && e.Arrive?
    ensures var z := Run(c, s, acts);
      n < |z.broker.requests| && e.id < |z.broker.requests[n]| && e.request == c.decode(z.broker.requests[n][e.id].data)
    decreases acts
  {
    var a := acts[0];
    ActionKeeps(c, s, a);
    ActionFrame(c, s, a);
    if !a.Net? && a.n == n && e == RegistryEvent(c, s, a) {
      RequestsAlong(c, s, acts, n, a.r);
    } else {
      hide CanDo, Do, B.Inv, OneEach, RequestOk, OpAnswered;
      ArrivalsAreDecoded(c, Do(c, s, a), acts[1..], n, e);
    }
  }

  /**
   End to end: a normal operation that is completed, once, got the one reply that the registry
   of its responder gave to its request, which arrived there with the data that was sent; and
   that reply is the outcome which the events of that registry say.
   */
  lemma {:induction false} CompletedByItsHandler(c: Codec, s: Nodes, acts: seq<Action>, n: nat, id: nat) returns (r: nat, k: nat)
    requires Start(s) && CanRun(c, s, acts) && B.IsOp(Run(c, s, acts).broker, n, id)
    requires Run(c, s, acts).broker.ops[n][id].identifier.flag == B.Normal
    requires Run(c, s, acts).broker.ops[n][id].completions != []
    ensures var z := Run(c, s, acts); var op := z.broker.ops[n][id]; var to := op.identifier.responder;
      && to < |z.registries| && B.AtResponder(z.broker, op, r) && z.broker.requests[to][r].data == op.data
      && k < |z.registries[to].replies| && z.registries[to].replies[k].requestId == r
      && op.completions == [c.encode(z.registries[to].replies[k].body)]
      && H.RepliesTo(z.registries[to], r) == 1
      && H.Outcome(RegistryRun(c, s, acts, to), r) == H.Answered(z.registries[to].replies[k].body)
  {
    StartOk(c, s);
    RunKeeps(c, s, acts);
    var z := Run(c, s, acts);
    r, k := AnswerOf(c, z, n, id);
    var to := z.broker.ops[n][id].identifier.responder;
    hide Inv, B.AtResponder;
    HasReply(z.registries[to], r, k);
    RegistrySizes(c, s, acts);
    RegistriesRun(c, s, acts, to);
    H.ExactlyOneReply(RegistryRun(c, s, acts, to), r);
    assert z.registries[to].replies[k] == H.Reply(r, z.registries[to].replies[k].body);
  }

  lemma {:induction false} AnswerOf(c: Codec, z: Nodes, n: nat, id: nat) returns (r: nat, k: nat)
    requires Inv(c, z) && B.IsOp(z.broker, n, id)
    requires z.broker.ops[n][id].identifier.flag == B.Normal && z.broker.ops[n][id].completions != []
    ensures var op := z.broker.ops[n][id];
      && AnsweredBy(c, z, op, r, k) && OneEach(z.registries[op.identifier.responder])
      && op.completions == [op.answer.value]
  {
    var op := z.broker.ops[n][id];
    B.OpFacts(z.broker, n, id);
    assert OpAnswered(c, z, n, id);
    r, k :| AnsweredBy(c, z, op, r, k);
  }

  lemma {:induction false} RegistrySizes(c: Codec, s: Nodes, acts: seq<Action>)
    requires Inv(c, s) && CanRun(c, s, acts)
    ensures |Run(c, s, acts).registries| == |s.registries|
    decreases acts
  {
    if acts != [] {
      ActionKeeps(c, s, acts[0]);
      ActionFrame(c, s, acts[0]);
      hide Inv, CanDo, Do;
      RegistrySizes(c, Do(c, s, acts[0]), acts[1..]);
    }
  }

  /**
   A remote call: if the method that was called for request `r` has come back with `data`, then
   the operation whose request it is completes with the encoding of exactly that; and if it
   threw a `std::exception`, with the encoding of its message.
   */
  lemma {:induction false} CallGetsItsResult(c: Codec, s: Nodes, acts: seq<Action>, n: nat, id: nat, i: nat) returns (r: nat, k: nat)
    requires Start(s) && CanRun(c, s, acts) && B.IsOp(Run(c, s, acts).broker, n, id)
    requires Run(c, s, acts).broker.ops[n][id].identifier.flag == B.Normal
    requires Run(c, s, acts).broker.ops[n][id].completions != []
    ensures var z := Run(c, s, acts); var op := z.broker.ops[n][id]; var to := op.identifier.responder;
      var es := RegistryRun(c, s, acts, to);
      && B.AtResponder(z.broker, op, r) && z.broker.requests[to][r].data == op.data
      && (i < |es| && es[i].Resume? && es[i].id == r && es[i].result.Returned? ==>
            op.completions == [c.encode(H.MethodReturn(es[i].result.value))])
      && (i < |es| && es[i].Resume? && es[i].id == r && es[i].result.ThrewStd? ==>
            op.completions == [c.encode(H.MethodError(es[i].result.what))])
  {
    r, k := CompletedByItsHandler(c, s, acts, n, id);
    var to := Run(c, s, acts).broker.ops[n][id].identifier.responder;
    var es := RegistryRun(c, s, acts, to);
    StartOk(c, s);
    RegistrySizes(c, s, acts);
    RegistriesRun(c, s, acts, to);
    hide Inv, B.AtResponder, B.Init;
    if i < |es| && es[i].Resume? && es[i].id == r {
      H.ReturnDecides(H.New(), es, i, H.Directory(map[], map[]), H.NotSeen);
    }
  }

  lemma {:induction false} HasReply(h: H.State, r: nat, k: nat)
    requires OneEach(h) && k < |h.replies| && h.replies[k].requestId == r
    ensures H.RepliesTo(h, r) == 1
  {
    SumAtLeast(h.replies, k, H.IsFor(r));
    assert H.RepliesTo(h, r) == (if r in h.progress && h.progress[r] == H.Ended(H.Normally) then 1 else 0);
  }
}
