/**
 What callers of a broker get: the operations of a node are the requests it was asked to send,
 and what reaches the other side, and comes back, is theirs.
 */
module BrokerCalls {
  import opened Broker
  import opened Optional

  /** A request as its caller passed it to `SendRequest`. */
  datatype Order = Order(dest: nat, data: Data, flag: Flag)

  /** The requests of a run that node `n` accepted, in order, as the events gave them. */
  function Orders(es: seq<Event>, n: nat): seq<Order>
    decreases es
  {
    if es == [] then []
    else
      (if es[0].SendRequest? && es[0].n == n && es[0].dest != n then [Order(es[0].dest, es[0].data, es[0].flag)] else [])
      + Orders(es[1..], n)
  }

  function OrderOf(op: Op): Order {
    Order(op.identifier.responder, op.data, op.identifier.flag)
  }

  function OrdersOf(ops: seq<Op>): seq<Order> {
    seq(|ops|, i requires 0 <= i < |ops| => OrderOf(ops[i]))
  }

  /** The operations of node `n` ask for what they asked for. */
  predicate Keeps(s: State, s': State, n: nat) {
    && n < |s.ops| && n < |s'.ops| && |s'.ops[n]| == |s.ops[n]|
    && (forall id :: 0 <= id < |s.ops[n]| ==> OrderOf(s'.ops[n][id]) == OrderOf(s.ops[n][id]))
  }

  lemma {:induction false} StartKeepsOrders(s: State, e: Event, n: nat)
    requires Allowed(s, e) && (e.Start? || e.InsertOp? || e.PushOp?) && n < Size(s)
    ensures Keeps(s, Apply(s, e), n) && Size(Apply(s, e)) == Size(s)
  {
  }

  lemma {:induction false} SenderKeepsOrders(s: State, e: Event, n: nat)
    requires Allowed(s, e) && (e.PopOp? || e.SendOp? || e.CheckFlag?) && n < Size(s)
    ensures Keeps(s, Apply(s, e), n) && Size(Apply(s, e)) == Size(s)
  {
  }

  lemma {:induction false} ReceiverKeepsOrders(s: State, e: Event, n: nat)
    requires Allowed(s, e) && (e.Deliver? || e.InsertRequest? || e.EraseOp? || e.CompleteOp?) && n < Size(s)
    ensures Keeps(s, Apply(s, e), n) && Size(Apply(s, e)) == Size(s)
  {
  }

  lemma {:induction false} ReplyKeepsOrders(s: State, e: Event, n: nat)
    requires Allowed(s, e) && (e.BeginReply? || e.EraseRequest? || e.PushReply? || e.SendReply?) && n < Size(s)
    ensures Keeps(s, Apply(s, e), n) && Size(Apply(s, e)) == Size(s)
  {
  }

  /** Only `SendRequest` makes an operation, and it makes the one it was called for. */
  lemma {:induction false} EventOrders(s: State, e: Event, n: nat)
    requires Allowed(s, e) && n < Size(s)
    ensures Size(Apply(s, e)) == Size(s)
    ensures OrdersOf(Apply(s, e).ops[n]) == OrdersOf(s.ops[n]) + Orders([e], n)
  {
    if e.SendRequest? {
      assert Orders([e], n) == if e.n == n && e.dest != n then [Order(e.dest, e.data, e.flag)] else [];
    } else {
      hide Apply, Allowed;
      match e
      case Start(_, _) => StartKeepsOrders(s, e, n);
      case InsertOp(_, _) => StartKeepsOrders(s, e, n);
      case PushOp(_, _) => StartKeepsOrders(s, e, n);
      case PopOp(_) => SenderKeepsOrders(s, e, n);
      case SendOp(_) => SenderKeepsOrders(s, e, n);
      case CheckFlag(_) => SenderKeepsOrders(s, e, n);
      case Deliver(_) => ReceiverKeepsOrders(s, e, n);
      case InsertRequest(_) => ReceiverKeepsOrders(s, e, n);
      case EraseOp(_) => ReceiverKeepsOrders(s, e, n);
      case CompleteOp(_) => ReceiverKeepsOrders(s, e, n);
      case _ => ReplyKeepsOrders(s, e, n);
    }
  }

  lemma {:induction false} OrdersAlong(s: State, es: seq<Event>, n: nat)
    requires Possible(s, es) && n < Size(s)
    ensures n < Size(Exec(s, es)) && OrdersOf(Exec(s, es).ops[n]) == OrdersOf(s.ops[n]) + Orders(es, n)
    decreases es
  {
    hide Allowed, Apply, OrdersOf;
    if es != [] {
      EventOrders(s, es[0], n);
      OrdersAlong(Apply(s, es[0]), es[1..], n);
      assert Orders(es, n) == Orders([es[0]], n) + Orders(es[1..], n);
    }
  }

  /**
   The operations of a node are, in order, exactly the requests it was called to send and did
   not refuse: to the node, with the data and the flag that the caller gave.
   */
  lemma {:induction false} OperationsAreOrders(s: State, es: seq<Event>, n: nat)
    requires Init(s) && Possible(s, es) && n < Size(s)
    ensures n < Size(Exec(s, es)) && OrdersOf(Exec(s, es).ops[n]) == Orders(es, n)
  {
    OrdersAlong(s, es, n);
    assert OrdersOf(s.ops[n]) == [];
  }

  /** What arrives as a request is what some caller ordered, of this node, with its data. */
  lemma {:induction false} RequestsWereOrdered(s: State, es: seq<Event>, n: nat, r: nat)
    requires Init(s) && Possible(s, es) && n < Size(Exec(s, es)) && |Exec(s, es).requests| == Size(Exec(s, es))
    requires r < |Exec(s, es).requests[n]| && Exec(s, es).requests[n][r].stage != Pushed
    ensures var q := Exec(s, es).requests[n][r]; var i := q.identifier; var orders := Orders(es, i.requester);
      && i.id < |orders| && orders[i.id] == Order(n, q.data, Normal) && i.requester != n
  {
    RequestsArriveIntact(s, es, n, r);
    var i := Exec(s, es).requests[n][r].identifier;
    SizeAlong(s, es);
    OperationsAreOrders(s, es, i.requester);
    assert OrdersOf(Exec(s, es).ops[i.requester])[i.id] == OrderOf(Exec(s, es).ops[i.requester][i.id]);
  }

  lemma {:induction false} SizeAlong(s: State, es: seq<Event>)
    requires Possible(s, es)
    ensures Size(Exec(s, es)) == Size(s)
    decreases es
  {
    hide Allowed, Apply;
    if es != [] {
      EventSize(s, es[0]);
      SizeAlong(Apply(s, es[0]), es[1..]);
    }
  }

  lemma {:induction false} EventSize(s: State, e: Event)
    requires Allowed(s, e)
    ensures Size(Apply(s, e)) == Size(s)
  {
    EventOrders(s, e, 0);
  }
}
