/**
 The replying side of a broker: `HandleNetworkRequest` and the three handlers behind it.

 A request is what its buffer decodes to. Handlers registered by name, and the actor methods
 they call, are outside: they return, throw a `std::exception`, or throw something else. A
 method call is awaited: it ends at any later time, and other requests are handled meanwhile.
 `Replying` runs the registries of a cluster over `Broker`.
 */
module RequestHandlers {
  import opened Counting
  import opened Optional

  type Name = string
  type Data = seq<int>

  /** A buffer is malformed when a field that is read outside of any `try` cannot be read. */
  datatype Request =
    | Creation(key: Name)
    | MethodCall(key: Name, actorId: nat)
    | LookUp(name: Name)
    | UnknownType(tag: nat)
    | Malformed

  /** What a registered handler, or the method it calls, comes back with. */
  datatype Result<T> = Returned(value: T) | ThrewStd(what: string) | ThrewOther

  /** A new actor may have a name. */
  datatype NewActor = NewActor(actor: nat, name: Option<Name>)

  datatype Body =
    | CreationReturn(actorId: nat)
    | CreationError(what: string)
    | MethodReturn(data: Data)
    | MethodError(what: string)
    | LookUpReturn(actorId: nat)
    | LookUpError

  datatype Reply = Reply(requestId: nat, body: Body)

  /** How `HandleNetworkRequest` ends: it returns, or an exception leaves it. */
  datatype Ending = Normally | Throwing

  /** How far the handling of a request is: it awaits the call of a method of an actor, or it has ended. */
  datatype Progress = Awaiting(actor: nat, key: Name) | Ended(how: Ending)

  /** The registry's maps, the replies given so far, and how far the requests seen so far are. */
  datatype State = State(
    actors: map<nat, nat>,
    names: map<Name, nat>,
    replies: seq<Reply>,
    progress: map<nat, Progress>)

  /**
   The outside world when a request arrives: the creation handlers registered under a key and
   what they do, the keys of the method handlers, and the random number drawn for a new actor.
   */
  datatype World = World(creators: map<Name, Result<NewActor>>, methods: set<Name>, freshId: nat)

  /** A request with its number arrives, or the method call that a request awaits comes back. */
  datatype Event =
    | Arrive(id: nat, request: Request, w: World)
    | Resume(id: nat, result: Result<Data>)

  function IsFor(requestId: nat): Reply -> int {
    (r: Reply) => if r.requestId == requestId then 1 else 0
  }

  /** The number of replies given to one request. */
  function RepliesTo(s: State, requestId: nat): int {
    Sum(s.replies, IsFor(requestId))
  }

  // ---------------------------------------------------------------- what the handlers do

  function Answer(s: State, requestId: nat, body: Body): State {
    s.(replies := s.replies + [Reply(requestId, body)])
  }

  function Create(s: State, requestId: nat, key: Name, w: World): (State, Progress) {
    if key !in w.creators then (Answer(s, requestId, CreationError("no such handler")), Ended(Normally))
    else
      match w.creators[key]
      case ThrewStd(what) => (Answer(s, requestId, CreationError(what)), Ended(Normally))
      case ThrewOther => (s, Ended(Throwing))
      case Returned(made) =>
        if made.name.Some? && made.name.value in s.names then
          (Answer(s, requestId, CreationError("name taken")), Ended(Normally))
        else
          var names := if made.name.Some? then s.names[made.name.value := w.freshId] else s.names;
          (Answer(s.(names := names, actors := s.actors[w.freshId := made.actor]), requestId, CreationReturn(w.freshId)),
           Ended(Normally))
  }

  /** The handler's call is in the same `try` as the wait for its task; what either throws comes with the result. */
  function Call(s: State, requestId: nat, key: Name, actorId: nat, w: World): (State, Progress) {
    if actorId !in s.actors then (Answer(s, requestId, MethodError("no such actor")), Ended(Normally))
    else if key !in w.methods then (Answer(s, requestId, MethodError("no such handler")), Ended(Normally))
    else (s, Awaiting(s.actors[actorId], key))
  }

  /** The awaited method call has come back. */
  function CallEnds(s: State, requestId: nat, result: Result<Data>): (State, Progress) {
    match result
    case Returned(data) => (Answer(s, requestId, MethodReturn(data)), Ended(Normally))
    case ThrewStd(what) => (Answer(s, requestId, MethodError(what)), Ended(Normally))
    case ThrewOther => (s, Ended(Throwing))
  }

  /** `HandleNetworkRequest` up to its end, or up to the wait. */
  function Handle(s: State, requestId: nat, request: Request, w: World): (State, Progress) {
    match request
    case Creation(key) => Create(s, requestId, key, w)
    case MethodCall(key, actorId) => Call(s, requestId, key, actorId, w)
    case LookUp(name) =>
      (Answer(s, requestId, if name in s.names then LookUpReturn(s.names[name]) else LookUpError), Ended(Normally))
    case UnknownType(_) => (s, Ended(Throwing))
    case Malformed => (s, Ended(Throwing))
  }

  /** Every request has its own number, and the id drawn for a new actor is drawn until it is not in use. */
  predicate Allowed(s: State, e: Event) {
    match e
    case Arrive(id, _, w) => id !in s.progress && Fresh(s, w)
    case Resume(id, _) => id in s.progress && s.progress[id].Awaiting?
  }

  function Apply(s: State, e: Event): State {
    var (s', p) := match e
      case Arrive(id, request, w) => Handle(s, id, request, w)
      case Resume(id, result) => CallEnds(s, id, result);
    s'.(progress := s.progress[e.id := p])
  }

  /** Something that is not a `std::exception` leaves the handler of a creation. */
  predicate OddThrow(request: Request, w: World) {
    request.Creation? && request.key in w.creators && w.creators[request.key].ThrewOther?
  }

  predicate WellFormed(request: Request) {
    !request.UnknownType? && !request.Malformed?
  }

  // ---------------------------------------------------------------- the invariant of the registry

  /** Every name leads to an actor. */
  predicate NamesResolve(s: State) {
    forall name :: name in s.names ==> s.names[name] in s.actors
  }

  /** The id drawn for a new actor is not in use: the draw is repeated until it is not. */
  predicate Fresh(s: State, w: World) {
    w.freshId !in s.actors
  }

  // ---------------------------------------------------------------- the theorems

  lemma {:induction false} CountAppend(s: State, requestId: nat, id: nat, body: Body)
    ensures RepliesTo(Answer(s, id, body), requestId) == RepliesTo(s, requestId) + (if id == requestId then 1 else 0)
  {
    SumConcat(s.replies, [Reply(id, body)], IsFor(requestId));
  }

  lemma {:induction false} AddsOwnReply(s: State, e: Event)
    ensures var s' := Apply(s, e);
      && s'.progress == s.progress[e.id := s'.progress[e.id]]
      && (s'.progress[e.id] == Ended(Normally) ==>
            |s'.replies| == |s.replies| + 1 && s'.replies == s.replies + [Reply(e.id, s'.replies[|s.replies|].body)])
      && (s'.progress[e.id] != Ended(Normally) ==> s'.replies == s.replies)
  {
  }

  /** What an event answers: exactly one reply, to the request it is about, if and only if its handling ends normally. */
  lemma {:induction false} OneReply(s: State, e: Event, other: nat)
    ensures var s' := Apply(s, e);
      && e.id in s'.progress
      && s.replies <= s'.replies
      && |s'.replies| == |s.replies| + (if s'.progress[e.id] == Ended(Normally) then 1 else 0)
      && (s'.progress[e.id] == Ended(Normally) ==> s'.replies[|s.replies|].requestId == e.id)
      && RepliesTo(s', other) == RepliesTo(s, other) + (if other == e.id && s'.progress[e.id] == Ended(Normally) then 1 else 0)
  {
    AddsOwnReply(s, e);
    hide Apply;
    var s' := Apply(s, e);
    if s'.progress[e.id] == Ended(Normally) {
      var body := s'.replies[|s.replies|].body;
      CountAppend(s, other, e.id, body);
      assert RepliesTo(s', other) == RepliesTo(Answer(s, e.id, body), other);
    }
  }

  /** A creation either registers its actor, with its name, and says so, or changes nothing and reports an error. */
  lemma {:induction false} CreationIsAllOrNothing(s: State, requestId: nat, key: Name, w: World)
    requires NamesResolve(s) && Fresh(s, w)
    ensures var s' := Handle(s, requestId, Creation(key), w).0;
      && NamesResolve(s')
      && (s'.actors != s.actors <==> s'.replies == s.replies + [Reply(requestId, CreationReturn(w.freshId))])
      && (s'.actors == s.actors ==> s'.names == s.names)
      && (s'.actors != s.actors ==>
            && s'.actors.Keys == s.actors.Keys + {w.freshId}
            && (forall id :: id in s.actors ==> s'.actors[id] == s.actors[id])
            && (forall name :: name in s.names ==> name in s'.names && s'.names[name] == s.names[name]))
  {
    var s' := Handle(s, requestId, Creation(key), w).0;
    if s'.actors != s.actors {
      assert w.freshId in s'.actors;
    } else {
      var success := s.replies + [Reply(requestId, CreationReturn(w.freshId))];
      assert success[|s.replies|].body.CreationReturn?;
      assert w.freshId !in s'.actors;
      assert |s'.replies| > |s.replies| ==> s'.replies[|s.replies|].body.CreationError?;
    }
  }

  /** A look-up after a successful creation finds the new actor, and finds the old ones as before. */
  lemma {:induction false} CreatedActorIsFound(s: State, requestId: nat, key: Name, w: World, later: nat, name: Name, w': World)
    requires Fresh(s, w) && key in w.creators && w.creators[key].Returned?
    requires w.creators[key].value.name == Some(name) && name !in s.names
    ensures var s' := Handle(s, requestId, Creation(key), w).0;
      && Handle(s', later, LookUp(name), w').0.replies == s'.replies + [Reply(later, LookUpReturn(w.freshId))]
      && w.freshId in s'.actors
  {
    var s' := Handle(s, requestId, Creation(key), w).0;
    assert s'.names[name] == w.freshId;
  }

  // ---------------------------------------------------------------- runs

  predicate Possible(s: State, es: seq<Event>)
    decreases es
  {
    es == [] || (Allowed(s, es[0]) && Possible(Apply(s, es[0]), es[1..]))
  }

  function Exec(s: State, es: seq<Event>): State
    decreases es
  {
    if es == [] then s else Exec(Apply(s, es[0]), es[1..])
  }

  /** The actors and names of the successful creations so far, read off the events. */
  datatype Directory = Directory(actors: map<nat, nat>, names: map<Name, nat>)

  function NextDirectory(dir: Directory, e: Event): Directory {
    if Registers(dir, e) then
      var made := e.w.creators[e.request.key].value;
      Directory(dir.actors[e.w.freshId := made.actor], if made.name.Some? then dir.names[made.name.value := e.w.freshId] else dir.names)
    else dir
  }

  /** A creation handler returns a new actor whose name, if it has one, is not taken. */
  predicate Registers(dir: Directory, e: Event) {
    && e.Arrive? && e.request.Creation? && e.request.key in e.w.creators
    && e.w.creators[e.request.key].Returned?
    && (e.w.creators[e.request.key].value.name.Some? ==> e.w.creators[e.request.key].value.name.value !in dir.names)
  }

  /** What has become of one request, and with which reply, read off the events. */
  datatype Fate = NotSeen | Waiting(actor: nat, key: Name) | Answered(body: Body) | Failed

  /** What a request gets at its arrival: the result that the events say, the error they say, a wait, or nothing. */
  function FateAtArrival(dir: Directory, request: Request, w: World): Fate {
    match request
    case Malformed => Failed
    case UnknownType(_) => Failed
    case LookUp(name) => Answered(if name in dir.names then LookUpReturn(dir.names[name]) else LookUpError)
    case MethodCall(key, actorId) =>
      if actorId !in dir.actors then Answered(MethodError("no such actor"))
      else if key !in w.methods then Answered(MethodError("no such handler"))
      else Waiting(dir.actors[actorId], key)
    case Creation(key) =>
      if key !in w.creators then Answered(CreationError("no such handler"))
      else
        match w.creators[key] {
          case ThrewStd(what) => Answered(CreationError(what))
          case ThrewOther => Failed
          case Returned(made) =>
            if made.name.Some? && made.name.value in dir.names then Answered(CreationError("name taken"))
            else Answered(CreationReturn(w.freshId))
        }
  }

  /** What it gets when its method comes back: what the method returned, or the error it threw. */
  function FateAtReturn(result: Result<Data>): Fate {
    match result
    case Returned(data) => Answered(MethodReturn(data))
    case ThrewStd(what) => Answered(MethodError(what))
    case ThrewOther => Failed
  }

  function NextFate(dir: Directory, e: Event, id: nat, fate: Fate): Fate {
    if e.id != id then fate
    else
      match e
      case Arrive(_, request, w) => FateAtArrival(dir, request, w)
      case Resume(_, result) => FateAtReturn(result)
  }

  function FateOf(es: seq<Event>, id: nat, dir: Directory, fate: Fate): Fate
    decreases es
  {
    if es == [] then fate else FateOf(es[1..], id, NextDirectory(dir, es[0]), NextFate(dir, es[0], id, fate))
  }

  /** The registry knows the actors and names of the directory. */
  predicate Knows(s: State, dir: Directory) {
    s.actors == dir.actors && s.names == dir.names
  }

  /** The registry agrees with the fate of request `id`: it has given this reply and no other, or none. */
  predicate Agrees(s: State, id: nat, fate: Fate) {
    && RepliesTo(s, id) == (if fate.Answered? then 1 else 0)
    && (fate.Answered? ==> Reply(id, fate.body) in s.replies)
    && (if id !in s.progress then fate == NotSeen
        else match s.progress[id] {
          case Awaiting(actor, key) => fate == Waiting(actor, key)
          case Ended(how) => if how == Normally then fate.Answered? else fate == Failed
        })
  }

  lemma {:induction false} EventKnows(s: State, e: Event, dir: Directory)
    requires Knows(s, dir)
    ensures Knows(Apply(s, e), NextDirectory(dir, e))
  {
  }

  /** The reply of an event is the one its fate says. */
  lemma {:induction false} ReplyIsFated(s: State, e: Event, dir: Directory)
    requires Knows(s, dir)
    ensures var s' := Apply(s, e); var fate := NextFate(dir, e, e.id, NotSeen);
      && e.id in s'.progress
      && (fate.Waiting? <==> s'.progress[e.id].Awaiting?)
      && (fate.Waiting? ==> s'.progress[e.id] == Awaiting(fate.actor, fate.key))
      && (s'.progress[e.id] == Ended(Throwing) <==> fate == Failed)
      && (s'.progress[e.id] == Ended(Normally) <==> fate.Answered?)
      && (fate.Answered? ==> s'.replies == s.replies + [Reply(e.id, fate.body)])
  {
  }

  lemma {:induction false} EventAgrees(s: State, e: Event, id: nat, dir: Directory, fate: Fate)
    requires Allowed(s, e) && Knows(s, dir) && Agrees(s, id, fate)
    ensures Agrees(Apply(s, e), id, NextFate(dir, e, id, fate))
  {
    OneReply(s, e, id);
    AddsOwnReply(s, e);
    ReplyIsFated(s, e, dir);
    hide Apply, FateAtArrival, FateAtReturn, RepliesTo, Knows;
    var s', next := Apply(s, e), NextFate(dir, e, id, fate);
    if next.Answered? {
      if e.id == id {
        assert s'.replies[|s.replies|] == Reply(id, next.body);
      } else {
        assert Reply(id, next.body) in s.replies;
      }
    }
  }

  lemma {:induction false} RunAgrees(s: State, es: seq<Event>, id: nat, dir: Directory, fate: Fate)
    requires Possible(s, es) && Knows(s, dir) && Agrees(s, id, fate)
    ensures Agrees(Exec(s, es), id, FateOf(es, id, dir, fate))
    decreases es
  {
    hide Allowed, Apply, Knows, Agrees, NextFate, NextDirectory;
    if es != [] {
      EventAgrees(s, es[0], id, dir, fate);
      EventKnows(s, es[0], dir);
      RunAgrees(Apply(s, es[0]), es[1..], id, NextDirectory(dir, es[0]), NextFate(dir, es[0], id, fate));
    }
  }

  function New(): State {
    State(map[], map[], [], map[])
  }

  /** The fate of request `id` in a run from the start. */
  function Outcome(es: seq<Event>, id: nat): Fate {
    FateOf(es, id, Directory(map[], map[]), NotSeen)
  }

  /**
   Over every run, however requests and the ends of their method calls are interleaved, a
   request has exactly one reply, the one the events say, if it was well formed and nothing but
   a `std::exception` left its handler or its method call, which has come back; otherwise none.
   */
  lemma {:induction false} ExactlyOneReply(es: seq<Event>, id: nat)
    requires Possible(New(), es)
    ensures var s, fate := Exec(New(), es), Outcome(es, id);
      && RepliesTo(s, id) == (if fate.Answered? then 1 else 0)
      && (fate.Answered? ==> Reply(id, fate.body) in s.replies)
      && (forall body :: Reply(id, body) in s.replies ==> fate == Answered(body))
  {
    RunAgrees(New(), es, id, Directory(map[], map[]), NotSeen);
    var s, fate := Exec(New(), es), Outcome(es, id);
    forall body | Reply(id, body) in s.replies ensures fate == Answered(body) {
      OnlyReply(s, id, body, fate);
    }
  }

  lemma {:induction false} OnlyReply(s: State, id: nat, body: Body, fate: Fate)
    requires Agrees(s, id, fate) && Reply(id, body) in s.replies
    ensures fate == Answered(body)
  {
    var i :| 0 <= i < |s.replies| && s.replies[i] == Reply(id, body);
    SumAtLeast(s.replies, i, IsFor(id));
    var j :| 0 <= j < |s.replies| && s.replies[j] == Reply(id, fate.body);
    if i != j {
      SumAtLeastTwo(s.replies, if i < j then i else j, if i < j then j else i, IsFor(id));
    }
  }

  // ---------------------------------------------------------------- a remote call's result

  /** A request that has ended keeps its fate. */
  lemma {:induction false} FateStays(s: State, es: seq<Event>, id: nat, dir: Directory, fate: Fate)
    requires Possible(s, es) && id in s.progress && s.progress[id].Ended?
    ensures FateOf(es, id, dir, fate) == fate
    decreases es
  {
    if es != [] {
      AddsOwnReply(s, es[0]);
      FateStays(Apply(s, es[0]), es[1..], id, NextDirectory(dir, es[0]), fate);
    }
  }

  /** What is awaited is the call of the registered method of the actor that was created under that id. */
  lemma {:induction false} AwaitsItsActor(es: seq<Event>, id: nat)
    requires Possible(New(), es) && id in Exec(New(), es).progress && Exec(New(), es).progress[id].Awaiting?
    ensures var p := Exec(New(), es).progress[id]; Outcome(es, id) == Waiting(p.actor, p.key)
  {
    RunAgrees(New(), es, id, Directory(map[], map[]), NotSeen);
  }

  /** A method that comes back decides on the reply to its request, once and for all. */
  lemma {:induction false} ReturnDecides(s: State, es: seq<Event>, i: nat, dir: Directory, fate: Fate)
    requires Possible(s, es) && i < |es| && es[i].Resume?
    ensures FateOf(es, es[i].id, dir, fate) == FateAtReturn(es[i].result)
    decreases es
  {
    var id, s1 := es[i].id, Apply(s, es[0]);
    if i == 0 {
      AddsOwnReply(s, es[0]);
      ResumeEnds(s, es[0]);
      FateStays(s1, es[1..], id, NextDirectory(dir, es[0]), FateAtReturn(es[0].result));
    } else {
      ReturnDecides(s1, es[1..], i - 1, NextDirectory(dir, es[0]), NextFate(dir, es[0], id, fate));
    }
  }

  lemma {:induction false} ResumeEnds(s: State, e: Event)
    requires e.Resume?
    ensures e.id in Apply(s, e).progress && Apply(s, e).progress[e.id].Ended?
  {
  }

  // ---------------------------------------------------------------- the processor

  class Processor {
    var actors: map<nat, nat>
    var names: map<Name, nat>
    var replies: seq<Reply>
    ghost var progress: map<nat, Progress>

    ghost function View(): State
      reads this
    {
      State(actors, names, replies, progress)
    }

    constructor ()
      ensures View() == New() && NamesResolve(View())
    {
      actors, names, replies, progress := map[], map[], [], map[];
    }

    method ReplyRequest(requestId: nat, body: Body)
      modifies this`replies
      ensures View() == Answer(old(View()), requestId, body)
    {
      replies := replies + [Reply(requestId, body)];
    }

    method HandleActorCreationRequest(requestId: nat, key: Name, w: World) returns (p: Progress)
      requires NamesResolve(View()) && Fresh(View(), w)
      modifies this`actors, this`names, this`replies
      ensures (View(), p) == Create(old(View()), requestId, key, w) && NamesResolve(View())
    {
      CreationIsAllOrNothing(View(), requestId, key, w);
      p := Ended(Normally);
      if key !in w.creators {
        ReplyRequest(requestId, CreationError("no such handler"));
        return;
      }
      match w.creators[key]
      case ThrewStd(what) => ReplyRequest(requestId, CreationError(what));
      case ThrewOther => p := Ended(Throwing);
      case Returned(made) =>
        if made.name.Some? {
          if made.name.value in names {
            ReplyRequest(requestId, CreationError("name taken"));
            return;
          }
          names := names[made.name.value := w.freshId];
        }
        actors := actors[w.freshId := made.actor];
        ReplyRequest(requestId, CreationReturn(w.freshId));
    }

    /** Up to the wait for the method's task. */
    method HandleActorMethodCallRequest(requestId: nat, key: Name, actorId: nat, w: World) returns (p: Progress)
      modifies this`replies
      ensures (View(), p) == Call(old(View()), requestId, key, actorId, w)
    {
      p := Ended(Normally);
      if actorId !in actors {
        ReplyRequest(requestId, MethodError("no such actor"));
        return;
      }
      if key !in w.methods {
        ReplyRequest(requestId, MethodError("no such handler"));
        return;
      }
      p := Awaiting(actors[actorId], key);
    }

    /** Behind the wait: the data, or the error, that the method came back with. */
    method ResumeMethodCall(requestId: nat, result: Result<Data>)
      requires NamesResolve(View()) && Allowed(View(), Resume(requestId, result))
      modifies this`replies, this`progress
      ensures View() == Apply(old(View()), Resume(requestId, result)) && NamesResolve(View())
    {
      ghost var p := CallEnds(View(), requestId, result).1;
      match result {
        case Returned(data) => ReplyRequest(requestId, MethodReturn(data));
        case ThrewStd(what) => ReplyRequest(requestId, MethodError(what));
        case ThrewOther =>
      }
      progress := progress[requestId := p];
    }

    /** The message type decides on the handler; no other type is answered. */
    method HandleNetworkRequest(requestId: nat, request: Request, w: World)
      requires NamesResolve(View()) && Allowed(View(), Arrive(requestId, request, w))
      modifies this
      ensures View() == Apply(old(View()), Arrive(requestId, request, w)) && NamesResolve(View())
      ensures requestId in progress
      ensures |replies| == |old(replies)| + (if progress[requestId] == Ended(Normally) then 1 else 0)
      ensures progress[requestId] == Ended(Throwing) <==> !WellFormed(request) || OddThrow(request, w)
    {
      var p := Ended(Normally);
      match request {
        case Creation(key) => p := HandleActorCreationRequest(requestId, key, w);
        case MethodCall(key, actorId) => p := HandleActorMethodCallRequest(requestId, key, actorId, w);
        case LookUp(name) =>
          if name in names {
            ReplyRequest(requestId, LookUpReturn(names[name]));
          } else {
            ReplyRequest(requestId, LookUpError);
          }
        case UnknownType(_) => p := Ended(Throwing);
        case Malformed => p := Ended(Throwing);
      }
      progress := progress[requestId := p];
    }
  }
}
