/** `Channel`: the registries of handlers and subscriptions, the table of
    this side's pending requests, the running streams, and `receive`, which
    dispatches each incoming message. Every operation is proved to follow
    the value-level account in `Protocol` and `Registry`. */
module Channels {
  import opened Js
  import opened ObjectMaps
  import opened Subscriptions
  import opened Protocol
  import opened Registry

  /** What `events(...)` is given: a `Map` of subscriptions (its entries
      in insertion order), or a nested object of them. */
  datatype EventSource = FromMap(entries: seq<(string, Subscription)>) | FromObject(fields: seq<Field>)

  /** The subscriptions `events(source, prefix)` may assign a prefix to. */
  function SourceSubs(source: EventSource, prefix: string): set<Subscription>
  {
    if source.FromObject? then Subs(Registrations(source.fields, prefix)) else {}
  }

  /** What `receive` is given: an array of messages or a single one. */
  datatype Inbound = Batch(items: seq<Message>) | Single(item: Message)

  function Items(input: Inbound): seq<Message>
  {
    if input.Batch? then input.items else [input.item]
  }

  /** The `onDisconnect` action, given the state and the sender. */
  type DisconnectAction = (Value, Value) -> ()

  /** What `receiveOne` reads from a subscription. */
  function View(s: Subscription): SubView
    reads s
  {
    SubView(s.prefix, s.topicOf, s.bodyOf)
  }

  /** `routes.find(a => a.path(key))?.request`: the handler of the first
      pattern that matches, if any. */
  method Find<H>(routes: seq<Route<H>>, key: Value) returns (r: Option<H>)
    ensures r.None? <==> forall i :: 0 <= i < |routes| ==> !routes[i].matches(key)
    ensures r.Some? ==> exists i :: 0 <= i < |routes| && routes[i].matches(key) && r.value == routes[i].handler &&
                          forall j :: 0 <= j < i ==> !routes[j].matches(key)
    ensures var i := FirstMatchIndex(routes, key); r == if i < |routes| then Some(routes[i].handler) else None
  {
    var i := 0;
    while i < |routes| && !routes[i].matches(key)
      invariant 0 <= i <= |routes|
      invariant forall j :: 0 <= j < i ==> !routes[j].matches(key)
    {
      i := i + 1;
    }
    r := if i < |routes| then Some(routes[i].handler) else None;
  }

  class Channel {
    /** The next request id. */
    var nextId: int
    /** This side's requests awaiting a response, by id. */
    var requests: map<int, Pending>
    const postApi: ObjectMap<string, CallHandler>
    var otherPostApi: seq<Route<CallHandler>>
    const streamApi: ObjectMap<string, StreamHandler>
    var otherStreamApi: seq<Route<StreamHandler>>
    var disconnect: Option<DisconnectAction>
    var eventsApi: Option<map<string, Subscription>>
    /** Running streams, under the string form of their id, as handles
        into `gens`. */
    const streams: ObjectMap<string, nat>
    var gens: seq<Gen>


    /** The subscriptions as `receiveOne` sees them. */
    function Views(): Option<map<string, SubView>>
      reads this`eventsApi, if eventsApi.Some? then eventsApi.value.Values else {}
    {
      if eventsApi.Some? then Some(map k | k in eventsApi.value :: View(eventsApi.value[k])) else None
    }

    /** The registries as `receiveOne` sees them. */
    function Handlers(): Routes
      reads this`otherPostApi, this`otherStreamApi, this`eventsApi, postApi, streamApi
      reads if eventsApi.Some? then eventsApi.value.Values else {}
    {
      Routes(postApi.Snap(), otherPostApi, streamApi.Snap(), otherStreamApi, Views())
    }

    /** The tables `receiveOne` changes. */
    function State(): Tables
      reads this`requests, this`gens, streams
    {
      Tables(requests, streams.Snap(), gens)
    }

    /** The three object maps are separate and consistent, every stream
        handle points at a stream, and every pending request was issued
        under its own key, below the next id. */
    ghost predicate Valid()
      reads this, postApi, streamApi, streams
    {
      postApi.Valid() && streamApi.Valid() && streams.Valid() &&
      postApi as object != streamApi as object && postApi as object != streams as object &&
      streamApi as object != streams as object &&
      TablesOk(State()) && 0 <= nextId &&
      forall k :: k in requests ==> k < nextId && requests[k].request.id == Num(k)
    }

    constructor ()
      ensures Valid() && fresh(postApi) && fresh(streamApi) && fresh(streams)
      ensures nextId == 0 && requests == map[] && gens == [] && eventsApi == None && disconnect == None
      ensures Handlers() == Routes(Store([], map[], 0), [], Store([], map[], 0), [], None)
      ensures State() == Tables(map[], Store([], map[], 0), [])
    {
      nextId := 0;
      requests := map[];
      postApi := new ObjectMap();
      otherPostApi := [];
      streamApi := new ObjectMap();
      otherStreamApi := [];
      disconnect := None;
      eventsApi := None;
      streams := new ObjectMap();
      gens := [];
    }

    /** `post(path, request)`: an exact call handler, replacing any earlier
        one under the same path. */
    method Post(path: string, handler: CallHandler)
      requires Valid()
      modifies postApi
      ensures Valid()
      ensures postApi.Snap() == Put(old(postApi.Snap()), path, handler)
    {
      postApi.Set(path, handler);
    }

    /** `postOther(path, request)`: a pattern, tried after those before it. */
    method PostOther(matches: Value -> bool, handler: CallHandler)
      requires Valid()
      modifies this
      ensures Valid()
      ensures otherPostApi == old(otherPostApi) + [Route(matches, handler)]
      ensures otherStreamApi == old(otherStreamApi) && eventsApi == old(eventsApi) && State() == old(State())
    {
      otherPostApi := otherPostApi + [Route(matches, handler)];
    }

    /** `stream(path, request)` */
    method Stream(path: string, handler: StreamHandler)
      requires Valid()
      modifies streamApi
      ensures Valid()
      ensures streamApi.Snap() == Put(old(streamApi.Snap()), path, handler)
    {
      streamApi.Set(path, handler);
    }

    /** `streamOther(path, request)` */
    method StreamOther(matches: Value -> bool, handler: StreamHandler)
      requires Valid()
      modifies this
      ensures Valid()
      ensures otherStreamApi == old(otherStreamApi) + [Route(matches, handler)]
      ensures otherPostApi == old(otherPostApi) && eventsApi == old(eventsApi) && State() == old(State())
    {
      otherStreamApi := otherStreamApi + [Route(matches, handler)];
    }

    /** `onDisconnect(action)` only stores the action. */
    method OnDisconnect(action: DisconnectAction)
      requires Valid()
      modifies this
      ensures Valid() && disconnect == Some(action)
      ensures Handlers() == old(Handlers()) && State() == old(State()) && nextId == old(nextId)
    {
      disconnect := Some(action);
    }

    /** The id a new request gets, and its entry in `requests`. */
    method Issue(kind: Kind, request: Message) returns (id: int)
      requires Valid() && request.id == Num(nextId)
      modifies this
      ensures Valid()
      ensures id == old(nextId) && id !in old(requests) && nextId == id + 1
      ensures requests == old(requests)[id := Pending(kind, request)]
      ensures Handlers() == old(Handlers()) && gens == old(gens)
    {
      id := nextId;
      nextId := nextId + 1;
      requests := requests[id := Pending(kind, request)];
    }

    /** `makeRequest(path, body, response)`: `{id, path, body}` under a
        fresh id, remembered until its response arrives. */
    method MakeRequest(path: string, body: Value) returns (request: Message)
      requires Valid()
      modifies this
      ensures Valid()
      ensures request == Blank.(id := Num(old(nextId)), path := Str(path), body := body)
      ensures old(nextId) !in old(requests) && nextId == old(nextId) + 1
      ensures requests == old(requests)[old(nextId) := Pending(CallKind, request)]
      ensures Handlers() == old(Handlers()) && gens == old(gens)
    {
      request := Blank.(id := Num(nextId), path := Str(path), body := body);
      var _ := Issue(CallKind, request);
    }

    /** `makeStream(stream, body, response)`: `{id, stream, body}`. */
    method MakeStream(stream: string, body: Value) returns (request: Message)
      requires Valid()
      modifies this
      ensures Valid()
      ensures request == Blank.(id := Num(old(nextId)), stream := Str(stream), body := body)
      ensures old(nextId) !in old(requests) && nextId == old(nextId) + 1
      ensures requests == old(requests)[old(nextId) := Pending(StreamKind, request)]
      ensures Handlers() == old(Handlers()) && gens == old(gens)
    {
      request := Blank.(id := Num(nextId), stream := Str(stream), body := body);
      var _ := Issue(StreamKind, request);
    }

    /** `makeSubscription(sub, body, response)`: `{id, sub, body}`. */
    method MakeSubscription(sub: string, body: Value) returns (request: Message)
      requires Valid()
      modifies this
      ensures Valid()
      ensures request == Blank.(id := Num(old(nextId)), sub := Str(sub), body := body)
      ensures old(nextId) !in old(requests) && nextId == old(nextId) + 1
      ensures requests == old(requests)[old(nextId) := Pending(SubKind, request)]
      ensures Handlers() == old(Handlers()) && gens == old(gens)
    {
      request := Blank.(id := Num(nextId), sub := Str(sub), body := body);
      var _ := Issue(SubKind, request);
    }

    /** `receive(some, controller)`: an array is handled element by element;
        anything else is one message. */
    method Receive(input: Inbound, ctl: Controller) returns (jobs: seq<Job>, resumed: seq<Resumption>, thrown: Option<Value>)
      requires Valid()
      modifies this, streams, ctl
      ensures Valid()
      ensures Reflects(Run(old(Handlers()), old(State()), ctl, Items(input)), ctl, old(ctl.log), jobs, resumed, thrown)
      ensures Handlers() == old(Handlers()) && nextId == old(nextId)
    {
      if input.Batch? {
        jobs, resumed, thrown := ReceiveAll(input.items, ctl);
      } else {
        RunOne(Handlers(), State(), ctl, input.item);
        jobs, resumed, thrown := ReceiveOne(input.item, ctl);
      }
    }

    /** `some.forEach(a => this.receiveOne(a, controller))`: the elements
        in order, stopping at the first one that throws. */
    method ReceiveAll(ms: seq<Message>, ctl: Controller) returns (jobs: seq<Job>, resumed: seq<Resumption>, thrown: Option<Value>)
      requires Valid()
      modifies this, streams, ctl
      ensures Valid()
      ensures Reflects(Run(old(Handlers()), old(State()), ctl, ms), ctl, old(ctl.log), jobs, resumed, thrown)
      ensures Handlers() == old(Handlers()) && nextId == old(nextId)
    {
      ghost var r0, t0, log0 := Handlers(), State(), ctl.log;
      jobs, resumed, thrown := [], [], None;
      var i := 0;
      while i < |ms| && thrown.None?
        invariant 0 <= i <= |ms| && Valid() && Handlers() == r0 && nextId == old(nextId)
        invariant Reflects(Run(r0, t0, ctl, ms[..i]), ctl, log0, jobs, resumed, thrown)
      {
        jobs, resumed, thrown := ReceiveNext(ms, i, ctl, r0, t0, log0, jobs, resumed);
        i := i + 1;
      }
      if thrown.Some? {
        RunStopsAtThrow(r0, t0, ctl, ms, i);
      } else {
        assert ms[..i] == ms;
      }
    }

    /** One turn of the `forEach`: element `i`, after those before it. */
    method ReceiveNext(ms: seq<Message>, i: nat, ctl: Controller, ghost r0: Routes, ghost t0: Tables,
                       ghost log0: seq<Effect>, jobs: seq<Job>, resumed: seq<Resumption>)
      returns (jobs': seq<Job>, resumed': seq<Resumption>, thrown: Option<Value>)
      requires i < |ms| && Valid() && Handlers() == r0 && TablesOk(t0)
      requires Reflects(Run(r0, t0, ctl, ms[..i]), ctl, log0, jobs, resumed, None)
      modifies this, streams, ctl
      ensures Valid() && Handlers() == r0 && nextId == old(nextId)
      ensures Reflects(Run(r0, t0, ctl, ms[..i + 1]), ctl, log0, jobs', resumed', thrown)
    {
      RunSnoc(r0, t0, ctl, ms, i);
      ghost var before := Run(r0, t0, ctl, ms[..i]);
      ghost var o := Step(r0, before.tables, ctl, ms[i]);
      ghost var log1 := ctl.log;
      var js, rs;
      js, rs, thrown := ReceiveOne(ms[i], ctl);
      assert Reflects(o, ctl, log1, js, rs, thrown);
      jobs', resumed' := jobs + js, resumed + rs;
      AppendAssoc(log0, before.effects, o.effects);
    }

    /** The channel's tables, the controller's log and the work left
        over are those of outcome `o`, starting from log `log0`. */
    ghost predicate Reflects(o: Outcome, ctl: Controller, log0: seq<Effect>, jobs: seq<Job>,
                             resumed: seq<Resumption>, thrown: Option<Value>)
      reads this, streams, ctl
    {
      State() == o.tables && ctl.log == log0 + o.effects && jobs == o.jobs && resumed == o.resumed && thrown == o.thrown
    }

    /** `receiveOne(some, controller)`: the first branch whose field is set
        handles the message. */
    method ReceiveOne(m: Message, ctl: Controller) returns (jobs: seq<Job>, resumed: seq<Resumption>, thrown: Option<Value>)
      requires Valid()
      modifies this, streams, ctl
      ensures Valid()
      ensures Reflects(Step(old(Handlers()), old(State()), ctl, m), ctl, old(ctl.log), jobs, resumed, thrown)
      ensures Handlers() == old(Handlers()) && nextId == old(nextId)
    {
      jobs, resumed, thrown := [], [], None;
      if Truthy(m.path) {
        jobs := ReceiveCall(m, ctl);
      } else if Truthy(m.stream) {
        jobs, thrown := ReceiveStream(m, ctl);
      } else if Defined(m.cancel) {
        ReceiveCancel(m);
      } else if Truthy(m.sub) {
        jobs := ReceiveSub(m, ctl);
      } else if Truthy(m.unsub) {
        ctl.Unsubscribe(m.unsub);
      } else if Truthy(m.topic) {
        resumed := ReceiveTopic(m, ctl);
      } else if Defined(m.id) {
        resumed := ReceiveResponse(m);
      }
    }

    /** `postApi.get(key) ?? otherPostApi.find(a => a.path(key))?.request` */
    method FindPost(key: Value) returns (api: Option<CallHandler>)
      ensures api == Resolve(postApi.Snap(), otherPostApi, key)
    {
      api := postApi.Get(ToStr(key));
      if api.None? {
        api := Find(otherPostApi, key);
      }
    }

    /** `streamApi.get(key) ?? otherStreamApi.find(a => a.path(key))?.request` */
    method FindStream(key: Value) returns (api: Option<StreamHandler>)
      ensures api == Resolve(streamApi.Snap(), otherStreamApi, key)
    {
      api := streamApi.Get(ToStr(key));
      if api.None? {
        api := Find(otherStreamApi, key);
      }
    }

    /** The call branch. */
    method ReceiveCall(m: Message, ctl: Controller) returns (jobs: seq<Job>)
      modifies ctl
      ensures var o := CallStep(old(Handlers()), old(State()), ctl, m);
              o.tables == State() && ctl.log == old(ctl.log) + o.effects && jobs == o.jobs &&
              o.resumed == [] && o.thrown == None
      ensures Handlers() == old(Handlers()) && State() == old(State())
    {
      var id := m.id;
      var api := FindPost(m.path);
      jobs := [];
      match api {
        case None =>
          Answer(ctl, id, Failure(id, Str("api not found")));
        case Some(handler) =>
          var result := handler(m.body, ctl.state, m.path);
          if result.Threw? {
            Answer(ctl, id, Failure(id, result.error));
          } else if Defined(id) {
            var body := result.value;
            if Thenable(body) {
              jobs := [CallSettled(ctl, id, body.outcome)];
            } else {
              Answer(ctl, id, Reply(id, body));
            }
          }
      }
    }

    /** Sends `response` when the request has an id, and nothing otherwise. */
    method Answer(ctl: Controller, id: Value, response: Message)
      modifies ctl
      ensures ctl.log == old(ctl.log) + if Defined(id) then [Respond(response)] else []
      ensures Handlers() == old(Handlers()) && State() == old(State())
    {
      if Defined(id) {
        ctl.Response(response);
      }
    }

    /** The stream branch. */
    method ReceiveStream(m: Message, ctl: Controller) returns (jobs: seq<Job>, thrown: Option<Value>)
      requires Valid()
      modifies this, streams, ctl
      ensures Valid()
      ensures var o := StreamStep(old(Handlers()), old(State()), ctl, m);
              State() == o.tables && ctl.log == old(ctl.log) + o.effects && jobs == o.jobs &&
              o.resumed == [] && thrown == o.thrown
      ensures Handlers() == old(Handlers()) && nextId == old(nextId)
    {
      var api := FindStream(m.stream);
      jobs, thrown := [], None;
      if api.None? {
        thrown := Some(Str("api not found"));
        return;
      }
      if !Defined(m.id) {
        thrown := Some(Str("stream requires id"));
        return;
      }
      jobs := StreamRequest(m.id, ctl, m.stream, m.body, api.value);
    }

    /** The synchronous part of `streamRequest`: the handler is called and
        its stream stored before any value is read; a handler that throws
        is answered with its error and its key deleted. */
    method StreamRequest(id: Value, ctl: Controller, path: Value, body: Value, api: StreamHandler)
      returns (jobs: seq<Job>)
      requires Valid()
      modifies this`gens, streams, ctl
      ensures Valid()
      ensures match api(body, ctl.state, path)
              case Failed(e) =>
                State() == old(State()).(streams := Remove(old(streams.Snap()), ToStr(id))) &&
                ctl.log == old(ctl.log) + [Respond(Failure(id, e))] && jobs == []
              case Started(values, end) =>
                State() == old(State()).(streams := Put(old(streams.Snap()), ToStr(id), old(|gens|)),
                                         gens := old(gens) + [Gen(values, end, 0)]) &&
                ctl.log == old(ctl.log) && jobs == [Pump(ctl, id, old(|gens|))]
      ensures Handlers() == old(Handlers()) && nextId == old(nextId)
    {
      jobs := [];
      match api(body, ctl.state, path) {
        case Failed(e) =>
          EndStream(ctl, id, Failure(id, e));
        case Started(values, end) =>
          var h := StreamStarted(id, Gen(values, end, 0));
          jobs := [Pump(ctl, id, h)];
      }
    }

    /** A stream that is over: its last message is sent and its key deleted. */
    method EndStream(ctl: Controller, id: Value, last: Message)
      requires Valid()
      modifies streams, ctl
      ensures Valid()
      ensures State() == old(State()).(streams := Remove(old(streams.Snap()), ToStr(id)))
      ensures ctl.log == old(ctl.log) + [Respond(last)]
      ensures Handlers() == old(Handlers())
    {
      ctl.Response(last);
      streams.Delete(ToStr(id));
    }

    /** A stream handler that started: its stream is stored under `id`. */
    method StreamStarted(id: Value, g: Gen) returns (h: nat)
      requires Valid()
      modifies this`gens, streams
      ensures Valid() && h == old(|gens|)
      ensures State() == old(State()).(streams := Put(old(streams.Snap()), ToStr(id), h), gens := old(gens) + [g])
      ensures Handlers() == old(Handlers())
    {
      h := |gens|;
      gens := gens + [g];
      streams.Set(ToStr(id), h);
    }

    /** The cancel branch: `streams.get(cancel)?.return()`. */
    method ReceiveCancel(m: Message)
      requires Valid()
      modifies this
      ensures Valid()
      ensures State() == CancelStep(old(State()), m).tables
      ensures Handlers() == old(Handlers()) && nextId == old(nextId)
    {
      var found := streams.Get(ToStr(m.cancel));
      if found.Some? {
        var h := found.value;
        gens := gens[h := Stopped(gens[h])];
      }
    }

    /** The sub branch. */
    method ReceiveSub(m: Message, ctl: Controller) returns (jobs: seq<Job>)
      modifies ctl
      ensures var o := SubStep(old(Handlers()), old(State()), ctl, m);
              o.tables == State() && ctl.log == old(ctl.log) + o.effects && jobs == o.jobs &&
              o.resumed == [] && o.thrown == None
      ensures Handlers() == old(Handlers()) && State() == old(State())
    {
      var found := if eventsApi.Some? && m.sub.Str? && m.sub.s in eventsApi.value
                   then Some(eventsApi.value[m.sub.s]) else None;
      jobs := [];
      match found {
        case None =>
          Answer(ctl, m.id, Failure(m.id, Str("subscription not found")));
        case Some(s) =>
          var derived := s.topicOf(m.body);
          var topic := if |derived| == 0 then s.prefix else s.prefix + "/" + derived;
          var body := s.bodyOf(m.body);
          if Thenable(body) {
            jobs := [SubSettled(ctl, m.id, topic, body.outcome)];
          } else {
            Confirm(ctl, m.id, topic, body);
          }
      }
    }

    /** A subscription that settled at once: `controller.subscribe(topic)`
        and then `{id, topic, body}`. */
    method Confirm(ctl: Controller, id: Value, topic: string, body: Value)
      modifies ctl
      ensures ctl.log == old(ctl.log) + [Effect.Subscribe(topic), Respond(Subscribed(id, topic, body))]
      ensures Handlers() == old(Handlers()) && State() == old(State())
    {
      ctl.Subscribe(topic);
      ctl.Response(Subscribed(id, topic, body));
    }

    /** The topic branch. */
    method ReceiveTopic(m: Message, ctl: Controller) returns (resumed: seq<Resumption>)
      requires Valid()
      modifies this, ctl
      ensures Valid()
      ensures var o := TopicStep(old(State()), m);
              State() == o.tables && ctl.log == old(ctl.log) + o.effects && resumed == o.resumed
      ensures Handlers() == old(Handlers()) && nextId == old(nextId)
    {
      resumed := [];
      if Defined(m.id) {
        var request := if m.id.Num? && m.id.n in requests then Some(requests[m.id.n]) else None;
        if m.id.Num? {
          requests := requests - {m.id.n};
        }
        if request.Some? {
          resumed := [Resumption(request.value, m)];
        }
      }
      if Truthy(m.body) {
        ctl.Event(m.topic, m.body);
      }
    }

    /** The id branch. */
    method ReceiveResponse(m: Message) returns (resumed: seq<Resumption>)
      requires Valid()
      modifies this
      ensures Valid()
      ensures var o := IdStep(old(State()), m);
              State() == o.tables && o.effects == [] && resumed == o.resumed
      ensures Handlers() == old(Handlers()) && nextId == old(nextId)
    {
      resumed := [];
      if !(m.id.Num? && m.id.n in requests) {
        return;
      }
      var request := requests[m.id.n];
      if !(request.kind == StreamKind && !Truthy(m.done)) {
        requests := requests - {m.id.n};
      }
      resumed := [Resumption(request, m)];
    }

    /** Runs one job: a settled promise answers, a stream takes one more
        turn of its `for await` loop. */
    method RunJob(job: Job) returns (next: seq<Job>)
      requires Valid() && JobOk(State(), job)
      modifies this, streams, job.ctl
      ensures Valid()
      ensures var o := JobStep(old(State()), job);
              State() == o.tables && job.ctl.log == old(job.ctl.log) + o.effects && next == o.jobs
      ensures Handlers() == old(Handlers()) && nextId == old(nextId)
    {
      next := [];
      match job {
        case CallSettled(ctl, id, outcome) =>
          if outcome.Resolved? {
            ctl.Response(Reply(id, outcome.value));
          } else {
            ctl.Response(Failure(id, outcome.reason));
          }
        case SubSettled(ctl, id, topic, outcome) =>
          if outcome.Resolved? {
            ctl.Subscribe(topic);
            ctl.Response(Subscribed(id, topic, outcome.value));
          } else {
            ctl.Response(Failure(id, outcome.reason));
          }
        case Pump(ctl, id, h) =>
          next := PumpTurn(ctl, id, h);
      }
    }

    /** One turn of a stream's `for await` loop: the next value is
        answered, or the end of the stream is answered and its entry
        deleted. */
    method PumpTurn(ctl: Controller, id: Value, h: nat) returns (next: seq<Job>)
      requires Valid() && JobOk(State(), Pump(ctl, id, h))
      modifies this, streams, ctl
      ensures Valid()
      ensures var o := JobStep(old(State()), Pump(ctl, id, h));
              State() == o.tables && ctl.log == old(ctl.log) + o.effects && next == o.jobs
      ensures Handlers() == old(Handlers()) && nextId == old(nextId)
    {
      next := [];
      var g := gens[h];
      if g.pos < |g.values| {
        gens := gens[h := g.(pos := g.pos + 1)];
        ctl.Response(Reply(id, g.values[g.pos]));
        next := [Pump(ctl, id, h)];
      } else {
        EndStream(ctl, id, if g.end.Completes? then Finished(id) else Failure(id, g.end.error));
      }
    }

    /** The `for await` loop of `streamRequest` run to its end with nothing
        in between: every remaining value is answered in order, then the end
        of the stream, and the stream's entry is deleted. */
    method RunStream(ctl: Controller, id: Value, h: nat)
      requires Valid() && h < |gens| && gens[h].pos <= |gens[h].values|
      modifies this, streams, ctl
      ensures Valid()
      ensures var g := old(gens[h]);
              var o := Drain(old(State()), Pump(ctl, id, h), |g.values| - g.pos);
              State() == o.tables && ctl.log == old(ctl.log) + o.effects
      ensures var g := old(gens[h]);
              ctl.log == old(ctl.log) + Replies(id, g.values[g.pos..]) + [Respond(EndMessage(id, g))]
      ensures streams.Snap() == Remove(old(streams.Snap()), ToStr(id)) && requests == old(requests)
      ensures Handlers() == old(Handlers()) && nextId == old(nextId)
    {
      ghost var t0, log0, g := State(), ctl.log, gens[h];
      ghost var o := Drain(t0, Pump(ctl, id, h), |g.values| - g.pos);
      PumpAll(ctl, id, h, |gens[h].values| - gens[h].pos);
      LogEnds(t0, ctl, id, h, log0, ctl.log, State());
    }

    /** The `for await` loop of `RunStream`, with `fuel` turns left before
        the stream runs out of values. */
    method PumpAll(ctl: Controller, id: Value, h: nat, fuel0: nat)
      requires Valid() && h < |gens|
      modifies this, streams, ctl
      ensures Valid()
      ensures var o := Drain(old(State()), Pump(ctl, id, h), fuel0);
              State() == o.tables && ctl.log == old(ctl.log) + o.effects
      ensures Handlers() == old(Handlers()) && nextId == old(nextId)
    {
      ghost var log0 := ctl.log;
      ghost var d0 := Drain(State(), Pump(ctl, id, h), fuel0);
      var fuel := fuel0;
      var more := true;
      while more
        invariant Valid() && h < |gens| && nextId == old(nextId) && Handlers() == old(Handlers())
        invariant more ==> DrainsTo(Drain(State(), Pump(ctl, id, h), fuel), ctl, log0, d0)
        invariant !more ==> State() == d0.tables && ctl.log == log0 + d0.effects
        decreases fuel + (if more then 1 else 0)
      {
        more := PumpStream(ctl, id, h, fuel, log0, d0);
        if more {
          fuel := fuel - 1;
        }
      }
    }

    /** What is left of the run `d` would take the log from `log0` to the
        end of the whole run `d0`. */
    ghost predicate DrainsTo(d: Outcome, ctl: Controller, log0: seq<Effect>, d0: Outcome)
      reads ctl
    {
      ctl.log + d.effects == log0 + d0.effects && d.tables == d0.tables
    }

    /** One turn of the `for await` loop, accounted against the whole run. */
    method PumpStream(ctl: Controller, id: Value, h: nat, fuel: nat, ghost log0: seq<Effect>, ghost d0: Outcome)
      returns (more: bool)
      requires Valid() && h < |gens|
      requires DrainsTo(Drain(State(), Pump(ctl, id, h), fuel), ctl, log0, d0)
      modifies this, streams, ctl
      ensures Valid() && h < |gens| && nextId == old(nextId) && Handlers() == old(Handlers())
      ensures more ==> fuel > 0 && DrainsTo(Drain(State(), Pump(ctl, id, h), fuel - 1), ctl, log0, d0)
      ensures !more ==> State() == d0.tables && ctl.log == log0 + d0.effects
    {
      ghost var first := JobStep(State(), Pump(ctl, id, h));
      ghost var log1 := ctl.log;
      var next := RunJob(Pump(ctl, id, h));
      more := fuel != 0 && next != [];
      if more {
        AppendAssoc(log1, first.effects, Drain(State(), Pump(ctl, id, h), fuel - 1).effects);
      }
    }

    /** `events(events, prefix)`: creates the registry if there is none;
        a `Map` adds each entry under `prefix/key`; an object is handed to
        `Subscription.parse` with the prefix as given, so its keys are
        `prefix` + key with no separator. */
    method Events(source: EventSource, prefix: string)
      requires Valid()
      modifies this, SourceSubs(source, prefix)
      ensures Valid()
      ensures var before := if old(eventsApi).Some? then old(eventsApi).value else map[];
              eventsApi.Some? &&
              match source
              case FromMap(entries) => eventsApi.value == SetAll(before, JoinPrefix(prefix), entries)
              case FromObject(fields) =>
                eventsApi.value == Install(before, Registrations(fields, prefix)) &&
                PrefixesAssigned(Registrations(fields, prefix))
      ensures forall t :: t in SourceSubs(source, prefix) && old(allocated(t)) ==>
                t.publishers == old(t.publishers) && t.topicOf == old(t.topicOf) && t.bodyOf == old(t.bodyOf)
      ensures State() == old(State()) && nextId == old(nextId)
      ensures otherPostApi == old(otherPostApi) && otherStreamApi == old(otherStreamApi)
    {
      if eventsApi.None? {
        eventsApi := Some(map[]);
      }
      var p := if |prefix| > 0 then prefix + "/" else "";
      var e: map<string, Subscription> := eventsApi.value;
      match source {
        case FromMap(entries) =>
          e := SetEach(e, p, entries);
        case FromObject(fields) =>
          e := ParseInto(fields, prefix, e);
      }
      eventsApi := Some(e);
    }

    /** `api(object)`: `_parseApi(object, '')`. */
    method Api(entries: seq<ApiEntry>)
      requires Valid()
      modifies postApi, streamApi
      ensures Valid()
      ensures postApi.Snap() == PostsAfter(old(postApi.Snap()), ApiRegistrations(entries, ""))
      ensures streamApi.Snap() == StreamsAfter(old(streamApi.Snap()), ApiRegistrations(entries, ""))
    {
      ParseApi(entries, "");
    }

    /** `_parseApi(object, prefix)`: each handler is registered under its
        path as a call or a stream, each nested object is walked with the
        longer prefix, a non-object value is skipped (a `null` one is not
        represented). */
    method ParseApi(entries: seq<ApiEntry>, prefix: string)
      requires Valid()
      modifies postApi, streamApi
      ensures Valid()
      ensures postApi.Snap() == PostsAfter(old(postApi.Snap()), ApiRegistrations(entries, prefix))
      ensures streamApi.Snap() == StreamsAfter(old(streamApi.Snap()), ApiRegistrations(entries, prefix))
      decreases entries, 1
    {
      ghost var posts0, streams0 := postApi.Snap(), streamApi.Snap();
      var i := 0;
      while i < |entries|
        invariant 0 <= i <= |entries| && Valid()
        invariant postApi.Snap() == PostsAfter(posts0, ApiRegistrations(entries[..i], prefix))
        invariant streamApi.Snap() == StreamsAfter(streams0, ApiRegistrations(entries[..i], prefix))
      {
        ParseApiEntry(entries, prefix, i, posts0, streams0);
        i := i + 1;
      }
      assert entries[..i] == entries;
    }

    /** One property of the object `_parseApi` walks. */
    method ParseApiEntry(entries: seq<ApiEntry>, prefix: string, i: nat,
                         ghost posts0: Store<string, CallHandler>, ghost streams0: Store<string, StreamHandler>)
      requires i < |entries| && Valid() && WellFormed(posts0) && WellFormed(streams0)
      requires postApi.Snap() == PostsAfter(posts0, ApiRegistrations(entries[..i], prefix))
      requires streamApi.Snap() == StreamsAfter(streams0, ApiRegistrations(entries[..i], prefix))
      modifies postApi, streamApi
      ensures Valid()
      ensures postApi.Snap() == PostsAfter(posts0, ApiRegistrations(entries[..i + 1], prefix))
      ensures streamApi.Snap() == StreamsAfter(streams0, ApiRegistrations(entries[..i + 1], prefix))
      decreases entries, 0
    {
      ghost var before := ApiRegistrations(entries[..i], prefix);
      ApiRegistrationsSnoc(entries, prefix, i);
      ghost var here := ApiRegistrations(entries[..i + 1], prefix)[|before|..];
      PostsAfterAppend(posts0, before, here);
      StreamsAfterAppend(streams0, before, here);
      var e := entries[i];
      match e.node {
        case PostLeaf(call) =>
          Post(LeafPath(prefix, e.key), call);
          assert here[..0] == [];
        case StreamLeaf(gen) =>
          Stream(LeafPath(prefix, e.key), gen);
          assert here[..0] == [];
        case Group(inner) =>
          ParseApi(inner, if |prefix| > 0 then prefix + "/" + e.key else e.key);
        case Other =>
      }
    }

    /** `merge(channel, prefix)`: an `events` call when the other channel
        has subscriptions (it passes the other channel's `events` method,
        whose object has no entries), then every exact call handler and
        stream handler of the other channel under `prefix/`. Pattern
        handlers are not copied. */
    method Merge(other: Channel, prefix: string)
      requires Valid() && other.Valid()
      modifies this, postApi, streamApi
      ensures Valid()
      ensures eventsApi == if old(other.eventsApi).Some? && old(eventsApi).None? then Some(map[]) else old(eventsApi)
      ensures postApi.Snap() == PutAll(old(postApi.Snap()), JoinPrefix(prefix), Pairs(old(other.postApi.Snap())))
      ensures streamApi.Snap() == PutAll(old(streamApi.Snap()), JoinPrefix(prefix), Pairs(old(other.streamApi.Snap())))
      ensures otherPostApi == old(otherPostApi) && otherStreamApi == old(otherStreamApi)
      ensures State() == old(State()) && nextId == old(nextId)
    {
      var p := if |prefix| > 0 then prefix + "/" else "";
      var calls := other.postApi.Entries();
      var handlers := other.streamApi.Entries();
      assert calls == Pairs(other.postApi.Snap());
      assert handlers == Pairs(other.streamApi.Snap());
      if other.eventsApi.Some? {
        EventsOfNothing(prefix);
      }
      ghost var streams0 := streamApi.Snap();
      PostEach(p, calls);
      assert streamApi.Snap() == streams0;
      StreamEach(p, handlers);
    }

    /** `this.events(channel.events, prefix)` in `merge`: a function has
        no own entries, so this only makes sure the table exists. */
    method EventsOfNothing(prefix: string)
      requires Valid()
      modifies this
      ensures Valid()
      ensures eventsApi == if old(eventsApi).None? then Some(map[]) else old(eventsApi)
      ensures postApi.Snap() == old(postApi.Snap()) && streamApi.Snap() == old(streamApi.Snap())
      ensures otherPostApi == old(otherPostApi) && otherStreamApi == old(otherStreamApi)
      ensures State() == old(State()) && nextId == old(nextId)
    {
      assert SourceSubs(FromObject([]), prefix) == {};
      Events(FromObject([]), prefix);
    }

    /** `post(p + key, value)` for each entry in turn. */
    method PostEach(p: string, es: seq<(string, CallHandler)>)
      requires Valid()
      modifies postApi
      ensures Valid() && postApi.Snap() == PutAll(old(postApi.Snap()), p, es)
    {
      ghost var posts0 := postApi.Snap();
      var i := 0;
      while i < |es|
        invariant 0 <= i <= |es| && Valid()
        invariant postApi.Snap() == PutAll(posts0, p, es[..i])
      {
        PutAllSnoc(posts0, p, es, i);
        Post(p + es[i].0, es[i].1);
        i := i + 1;
      }
      assert es[..i] == es;
    }

    /** `stream(p + key, value)` for each entry in turn. */
    method StreamEach(p: string, es: seq<(string, StreamHandler)>)
      requires Valid()
      modifies streamApi
      ensures Valid() && streamApi.Snap() == PutAll(old(streamApi.Snap()), p, es)
    {
      ghost var streams0 := streamApi.Snap();
      var i := 0;
      while i < |es|
        invariant 0 <= i <= |es| && Valid()
        invariant streamApi.Snap() == PutAll(streams0, p, es[..i])
      {
        PutAllSnoc(streams0, p, es, i);
        Stream(p + es[i].0, es[i].1);
        i := i + 1;
      }
      assert es[..i] == es;
    }
  }

  /** `events.forEach((value, key) => e.set(p + key, value))` */
  method SetEach<V>(e: map<string, V>, p: string, entries: seq<(string, V)>) returns (r: map<string, V>)
    ensures r == SetAll(e, p, entries)
  {
    r := e;
    var i := 0;
    while i < |entries|
      invariant 0 <= i <= |entries|
      invariant r == SetAll(e, p, entries[..i])
    {
      ghost var front := entries[..i + 1];
      assert front[..|front| - 1] == entries[..i] && front[|front| - 1] == entries[i];
      r := r[p + entries[i].0 := entries[i].1];
      i := i + 1;
    }
    assert entries[..i] == entries;
  }

  lemma AppendAssoc<T>(a: seq<T>, b: seq<T>, c: seq<T>)
    ensures (a + b) + c == a + (b + c)
  {
  }

  /** `StreamDrains` read off a log that grew by the run and the tables it left. */
  lemma LogEnds(t0: Tables, ctl: Controller, id: Value, h: nat, log0: seq<Effect>, log: seq<Effect>, t: Tables)
    requires TablesOk(t0) && h < |t0.gens| && t0.gens[h].pos <= |t0.gens[h].values|
    requires var g := t0.gens[h];
             var o := Drain(t0, Pump(ctl, id, h), |g.values| - g.pos);
             t == o.tables && log == log0 + o.effects
    ensures var g := t0.gens[h];
            log == log0 + Replies(id, g.values[g.pos..]) + [Respond(EndMessage(id, g))] &&
            t.streams == Remove(t0.streams, ToStr(id)) && t.requests == t0.requests
  {
    var g := t0.gens[h];
    StreamDrains(t0, ctl, id, h);
    AppendAssoc(log0, Replies(id, g.values[g.pos..]), [Respond(EndMessage(id, g))]);
  }
}
