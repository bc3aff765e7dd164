/** The wire protocol of a `Channel`: messages as records of optional
    fields, the branch `receiveOne` takes for each message, the effects it
    has on a controller and on the channel's tables, and the work it leaves
    for later (promise settlements and stream iterations). Everything here
    is a value; `Channels.Channel` is proved to follow it. */
module Protocol {
  import opened Js
  import opened ObjectMaps
  import Subscriptions

  /** One message. A field the sender left out is `Undefined`. Requests,
      responses, cancels, subscriptions and events all share this shape. */
  datatype Message = Message(
    path: Value, stream: Value, cancel: Value, sub: Value, unsub: Value,
    topic: Value, id: Value, body: Value, error: Value, done: Value)

  const Blank: Message := Message(Undefined, Undefined, Undefined, Undefined, Undefined,
                                  Undefined, Undefined, Undefined, Undefined, Undefined)

  /** `{ id, body }` */
  function Reply(id: Value, body: Value): Message
  {
    Blank.(id := id, body := body)
  }

  /** `{ id, error: `${e}` }` */
  function Failure(id: Value, e: Value): Message
  {
    Blank.(id := id, error := Str(ToStr(e)))
  }

  /** `{ id, done: true }` */
  function Finished(id: Value): Message
  {
    Blank.(id := id, done := Bool(true))
  }

  /** `{ id, topic, body }` */
  function Subscribed(id: Value, topic: string, body: Value): Message
  {
    Blank.(id := id, topic := Str(topic), body := body)
  }

  /** What the channel asks of its controller, in call order. */
  datatype Effect =
    | Respond(response: Message)
    | Subscribe(added: string)
    | Unsubscribe(removed: Value)
    | Event(topic: Value, body: Value)

  /** The controller passed to `receive`: it records every call made on it. */
  class Controller {
    var log: seq<Effect>
    const state: Value

    constructor (state: Value)
      ensures log == [] && this.state == state
    {
      log := [];
      this.state := state;
    }

    method Response(response: Message)
      modifies this
      ensures log == old(log) + [Respond(response)]
    {
      log := log + [Respond(response)];
    }

    method Subscribe(topic: string)
      modifies this
      ensures log == old(log) + [Effect.Subscribe(topic)]
    {
      log := log + [Effect.Subscribe(topic)];
    }

    method Unsubscribe(topic: Value)
      modifies this
      ensures log == old(log) + [Effect.Unsubscribe(topic)]
    {
      log := log + [Effect.Unsubscribe(topic)];
    }

    method Event(topic: Value, body: Value)
      modifies this
      ensures log == old(log) + [Effect.Event(topic, body)]
    {
      log := log + [Effect.Event(topic, body)];
    }
  }

  /** The branches of `receiveOne`, in priority order. */
  datatype Branch = CallBranch | StreamBranch | CancelBranch | SubBranch
                  | UnsubBranch | TopicBranch | IdBranch | Ignored

  /** `path`, `stream`, `sub`, `unsub` and `topic` are tested for
      truthiness, `cancel` and `id` against `undefined`. */
  function BranchOf(m: Message): Branch
  {
    if Truthy(m.path) then CallBranch
    else if Truthy(m.stream) then StreamBranch
    else if Defined(m.cancel) then CancelBranch
    else if Truthy(m.sub) then SubBranch
    else if Truthy(m.unsub) then UnsubBranch
    else if Truthy(m.topic) then TopicBranch
    else if Defined(m.id) then IdBranch
    else Ignored
  }

  /** What a call handler does when invoked: return a value (possibly a
      promise) or throw. */
  datatype CallResult = Returned(value: Value) | Threw(error: Value)

  /** A call handler, given `body`, the controller's `state` and the path. */
  type CallHandler = (Value, Value, Value) -> CallResult

  /** How a stream's values run out. */
  datatype End = Completes | Fails(error: Value)

  /** A stream handler either throws when called or yields a finite
      sequence of values and then ends. */
  datatype StreamResult = Started(values: seq<Value>, end: End) | Failed(error: Value)

  type StreamHandler = (Value, Value, Value) -> StreamResult

  /** A pattern registration (`postOther`, `streamOther`). */
  datatype Route<H> = Route(matches: Value -> bool, handler: H)

  /** What `receiveOne` reads from a subscription. */
  datatype SubView = SubView(prefix: string, topicOf: Value -> string, bodyOf: Value -> Value)

  /** The handler registries. */
  datatype Routes = Routes(
    posts: Store<string, CallHandler>, otherPosts: seq<Route<CallHandler>>,
    streams: Store<string, StreamHandler>, otherStreams: seq<Route<StreamHandler>>,
    events: Option<map<string, SubView>>)

  /** The kind of a pending request, told apart by which field its request
      object carries. */
  datatype Kind = CallKind | StreamKind | SubKind

  /** A pending request: the request sent and its kind. The callback that
      receives the response is identified by the request id. */
  datatype Pending = Pending(kind: Kind, request: Message)

  /** Hand a response to the callback of a pending request. */
  datatype Resumption = Resumption(pending: Pending, response: Message)

  /** A running stream: its values, how it ends, and how far the `for await`
      loop has got. The loop always has a `next()` pending on it: for
      `values[pos]`, or for the end once `pos` reaches `|values|`. */
  datatype Gen = Gen(values: seq<Value>, end: End, pos: nat)

  /** The mutable tables: `requests`, `streams` (by key, a handle into
      `gens`) and the streams themselves. */
  datatype Tables = Tables(requests: map<int, Pending>, streams: Store<string, nat>, gens: seq<Gen>)

  ghost predicate TablesOk(t: Tables)
  {
    WellFormed(t.streams) && forall k :: k in t.streams.entries ==> t.streams.entries[k] < |t.gens|
  }

  /** `b` keeps some of the entries of `a`, unchanged, and adds none. */
  ghost predicate Shrinks(a: map<int, Pending>, b: map<int, Pending>)
  {
    forall k :: k in b ==> k in a && b[k] == a[k]
  }

  /** Work left for later: a call's promise settling, a subscription body's
      promise settling, or one more turn of a stream's `for await` loop. */
  datatype Job =
    | CallSettled(ctl: Controller, id: Value, outcome: Settlement)
    | SubSettled(ctl: Controller, id: Value, topic: string, outcome: Settlement)
    | Pump(ctl: Controller, id: Value, gen: nat)

  ghost predicate JobOk(t: Tables, j: Job)
  {
    j.Pump? ==> j.gen < |t.gens|
  }

  datatype Outcome = Outcome(
    tables: Tables, effects: seq<Effect>, jobs: seq<Job>, resumed: seq<Resumption>, thrown: Option<Value>)

  function Quiet(t: Tables): Outcome
  {
    Outcome(t, [], [], [], None)
  }

  /** `routes.find(a => a.path(key))` as an index: `|routes|` when none matches. */
  function FirstMatchIndex<H>(routes: seq<Route<H>>, key: Value): (i: nat)
    ensures i <= |routes|
    ensures forall j :: 0 <= j < i ==> !routes[j].matches(key)
    ensures i < |routes| ==> routes[i].matches(key)
  {
    if routes == [] then 0
    else if routes[0].matches(key) then 0
    else 1 + FirstMatchIndex(routes[1..], key)
  }

  /** `exact.get(key) ?? others.find(a => a.path(key))?.request`: the exact
      registration wins; otherwise the first pattern that matches. */
  function Resolve<H>(exact: Store<string, H>, others: seq<Route<H>>, key: Value): (r: Option<H>)
    ensures ToStr(key) in exact.entries ==> r == Some(exact.entries[ToStr(key)])
    ensures ToStr(key) !in exact.entries ==>
              (r.None? <==> forall i :: 0 <= i < |others| ==> !others[i].matches(key))
    ensures ToStr(key) !in exact.entries && r.Some? ==>
              exists i :: 0 <= i < |others| && others[i].matches(key) && r.value == others[i].handler &&
                forall j :: 0 <= j < i ==> !others[j].matches(key)
  {
    match Lookup(exact, ToStr(key))
    case Some(h) => Some(h)
    case None =>
      var i := FirstMatchIndex(others, key);
      if i < |others| then Some(others[i].handler) else None
  }

  /** The call branch. */
  function CallStep(r: Routes, t: Tables, ctl: Controller, m: Message): Outcome
  {
    var id := m.id;
    match Resolve(r.posts, r.otherPosts, m.path)
    case None =>
      Outcome(t, if Defined(id) then [Respond(Failure(id, Str("api not found")))] else [], [], [], None)
    case Some(api) =>
      var result := api(m.body, ctl.state, m.path);
      if result.Threw? then
        Outcome(t, if Defined(id) then [Respond(Failure(id, result.error))] else [], [], [], None)
      else
        var body := result.value;
        if !Defined(id) then Quiet(t)
        else if Thenable(body) then Outcome(t, [], [CallSettled(ctl, id, body.outcome)], [], None)
        else Outcome(t, [Respond(Reply(id, body))], [], [], None)
  }

  /** The stream branch: the synchronous part of `streamRequest` included. */
  function StreamStep(r: Routes, t: Tables, ctl: Controller, m: Message): (o: Outcome)
    requires TablesOk(t)
    ensures TablesOk(o.tables) && |t.gens| <= |o.tables.gens|
    ensures forall j :: j in o.jobs ==> JobOk(o.tables, j)
  {
    match Resolve(r.streams, r.otherStreams, m.stream)
    case None => Outcome(t, [], [], [], Some(Str("api not found")))
    case Some(api) =>
      if !Defined(m.id) then Outcome(t, [], [], [], Some(Str("stream requires id")))
      else
        var key := ToStr(m.id);
        match api(m.body, ctl.state, m.stream)
        case Failed(e) =>
          Outcome(t.(streams := Remove(t.streams, key)), [Respond(Failure(m.id, e))], [], [], None)
        case Started(values, end) =>
          var h := |t.gens|;
          Outcome(t.(streams := Put(t.streams, key, h), gens := t.gens + [Gen(values, end, 0)]),
                  [], [Pump(ctl, m.id, h)], [], None)
  }

  /** `return()` on an async generator is queued behind the `next()`
      already pending, so that step still settles (a value, or the
      generator's own end) and the generator finishes after it with
      `done`. */
  function Stopped(g: Gen): Gen
  {
    if g.pos < |g.values| then g.(values := g.values[..g.pos + 1], end := Completes) else g
  }

  /** The cancel branch: `streams.get(cancel)?.return()`. */
  function CancelStep(t: Tables, m: Message): (o: Outcome)
    requires TablesOk(t)
    ensures TablesOk(o.tables) && |o.tables.gens| == |t.gens|
  {
    match Lookup(t.streams, ToStr(m.cancel))
    case None => Quiet(t)
    case Some(h) => Quiet(t.(gens := t.gens[h := Stopped(t.gens[h])]))
  }

  /** `eventsApi?.get(sub)`: a `Map` lookup, so only a string finds a key. */
  function FindSub(r: Routes, sub: Value): Option<SubView>
  {
    if r.events.Some? && sub.Str? && sub.s in r.events.value then Some(r.events.value[sub.s]) else None
  }

  /** The sub branch. */
  function SubStep(r: Routes, t: Tables, ctl: Controller, m: Message): Outcome
  {
    match FindSub(r, m.sub)
    case None =>
      Outcome(t, if Defined(m.id) then [Respond(Failure(m.id, Str("subscription not found")))] else [], [], [], None)
    case Some(s) =>
      var topic := Subscriptions.SubscribedTopic(s.prefix, s.topicOf(m.body));
      var body := s.bodyOf(m.body);
      if Thenable(body) then Outcome(t, [], [SubSettled(ctl, m.id, topic, body.outcome)], [], None)
      else Outcome(t, [Subscribe(topic), Respond(Subscribed(m.id, topic, body))], [], [], None)
  }

  /** `requests.get(id)`: a `Map` keyed by numbers, so only a number finds an entry. */
  function PendingFor(requests: map<int, Pending>, id: Value): Option<Pending>
  {
    if id.Num? && id.n in requests then Some(requests[id.n]) else None
  }

  /** `requests.delete(id)` */
  function Forget(requests: map<int, Pending>, id: Value): map<int, Pending>
  {
    if id.Num? then requests - {id.n} else requests
  }

  /** The topic branch: an event, possibly also the response to a
      subscription request. */
  function TopicStep(t: Tables, m: Message): Outcome
  {
    var p := if Defined(m.id) then PendingFor(t.requests, m.id) else None;
    var requests := if Defined(m.id) then Forget(t.requests, m.id) else t.requests;
    Outcome(t.(requests := requests),
            if Truthy(m.body) then [Event(m.topic, m.body)] else [],
            [], if p.Some? then [Resumption(p.value, m)] else [], None)
  }

  /** The id branch: a response to one of this side's requests. */
  function IdStep(t: Tables, m: Message): Outcome
  {
    match PendingFor(t.requests, m.id)
    case None => Quiet(t)
    case Some(p) =>
      var keep := p.kind == StreamKind && !Truthy(m.done);
      Outcome(if keep then t else t.(requests := Forget(t.requests, m.id)), [], [], [Resumption(p, m)], None)
  }

  /** `receiveOne(m, ctl)` */
  function Step(r: Routes, t: Tables, ctl: Controller, m: Message): (o: Outcome)
    requires TablesOk(t)
    ensures TablesOk(o.tables) && |t.gens| <= |o.tables.gens|
    ensures Shrinks(t.requests, o.tables.requests)
    ensures forall j :: j in o.jobs ==> JobOk(o.tables, j)
  {
    match BranchOf(m)
    case CallBranch => CallStep(r, t, ctl, m)
    case StreamBranch => StreamStep(r, t, ctl, m)
    case CancelBranch => CancelStep(t, m)
    case SubBranch => SubStep(r, t, ctl, m)
    case UnsubBranch => Outcome(t, [Unsubscribe(m.unsub)], [], [], None)
    case TopicBranch => TopicStep(t, m)
    case IdBranch => IdStep(t, m)
    case Ignored => Quiet(t)
  }

  /** How a finished stream reports its end. */
  function EndMessage(id: Value, g: Gen): Message
  {
    if g.end.Completes? then Finished(id) else Failure(id, g.end.error)
  }

  /** Running one job. */
  function JobStep(t: Tables, j: Job): (o: Outcome)
    requires TablesOk(t) && JobOk(t, j)
    ensures TablesOk(o.tables) && |o.tables.gens| == |t.gens|
    ensures forall k :: k in o.jobs ==> JobOk(o.tables, k)
    ensures o.resumed == [] && o.thrown == None && |o.jobs| <= 1
    ensures o.tables.requests == t.requests
  {
    match j
    case CallSettled(_, id, outcome) =>
      if outcome.Resolved? then Outcome(t, [Respond(Reply(id, outcome.value))], [], [], None)
      else Outcome(t, [Respond(Failure(id, outcome.reason))], [], [], None)
    case SubSettled(_, id, topic, outcome) =>
      if outcome.Resolved? then Outcome(t, [Subscribe(topic), Respond(Subscribed(id, topic, outcome.value))], [], [], None)
      else Outcome(t, [Respond(Failure(id, outcome.reason))], [], [], None)
    case Pump(ctl, id, h) =>
      var g := t.gens[h];
      if g.pos < |g.values| then
        Outcome(t.(gens := t.gens[h := g.(pos := g.pos + 1)]), [Respond(Reply(id, g.values[g.pos]))],
                [Pump(ctl, id, h)], [], None)
      else
        Outcome(t.(streams := Remove(t.streams, ToStr(id))), [Respond(EndMessage(id, g))], [], [], None)
  }

  /** `a` followed by `b`. */
  function Then(a: Outcome, b: Outcome): Outcome
  {
    Outcome(b.tables, a.effects + b.effects, a.jobs + b.jobs, a.resumed + b.resumed, b.thrown)
  }

  /** `receive` on an array: each element in order, stopping at the first
      one that throws. */
  function Run(r: Routes, t: Tables, ctl: Controller, ms: seq<Message>): (o: Outcome)
    requires TablesOk(t)
    ensures TablesOk(o.tables) && |t.gens| <= |o.tables.gens|
    ensures Shrinks(t.requests, o.tables.requests)
    decreases |ms|
  {
    if ms == [] then Quiet(t)
    else
      var before := Run(r, t, ctl, ms[..|ms| - 1]);
      if before.thrown.Some? then before else Then(before, Step(r, before.tables, ctl, ms[|ms| - 1]))
  }

  /** One more element of a batch is handled after those before it,
      unless one of them threw. */
  lemma RunSnoc(r: Routes, t: Tables, ctl: Controller, ms: seq<Message>, i: nat)
    requires TablesOk(t) && i < |ms|
    ensures var before := Run(r, t, ctl, ms[..i]);
            Run(r, t, ctl, ms[..i + 1]) ==
              if before.thrown.Some? then before else Then(before, Step(r, before.tables, ctl, ms[i]))
  {
    var front := ms[..i + 1];
    assert front[..|front| - 1] == ms[..i] && front[|front| - 1] == ms[i];
  }

  /** A batch of one is handled as that one message alone. */
  lemma RunOne(r: Routes, t: Tables, ctl: Controller, m: Message)
    requires TablesOk(t)
    ensures Run(r, t, ctl, [m]) == Step(r, t, ctl, m)
  {
    assert [m][..0] == [];
    var o := Step(r, t, ctl, m);
    assert Then(Quiet(t), o) == o;
  }

  /** A stream's job run to completion: the pump, then the pump it leaves,
      and so on, at most `fuel` more times. */
  function Drain(t: Tables, j: Job, fuel: nat): (o: Outcome)
    requires TablesOk(t) && JobOk(t, j)
    ensures TablesOk(o.tables)
    decreases fuel
  {
    var first := JobStep(t, j);
    if fuel == 0 || first.jobs == [] then first
    else Then(first.(jobs := []), Drain(first.tables, first.jobs[0], fuel - 1))
  }

  function Replies(id: Value, values: seq<Value>): (r: seq<Effect>)
    ensures |r| == |values| && forall i :: 0 <= i < |r| ==> r[i] == Respond(Reply(id, values[i]))
  {
    if values == [] then [] else [Respond(Reply(id, values[0]))] + Replies(id, values[1..])
  }

  /** `msg` answers request `id`: `{id, body}` or `{id, error}`. */
  ghost predicate Answers(msg: Message, id: Value)
  {
    msg == Reply(id, msg.body) || (msg.error.Str? && msg == Failure(id, msg.error))
  }

  /** A call with an id is answered exactly once, at once or when its
      promise settles, and nothing else happens. */
  lemma CallAnswersExactlyOnce(r: Routes, t: Tables, ctl: Controller, m: Message)
    requires TablesOk(t) && BranchOf(m) == CallBranch && Defined(m.id)
    ensures var o := Step(r, t, ctl, m);
            o.tables == t && o.thrown == None && o.resumed == [] &&
            |o.effects| + |o.jobs| == 1 &&
            (forall e :: e in o.effects ==> e.Respond? && Answers(e.response, m.id)) &&
            (forall j :: j in o.jobs ==>
               (j.CallSettled? &&
                var later := JobStep(t, j);
                |later.effects| == 1 && later.effects[0].Respond? && Answers(later.effects[0].response, m.id) &&
                later.jobs == [] && later.tables == t))
  {
    var o := Step(r, t, ctl, m);
    forall j | j in o.jobs
      ensures j.CallSettled? && var later := JobStep(t, j);
              |later.effects| == 1 && later.effects[0].Respond? && Answers(later.effects[0].response, m.id) &&
              later.jobs == [] && later.tables == t
    {
      assert j.id == m.id;
    }
  }

  /** A call without an id produces nothing, not even on failure. */
  lemma CallWithoutIdIsSilent(r: Routes, t: Tables, ctl: Controller, m: Message)
    requires TablesOk(t) && BranchOf(m) == CallBranch && !Defined(m.id)
    ensures Step(r, t, ctl, m) == Quiet(t)
  {
  }

  /** With no exact handler and no matching pattern, a call with an id is
      answered with the error `api not found`. */
  lemma CallToUnknownPath(r: Routes, t: Tables, ctl: Controller, m: Message)
    requires TablesOk(t) && BranchOf(m) == CallBranch && Defined(m.id)
    requires ToStr(m.path) !in r.posts.entries
    requires forall i :: 0 <= i < |r.otherPosts| ==> !r.otherPosts[i].matches(m.path)
    ensures Step(r, t, ctl, m).effects == [Respond(Blank.(id := m.id, error := Str("api not found")))]
  {
  }

  /** An unknown stream or a stream request without an id throws out of
      `receiveOne`: no response, no change to the tables. */
  lemma StreamRejected(r: Routes, t: Tables, ctl: Controller, m: Message)
    requires TablesOk(t) && BranchOf(m) == StreamBranch
    requires Resolve(r.streams, r.otherStreams, m.stream).None? || !Defined(m.id)
    ensures var o := Step(r, t, ctl, m);
            o.tables == t && o.effects == [] && o.jobs == [] && o.resumed == [] &&
            o.thrown == Some(Str(if Resolve(r.streams, r.otherStreams, m.stream).None? then "api not found"
                                 else "stream requires id"))
  {
  }

  /** A stream handler that starts is stored under the string form of the
      id and pumped later; one that throws at once is answered with its
      error and its key is deleted (the size drops though nothing was
      stored). */
  lemma StreamStarts(r: Routes, t: Tables, ctl: Controller, m: Message, api: StreamHandler)
    requires TablesOk(t) && BranchOf(m) == StreamBranch && Defined(m.id)
    requires Resolve(r.streams, r.otherStreams, m.stream) == Some(api)
    ensures var o := Step(r, t, ctl, m);
            o.tables.requests == t.requests && o.thrown == None &&
            match api(m.body, ctl.state, m.stream)
            case Started(values, end) =>
              o.effects == [] && o.jobs == [Pump(ctl, m.id, |t.gens|)] &&
              Lookup(o.tables.streams, ToStr(m.id)) == Some(|t.gens|) &&
              o.tables.gens == t.gens + [Gen(values, end, 0)]
            case Failed(e) =>
              o.effects == [Respond(Failure(m.id, e))] && o.jobs == [] &&
              Lookup(o.tables.streams, ToStr(m.id)) == None &&
              o.tables.streams.count == t.streams.count - 1
  {
  }

  /** The replies for `values[1..]` follow the reply for `values[0]`. */
  lemma RepliesCons(id: Value, values: seq<Value>, p: nat)
    requires p < |values|
    ensures Replies(id, values[p..]) == [Respond(Reply(id, values[p]))] + Replies(id, values[p + 1..])
  {
    assert values[p..][1..] == values[p + 1..];
  }

  /** A stream run to its end answers each remaining value in order, then
      `{id, done: true}` or `{id, error}`, and its entry is deleted. */
  lemma StreamDrains(t: Tables, ctl: Controller, id: Value, h: nat)
    requires TablesOk(t) && h < |t.gens| && t.gens[h].pos <= |t.gens[h].values|
    ensures var g := t.gens[h];
            var o := Drain(t, Pump(ctl, id, h), |g.values| - g.pos);
            o.effects == Replies(id, g.values[g.pos..]) + [Respond(EndMessage(id, g))] &&
            o.jobs == [] && o.tables.streams == Remove(t.streams, ToStr(id)) &&
            o.tables.requests == t.requests
  {
    var g := t.gens[h];
    DrainFrom(t, ctl, id, h, g, |g.values| - g.pos);
    DrainLeaves(t, ctl, id, h, g, |g.values| - g.pos);
  }

  /** The answers of `StreamDrains` for the stream `g` with `n` values left. */
  lemma {:induction false} DrainFrom(t: Tables, ctl: Controller, id: Value, h: nat, g: Gen, n: nat)
    requires TablesOk(t) && h < |t.gens| && t.gens[h] == g && g.pos + n == |g.values|
    ensures Drain(t, Pump(ctl, id, h), n).effects == Replies(id, g.values[g.pos..]) + [Respond(EndMessage(id, g))]
    decreases n
  {
    if n > 0 {
      var g' := g.(pos := g.pos + 1);
      var t' := t.(gens := t.gens[h := g']);
      var o, rest := Drain(t, Pump(ctl, id, h), n), Drain(t', Pump(ctl, id, h), n - 1);
      var reply, later, end := Respond(Reply(id, g.values[g.pos])), Replies(id, g'.values[g'.pos..]),
                               [Respond(EndMessage(id, g))];
      assert TablesOk(t') && o.effects == [reply] + rest.effects by {
        PumpThenDrain(t, ctl, id, h, g, n);
      }
      assert rest.effects == later + end by {
        DrainFrom(t', ctl, id, h, g', n - 1);
        assert EndMessage(id, g') == EndMessage(id, g);
      }
      assert Replies(id, g.values[g.pos..]) == [reply] + later by {
        RepliesCons(id, g.values, g.pos);
      }
      ConsThenSnoc(reply, later, end);
    } else {
      assert g.values[g.pos..] == [];
    }
  }

  /** The tables of `StreamDrains` for the stream `g` with `n` values left. */
  lemma {:induction false} DrainLeaves(t: Tables, ctl: Controller, id: Value, h: nat, g: Gen, n: nat)
    requires TablesOk(t) && h < |t.gens| && t.gens[h] == g && g.pos + n == |g.values|
    ensures var o := Drain(t, Pump(ctl, id, h), n);
            o.jobs == [] && o.tables.streams == Remove(t.streams, ToStr(id)) && o.tables.requests == t.requests
    decreases n
  {
    if n > 0 {
      var g' := g.(pos := g.pos + 1);
      var t' := t.(gens := t.gens[h := g']);
      PumpThenDrain(t, ctl, id, h, g, n);
      DrainLeaves(t', ctl, id, h, g', n - 1);
    }
  }

  /** A stream with a value left answers it, then drains the rest. */
  lemma PumpThenDrain(t: Tables, ctl: Controller, id: Value, h: nat, g: Gen, n: nat)
    requires TablesOk(t) && h < |t.gens| && t.gens[h] == g && g.pos + n == |g.values| && n > 0
    ensures var t' := t.(gens := t.gens[h := g.(pos := g.pos + 1)]);
            var o := Drain(t, Pump(ctl, id, h), n);
            var rest := Drain(t', Pump(ctl, id, h), n - 1);
            TablesOk(t') &&
            o.effects == [Respond(Reply(id, g.values[g.pos]))] + rest.effects &&
            o.jobs == rest.jobs && o.tables == rest.tables
  {
  }

  lemma ConsThenSnoc<T>(x: T, later: seq<T>, end: seq<T>)
    ensures [x] + (later + end) == ([x] + later) + end
  {
  }

  /** After `{cancel: id}` finds a stream, the step already requested
      still settles: a pending value is answered and the following turn
      ends the stream with `{id, done: true}`; a pending end is answered as
      it is, `done` or the error. Either way the entry is then deleted. */
  lemma CancelAnswersPendingStep(r: Routes, t: Tables, ctl: Controller, m: Message, id: Value, h: nat)
    requires TablesOk(t) && BranchOf(m) == CancelBranch
    requires Lookup(t.streams, ToStr(m.cancel)) == Some(h)
    ensures var o := Step(r, t, ctl, m);
            o.effects == [] && o.thrown == None && h < |o.tables.gens| &&
            var g := t.gens[h];
            var later := Drain(o.tables, Pump(ctl, id, h), 1);
            later.effects == (if g.pos < |g.values| then [Respond(Reply(id, g.values[g.pos])), Respond(Finished(id))]
                              else [Respond(EndMessage(id, g))]) &&
            later.jobs == [] && later.tables.streams == Remove(t.streams, ToStr(id))
  {
    var g := t.gens[h];
    var t1 := t.(gens := t.gens[h := Stopped(g)]);
    assert Step(r, t, ctl, m) == Quiet(t1);
    if g.pos <= |g.values| {
      CancelledStreamDrains(t, ctl, id, h);
      assert Drain(t1, Pump(ctl, id, h), 1) == Drain(t1, Pump(ctl, id, h), |Stopped(g).values| - g.pos) by {
        if g.pos == |g.values| {
          assert JobStep(t1, Pump(ctl, id, h)).jobs == [];
        }
      }
    } else {
      assert JobStep(t1, Pump(ctl, id, h)).jobs == [];
    }
  }

  /** A cancelled stream answers at most one more value: run to its end,
      it answers exactly the value pending when the cancel came, if any,
      and then `done`, or its own end when that was what was pending. */
  lemma CancelledStreamDrains(t: Tables, ctl: Controller, id: Value, h: nat)
    requires TablesOk(t) && h < |t.gens| && t.gens[h].pos <= |t.gens[h].values|
    ensures var g := t.gens[h];
            var c := Stopped(g);
            var t' := t.(gens := t.gens[h := c]);
            var o := Drain(t', Pump(ctl, id, h), |c.values| - c.pos);
            o.effects == (if g.pos < |g.values| then [Respond(Reply(id, g.values[g.pos])), Respond(Finished(id))]
                          else [Respond(EndMessage(id, g))]) &&
            o.jobs == [] && o.tables.streams == Remove(t.streams, ToStr(id))
  {
    var g := t.gens[h];
    var c := Stopped(g);
    var t' := t.(gens := t.gens[h := c]);
    StreamDrains(t', ctl, id, h);
    if g.pos < |g.values| {
      assert c.values[c.pos..] == [g.values[g.pos]];
    } else {
      assert c.values[c.pos..] == [];
    }
  }

  /** A subscription answer: `subscribe(topic)` immediately followed by
      `{id, topic, body}`, or a lone `{id, error}` with no subscribe. */
  ghost predicate SubscribedThenAnswered(es: seq<Effect>, id: Value, topic: string)
  {
    (|es| == 2 && es[0] == Subscribe(topic) && es[1].Respond? && es[1].response == Subscribed(id, topic, es[1].response.body)) ||
    (|es| == 1 && es[0].Respond? && es[0].response.error.Str? && es[0].response == Failure(id, es[0].response.error))
  }

  /** A found subscription subscribes to `prefix` or `prefix/derived`
      before responding, at once or when its body settles; only a rejected
      body skips the subscribe. */
  lemma SubscriptionAnswer(r: Routes, t: Tables, ctl: Controller, m: Message, s: SubView)
    requires TablesOk(t) && BranchOf(m) == SubBranch && FindSub(r, m.sub) == Some(s)
    ensures var topic := Subscriptions.SubscribedTopic(s.prefix, s.topicOf(m.body));
            var body := s.bodyOf(m.body);
            var o := Step(r, t, ctl, m);
            o.tables == t && o.thrown == None && o.resumed == [] &&
            (!Thenable(body) ==> o.jobs == [] && SubscribedThenAnswered(o.effects, m.id, topic) && o.effects[0].Subscribe?) &&
            (Thenable(body) ==>
               (o.effects == [] && |o.jobs| == 1 &&
                var later := JobStep(t, o.jobs[0]);
                later.jobs == [] && SubscribedThenAnswered(later.effects, m.id, topic) &&
                (later.effects[0].Subscribe? <==> body.outcome.Resolved?)))
  {
  }

  /** An unknown subscription is answered with `subscription not found`
      only when the request carries an id. */
  lemma SubscriptionNotFound(r: Routes, t: Tables, ctl: Controller, m: Message)
    requires TablesOk(t) && BranchOf(m) == SubBranch && FindSub(r, m.sub).None?
    ensures var o := Step(r, t, ctl, m);
            o.tables == t && o.jobs == [] &&
            (Defined(m.id) ==> o.effects == [Respond(Blank.(id := m.id, error := Str("subscription not found")))]) &&
            (!Defined(m.id) ==> o.effects == [])
  {
  }

  /** A response whose id matches no pending request is ignored. */
  lemma UnknownIdIgnored(r: Routes, t: Tables, ctl: Controller, m: Message)
    requires TablesOk(t) && BranchOf(m) == IdBranch && PendingFor(t.requests, m.id).None?
    ensures Step(r, t, ctl, m) == Quiet(t)
  {
  }

  /** A response reaches its pending request; the entry is removed unless
      the request was a stream and the response lacks a truthy `done`. */
  lemma ResponseCorrelates(r: Routes, t: Tables, ctl: Controller, m: Message, p: Pending)
    requires TablesOk(t) && BranchOf(m) == IdBranch && PendingFor(t.requests, m.id) == Some(p)
    ensures var o := Step(r, t, ctl, m);
            o.resumed == [Resumption(p, m)] && o.effects == [] && o.jobs == [] && o.thrown == None &&
            (m.id.n !in o.tables.requests <==> !(p.kind == StreamKind && !Truthy(m.done))) &&
            (forall k :: k != m.id.n ==> (k in o.tables.requests <==> k in t.requests))
  {
  }

  /** An `{id, error}` for a stream leaves the stream's entry behind. */
  lemma StreamErrorLeavesEntry(r: Routes, t: Tables, ctl: Controller, n: int, e: Value, p: Pending)
    requires TablesOk(t) && n in t.requests && t.requests[n] == p && p.kind == StreamKind
    ensures var o := Step(r, t, ctl, Failure(Num(n), e));
            n in o.tables.requests && o.resumed == [Resumption(p, Failure(Num(n), e))]
  {
    assert BranchOf(Failure(Num(n), e)) == IdBranch;
  }

  /** A message with a topic always removes its pending entry and raises
      an event exactly when its body is truthy. */
  lemma TopicCorrelates(r: Routes, t: Tables, ctl: Controller, m: Message)
    requires TablesOk(t) && BranchOf(m) == TopicBranch
    ensures var o := Step(r, t, ctl, m);
            (m.id.Num? ==> m.id.n !in o.tables.requests) &&
            (forall k :: (!m.id.Num? || k != m.id.n) ==> (k in o.tables.requests <==> k in t.requests)) &&
            (Truthy(m.body) <==> o.effects == [Event(m.topic, m.body)]) &&
            (!Truthy(m.body) <==> o.effects == []) &&
            (|o.resumed| == 1 <==> PendingFor(t.requests, m.id).Some?)
  {
  }

  /** Answers sent by one channel reach the correlation branches of the
      other: replies, errors and `done` by id, subscription answers by topic. */
  lemma AnswersTakeCorrelationBranches(n: int, v: Value, topic: string)
    ensures BranchOf(Reply(Num(n), v)) == IdBranch
    ensures BranchOf(Failure(Num(n), v)) == IdBranch
    ensures BranchOf(Finished(Num(n))) == IdBranch
    ensures |topic| > 0 ==> BranchOf(Subscribed(Num(n), topic, v)) == TopicBranch
  {
  }

  /** Once a prefix of a batch has thrown, the elements after it are not
      handled at all. */
  lemma {:induction false} RunStopsAtThrow(r: Routes, t: Tables, ctl: Controller, ms: seq<Message>, i: nat)
    requires TablesOk(t) && i <= |ms|
    requires Run(r, t, ctl, ms[..i]).thrown.Some?
    ensures Run(r, t, ctl, ms) == Run(r, t, ctl, ms[..i])
    decreases |ms|
  {
    if |ms| > i {
      var shorter := ms[..|ms| - 1];
      assert shorter[..i] == ms[..i];
      RunStopsAtThrow(r, t, ctl, shorter, i);
    } else {
      assert ms == ms[..i];
    }
  }
}
