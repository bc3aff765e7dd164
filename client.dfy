/** The WebSocket client: `WebSocketClient` numbers requests, keeps every
    request it has sent until its response is settled, and replays all of
    them whenever a socket opens. `connect` ties a channel to such a
    client: requests go out through the client, and the controller it
    hands to `receive` keeps the set of topics the other side subscribed
    to and calls the listener registered for each event's topic. */
module Clients {
  import opened Js
  import opened ObjectMaps
  import opened Protocol
  import opened Channels
  import Senders

  /** The argument of `connect`: a URL, or a port on localhost. */
  datatype Address = Url(url: string) | Port(port: int)

  /** `typeof address === 'string' ? address : `ws://localhost:${address}`` */
  function AddressText(a: Address): string
  {
    match a
    case Url(u) => u
    case Port(p) => "ws://localhost:" + NumberText(p)
  }

  /** Different ports give different addresses. */
  lemma PortsApart(a: int, b: int)
    requires AddressText(Port(a)) == AddressText(Port(b))
    ensures a == b
  {
    var prefix := "ws://localhost:";
    assert NumberText(a) == (prefix + NumberText(a))[|prefix|..];
    assert NumberText(b) == (prefix + NumberText(b))[|prefix|..];
    NumberTextInjective(a, b);
  }

  /** One write to the socket: a request encoded as JSON, the batch of
      pending requests sent on open, or a `notify` body passed as it is,
      without encoding. */
  datatype Frame = Json(body: Message) | JsonBatch(bodies: seq<Message>) | Unencoded(body: Message)

  /** The pending bodies in property order. */
  function InOrder(s: Store<int, Message>): (r: seq<Message>)
    requires WellFormed(s)
    ensures |r| == |s.keys| && forall i :: 0 <= i < |r| ==> r[i] == s.entries[s.keys[i]]
  {
    seq(|s.keys|, i requires 0 <= i < |s.keys| => s.entries[s.keys[i]])
  }

  class WebSocketClient {
    /** The next socket id. */
    var id: int
    const address: string
    /** Whether `ws` is set: a socket has opened and not closed since. */
    var open: bool
    const pending: ObjectMap<int, Message>
    /** Everything written to a socket, in order. */
    var frames: seq<Frame>
    /** Restarts scheduled by `onclose`. */
    var restarts: nat

    ghost predicate Valid()
      reads this, pending
    {
      pending.Valid() && 0 <= id
    }

    /** `new WebSocketClient(address)`: the first socket is being opened. */
    constructor (address: string)
      ensures Valid() && fresh(pending) && this.address == address
      ensures id == 0 && !open && frames == [] && restarts == 0 && pending.Snap() == Store([], map[], 0)
    {
      this.address := address;
      id := 0;
      open := false;
      pending := new ObjectMap();
      frames := [];
      restarts := 0;
    }

    /** `request()`: the current id, then one more. */
    method Request() returns (n: int)
      modifies this
      ensures n == old(id) && id == old(id) + 1
      ensures open == old(open) && frames == old(frames) && restarts == old(restarts)
    {
      n := id;
      id := id + 1;
    }

    /** `send(id, body)`: kept under `id`, replacing any earlier body, and
        written only while a socket is set. */
    method Send(id: int, body: Message) returns (r: int)
      requires Valid()
      modifies this, pending
      ensures Valid() && r == id
      ensures pending.Snap() == Put(old(pending.Snap()), id, body)
      ensures frames == old(frames) + if open then [Json(body)] else []
      ensures this.id == old(this.id) && open == old(open) && restarts == old(restarts)
    {
      pending.Set(id, body);
      if open {
        frames := frames + [Json(body)];
      }
      r := id;
    }

    /** `notify(body)`: written as it is while a socket is set; `pending`
        is not touched. */
    method Notify(body: Message)
      modifies this
      ensures frames == old(frames) + if open then [Unencoded(body)] else []
      ensures id == old(id) && open == old(open) && restarts == old(restarts)
    {
      if open {
        frames := frames + [Unencoded(body)];
      }
    }

    /** `sent(id)`: the request is no longer pending. */
    method Sent(id: int)
      requires Valid()
      modifies pending
      ensures Valid() && pending.Snap() == Remove(old(pending.Snap()), id)
    {
      pending.Delete(id);
    }

    /** `onopen`: the socket is set and every pending body goes out in one
        batch; `pending` is kept. */
    method Opened()
      requires Valid()
      modifies this
      ensures Valid() && open
      ensures frames == old(frames) + [JsonBatch(InOrder(pending.Snap()))]
      ensures id == old(id) && restarts == old(restarts)
    {
      open := true;
      var bodies := pending.Map((b: Message) => b);
      assert bodies == InOrder(pending.Snap());
      frames := frames + [JsonBatch(bodies)];
    }

    /** `onclose`: the socket is cleared and a restart is scheduled,
        every time. */
    method Closed()
      modifies this
      ensures !open && restarts == old(restarts) + 1
      ensures id == old(id) && frames == old(frames)
    {
      open := false;
      restarts := restarts + 1;
    }
  }

  /** The effect of one controller call on the topic set. */
  function Touched(ts: set<Value>, e: Effect): set<Value>
  {
    match e
    case Subscribe(t) => ts + {Str(t)}
    case Unsubscribe(t) => ts - {t}
    case _ => ts
  }

  /** The topic set after a run of controller calls. */
  function TopicsAfter(ts: set<Value>, es: seq<Effect>): set<Value>
    decreases |es|
  {
    if es == [] then ts else Touched(TopicsAfter(ts, es[..|es| - 1]), es[|es| - 1])
  }

  lemma {:induction false} TopicsAfterAppend(ts: set<Value>, a: seq<Effect>, b: seq<Effect>)
    ensures TopicsAfter(ts, a + b) == TopicsAfter(TopicsAfter(ts, a), b)
    decreases |b|
  {
    if b == [] {
      assert a + b == a;
    } else {
      var ab := a + b;
      assert ab[..|ab| - 1] == a + b[..|b| - 1] && ab[|ab| - 1] == b[|b| - 1];
      TopicsAfterAppend(ts, a, b[..|b| - 1]);
    }
  }

  /** `e` adds or removes topic `t`. */
  predicate Touches(e: Effect, t: Value)
  {
    (e.Subscribe? && Str(e.added) == t) || (e.Unsubscribe? && e.removed == t)
  }

  /** A topic is in the set exactly when the last call that touched it
      was a `subscribe`, or no call touched it and it was there before. */
  lemma {:induction false} TopicsAfterMembership(ts: set<Value>, es: seq<Effect>, t: Value)
    ensures t in TopicsAfter(ts, es) <==>
              (exists i :: 0 <= i < |es| && es[i].Subscribe? && Str(es[i].added) == t &&
                           forall j :: i < j < |es| ==> !Touches(es[j], t)) ||
              (t in ts && forall j :: 0 <= j < |es| ==> !Touches(es[j], t))
    decreases |es|
  {
    if es != [] {
      var n := |es| - 1;
      var front := es[..n];
      TopicsAfterMembership(ts, front, t);
      assert forall j :: 0 <= j < n ==> front[j] == es[j];
      if Touches(es[n], t) {
        if es[n].Subscribe? {
          assert 0 <= n < |es| && es[n].Subscribe? && Str(es[n].added) == t;
        } else {
          assert t !in TopicsAfter(ts, es);
          forall i | 0 <= i < |es| && es[i].Subscribe? && Str(es[i].added) == t
            ensures exists j :: i < j < |es| && Touches(es[j], t)
          {
            assert i < n;
          }
        }
      } else {
        assert t in TopicsAfter(ts, es) <==> t in TopicsAfter(ts, front);
        if exists i :: 0 <= i < |es| && es[i].Subscribe? && Str(es[i].added) == t &&
                       forall j :: i < j < |es| ==> !Touches(es[j], t) {
          var i :| 0 <= i < |es| && es[i].Subscribe? && Str(es[i].added) == t &&
                   forall j :: i < j < |es| ==> !Touches(es[j], t);
          assert i < n && front[i] == es[i];
          assert forall j :: i < j < |front| ==> !Touches(front[j], t);
        }
        if exists i :: 0 <= i < |front| && front[i].Subscribe? && Str(front[i].added) == t &&
                       forall j :: i < j < |front| ==> !Touches(front[j], t) {
          var i :| 0 <= i < |front| && front[i].Subscribe? && Str(front[i].added) == t &&
                   forall j :: i < j < |front| ==> !Touches(front[j], t);
          assert forall j :: i < j < |es| ==> !Touches(es[j], t);
        }
      }
    }
  }

  /** The listener call an `event` makes: the one registered for the
      topic, if any. */
  function HeardOne(subscribed: map<Value, nat>, e: Effect): seq<(nat, Value)>
  {
    if e.Event? && e.topic in subscribed then [(subscribed[e.topic], e.body)] else []
  }

  function Heard(subscribed: map<Value, nat>, es: seq<Effect>): seq<(nat, Value)>
    decreases |es|
  {
    if es == [] then [] else Heard(subscribed, es[..|es| - 1]) + HeardOne(subscribed, es[|es| - 1])
  }

  /** What a `response` call writes while a socket is set. */
  function NotedOne(e: Effect): seq<Frame>
  {
    if e.Respond? then [Unencoded(e.response)] else []
  }

  function Noted(es: seq<Effect>): seq<Frame>
    decreases |es|
  {
    if es == [] then [] else Noted(es[..|es| - 1]) + NotedOne(es[|es| - 1])
  }

  /** The socket id a response settles, if the request was made by the
      client's `send` (socket ids in `sends`) or `subscribe` (in `subs`). */
  function SocketOf(sends: map<int, int>, subs: map<int, (int, nat)>, r: Resumption): Option<int>
  {
    var k := r.pending.request.id;
    if k.Num? && k.n in sends then Some(sends[k.n])
    else if k.Num? && k.n in subs then Some(subs[k.n].0)
    else None
  }

  /** The object `connect` returns, with the state its closures share:
      `topics`, `subscribed`, and for each request the socket id it was
      sent under (and, for a subscription, its listener), by channel
      request id. */
  class Client {
    const ch: Channel
    const ws: WebSocketClient
    var topics: set<Value>
    var subscribed: map<Value, nat>
    /** Listener calls made, in order: the listener and the event body. */
    var heard: seq<(nat, Value)>
    var sends: map<int, int>
    var subs: map<int, (int, nat)>
    /** How each promise of `send` and `subscribe` settled. */
    var settled: map<int, Senders.Answer>

    ghost predicate Valid()
      reads this, ch, ch.postApi, ch.streamApi, ch.streams, ws, ws.pending
    {
      ch.Valid() && ws.Valid() &&
      ws.pending as object != ch.postApi as object && ws.pending as object != ch.streamApi as object &&
      ws.pending as object != ch.streams as object
    }

    /** `channel.connect(address)` */
    constructor (ch: Channel, address: Address)
      requires ch.Valid()
      ensures Valid() && this.ch == ch && fresh(ws) && fresh(ws.pending)
      ensures ws.address == AddressText(address) && ws.id == 0 && !ws.open && ws.frames == []
      ensures ws.pending.Snap() == Store([], map[], 0)
      ensures topics == {} && subscribed == map[] && heard == [] && sends == map[] && subs == map[] && settled == map[]
    {
      this.ch := ch;
      ws := new WebSocketClient(AddressText(address));
      topics := {};
      subscribed := map[];
      heard := [];
      sends := map[];
      subs := map[];
      settled := map[];
    }

    /** `send(path, body)`: a socket id, then a call request through the
        channel, kept and written by the client under that socket id. */
    method Send(path: string, body: Value) returns (id: int)
      requires Valid()
      modifies this, ch, ws, ws.pending
      ensures Valid()
      ensures var request := Blank.(id := Num(id), path := Str(path), body := body);
              id == old(ch.nextId) && ch.nextId == id + 1 &&
              ch.requests == old(ch.requests)[id := Pending(CallKind, request)] &&
              ws.id == old(ws.id) + 1 && sends == old(sends)[id := old(ws.id)] &&
              ws.pending.Snap() == Put(old(ws.pending.Snap()), old(ws.id), request) &&
              ws.frames == old(ws.frames) + if ws.open then [Json(request)] else []
      ensures ws.open == old(ws.open) && subs == old(subs) && settled == old(settled)
      ensures topics == old(topics) && subscribed == old(subscribed) && heard == old(heard)
      ensures ch.Handlers() == old(ch.Handlers()) && ch.gens == old(ch.gens)
    {
      var sid := SocketRequest();
      id := ch.nextId;
      var request := ch.MakeRequest(path, body);
      sends := sends[id := sid];
      SocketSend(sid, request);
    }

    /** `subscribe(path, body, event)`: as `send`, with a subscription
        request whose callback will register `event`. */
    method Subscribe(path: string, body: Value, listener: nat) returns (id: int)
      requires Valid()
      modifies this, ch, ws, ws.pending
      ensures Valid()
      ensures var request := Blank.(id := Num(id), sub := Str(path), body := body);
              id == old(ch.nextId) && ch.nextId == id + 1 &&
              ch.requests == old(ch.requests)[id := Pending(SubKind, request)] &&
              ws.id == old(ws.id) + 1 && subs == old(subs)[id := (old(ws.id), listener)] &&
              ws.pending.Snap() == Put(old(ws.pending.Snap()), old(ws.id), request) &&
              ws.frames == old(ws.frames) + if ws.open then [Json(request)] else []
      ensures ws.open == old(ws.open) && sends == old(sends) && settled == old(settled)
      ensures topics == old(topics) && subscribed == old(subscribed) && heard == old(heard)
      ensures ch.Handlers() == old(ch.Handlers()) && ch.gens == old(ch.gens)
    {
      var sid := SocketRequest();
      id := ch.nextId;
      var request := ch.MakeSubscription(path, body);
      subs := subs[id := (sid, listener)];
      SocketSend(sid, request);
    }

    /** `ws.request()`, which leaves the channel as it was. */
    method SocketRequest() returns (sid: int)
      requires Valid()
      modifies ws
      ensures Valid() && sid == old(ws.id) && ws.id == sid + 1
      ensures ws.open == old(ws.open) && ws.frames == old(ws.frames)
      ensures ch.Handlers() == old(ch.Handlers())
    {
      sid := ws.Request();
    }

    /** `ws.send(sid, request)`, which leaves the channel as it was. */
    method SocketSend(sid: int, request: Message)
      requires Valid()
      modifies ws, ws.pending
      ensures Valid() && ws.id == old(ws.id) && ws.open == old(ws.open)
      ensures ws.pending.Snap() == Put(old(ws.pending.Snap()), sid, request)
      ensures ws.frames == old(ws.frames) + if ws.open then [Json(request)] else []
      ensures ch.Handlers() == old(ch.Handlers())
    {
      var _ := ws.Send(sid, request);
    }

    /** The callback of `send`: settles the promise (only the first
        settlement counts), then `ws.sent(id)` on either outcome. */
    method SendSettled(id: int, response: Message)
      requires Valid() && id in sends
      modifies this, ws.pending
      ensures Valid()
      ensures ws.pending.Snap() == Remove(old(ws.pending.Snap()), old(sends)[id])
      ensures settled == if id in old(settled) then old(settled) else old(settled)[id := Senders.SendAnswer(response)]
      ensures sends == old(sends) && subs == old(subs) && topics == old(topics) && subscribed == old(subscribed)
      ensures heard == old(heard)
    {
      if id !in settled {
        settled := settled[id := Senders.SendAnswer(response)];
      }
      ws.Sent(sends[id]);
    }

    /** The callback of `subscribe`: a truthy `error` rejects; otherwise
        the listener replaces any earlier one for `response.topic` and the
        promise resolves with the topic. Either way `ws.sent(id)`. */
    method SubscribeSettled(id: int, response: Message)
      requires Valid() && id in subs
      modifies this, ws.pending
      ensures Valid()
      ensures ws.pending.Snap() == Remove(old(ws.pending.Snap()), old(subs)[id].0)
      ensures Truthy(response.error) ==>
                subscribed == old(subscribed) &&
                settled == if id in old(settled) then old(settled) else old(settled)[id := Senders.Refused(response.error)]
      ensures !Truthy(response.error) ==>
                subscribed == old(subscribed)[response.topic := old(subs)[id].1] &&
                settled == if id in old(settled) then old(settled) else old(settled)[id := Senders.Fulfilled(response.topic)]
      ensures sends == old(sends) && subs == old(subs) && topics == old(topics) && heard == old(heard)
    {
      var answer;
      if Truthy(response.error) {
        answer := Senders.Refused(response.error);
      } else {
        subscribed := subscribed[response.topic := subs[id].1];
        answer := Senders.Fulfilled(response.topic);
      }
      if id !in settled {
        settled := settled[id := answer];
      }
      ws.Sent(subs[id].0);
    }

    /** A response the channel hands back: the callback of the `send` or
        `subscribe` that made the request runs. */
    method Dispatch(r: Resumption)
      requires Valid()
      modifies this, ws.pending
      ensures Valid()
      ensures sends == old(sends) && subs == old(subs) && topics == old(topics) && heard == old(heard)
      ensures var s := SocketOf(sends, subs, r);
              ws.pending.Snap() == if s.Some? then Remove(old(ws.pending.Snap()), s.value) else old(ws.pending.Snap())
      ensures var k := r.pending.request.id;
              var answer :=
                if k.Num? && k.n in sends then Senders.SendAnswer(r.response)
                else if Truthy(r.response.error) then Senders.Refused(r.response.error)
                else Senders.Fulfilled(r.response.topic);
              if k.Num? && (k.n in sends || k.n in subs) then
                settled == (if k.n in old(settled) then old(settled) else old(settled)[k.n := answer]) &&
                subscribed == (if k.n !in sends && !Truthy(r.response.error)
                               then old(subscribed)[r.response.topic := subs[k.n].1]
                               else old(subscribed))
              else
                settled == old(settled) && subscribed == old(subscribed)
    {
      var k := r.pending.request.id;
      if k.Num? && k.n in sends {
        SendSettled(k.n, r.response);
      } else if k.Num? && k.n in subs {
        SubscribeSettled(k.n, r.response);
      }
    }

    /** Responses handed back in order. Every request of this client among
        them leaves `pending`, and nothing is added to it. */
    method DispatchAll(rs: seq<Resumption>)
      requires Valid()
      modifies this, ws.pending
      ensures Valid()
      ensures sends == old(sends) && subs == old(subs) && topics == old(topics) && heard == old(heard)
      ensures ws.pending.storage.Keys <= old(ws.pending.storage.Keys)
      ensures forall r :: r in rs && SocketOf(sends, subs, r).Some? ==> SocketOf(sends, subs, r).value !in ws.pending.storage
    {
      var i := 0;
      while i < |rs|
        invariant 0 <= i <= |rs| && Valid()
        invariant sends == old(sends) && subs == old(subs) && topics == old(topics) && heard == old(heard)
        invariant ws.pending.storage.Keys <= old(ws.pending.storage.Keys)
        invariant forall j :: 0 <= j < i && SocketOf(sends, subs, rs[j]).Some? ==>
                    SocketOf(sends, subs, rs[j]).value !in ws.pending.storage
      {
        Dispatch(rs[i]);
        i := i + 1;
      }
    }

    /** One call on the controller `connect` passes to `receive`. */
    method Perform(e: Effect)
      requires Valid()
      modifies this, ws
      ensures Valid()
      ensures topics == Touched(old(topics), e)
      ensures heard == old(heard) + HeardOne(subscribed, e)
      ensures ws.frames == old(ws.frames) + if ws.open then NotedOne(e) else []
      ensures subscribed == old(subscribed) && sends == old(sends) && subs == old(subs) && settled == old(settled)
      ensures ws.open == old(ws.open) && ws.id == old(ws.id)
    {
      match e
      case Respond(m) => ws.Notify(m);
      case Subscribe(t) => topics := topics + {Str(t)};
      case Unsubscribe(t) => topics := topics - {t};
      case Event(t, b) =>
        if t in subscribed {
          heard := heard + [(subscribed[t], b)];
        }
    }

    /** Controller calls in order. */
    method PerformAll(es: seq<Effect>)
      requires Valid()
      modifies this, ws
      ensures Valid()
      ensures topics == TopicsAfter(old(topics), es)
      ensures heard == old(heard) + Heard(subscribed, es)
      ensures ws.frames == old(ws.frames) + if ws.open then Noted(es) else []
      ensures subscribed == old(subscribed) && sends == old(sends) && subs == old(subs) && settled == old(settled)
      ensures ws.open == old(ws.open) && ws.id == old(ws.id)
    {
      var i := 0;
      while i < |es|
        invariant 0 <= i <= |es| && Valid()
        invariant topics == TopicsAfter(old(topics), es[..i])
        invariant heard == old(heard) + Heard(subscribed, es[..i])
        invariant ws.frames == old(ws.frames) + if ws.open then Noted(es[..i]) else []
        invariant subscribed == old(subscribed) && sends == old(sends) && subs == old(subs) && settled == old(settled)
        invariant ws.open == old(ws.open) && ws.id == old(ws.id)
      {
        var front := es[..i + 1];
        assert front[..i] == es[..i] && front[i] == es[i];
        Perform(es[i]);
        i := i + 1;
      }
      assert es[..i] == es;
    }

    /** The socket's `onmessage` once the data is parsed:
        `ch.receive(message, controller)` with a new controller. The
        channel handles the messages in order; each message's callbacks
        run before its controller calls, as in `receiveOne`, whose topic
        branch resumes a subscription before it calls `event`. */
    method OnMessage(input: Inbound) returns (ctl: Controller, jobs: seq<Job>, resumed: seq<Resumption>, thrown: Option<Value>)
      requires Valid()
      modifies this, ch, ch.streams, ws, ws.pending
      ensures Valid() && fresh(ctl)
      ensures ch.Reflects(Run(old(ch.Handlers()), old(ch.State()), ctl, Items(input)), ctl, [], jobs, resumed, thrown)
      ensures ch.Handlers() == old(ch.Handlers()) && ch.nextId == old(ch.nextId)
      ensures topics == TopicsAfter(old(topics), ctl.log)
      ensures sends == old(sends) && subs == old(subs)
      ensures ws.pending.storage.Keys <= old(ws.pending.storage.Keys)
      ensures forall r :: r in resumed && SocketOf(sends, subs, r).Some? ==> SocketOf(sends, subs, r).value !in ws.pending.storage
    {
      ctl := new Controller(Undefined);
      var ms := Items(input);
      ghost var r0, t0, ts0 := ch.Handlers(), ch.State(), topics;
      jobs, resumed, thrown := [], [], None;
      var i := 0;
      while i < |ms| && thrown.None?
        invariant 0 <= i <= |ms| && Valid() && ch.Handlers() == r0 && ch.nextId == old(ch.nextId)
        invariant ch.Reflects(Run(r0, t0, ctl, ms[..i]), ctl, [], jobs, resumed, thrown)
        invariant topics == TopicsAfter(ts0, ctl.log)
        invariant sends == old(sends) && subs == old(subs)
        invariant ws.pending.storage.Keys <= old(ws.pending.storage.Keys)
        invariant forall r :: r in resumed && SocketOf(sends, subs, r).Some? ==> SocketOf(sends, subs, r).value !in ws.pending.storage
      {
        jobs, resumed, thrown := OnMessageNext(ms, i, ctl, r0, t0, ts0, jobs, resumed);
        i := i + 1;
      }
      if thrown.Some? {
        RunStopsAtThrow(r0, t0, ctl, ms, i);
      } else {
        assert ms[..i] == ms;
      }
    }

    /** One message of `OnMessage`, after those before it. */
    method OnMessageNext(ms: seq<Message>, i: nat, ctl: Controller, ghost r0: Routes, ghost t0: Tables,
                         ghost ts0: set<Value>, jobs: seq<Job>, resumed: seq<Resumption>)
      returns (jobs': seq<Job>, resumed': seq<Resumption>, thrown: Option<Value>)
      requires Valid() && i < |ms| && ch.Handlers() == r0 && TablesOk(t0)
      requires ch.Reflects(Run(r0, t0, ctl, ms[..i]), ctl, [], jobs, resumed, None)
      requires topics == TopicsAfter(ts0, ctl.log)
      requires forall r :: r in resumed && SocketOf(sends, subs, r).Some? ==> SocketOf(sends, subs, r).value !in ws.pending.storage
      modifies this, ch, ch.streams, ctl, ws, ws.pending
      ensures Valid() && ch.Handlers() == r0 && ch.nextId == old(ch.nextId)
      ensures ch.Reflects(Run(r0, t0, ctl, ms[..i + 1]), ctl, [], jobs', resumed', thrown)
      ensures topics == TopicsAfter(ts0, ctl.log)
      ensures sends == old(sends) && subs == old(subs)
      ensures ws.pending.storage.Keys <= old(ws.pending.storage.Keys)
      ensures forall r :: r in resumed' && SocketOf(sends, subs, r).Some? ==> SocketOf(sends, subs, r).value !in ws.pending.storage
    {
      var rs, es;
      ghost var log1 := ctl.log;
      jobs', resumed', thrown, rs, es := ReceiveNext(ms, i, ctl, r0, t0, jobs, resumed);
      Handle(resumed, rs, es, ts0, log1);
    }

    /** The channel's turn for one message: what it resumed (`rs`) and
        the controller calls it made (`es`) come after those before. */
    method ReceiveNext(ms: seq<Message>, i: nat, ctl: Controller, ghost r0: Routes, ghost t0: Tables,
                       jobs: seq<Job>, resumed: seq<Resumption>)
      returns (jobs': seq<Job>, resumed': seq<Resumption>, thrown: Option<Value>, rs: seq<Resumption>, es: seq<Effect>)
      requires Valid() && i < |ms| && ch.Handlers() == r0 && TablesOk(t0)
      requires ch.Reflects(Run(r0, t0, ctl, ms[..i]), ctl, [], jobs, resumed, None)
      modifies ch, ch.streams, ctl
      ensures Valid() && ch.Handlers() == r0 && ch.nextId == old(ch.nextId)
      ensures ch.Reflects(Run(r0, t0, ctl, ms[..i + 1]), ctl, [], jobs', resumed', thrown)
      ensures resumed' == resumed + rs && ctl.log == old(ctl.log) + es
    {
      RunSnoc(r0, t0, ctl, ms, i);
      ghost var before := Run(r0, t0, ctl, ms[..i]);
      ghost var o := Step(r0, before.tables, ctl, ms[i]);
      var log1 := ctl.log;
      var js;
      js, rs, thrown := ch.ReceiveOne(ms[i], ctl);
      assert ch.Reflects(o, ctl, log1, js, rs, thrown);
      jobs', resumed', es := jobs + js, resumed + rs, ctl.log[|log1|..];
      assert es == o.effects;
      AppendAssoc([], before.effects, o.effects);
    }

    /** What one message leaves for the client: the callbacks of the
        responses `rs` it resumed, then its controller calls `es`. */
    method Handle(earlier: seq<Resumption>, rs: seq<Resumption>, es: seq<Effect>, ghost ts0: set<Value>, ghost log1: seq<Effect>)
      requires Valid() && topics == TopicsAfter(ts0, log1)
      requires forall r :: r in earlier && SocketOf(sends, subs, r).Some? ==> SocketOf(sends, subs, r).value !in ws.pending.storage
      modifies this, ws, ws.pending
      ensures Valid() && topics == TopicsAfter(ts0, log1 + es)
      ensures sends == old(sends) && subs == old(subs)
      ensures ws.pending.storage.Keys <= old(ws.pending.storage.Keys)
      ensures forall r :: r in earlier + rs && SocketOf(sends, subs, r).Some? ==> SocketOf(sends, subs, r).value !in ws.pending.storage
    {
      DispatchAll(rs);
      forall r | r in earlier + rs && SocketOf(sends, subs, r).Some?
        ensures SocketOf(sends, subs, r).value !in ws.pending.storage
      {
        if r !in rs {
          assert r in earlier;
        }
      }
      PerformAll(es);
      TopicsAfterAppend(ts0, log1, es);
    }
  }
}