/** The caller side of a channel: `makeSender` turns `send`, `values` and
    `subscribe` into requests made through the channel, sends them over a
    connection, and settles the caller's promise when the response comes
    back. There are two copies: the current one in channel.ts and an
    earlier one in sender.ts. They differ in `send` (only the current one
    reports `sent(id)`), in `subscribe` (the current one resolves with a
    cancellable, the earlier one with the topic) and in `unsubscribe`
    (only the earlier one has it). Promises are explicit: a settle method
    is the response callback the channel calls, and its effect on the
    caller's promise is recorded. */
module Senders {
  import opened Js
  import opened ObjectMaps
  import opened Protocol
  import opened Channels

  /** Which copy of `makeSender`. */
  datatype Revision = Current | Earlier

  /** One call made on the connection. */
  datatype Call =
    | Send(body: Message)
    | Sent(id: Value)
    | Cancel(id: Value)
    | Notify(body: Message)
    | AddTopic(topic: Value, listener: nat)
    | RemoveTopic(topic: Value)
    | Remover(topic: Value, handle: nat)
    | Stop

  /** The connection a sender is made with. It records every call made on
      it; what each call returns is fixed in advance by `results`, indexed
      by the call's position in the log. */
  class Connection {
    var log: seq<Call>
    const results: nat -> Value

    constructor (results: nat -> Value)
      ensures log == [] && this.results == results
    {
      log := [];
      this.results := results;
    }

    /** `send(body)`, returning the transport id. */
    method Send(body: Message) returns (id: Value)
      modifies this
      ensures log == old(log) + [Call.Send(body)] && id == results(|old(log)|)
    {
      id := results(|log|);
      log := log + [Call.Send(body)];
    }

    /** `sent(id)` */
    method Sent(id: Value)
      modifies this
      ensures log == old(log) + [Call.Sent(id)]
    {
      log := log + [Call.Sent(id)];
    }

    /** `cancel(id)`: whether the transport withdrew the request itself. */
    method Cancel(id: Value) returns (withdrawn: bool)
      modifies this
      ensures log == old(log) + [Call.Cancel(id)] && withdrawn == Truthy(results(|old(log)|))
    {
      withdrawn := Truthy(results(|log|));
      log := log + [Call.Cancel(id)];
    }

    /** `notify(body)` */
    method Notify(body: Message)
      modifies this
      ensures log == old(log) + [Call.Notify(body)]
    {
      log := log + [Call.Notify(body)];
    }

    /** `addTopic(topic, event)`. The current connection returns a remover
        function, named here by the position of this call in the log. */
    method AddTopic(topic: Value, listener: nat) returns (handle: nat)
      modifies this
      ensures log == old(log) + [Call.AddTopic(topic, listener)] && handle == |old(log)|
    {
      handle := |log|;
      log := log + [Call.AddTopic(topic, listener)];
    }

    /** `removeTopic(topic)` */
    method RemoveTopic(topic: Value)
      modifies this
      ensures log == old(log) + [Call.RemoveTopic(topic)]
    {
      log := log + [Call.RemoveTopic(topic)];
    }

    /** Calling the remover `addTopic` returned: whether it removed. */
    method CallRemover(topic: Value, handle: nat) returns (removed: bool)
      modifies this
      ensures log == old(log) + [Call.Remover(topic, handle)] && removed == Truthy(results(|old(log)|))
    {
      removed := Truthy(results(|log|));
      log := log + [Call.Remover(topic, handle)];
    }

    /** `stop()` */
    method Stop()
      modifies this
      ensures log == old(log) + [Call.Stop]
    {
      log := log + [Call.Stop];
    }
  }

  /** How a promise of `send` or `subscribe` settled. `Cancellable` is the
      `{ cancel() }` object the current `subscribe` resolves with. */
  datatype Answer = Fulfilled(value: Value) | Refused(error: Value) | Cancellable(topic: Value, handle: nat)

  /** The settlement of `send` for a response: a truthy `error` rejects
      with it; anything else resolves with `body`. */
  function SendAnswer(response: Message): (a: Answer)
    ensures a.Refused? <==> Truthy(response.error)
    ensures a.Refused? ==> a.error == response.error
    ensures !a.Refused? ==> a == Fulfilled(response.body)
  {
    if Truthy(response.error) then Refused(response.error) else Fulfilled(response.body)
  }

  /** `{ unsub: topic }` */
  function Unsub(topic: Value): Message
  {
    Blank.(unsub := topic)
  }

  /** `{ cancel: rid }` */
  function CancelRequest(rid: int): Message
  {
    Blank.(cancel := Num(rid))
  }

  /** What `onCancel(rid)` of `values` does on the connection, given the
      transport id `tid` captured when the stream request was sent and
      what `connection.cancel(tid)` returns. */
  function CancelCalls(tid: Value, rid: int, withdrawn: Value): (r: seq<Call>)
    ensures Call.Send(CancelRequest(rid)) in r <==> Truthy(tid) && !Truthy(withdrawn)
    ensures r != [] <==> Truthy(tid)
    ensures r != [] ==> r[0] == Call.Cancel(tid) && |r| <= 2
  {
    if Truthy(tid) then
      [Call.Cancel(tid)] + (if Truthy(withdrawn) then [] else [Call.Send(CancelRequest(rid))])
    else []
  }

  /** What `processResponse` makes of a response: an iterator result, or
      the error it throws. */
  datatype IterResult = Yields(value: Value, done: bool) | Throws(error: Value)

  function ProcessResponse(m: Message): (r: IterResult)
    ensures r.Throws? <==> Truthy(m.error)
    ensures r.Throws? ==> r.error == m.error
    ensures r.Yields? ==> r.value == m.body && (r.done <==> Truthy(m.done))
  {
    if Truthy(m.error) then Throws(m.error) else Yields(m.body, Truthy(m.done))
  }

  /** What a `Values` consumer sees of the responses a channel sends for a
      stream: each value as a result that is not done, then a done result
      when the stream completes, or the error as a throw.
      An error whose string form is empty is not truthy, so it reads as an
      undefined value that is not done. */
  lemma StreamAsSeen(id: Value, g: Gen)
    ensures forall v :: ProcessResponse(Reply(id, v)) == Yields(v, false)
    ensures g.end.Completes? ==> ProcessResponse(EndMessage(id, g)) == Yields(Undefined, true)
    ensures g.end.Fails? && ToStr(g.end.error) != "" ==>
              ProcessResponse(EndMessage(id, g)) == Throws(Str(ToStr(g.end.error)))
    ensures g.end.Fails? && ToStr(g.end.error) == "" ==>
              ProcessResponse(EndMessage(id, g)) == Yields(Undefined, false)
  {
  }

  /** The consumer side of a `Values`: the waiters `next` has queued
      (oldest first, each named by the number of its `next` call), the
      responses that found no waiter, and how each `next` call settled. */
  datatype Waiting = Waiting(pending: seq<nat>, queued: seq<Message>, settled: map<nat, IterResult>)

  /** The response callback of `start`: the oldest waiter gets the
      response, or it is queued when nobody waits. */
  function Hand(w: Waiting, m: Message): Waiting
  {
    if w.pending != [] then Waiting(w.pending[1..], w.queued, w.settled[w.pending[0] := ProcessResponse(m)])
    else Waiting([], w.queued + [m], w.settled)
  }

  /** Responses arriving one after another. */
  function HandAll(w: Waiting, ms: seq<Message>): Waiting
    decreases |ms|
  {
    if ms == [] then w else HandAll(Hand(w, ms[0]), ms[1..])
  }

  function Min(a: nat, b: nat): nat
  {
    if a < b then a else b
  }

  /** Responses go to the waiters in the order they queued: the i-th
      response settles the i-th waiter, responses beyond the waiters are
      appended to `queued`, waiters beyond the responses keep waiting, and
      no other settlement changes. */
  lemma {:induction false} HandAllInOrder(w: Waiting, ms: seq<Message>)
    requires Distinct(w.pending)
    ensures var n := Min(|w.pending|, |ms|);
            var r := HandAll(w, ms);
            r.pending == w.pending[n..] && r.queued == w.queued + ms[n..] &&
            (forall i :: 0 <= i < n ==> w.pending[i] in r.settled && r.settled[w.pending[i]] == ProcessResponse(ms[i])) &&
            (forall t :: t in w.settled && t !in w.pending[..n] ==> t in r.settled && r.settled[t] == w.settled[t])
    decreases |ms|
  {
    if ms != [] {
      var h := Hand(w, ms[0]);
      var n := Min(|w.pending|, |ms|);
      var r := HandAll(w, ms);
      assert r == HandAll(h, ms[1..]);
      if w.pending != [] {
        HeadNotInTail(w.pending);
        assert Distinct(h.pending);
        HandAllInOrder(h, ms[1..]);
        assert Min(|h.pending|, |ms[1..]|) == n - 1;
        forall i | 0 <= i < n
          ensures w.pending[i] in r.settled && r.settled[w.pending[i]] == ProcessResponse(ms[i])
        {
          if i == 0 {
            assert w.pending[0] !in h.pending[..n - 1];
          } else {
            assert h.pending[i - 1] == w.pending[i] && ms[1..][i - 1] == ms[i];
          }
        }
        forall t | t in w.settled && t !in w.pending[..n]
          ensures t in r.settled && r.settled[t] == w.settled[t]
        {
          assert w.pending[0] in w.pending[..n];
          assert t != w.pending[0];
          assert forall x :: x in h.pending[..n - 1] ==> x in w.pending[..n];
        }
        assert ms[1..][n - 1..] == ms[n..];
      } else {
        HandAllInOrder(h, ms[1..]);
        assert h.queued + ms[1..] == w.queued + ms;
      }
    }
  }

  /** The iterator `values(path, body)` returns. Nothing happens until the
      first `next`, which sends the one stream request this iterator will
      ever send. Its `onSend` and `onCancel` are those of `values`, whose
      captured transport id is `tid`. */
  class Values {
    const ch: Channel
    const connection: Connection
    const path: string
    const body: Value
    var isRunning: bool
    var pending: seq<nat>
    var queued: seq<Message>
    var settled: map<nat, IterResult>
    /** The id of the stream request, once sent. */
    var rid: Option<int>
    /** The transport id `connection.send` returned for it. */
    var tid: Option<Value>
    /** How many times `next` has been called. */
    var calls: nat

    function Waiters(): Waiting
      reads this
    {
      Waiting(pending, queued, settled)
    }

    /** Waiters are distinct earlier `next` calls that have not settled;
        the request id and the transport id are known exactly when the
        iterator runs. */
    ghost predicate Valid()
      reads this
    {
      Distinct(pending) &&
      (forall i :: 0 <= i < |pending| ==> pending[i] < calls && pending[i] !in settled) &&
      (forall t :: t in settled ==> t < calls) &&
      (isRunning <==> rid.Some?) && (isRunning <==> tid.Some?)
    }

    constructor (ch: Channel, connection: Connection, path: string, body: Value)
      ensures Valid() && !isRunning && Waiters() == Waiting([], [], map[]) && calls == 0
      ensures this.ch == ch && this.connection == connection && this.path == path && this.body == body
    {
      this.ch := ch;
      this.connection := connection;
      this.path := path;
      this.body := body;
      isRunning := false;
      pending := [];
      queued := [];
      settled := map[];
      rid := None;
      tid := None;
      calls := 0;
    }

    /** `start()`: the first call sends `{id, stream, body}` under the
        channel's next id and remembers both ids; later calls do nothing. */
    method Start()
      requires Valid() && ch.Valid()
      modifies this`isRunning, this`rid, this`tid, ch, connection
      ensures Valid() && ch.Valid() && isRunning
      ensures Waiters() == old(Waiters()) && calls == old(calls)
      ensures old(isRunning) ==> rid == old(rid) && tid == old(tid) && unchanged(ch, connection)
      ensures !old(isRunning) ==>
                var request := Blank.(id := Num(old(ch.nextId)), stream := Str(path), body := body);
                rid == Some(old(ch.nextId)) && ch.nextId == old(ch.nextId) + 1 &&
                ch.requests == old(ch.requests)[old(ch.nextId) := Pending(StreamKind, request)] &&
                connection.log == old(connection.log) + [Call.Send(request)] &&
                tid == Some(connection.results(|old(connection.log)|))
      ensures ch.Handlers() == old(ch.Handlers()) && ch.gens == old(ch.gens)
    {
      if isRunning {
        return;
      }
      var request := ch.MakeStream(path, body);
      isRunning, rid := true, Some(request.id.n);
      OnSend(request);
    }

    /** `onSend(request)`: the closure `values` passes, which sends the
        request and keeps the transport id it gets back. */
    method OnSend(request: Message)
      requires ch.Valid()
      modifies this`tid, connection
      ensures connection.log == old(connection.log) + [Call.Send(request)]
      ensures tid == Some(connection.results(|old(connection.log)|))
      ensures ch.Valid() && ch.Handlers() == old(ch.Handlers())
    {
      var id := connection.Send(request);
      tid := Some(id);
    }

    /** `next()`: queues a waiter for the next response, then starts. The
        result is settled later, by `OnResponse`, under the returned call
        number. */
    method Next() returns (ticket: nat)
      requires Valid() && ch.Valid()
      modifies this, ch, connection
      ensures Valid() && ch.Valid() && isRunning
      ensures ticket == old(calls) && calls == old(calls) + 1
      ensures pending == old(pending) + [ticket] && queued == old(queued) && settled == old(settled)
      ensures old(isRunning) ==> rid == old(rid) && tid == old(tid) && unchanged(ch, connection)
      ensures !old(isRunning) ==>
                var request := Blank.(id := Num(old(ch.nextId)), stream := Str(path), body := body);
                rid == Some(old(ch.nextId)) && ch.nextId == old(ch.nextId) + 1 &&
                ch.requests == old(ch.requests)[old(ch.nextId) := Pending(StreamKind, request)] &&
                connection.log == old(connection.log) + [Call.Send(request)] &&
                tid == Some(connection.results(|old(connection.log)|))
      ensures ch.Handlers() == old(ch.Handlers()) && ch.gens == old(ch.gens)
    {
      ticket := calls;
      pending := pending + [ticket];
      calls := calls + 1;
      Start();
    }

    /** The response callback of the stream request. */
    method OnResponse(m: Message)
      requires Valid()
      modifies this
      ensures Valid()
      ensures Waiters() == Hand(old(Waiters()), m)
      ensures isRunning == old(isRunning) && rid == old(rid) && tid == old(tid) && calls == old(calls)
    {
      if pending != [] {
        HeadNotInTail(pending);
        settled := settled[pending[0] := ProcessResponse(m)];
        pending := pending[1..];
      } else {
        queued := queued + [m];
      }
    }

    /** `return()`: cancels, then reports done. Before the first `next`
        nothing happens; after it, every call runs `onCancel(rid)` again. */
    method Return() returns (r: IterResult)
      requires Valid()
      modifies connection
      ensures r == Yields(Undefined, true)
      ensures !isRunning ==> connection.log == old(connection.log)
      ensures isRunning ==>
                connection.log == old(connection.log) + CancelCalls(tid.value, rid.value, connection.results(|old(connection.log)|))
    {
      CancelIt();
      r := Yields(Undefined, true);
    }

    /** `cancel()` followed by `onCancel(rid)`: `connection.cancel(id)` if
        the transport id is truthy, and `{cancel: rid}` on the wire if the
        transport did not withdraw the request itself. */
    method CancelIt()
      requires Valid()
      modifies connection
      ensures !isRunning ==> connection.log == old(connection.log)
      ensures isRunning ==>
                connection.log == old(connection.log) + CancelCalls(tid.value, rid.value, connection.results(|old(connection.log)|))
    {
      if rid.None? {
        return;
      }
      var id := tid.value;
      if Truthy(id) {
        var withdrawn := connection.Cancel(id);
        if !withdrawn {
          var _ := connection.Send(CancelRequest(rid.value));
        }
      }
    }
  }

  /** The object `makeSender(ch, connection)` returns, with the state its
      closures capture: the transport id of each `send` and the listener of
      each `subscribe`, by request id, and how each promise settled. */
  class Sender {
    const revision: Revision
    const ch: Channel
    const connection: Connection
    var transport: map<int, Value>
    var listeners: map<int, nat>
    var settled: map<int, Answer>

    ghost predicate Valid()
      reads this
    {
      forall k :: k in settled ==> k in transport || k in listeners
    }

    constructor (revision: Revision, ch: Channel, connection: Connection)
      ensures Valid() && transport == map[] && listeners == map[] && settled == map[]
      ensures this.revision == revision && this.ch == ch && this.connection == connection
    {
      this.revision := revision;
      this.ch := ch;
      this.connection := connection;
      transport := map[];
      listeners := map[];
      settled := map[];
    }

    /** `send(path, body)`: a call request made through the channel and
        sent on the connection, whose transport id the callback keeps. */
    method Send(path: string, body: Value) returns (id: int)
      requires Valid() && ch.Valid()
      modifies this, ch, connection
      ensures Valid() && ch.Valid()
      ensures var request := Blank.(id := Num(id), path := Str(path), body := body);
              id == old(ch.nextId) && id !in old(ch.requests) && ch.nextId == id + 1 &&
              ch.requests == old(ch.requests)[id := Pending(CallKind, request)] &&
              connection.log == old(connection.log) + [Call.Send(request)] &&
              transport == old(transport)[id := connection.results(|old(connection.log)|)]
      ensures listeners == old(listeners) && settled == old(settled)
      ensures ch.Handlers() == old(ch.Handlers()) && ch.gens == old(ch.gens)
    {
      id := ch.nextId;
      var request := ch.MakeRequest(path, body);
      Transmit(id, request);
    }

    /** `connection.send(request)`, whose transport id nobody keeps. */
    method SendOn(request: Message)
      requires ch.Valid()
      modifies connection
      ensures connection.log == old(connection.log) + [Call.Send(request)]
      ensures ch.Valid() && ch.Handlers() == old(ch.Handlers())
    {
      var _ := connection.Send(request);
    }

    /** `connection.send(request)` for call `id`; its callback keeps the
        transport id the connection returns. */
    method Transmit(id: int, request: Message)
      requires ch.Valid()
      modifies this`transport, connection
      ensures connection.log == old(connection.log) + [Call.Send(request)]
      ensures transport == old(transport)[id := connection.results(|old(connection.log)|)]
      ensures ch.Valid() && ch.Handlers() == old(ch.Handlers())
    {
      var t := connection.Send(request);
      transport := transport[id := t];
    }

    /** The callback of a `send`: settles the promise, which only the first
        settlement can do. The current revision then reports `sent(id)`
        when the transport id is defined; the earlier one never does. */
    method SendSettled(id: int, response: Message)
      requires Valid() && id in transport
      modifies this, connection
      ensures Valid() && transport == old(transport) && listeners == old(listeners)
      ensures settled == if id in old(settled) then old(settled) else old(settled)[id := SendAnswer(response)]
      ensures connection.log == old(connection.log) +
                if revision == Current && Defined(transport[id]) then [Call.Sent(transport[id])] else []
    {
      if id !in settled {
        settled := settled[id := SendAnswer(response)];
      }
      if revision == Current && Defined(transport[id]) {
        connection.Sent(transport[id]);
      }
    }

    /** `values(path, body)`: an iterator that has sent nothing yet. */
    method MakeValues(path: string, body: Value) returns (v: Values)
      ensures fresh(v) && v.Valid() && !v.isRunning && v.Waiters() == Waiting([], [], map[]) && v.calls == 0
      ensures v.ch == ch && v.connection == connection && v.path == path && v.body == body
    {
      v := new Values(ch, connection, path, body);
    }

    /** `subscribe(path, body, event)`: a subscription request made through
        the channel and sent on the connection; the listener waits in the
        callback. */
    method Subscribe(path: string, body: Value, listener: nat) returns (id: int)
      requires Valid() && ch.Valid()
      modifies this, ch, connection
      ensures Valid() && ch.Valid()
      ensures var request := Blank.(id := Num(id), sub := Str(path), body := body);
              id == old(ch.nextId) && id !in old(ch.requests) && ch.nextId == id + 1 &&
              ch.requests == old(ch.requests)[id := Pending(SubKind, request)] &&
              connection.log == old(connection.log) + [Call.Send(request)] &&
              listeners == old(listeners)[id := listener]
      ensures transport == old(transport) && settled == old(settled)
      ensures ch.Handlers() == old(ch.Handlers()) && ch.gens == old(ch.gens)
    {
      id := ch.nextId;
      var request := ch.MakeSubscription(path, body);
      listeners := listeners[id := listener];
      SendOn(request);
    }

    /** The callback of a `subscribe`. A truthy `error` rejects and
        registers nothing. Otherwise the listener is registered for
        `response.topic` and the promise resolves: with the topic in the
        earlier revision, with a cancellable in the current one. */
    method SubscribeSettled(id: int, response: Message)
      requires Valid() && id in listeners
      modifies this, connection
      ensures Valid() && transport == old(transport) && listeners == old(listeners)
      ensures Truthy(response.error) ==>
                connection.log == old(connection.log) &&
                settled == if id in old(settled) then old(settled) else old(settled)[id := Refused(response.error)]
      ensures !Truthy(response.error) ==>
                var answer := if revision == Earlier then Fulfilled(response.topic) else Cancellable(response.topic, |old(connection.log)|);
                connection.log == old(connection.log) + [Call.AddTopic(response.topic, listeners[id])] &&
                settled == if id in old(settled) then old(settled) else old(settled)[id := answer]
    {
      var answer;
      if Truthy(response.error) {
        answer := Refused(response.error);
      } else {
        var handle := connection.AddTopic(response.topic, listeners[id]);
        answer := if revision == Earlier then Fulfilled(response.topic) else Cancellable(response.topic, handle);
      }
      if id !in settled {
        settled := settled[id := answer];
      }
    }

    /** `cancel()` of the cancellable the current `subscribe` resolves
        with: `{unsub: topic}` is notified only if the remover removed. */
    method CancelSubscription(a: Answer)
      requires revision == Current && a.Cancellable?
      modifies connection
      ensures var removed := Truthy(connection.results(|old(connection.log)|));
              connection.log == old(connection.log) + [Call.Remover(a.topic, a.handle)] +
                if removed then [Call.Notify(Unsub(a.topic))] else []
    {
      var removed := connection.CallRemover(a.topic, a.handle);
      if removed {
        connection.Notify(Unsub(a.topic));
      }
    }

    /** `unsubscribe(topic)` of the earlier revision: the listener is
        removed and `{unsub: topic}` notified, unconditionally. */
    method Unsubscribe(topic: Value)
      requires revision == Earlier
      modifies connection
      ensures connection.log == old(connection.log) + [Call.RemoveTopic(topic), Call.Notify(Unsub(topic))]
    {
      connection.RemoveTopic(topic);
      connection.Notify(Unsub(topic));
    }

    /** `stop()` */
    method Stop()
      modifies connection
      ensures connection.log == old(connection.log) + [Call.Stop]
    {
      connection.Stop();
    }
  }
}
