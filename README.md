# channel: a message channel for calls, streams and subscriptions

`channel` lets two JavaScript programs talk over any transport with one small
JSON protocol. A `Channel` holds a registry of handlers:
- call handlers, looked up by exact path or by a path predicate;
- stream handlers, which are async generators;
- subscriptions, named event sources with a topic and a body formatter.

`receive` takes one message or a batch and routes each message by its
shape:
- `{path}` is a call, answered with `{id, body}` or `{id, error}`;
- `{stream}` starts a stream, which answers each value, then `{id, done}`
  or `{id, error}`;
- `{cancel}` ends a running stream after the step it has already
  requested: the value or end that step yields is still answered, and
  `{id, done: true}` follows a value;
- `{sub}` subscribes and answers with `{id, topic, body}`;
- `{unsub}` unsubscribes;
- a message with a `topic` is an event or a subscription answer;
- any other message with an `id` is the answer to one of this side's
  own requests.

`makeRequest`, `makeStream` and `makeSubscription` issue numbered
requests and remember a continuation per id.

Other parts:
- `makeSender` turns a channel plus a connection into a client API
  (`send`, `values`, `subscribe`, `unsubscribe`, `stop`). There are two
  revisions, one in `channel.ts` and one in `sender.ts`.
- `LazyState` and `LazyStateIterator` throttle a recomputed value for
  streaming.
- `connect` and `WebSocketClient` run a channel over a reconnecting web
  socket that replays the requests still awaiting an answer.

## How the model is built

The model has nine modules:
- **Js** (`js.dfy`): JavaScript values and truthiness. `${v}` is the key
  under which a value is stored in a plain object.
- **ObjectMaps** (`objectmap.dfy`): `ObjectMap` as a class over a key
  order, a dictionary and the `count`/`size` counter. The counter is
  adjusted even on overwrites and on deletes of absent keys.
- **Subscriptions** (`subscription.dfy`): `Subscription` as a class;
  `parse` is a recursive walk over a nested object.
- **Protocol** (`protocol.dfy`): what one message does to a channel, as
  the pure function `Step`, and what a batch does, as `Run`. Later work
  (a promise settling, one turn of a stream) is a `Job` that `JobStep`
  executes. A controller records its callbacks in a log.
- **Registry** (`registry.dfy`): handler registration (`merge`,
  `_parseApi`) on values.
- **Channels** (`channel.dfy`): `Channel` as a class whose methods update
  its fields. Each one is proved equal to `Step`, `Run`, `JobStep` or the
  registry functions.
- **Senders** (`sender.dfy`): both revisions of `makeSender` and the
  `Values` stream iterator. The connection is a class that logs its calls.
  Its return values come from a function fixed at construction.
- **LazyStates** (`lazystate.dfy`): `LazyState` and its iterator, with a
  value-level model of many iterators sharing one state.
- **Clients** (`client.dfy`): `WebSocketClient` and the client that
  `connect` builds. Socket traffic is a list of frames.

## Model

| member | source | states |
|---|---|---|
| `Js.NumberKeysDistinct` | channel.ts:27 | two numeric ids that give the same object key are equal, so `streams` keyed by id never confuses two streams |
| `Js.StringAndNumberKeysCoincide` | channel.ts:110 | every number and its decimal text name the same object key (for instance `"3"` and `3`), so `{cancel: "3"}` reaches stream 3 |
| `ObjectMaps.Without` | map.ts:12-15 | deleting a key leaves exactly the other keys, and shortens a duplicate-free key order by one exactly when the key was present |
| `ObjectMaps.Put` | map.ts:8-11 | after `set` the key maps to the value, every other key is unchanged, the counter grows by one, and the key order grows only for a new key |
| `ObjectMaps.Remove` | map.ts:12-15 | after `delete` the key is absent, every other key is unchanged, the counter drops by one, and the key order shrinks only if the key was present |
| `ObjectMaps.StoredKeys` | map.ts:3 | the number of stored keys equals the length of the property order |
| `ObjectMaps.SizeIsNotKeyCount` | map.ts:16-18 | `size` is not the number of keys: setting a key twice gives 2 for one key, and deleting an absent key gives -1 |
| `ObjectMaps.ObjectMap.constructor` | map.ts:2-4 | a new map is empty with counter 0 |
| `ObjectMaps.ObjectMap.Get` | map.ts:5-7 | `get` returns the stored value or nothing |
| `ObjectMaps.ObjectMap.Set` | map.ts:8-11 | the new contents are `Put` of the old; an overwrite is recorded as a counter overcount |
| `ObjectMaps.ObjectMap.Delete` | map.ts:12-15 | the new contents are `Remove` of the old; deleting an absent key is recorded as a counter undercount |
| `ObjectMaps.ObjectMap.Size` | map.ts:16-18 | `size` is the counter: the number of keys plus overwrites minus deletes of absent keys |
| `ObjectMaps.ObjectMap.Map` | map.ts:19-25 | the result transforms each stored value once, in property order, and no stored value is missed |
| `ObjectMaps.ObjectMap.Entries` | channel.ts:310-314 | `forEach` visits each stored key once, in property order, with its value, and visits only stored keys |
| `Subscriptions.TopicFormulasAgree` | channel.ts:116-118 | the topic a `{sub}` request subscribes to equals the topic `publish` puts on its events |
| `Subscriptions.Subscription.constructor` | channel.ts:263-266 | a new subscription has no publishers, an empty prefix, the default topic formatter (`''` for undefined, else the string form) and a body formatter that returns undefined |
| `Subscriptions.Subscription.Topic` | channel.ts:267-269 | `topic(make)` replaces the topic formatter and nothing else |
| `Subscriptions.Subscription.Body` | channel.ts:270-272 | `body(make)` replaces the topic formatter, not the body formatter, and nothing else |
| `Subscriptions.Subscription.Publish` | channel.ts:282-286 | a falsy body delivers nothing; otherwise each publisher receives the same event once, in array order, under `prefix/topic` (or the bare topic when the prefix is empty) |
| `Subscriptions.Subscription.Send` | channel.ts:273-281 | the payload is the explicit body unless it is nullish, else the derived one. A promise publishes its resolved value later and publishes nothing on rejection; any other payload is published at once |
| `Subscriptions.Subscription.SendEarlier` | events.ts:37-45 | as `Send`, but once a promise resolves it publishes the original `body` argument rather than the resolved value |
| `Subscriptions.AssignedIsLast` | events.ts:19 | a subscription registered several times carries the prefix of its last registration |
| `Subscriptions.InstallIsLast` | events.ts:20 | the map holds, under each key, the subscription registered last under it |
| `Subscriptions.InstallKeepsOthers` | events.ts:20 | a key no registration uses keeps what the map had before |
| `Subscriptions.AssignedFrom` | events.ts:17-25 | every subscription given a prefix was found in the walked object |
| `Subscriptions.AssignedAppend` | events.ts:17-25 | the prefixes assigned by two consecutive walks combine, the later one winning |
| `Subscriptions.InstallAppend` | events.ts:17-25 | installing two runs of registrations equals installing them one after the other |
| `Subscriptions.RegistrationsGrow` | events.ts:17-25 | the registrations of the first fields are a prefix of those of all the fields: the walk is in property order |
| `Subscriptions.SubsGrow` | events.ts:17-25 | appending registrations never forgets a subscription |
| `Subscriptions.ParseInto` | channel.ts:252-262 | `parse(object, prefix, map)` leaves the map equal to the registrations of the walk installed in order, and every subscription carries its last assigned prefix; the walked subscriptions keep their publishers and formatters |
| `Subscriptions.ParseField` | channel.ts:254-261 | one property: a subscription is registered under `prefix + key` with prefix `prefix/key` (or `key`); an object is walked with prefix `prefix + key + '/'`; a non-object value is skipped; the subscriptions keep their publishers and formatters |
| `Subscriptions.ParseSub` | channel.ts:256-257 | assigning a prefix to a found subscription keeps every prefix assigned so far consistent and changes nothing else about it |
| `Subscriptions.ParseNested` | channel.ts:259-260 | a nested object registers exactly its own walk under the extended prefix; its subscriptions keep their publishers and formatters |
| `Subscriptions.Parse` | events.ts:11-15 | `parse(events)` returns the registrations of the walk from the empty prefix, installed in order into a fresh map, with prefixes assigned and publishers and formatters unchanged |
| `Subscriptions.NestedPrefixDoublesSlash` | events.ts:19-23 | for every outer prefix `p` and keys `a`, `b`: a subscription under `a` then `b` is stored under `p` + `a/b` and gets the prefix `p` + `a//b`, because the nested walk's prefix already ends in `/` |
| `Protocol.Controller.constructor` | channel.ts:8-15 | a controller starts with an empty callback log and the given state |
| `Protocol.Controller.Response` | channel.ts:9 | `response` appends exactly one response to the log |
| `Protocol.Controller.Subscribe` | channel.ts:10 | `subscribe` appends exactly one subscribe to the log |
| `Protocol.Controller.Unsubscribe` | channel.ts:11 | `unsubscribe` appends exactly one unsubscribe to the log |
| `Protocol.Controller.Event` | channel.ts:12 | `event` appends exactly one event to the log |
| `Protocol.FirstMatchIndex` | channel.ts:86 | the index is that of the first route whose predicate accepts the path; no earlier route accepts it |
| `Protocol.Resolve` | channel.ts:86 | an exact handler wins; otherwise the first matching pattern's handler, if any |
| `Protocol.StreamStep` | channel.ts:102-107 | a stream message keeps the channel's tables consistent, never loses a generator, and schedules only valid jobs |
| `Protocol.CancelStep` | channel.ts:108-111 | a cancel keeps the tables consistent and creates no generator |
| `Protocol.CancelAnswersPendingStep` | channel.ts:108-111 | the cancel itself answers nothing; the stream's next turn still answers the value pending when it came and the turn after ends with `{id, done: true}`, or, when the pending step was the stream's own end, that end (`done` or the error) is answered; then the entry is deleted |
| `Protocol.CancelledStreamDrains` | channel.ts:108-170 | run to its end after a cancel, a stream answers at most one more value, the one already requested, then `done`; or only its own end when that was pending |
| `Protocol.Step` | channel.ts:83-152 | any message keeps the tables consistent, never adds a pending request, and schedules only valid jobs |
| `Protocol.JobStep` | channel.ts:153-171 | a job settles or advances one stream: it resumes nothing, throws nothing, leaves the pending requests alone and schedules at most one further job |
| `Protocol.Run` | channel.ts:76-82 | a batch keeps the tables consistent and never adds a pending request |
| `Protocol.Drain` | channel.ts:159-170 | running a stream to its end keeps the tables consistent |
| `Protocol.Replies` | channel.ts:161 | one `{id, body}` response per value, in order |
| `Protocol.CallAnswersExactlyOnce` | channel.ts:84-101 | a call with an id gets exactly one answer, either at once or when its promise settles; it is a body or an error string, and nothing else changes |
| `Protocol.CallWithoutIdIsSilent` | channel.ts:89-100 | a call without an id produces no effect at all, even when the handler fails |
| `Protocol.CallToUnknownPath` | channel.ts:87 | a call with an id to an unregistered, unmatched path is answered with the error `api not found` |
| `Protocol.StreamRejected` | channel.ts:104-105 | an unknown stream, or a stream request without an id, throws `api not found` or `stream requires id` out of `receiveOne` with no response and no change |
| `Protocol.StreamStarts` | channel.ts:153-171 | a started stream is stored under its id's string key and pumped later; a handler that throws at once is answered with its error and its key is deleted, so the counter drops |
| `Protocol.StreamDrains` | channel.ts:159-170 | a stream run to its end answers each remaining value in order, then `{id, done: true}` or `{id, error}`, and its entry is deleted |
| `Protocol.SubscriptionAnswer` | channel.ts:112-134 | a found subscription subscribes to `prefix` or `prefix/topic` immediately before answering `{id, topic, body}`, at once or when the body settles; only a rejected body answers with an error and skips the subscribe |
| `Protocol.SubscriptionNotFound` | channel.ts:116-133 | an unknown subscription is answered with `subscription not found` exactly when the request has an id |
| `Protocol.UnknownIdIgnored` | channel.ts:144-146 | an answer whose id matches no pending request is ignored |
| `Protocol.ResponseCorrelates` | channel.ts:144-151 | an answer resumes its pending request; the entry is removed unless the request was a stream and the answer is not `done`; other entries stay |
| `Protocol.StreamErrorLeavesEntry` | channel.ts:147-149 | an `{id, error}` for a stream request resumes it but leaves its entry behind |
| `Protocol.TopicCorrelates` | channel.ts:137-143 | a message with a topic removes its pending entry and no other, resumes it when there was one, and raises an event exactly when its body is truthy |
| `Protocol.AnswersTakeCorrelationBranches` | channel.ts:137-151 | the replies, errors and `done` messages one channel sends reach the other's id branch, and subscription answers reach its topic branch |
| `Protocol.RunStopsAtThrow` | channel.ts:77-78 | once a message of a batch throws, the messages after it are not handled |
| `Channels.Find` | channel.ts:86 | `find` returns nothing exactly when no route accepts the path, and otherwise the handler of the first route that does |
| `Channels.Channel.constructor` | channel.ts:17-28 | a new channel has id 0, no pending requests, no handlers, no event registry and no streams |
| `Channels.Channel.Post` | channel.ts:29-32 | the call registry gains the handler under the path |
| `Channels.Channel.PostOther` | channel.ts:33-36 | the predicate route is appended and nothing else changes |
| `Channels.Channel.Stream` | channel.ts:37-40 | the stream registry gains the handler under the path |
| `Channels.Channel.StreamOther` | channel.ts:41-44 | the stream predicate route is appended and nothing else changes |
| `Channels.Channel.OnDisconnect` | channel.ts:45-48 | the disconnect action is set and nothing else changes |
| `Channels.Channel.Issue` | channel.ts:50-55 | a request takes the current id, which was not pending; the counter moves on by one and the request becomes pending under that id |
| `Channels.Channel.MakeRequest` | channel.ts:49-57 | the request gets the next id, that id was not pending, and it is now pending as a call |
| `Channels.Channel.MakeStream` | channel.ts:58-66 | the request gets the next id, that id was not pending, and it is now pending as a stream |
| `Channels.Channel.MakeSubscription` | channel.ts:67-75 | the request gets the next id, that id was not pending, and it is now pending as a subscription |
| `Channels.Channel.Receive` | channel.ts:76-82 | the new tables and controller log are those of `Run` over the message or batch; the handlers and the id counter are unchanged |
| `Channels.Channel.ReceiveAll` | channel.ts:78 | the batch loop leaves the tables, log, jobs and resumptions that `Run` gives for the batch |
| `Channels.Channel.ReceiveOne` | channel.ts:83-152 | the new state, log, jobs and resumptions are those of `Step` |
| `Channels.Channel.FindPost` | channel.ts:86 | the call handler found is the one `Resolve` picks |
| `Channels.Channel.FindStream` | channel.ts:104 | the stream handler found is the one `Resolve` picks |
| `Channels.Channel.ReceiveCall` | channel.ts:84-101 | a call leaves the tables alone and logs exactly `Step`'s call effects |
| `Channels.Channel.ReceiveStream` | channel.ts:102-107 | a stream message does what `StreamStep` says |
| `Channels.Channel.StreamRequest` | channel.ts:153-158 | a started generator is stored under the id's key; a handler that throws is answered with its error and its key is deleted |
| `Channels.Channel.ReceiveCancel` | channel.ts:108-111 | a cancel cuts the stream stored under the key, if any, after its pending step (as `CancelStep` says), and changes nothing else |
| `Channels.Channel.ReceiveSub` | channel.ts:112-134 | a subscription request logs exactly `Step`'s effects and leaves the tables alone |
| `Channels.Channel.ReceiveTopic` | channel.ts:137-143 | a topic message does what the topic branch of `Step` says |
| `Channels.Channel.ReceiveResponse` | channel.ts:144-151 | an answer by id does what the id branch of `Step` says |
| `Channels.Channel.RunJob` | channel.ts:91-93 | a deferred call answer or one stream turn does what `JobStep` says |
| `Channels.Channel.RunStream` | channel.ts:159-170 | the `for await` loop answers each remaining value (after a cancel, only the one already requested), then `done` (or the error), and deletes the stream's key; pending requests are untouched |
| `Channels.Channel.PumpAll` | channel.ts:163-165 | the loop ends with the tables and log that `Drain` gives for the turns it is allowed; handlers and id counter are unchanged |
| `Channels.Channel.EndStream` | channel.ts:166-170 | the stream's last message is logged and its key deleted; nothing else changes |
| `Channels.Channel.StreamStarted` | channel.ts:161-162 | the new generator is stored under the id's key at the next free handle; nothing else changes |
| `Channels.Channel.Answer` | channel.ts:100 | an error or body is sent exactly when the request has an id, and nothing else changes |
| `Channels.Channel.Confirm` | channel.ts:129-130 | `subscribe(topic)` is logged immediately before `{id, topic, body}` |
| `Channels.Channel.PumpStream` | channel.ts:160-162 | one loop turn moves the channel one `Drain` step closer to the final state |
| `Channels.Channel.Events` | channel.ts:172-182 | the event registry exists afterwards. A `Map` source is copied under `prefix/`; an object source is walked with the raw prefix and its prefixes are assigned, leaving the subscriptions' publishers and formatters unchanged |
| `Channels.Channel.Api` | channel.ts:183-186 | the call and stream registries gain exactly the registrations of the walk from the empty prefix |
| `Channels.Channel.ParseApi` | channel.ts:196-212 | the registries gain the walk's registrations in order: `_` names the enclosing path, and generators become streams |
| `Channels.Channel.ParseApiEntry` | channel.ts:197-210 | one property adds its own registrations and no others; a non-object value is skipped |
| `Channels.Channel.Merge` | channel.ts:187-195 | the other channel's call and stream handlers are copied under `prefix/` in property order; its event registry is only created empty; pattern routes and state are unchanged |
| `Channels.Channel.PostEach` | channel.ts:192 | each copied call handler is set in turn |
| `Channels.Channel.StreamEach` | channel.ts:193 | each copied stream handler is set in turn |
| `Channels.SetEach` | channel.ts:177 | each `Map` entry is set under `prefix/` in turn |
| `Registry.Pairs` | channel.ts:310-314 | the entries are listed in property order, each with its stored value |
| `Registry.PutAll` | channel.ts:192-193 | copying entries adds one to the counter per entry |
| `Registry.PutAllLookup` | channel.ts:192-193 | after copying, a key gets the value of the last entry copied under it, and keys no entry names keep their value |
| `Registry.MergeCopies` | channel.ts:187-195 | after `merge` every handler of the other channel is found under `prefix/key`, and all other paths keep their handlers |
| `Registry.SetAll` | channel.ts:177 | a key is present after copying exactly when it was before or some entry was copied under it |
| `Registry.ApiRegistrations` | channel.ts:196-212 | the walk registers only call and stream handlers |
| `Registry.PostsAfter` | channel.ts:205 | registering calls keeps the store consistent |
| `Registry.StreamsAfter` | channel.ts:203 | registering streams keeps the store consistent |
| `Registry.PostsAfterAppend` | channel.ts:196-212 | registering two runs of calls equals registering them one after the other |
| `Registry.StreamsAfterAppend` | channel.ts:196-212 | registering two runs of streams equals registering them one after the other |
| `Registry.UnderscoreNamesItsObject` | channel.ts:201 | for every prefix, key and handler: a handler under `_` is registered under the path of the object holding it (the prefix itself at top level, `prefix/key` or `key` one level down), and any other key under `prefix/key` or `key` |
| `Senders.Connection.constructor` | channel.ts:328-335 | a new connection has an empty call log |
| `Senders.Connection.Send` | channel.ts:329 | `send` is logged and returns the connection's id for this call |
| `Senders.Connection.Sent` | channel.ts:330 | `sent` is logged |
| `Senders.Connection.Cancel` | channel.ts:331 | `cancel` is logged and returns whether the connection withdrew the request |
| `Senders.Connection.Notify` | channel.ts:332 | `notify` is logged |
| `Senders.Connection.AddTopic` | channel.ts:333 | `addTopic` is logged and returns a remover handle |
| `Senders.Connection.RemoveTopic` | sender.ts:22 | `removeTopic` is logged |
| `Senders.Connection.CallRemover` | channel.ts:333 | calling a remover is logged and returns whether it removed the listener |
| `Senders.Connection.Stop` | channel.ts:334 | `stop` is logged |
| `Senders.SendAnswer` | channel.ts:343-347 | a `send` promise is rejected exactly when the response's error is truthy, with that error; otherwise it resolves to the body |
| `Senders.CancelCalls` | channel.ts:362-366 | nothing is sent before the stream's own send; otherwise `cancel` comes first, and `{cancel: rid}` follows exactly when the connection did not withdraw the request |
| `Senders.ProcessResponse` | channel.ts:434-437 | a truthy error is thrown; otherwise the body is yielded, done exactly when `done` is truthy |
| `Senders.StreamAsSeen` | channel.ts:434-437 | against a serving channel, each value is yielded not done; the end yields `done`; a non-empty error throws; an empty error string is read as an undefined value, not done |
| `Senders.HandAllInOrder` | channel.ts:423-430 | responses go to the waiting `next` calls in order, first come first served; the rest are queued, and earlier settlements stay |
| `Senders.Values.constructor` | channel.ts:406-418 | a new iterator is not running and has no waiters, queued responses or settlements |
| `Senders.Values.Start` | channel.ts:420-433 | only the first call issues the stream request, records its id and sends it; later calls change nothing |
| `Senders.Values.Next` | channel.ts:438-451 | a waiter is appended for this call, then the stream is started if it was not |
| `Senders.Values.OnResponse` | channel.ts:423-430 | a response settles the oldest waiter or is queued |
| `Senders.Values.Return` | channel.ts:452-455 | the result is `{value: undefined, done: true}`; before the stream started nothing is sent, afterwards the cancel calls are those `CancelCalls` gives |
| `Senders.Values.CancelIt` | channel.ts:456-459 | before the stream started nothing is sent, afterwards the calls are those `CancelCalls` gives |
| `Senders.Sender.constructor` | channel.ts:337-338 | a new sender has nothing outstanding |
| `Senders.Sender.Send` | channel.ts:339-354 | the call request is made with the next id, recorded as pending, and handed to the connection |
| `Senders.Sender.SendSettled` | channel.ts:342-351 | the promise settles once as `SendAnswer` says; the current revision then reports `sent` for the connection's id when it has one |
| `Senders.Sender.MakeValues` | channel.ts:355-368 | `values` returns a fresh idle iterator over the path and body |
| `Senders.Sender.Subscribe` | channel.ts:369-389 | the subscription request is made with the next id, recorded as pending, and handed to the connection |
| `Senders.Sender.SubscribeSettled` | channel.ts:371-386 | an error rejects and adds no listener; otherwise the listener is added under the answered topic, and the promise resolves to the topic (`sender.ts`) or to a cancellable (`channel.ts`) |
| `Senders.Sender.CancelSubscription` | channel.ts:378-383 | cancelling calls the remover and notifies `{unsub: topic}` exactly when the remover removed the listener |
| `Senders.Sender.Unsubscribe` | sender.ts:62-65 | `unsubscribe` removes the topic, then notifies `{unsub: topic}` |
| `Senders.Sender.Stop` | channel.ts:390-392 | `stop` is passed to the connection |
| `LazyStates.GateSteps` | more.ts:30-42 | subscribe and unsubscribe keep "updates allowed exactly when someone is subscribed"; unsubscribing at zero stays at zero |
| `LazyStates.Live` | more.ts:86-113 | no more iterators are live than exist |
| `LazyStates.LiveUpdate` | more.ts:93-109 | changing one iterator's flags changes the live count by that iterator's change alone |
| `LazyStates.NoneLive` | more.ts:105-109 | when every iterator is unstarted or cancelled, none is live |
| `LazyStates.StaysBalanced` | more.ts:93-109 | under any sequence of `next` and `return` calls on iterators sharing one state, the subscriber count equals the number of started, uncancelled iterators, and updates are allowed exactly when that is positive |
| `LazyStates.AllReturned` | more.ts:37-42 | once every started iterator has returned, the state has no subscribers and allows no updates |
| `LazyStates.LazyState.constructor` | more.ts:12-18 | a new state has no subscribers, allows no updates, needs none, waits on no timer, and its delay is 1/30 s |
| `LazyStates.LazyState.Delay` | more.ts:19-22 | only the minimum delay changes |
| `LazyStates.LazyState.AlwaysNeedsUpdate` | more.ts:23-26 | only the always-needs flag is set |
| `LazyStates.LazyState.ScheduleUpdates` | more.ts:60-62 | a timer is armed exactly when updates are allowed, an update is needed (or always needed), and no timer is pending; at most one timer is pending |
| `LazyStates.LazyState.Subscribe` | more.ts:30-36 | the first subscriber allows updates and may arm the timer; the count grows by one |
| `LazyStates.LazyState.Unsubscribe` | more.ts:37-42 | the count drops by one unless it is zero; updates stop when it reaches zero |
| `LazyStates.LazyState.SetNeedsUpdate` | more.ts:43-49 | the state needs an update afterwards; the timer is armed only on the transition, when allowed and not already waiting |
| `LazyStates.LazyState.Send` | more.ts:50-54 | the current promise resolves with the value, a new one replaces it, and no update is needed |
| `LazyStates.LazyState.Throw` | more.ts:55-59 | the current promise rejects with `'cancelled'`, a new one replaces it, and no update is needed |
| `LazyStates.LazyStateIterator.constructor` | more.ts:90-92 | a new iterator is neither started nor cancelled |
| `LazyStates.LazyStateIterator.Next` | more.ts:93-100 | the first call subscribes, which arms the timer exactly when it is the first subscriber, an update is wanted and no timer is pending, and awaits `getValue`; later calls await the state's current promise and change nothing; the update flags, delay and settlements never change |
| `LazyStates.LazyStateIterator.Return` | more.ts:101-104 | the result is done; only a started, uncancelled iterator unsubscribes and becomes cancelled; the timer, update flags, delay and settlements stay |
| `LazyStates.LazyStateIterator.Cancel` | more.ts:105-109 | only a started, uncancelled iterator unsubscribes and becomes cancelled; the timer, update flags, delay and settlements stay |
| `Clients.PortsApart` | client.ts:18 | different ports give different `ws://localhost:` addresses |
| `Clients.InOrder` | client.ts:88 | the replay batch lists every pending request once, in property order |
| `Clients.WebSocketClient.constructor` | client.ts:79-82 | a new client has id 0, no open socket and no pending requests |
| `Clients.WebSocketClient.Request` | client.ts:101-103 | each call returns the next request number |
| `Clients.WebSocketClient.Send` | client.ts:104-108 | the request is stored as pending under its number and sent, JSON-encoded, only if a socket is open |
| `Clients.WebSocketClient.Notify` | client.ts:109-111 | the body is sent unencoded, only if a socket is open |
| `Clients.WebSocketClient.Sent` | client.ts:112-114 | the request leaves the pending set |
| `Clients.WebSocketClient.Opened` | client.ts:85-89 | on open, every pending request is replayed in one JSON batch and stays pending |
| `Clients.WebSocketClient.Closed` | client.ts:90-93 | on close the socket is gone and one restart is scheduled |
| `Clients.TopicsAfterAppend` | client.ts:27-32 | the topic set after two runs of callbacks is that after the first, updated by the second |
| `Clients.TopicsAfterMembership` | client.ts:27-32 | a topic is subscribed after a run of callbacks exactly when the last callback touching it was `subscribe`, or none touched it and it was subscribed before |
| `Clients.Client.constructor` | client.ts:16-21 | a new client has a socket to the resolved address and no topics, listeners or outstanding requests |
| `Clients.Client.Send` | client.ts:39-52 | the call is numbered both by the channel and by the socket, made pending in both, and sent if the socket is open |
| `Clients.Client.Subscribe` | client.ts:53-68 | the subscription is numbered both by the channel and by the socket, made pending in both, and sent if the socket is open |
| `Clients.Client.SendSettled` | client.ts:42-49 | the promise settles once as `SendAnswer` says, and the socket request leaves the pending set |
| `Clients.Client.SubscribeSettled` | client.ts:56-65 | an error rejects; otherwise the listener is stored under the answered topic and the promise resolves to it; either way the socket request leaves the pending set |
| `Clients.Client.Dispatch` | client.ts:42-65 | a resumed request of this client runs its callback: a call settles once as `SendAnswer` says; a subscription settles once, refused on an error, else fulfilled with the topic and its listener stored under it; either way it leaves the socket's pending set. A resumption this client did not make changes nothing |
| `Clients.Client.DispatchAll` | client.ts:42-65 | after the callbacks run, every resumed request of this client has left the socket's pending set, and nothing was added |
| `Clients.Client.Perform` | client.ts:23-36 | `response` sends the body unencoded, `subscribe`/`unsubscribe` add or drop the topic, and `event` calls the listener for its topic |
| `Clients.Client.PerformAll` | client.ts:23-36 | the controller callbacks update the topic set, calls to listeners and socket frames in log order |
| `Clients.Client.OnMessage` | client.ts:22-37 | an incoming message does to the channel what `Run` says; the topic set follows the callbacks; every answered request of this client leaves the socket's pending set |
| `Clients.Client.OnMessageNext` | client.ts:23 | one message of a batch extends the channel's run by one `Step` and keeps the topic set in step with the log |
| `Clients.Client.Handle` | client.ts:23-36 | the resumed callbacks and then the controller callbacks of one message run, keeping the topic set in step |

## Left out

- JavaScript numbers are unbounded integers: floating point, `NaN` and
  fractional ids are not modelled.
- Object key order: `Object.values`/`Object.entries` list integer-like
  keys in ascending order before the other keys. The model keeps
  insertion order. The two coincide for the increasing ids `ObjectMap`
  holds in `streams` and `pending`, but not in general.
- Keys inherited from `Object.prototype` (`toString`, `__proto__`) are
  not modelled.
- JSON encoding and decoding, the `WebSocket` object, `setTimeout`, the
  100 ms reconnect delay and which socket's close fires are left out.
  Socket traffic is a list of frames; a restart is a counter.
- The `LazyState` timer callback (more.ts:63-76) is left out, because it
  runs later on a clock: `waiting`, once set, is never reset in the
  model. `getValue` is a value the iterator awaits, not a call.
- `createPromise` is a list of settlements: each `send` or `throw`
  settles the current promise and starts the next.
- Asynchronous interleaving: promise continuations and stream turns are
  explicit jobs that the caller runs. The order in which an event loop
  would run them is not modelled.
- Handlers and formatters are total functions of their inputs. A handler
  that throws synchronously is a `Failed` outcome; a topic or body
  formatter that throws, or a controller callback that throws, is not
  modelled.
- Generators are finite lists of values with an end (done or error).
  Infinite streams are not modelled, and `RunStream` and `Drain` carry a
  fuel bound equal to the values left.
- The `sender` a handler receives and the unused `publish` field of
  `Channel` are not modelled.
- `_parseApi` decides between call and stream by the function's
  constructor name. The model receives that decision as a tag on each
  entry.
- Clients.WebSocketClient.Opened: on every open, `ws.onopen` calls
  `this.onopen` when a caller has set it (client.ts:87), after setting
  the socket and before sending the pending batch. The core never sets
  that callback, and the model leaves the call out; a callback that
  writes to the socket would put its frames before the batch.
- `_onDisconnect` is stored by `onDisconnect` and never called by the
  core.
- Re-entrancy is not modelled: a connection that answers synchronously
  inside `send`, before `id` is assigned, is ignored.
- Clients.Client.Dispatch: resumptions for requests this client did not
  make through `send` or `subscribe` run no callback in the model.
- Clients.Client.OnMessage: states the channel's run, the topic set and
  the socket's pending set. The listener calls and frames of a batch are
  stated per message by `Clients.Client.PerformAll`.
- Senders.Connection.AddTopic: the remover the connection returns is
  named by the call's position in the log, not by a closure.
- Subscriptions.Subscription.Body: only string-valued formatters are
  modelled. `body(make)` stores any function as the topic formatter; one
  returning `undefined` or `null` makes a `{sub}` request fail with a
  `TypeError` on `.length`, and one returning an object makes the topic
  `prefix/[object Object]`. Neither case is represented.
- Subscriptions.ParseField: a property whose value is `null` is not
  represented. `typeof null` is `'object'`, so the source walks into it
  and `Object.entries(null)` throws, ending `parse` and `events` part-way.
  The model's walk never throws.
- Channels.Channel.ParseApiEntry: the same holds for a `null` property of
  a handler object, which makes `_parseApi` throw part-way.
- A `null` or non-object message given to `receive` (alone or inside a
  batch) makes `some.path` throw in the source; messages are records of
  fields here, so that input is not represented.
- The test-only APIs `disconnect` and `Channel.cancel` are not part of
  the core and are not modelled.
