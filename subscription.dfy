/** `Subscription`: a named event source. It derives topics and payloads
    from keys, drops falsy payloads, and hands each published event to its
    publishers in order. `Parse` registers the subscriptions found in a
    nested object and assigns their prefixes. */
module Subscriptions {
  import opened Js

  /** A publisher sink, identified opaquely (one per subscribed connection). */
  type Publisher = nat

  datatype SubscriptionEvent = SubscriptionEvent(topic: string, body: Value)

  /** One `publisher.publish(event)` call. */
  datatype Delivery = Delivery(publisher: Publisher, event: SubscriptionEvent)

  /** A `publish(topic, body)` call that runs once a promise has resolved. */
  datatype Deferred = Deferred(topic: string, body: Value)

  /** The default `_topic`: `''` for `undefined`, else the string form. */
  function DefaultTopic(request: Value): string
  {
    if request == Undefined then "" else ToStr(request)
  }

  /** The default `_body` returns `undefined`. */
  function DefaultBody(request: Value): Value
  {
    Undefined
  }

  /** `body ?? derived`: the explicit body unless it is nullish. */
  function Payload(body: Value, derived: Value): Value
  {
    if body == Undefined || body == Null then derived else body
  }

  /** The topic `publish` puts on an event. */
  function PublishedTopic(prefix: string, topic: string): string
  {
    if |prefix| > 0 then prefix + "/" + topic else topic
  }

  /** The topic a `{sub}` request subscribes to. */
  function SubscribedTopic(prefix: string, derived: string): string
  {
    if |derived| == 0 then prefix else prefix + "/" + derived
  }

  /** The two topic formulas agree exactly when the prefix and the derived
      topic are both empty or both non-empty. */
  lemma TopicFormulasAgree(prefix: string, topic: string)
    ensures SubscribedTopic(prefix, topic) == PublishedTopic(prefix, topic)
            <==> (|prefix| == 0 <==> |topic| == 0)
  {
    if |prefix| == 0 && |topic| > 0 {
      assert |SubscribedTopic(prefix, topic)| == |topic| + 1;
    } else if |prefix| > 0 && |topic| == 0 {
      assert |PublishedTopic(prefix, topic)| == |prefix| + 1;
    }
  }

  /** Every publisher gets the same event, one each, in array order. */
  ghost predicate FansOut(ds: seq<Delivery>, publishers: seq<Publisher>, event: SubscriptionEvent)
  {
    |ds| == |publishers| && forall i :: 0 <= i < |ds| ==> ds[i] == Delivery(publishers[i], event)
  }

  class Subscription {
    var publishers: seq<Publisher>
    var prefix: string
    var topicOf: Value -> string
    var bodyOf: Value -> Value

    constructor ()
      ensures publishers == [] && prefix == ""
      ensures forall v :: topicOf(v) == DefaultTopic(v) && bodyOf(v) == DefaultBody(v)
    {
      publishers := [];
      prefix := "";
      topicOf := DefaultTopic;
      bodyOf := DefaultBody;
    }

    /** `topic(make)` replaces the topic formatter. */
    method Topic(make: Value -> string)
      modifies this
      ensures topicOf == make
      ensures bodyOf == old(bodyOf) && prefix == old(prefix) && publishers == old(publishers)
    {
      topicOf := make;
    }

    /** `body(make)` also replaces the topic formatter and leaves the body
        derivation as it was. */
    method Body(make: Value -> string)
      modifies this
      ensures topicOf == make
      ensures bodyOf == old(bodyOf) && prefix == old(prefix) && publishers == old(publishers)
    {
      topicOf := make;
    }

    /** `publish(topic, body)`: nothing for a falsy body; otherwise one
        identical event per publisher, in order, under the prefixed topic. */
    method Publish(topic: string, body: Value) returns (deliveries: seq<Delivery>)
      ensures !Truthy(body) ==> deliveries == []
      ensures Truthy(body) ==>
                FansOut(deliveries, publishers, SubscriptionEvent(PublishedTopic(prefix, topic), body))
    {
      deliveries := [];
      if !Truthy(body) {
        return;
      }
      var event := SubscriptionEvent(if |prefix| > 0 then prefix + "/" + topic else topic, body);
      var i := 0;
      while i < |publishers|
        invariant 0 <= i <= |publishers|
        invariant |deliveries| == i
        invariant forall j :: 0 <= j < i ==> deliveries[j] == Delivery(publishers[j], event)
      {
        deliveries := deliveries + [Delivery(publishers[i], event)];
        i := i + 1;
      }
    }

    /** `send(request, body?)` as channel.ts has it: a thenable payload
        publishes its resolved value later and swallows a rejection. */
    method Send(request: Value, body: Value) returns (deliveries: seq<Delivery>, later: Option<Deferred>)
      ensures var topic := topicOf(request);
              var b := Payload(body, bodyOf(request));
              if Thenable(b) then
                deliveries == [] &&
                later == (if b.outcome.Resolved? then Some(Deferred(topic, b.outcome.value)) else None)
              else
                later == None &&
                (!Truthy(b) ==> deliveries == []) &&
                (Truthy(b) ==> FansOut(deliveries, publishers, SubscriptionEvent(PublishedTopic(prefix, topic), b)))
    {
      var topic := topicOf(request);
      var b := if body == Undefined || body == Null then bodyOf(request) else body;
      if b.Promise? {
        deliveries := [];
        later := if b.outcome.Resolved? then Some(Deferred(topic, b.outcome.value)) else None;
      } else {
        deliveries := Publish(topic, b);
        later := None;
      }
    }

    /** `send(request, body?)` as events.ts has it: once a thenable payload
        resolves, it publishes the original `body` argument, not the
        resolved value; a rejection publishes nothing. */
    method SendEarlier(request: Value, body: Value) returns (deliveries: seq<Delivery>, later: Option<Deferred>)
      ensures var topic := topicOf(request);
              var b := Payload(body, bodyOf(request));
              if Thenable(b) then
                deliveries == [] &&
                later == (if b.outcome.Resolved? then Some(Deferred(topic, body)) else None)
              else
                later == None &&
                (!Truthy(b) ==> deliveries == []) &&
                (Truthy(b) ==> FansOut(deliveries, publishers, SubscriptionEvent(PublishedTopic(prefix, topic), b)))
    {
      var topic := topicOf(request);
      var b := if body == Undefined || body == Null then bodyOf(request) else body;
      if b.Promise? {
        deliveries := [];
        later := if b.outcome.Resolved? then Some(Deferred(topic, body)) else None;
      } else {
        deliveries := Publish(topic, b);
        later := None;
      }
    }
  }

  /** A nested registration object: each own property is a subscription,
      another non-null object, or a non-object value (skipped). A `null`
      property is not represented. */
  datatype Node = Sub(sub: Subscription) | Nested(fields: seq<Field>) | Scalar
  datatype Field = Field(key: string, value: Node)

  /** One `map.set(key, sub)` together with the prefix assigned to `sub`. */
  datatype Registration = Registration(key: string, sub: Subscription, prefix: string)

  /** The registrations `_parse(fields, prefix, map)` performs, in order. */
  function Registrations(fields: seq<Field>, prefix: string): seq<Registration>
    decreases fields
  {
    if fields == [] then []
    else
      var last := fields[|fields| - 1];
      var here := match last.value
        case Sub(s) => [Registration(prefix + last.key, s, if |prefix| > 0 then prefix + "/" + last.key else last.key)]
        case Nested(inner) => Registrations(inner, prefix + last.key + "/")
        case Scalar => [];
      Registrations(fields[..|fields| - 1], prefix) + here
  }

  /** The subscriptions that `regs` touches. */
  function Subs(regs: seq<Registration>): set<Subscription>
  {
    Assigned(regs).Keys
  }

  /** `map.set` for each registration in turn. */
  function Install(m: map<string, Subscription>, regs: seq<Registration>): map<string, Subscription>
  {
    if regs == [] then m
    else
      var last := regs[|regs| - 1];
      Install(m, regs[..|regs| - 1])[last.key := last.sub]
  }

  /** The prefix each subscription ends up with: the one its last
      registration assigned. */
  function Assigned(regs: seq<Registration>): map<Subscription, string>
  {
    if regs == [] then map[]
    else
      var last := regs[|regs| - 1];
      Assigned(regs[..|regs| - 1])[last.sub := last.prefix]
  }

  /** A subscription's prefix is the one from its last registration. */
  lemma {:induction false} AssignedIsLast(regs: seq<Registration>, j: nat)
    requires j < |regs|
    requires forall k :: j < k < |regs| ==> regs[k].sub != regs[j].sub
    ensures regs[j].sub in Assigned(regs) && Assigned(regs)[regs[j].sub] == regs[j].prefix
    decreases |regs|
  {
    if j < |regs| - 1 {
      var front := regs[..|regs| - 1];
      assert front[j] == regs[j];
      AssignedIsLast(front, j);
    }
  }

  /** The map holds, under each key, the subscription registered last under it. */
  lemma {:induction false} InstallIsLast(m: map<string, Subscription>, regs: seq<Registration>, j: nat)
    requires j < |regs|
    requires forall k :: j < k < |regs| ==> regs[k].key != regs[j].key
    ensures regs[j].key in Install(m, regs) && Install(m, regs)[regs[j].key] == regs[j].sub
    decreases |regs|
  {
    if j < |regs| - 1 {
      var front := regs[..|regs| - 1];
      assert front[j] == regs[j];
      InstallIsLast(m, front, j);
    }
  }

  /** A key no registration uses keeps what the map had. */
  lemma {:induction false} InstallKeepsOthers(m: map<string, Subscription>, regs: seq<Registration>, key: string)
    requires forall k :: 0 <= k < |regs| ==> regs[k].key != key
    ensures key in Install(m, regs) <==> key in m
    ensures key in m ==> Install(m, regs)[key] == m[key]
    decreases |regs|
  {
    if regs != [] {
      var front := regs[..|regs| - 1];
      assert forall k :: 0 <= k < |front| ==> front[k] == regs[k];
      InstallKeepsOthers(m, front, key);
    }
  }

  /** Every subscription in the map was registered. */
  lemma {:induction false} AssignedFrom(regs: seq<Registration>, s: Subscription)
    requires s in Assigned(regs)
    ensures exists j :: 0 <= j < |regs| && regs[j].sub == s
    decreases |regs|
  {
    var last := regs[|regs| - 1];
    if last.sub != s {
      AssignedFrom(regs[..|regs| - 1], s);
      var j :| 0 <= j < |regs| - 1 && regs[..|regs| - 1][j].sub == s;
      assert regs[j].sub == s;
    }
  }

  lemma {:induction false} AssignedAppend(a: seq<Registration>, b: seq<Registration>)
    ensures Assigned(a + b) == Assigned(a) + Assigned(b)
    decreases |b|
  {
    if b == [] {
      assert a + b == a;
    } else {
      var ab := a + b;
      var last := b[|b| - 1];
      assert ab[..|ab| - 1] == a + b[..|b| - 1];
      assert ab[|ab| - 1] == last;
      AssignedAppend(a, b[..|b| - 1]);
      calc {
        Assigned(ab);
        Assigned(a + b[..|b| - 1])[last.sub := last.prefix];
        (Assigned(a) + Assigned(b[..|b| - 1]))[last.sub := last.prefix];
        Assigned(a) + Assigned(b);
      }
    }
  }

  lemma {:induction false} InstallAppend(m: map<string, Subscription>, a: seq<Registration>, b: seq<Registration>)
    ensures Install(m, a + b) == Install(Install(m, a), b)
    decreases |b|
  {
    if b == [] {
      assert a + b == a;
    } else {
      var ab := a + b;
      var last := b[|b| - 1];
      assert ab[..|ab| - 1] == a + b[..|b| - 1];
      assert ab[|ab| - 1] == last;
      InstallAppend(m, a, b[..|b| - 1]);
      calc {
        Install(m, ab);
        Install(m, a + b[..|b| - 1])[last.key := last.sub];
        Install(Install(m, a), b[..|b| - 1])[last.key := last.sub];
        Install(Install(m, a), b);
      }
    }
  }

  /** The registrations of a prefix of the fields come first. */
  lemma {:induction false} RegistrationsGrow(fields: seq<Field>, prefix: string, j: nat)
    requires j <= |fields|
    ensures Registrations(fields[..j], prefix) <= Registrations(fields, prefix)
    decreases |fields| - j
  {
    if j < |fields| {
      RegistrationsGrow(fields, prefix, j + 1);
      var front := fields[..j + 1];
      assert front[..|front| - 1] == fields[..j];
    } else {
      assert fields[..j] == fields;
    }
  }

  /** Appending registrations never forgets a subscription. */
  lemma SubsGrow(before: seq<Registration>, after: seq<Registration>)
    ensures Subs(after) <= Subs(before + after) && Subs(before) <= Subs(before + after)
  {
    AssignedAppend(before, after);
  }

  /** One more field adds its own registrations after those of the fields
      before it, and they are among the registrations of all the fields. */
  lemma RegistrationsSnoc(fields: seq<Field>, prefix: string, i: nat)
    requires i < |fields|
    ensures |Registrations(fields[..i], prefix)| <= |Registrations(fields[..i + 1], prefix)|
    ensures var before := Registrations(fields[..i], prefix);
            var after := Registrations(fields[..i + 1], prefix);
            var here := after[|before|..];
            var f := fields[i];
            after == before + here &&
            Subs(here) <= Subs(Registrations(fields, prefix)) &&
            match f.value
            case Sub(s) => here == [Registration(prefix + f.key, s, if |prefix| > 0 then prefix + "/" + f.key else f.key)]
            case Nested(inner) => here == Registrations(inner, prefix + f.key + "/")
            case Scalar => here == []
  {
    var front := fields[..i + 1];
    assert front[..|front| - 1] == fields[..i];
    assert front[|front| - 1] == fields[i];
    var before := Registrations(fields[..i], prefix);
    var after := Registrations(front, prefix);
    RegistrationsGrow(fields, prefix, i + 1);
    var all := Registrations(fields, prefix);
    assert all == after + all[|after|..];
    SubsGrow(after, all[|after|..]);
    SubsGrow(before, after[|before|..]);
  }

  /** Every subscription carries the prefix its last registration assigned. */
  ghost predicate PrefixesAssigned(regs: seq<Registration>)
    reads Subs(regs)
  {
    forall s :: s in Assigned(regs) ==> s.prefix == Assigned(regs)[s]
  }

  /** `_parse(object, prefix, map)`: inserts every subscription reachable
      through nested objects under `prefix + key` (nested objects recurse
      with `${prefix}${key}/`) and assigns each its prefix. */
  method ParseInto(fields: seq<Field>, prefix: string, m: map<string, Subscription>)
    returns (result: map<string, Subscription>)
    modifies Subs(Registrations(fields, prefix))
    ensures result == Install(m, Registrations(fields, prefix))
    ensures PrefixesAssigned(Registrations(fields, prefix))
    ensures forall t :: t in Subs(Registrations(fields, prefix)) && old(allocated(t)) ==>
              t.publishers == old(t.publishers) && t.topicOf == old(t.topicOf) && t.bodyOf == old(t.bodyOf)
    decreases fields, 2
  {
    result := m;
    var i := 0;
    while i < |fields|
      invariant 0 <= i <= |fields|
      invariant result == Install(m, Registrations(fields[..i], prefix))
      invariant PrefixesAssigned(Registrations(fields[..i], prefix))
      invariant forall t :: t in Subs(Registrations(fields, prefix)) && old(allocated(t)) ==>
                  t.publishers == old(t.publishers) && t.topicOf == old(t.topicOf) && t.bodyOf == old(t.bodyOf)
    {
      result := ParseField(fields, prefix, i, m, result);
      i := i + 1;
    }
    assert fields[..i] == fields;
  }

  /** One iteration of `_parse`: the field at index `i`. */
  method ParseField(fields: seq<Field>, prefix: string, i: nat, ghost m: map<string, Subscription>,
                    acc: map<string, Subscription>)
    returns (result: map<string, Subscription>)
    requires i < |fields|
    requires acc == Install(m, Registrations(fields[..i], prefix))
    requires PrefixesAssigned(Registrations(fields[..i], prefix))
    modifies Subs(Registrations(fields, prefix))
    ensures result == Install(m, Registrations(fields[..i + 1], prefix))
    ensures PrefixesAssigned(Registrations(fields[..i + 1], prefix))
    ensures forall t :: t in Subs(Registrations(fields, prefix)) && old(allocated(t)) ==>
              t.publishers == old(t.publishers) && t.topicOf == old(t.topicOf) && t.bodyOf == old(t.bodyOf)
    decreases fields, 1
  {
    ghost var before := Registrations(fields[..i], prefix);
    ghost var after := Registrations(fields[..i + 1], prefix);
    RegistrationsSnoc(fields, prefix, i);
    ghost var here := after[|before|..];
    var f := fields[i];
    match f.value {
      case Sub(s) =>
        ParseSub(s, prefix + f.key, if |prefix| > 0 then prefix + "/" + f.key else f.key, before);
        result := acc[prefix + f.key := s];
        assert (before + here)[..|before + here| - 1] == before;
      case Nested(inner) =>
        result := ParseNested(inner, prefix + f.key + "/", acc, before);
        InstallAppend(m, before, here);
      case Scalar =>
        result := acc;
        assert before + here == before;
    }
  }

  /** A subscription leaf: `sub.prefix = ...`, after the registrations
      `done` that came before it. */
  method ParseSub(s: Subscription, ghost key: string, newPrefix: string, ghost done: seq<Registration>)
    requires PrefixesAssigned(done)
    modifies s
    ensures PrefixesAssigned(done + [Registration(key, s, newPrefix)])
    ensures s.publishers == old(s.publishers) && s.topicOf == old(s.topicOf) && s.bodyOf == old(s.bodyOf)
  {
    s.prefix := newPrefix;
    ghost var regs := done + [Registration(key, s, newPrefix)];
    assert regs[..|regs| - 1] == done;
    forall t | t in Assigned(regs) && t != s ensures t.prefix == Assigned(regs)[t] {
      AssignedFrom(done, t);
      var j :| 0 <= j < |done| && done[j].sub == t;
      assert t.prefix == old(t.prefix);
    }
  }

  /** A nested object: `_parse` on it with the longer prefix, after the
      registrations `done` that came before it. */
  method ParseNested(inner: seq<Field>, prefix: string, m: map<string, Subscription>, ghost done: seq<Registration>)
    returns (result: map<string, Subscription>)
    requires PrefixesAssigned(done)
    modifies Subs(Registrations(inner, prefix))
    ensures result == Install(m, Registrations(inner, prefix))
    ensures PrefixesAssigned(done + Registrations(inner, prefix))
    ensures forall t :: t in Subs(Registrations(inner, prefix)) && old(allocated(t)) ==>
              t.publishers == old(t.publishers) && t.topicOf == old(t.topicOf) && t.bodyOf == old(t.bodyOf)
    decreases inner, 3
  {
    ghost var here := Registrations(inner, prefix);
    result := ParseInto(inner, prefix, m);
    AssignedAppend(done, here);
    forall t | t in Assigned(done) && t !in Assigned(here)
      ensures t.prefix == Assigned(done)[t]
    {
      AssignedFrom(done, t);
      var j :| 0 <= j < |done| && done[j].sub == t;
      assert t !in Subs(here);
      assert t.prefix == old(t.prefix);
    }
  }

  /** `Subscription.parse(events)` (events.ts): a fresh map filled by
      `_parse` with an empty prefix. */
  method Parse(fields: seq<Field>) returns (result: map<string, Subscription>)
    modifies Subs(Registrations(fields, ""))
    ensures result == Install(map[], Registrations(fields, ""))
    ensures PrefixesAssigned(Registrations(fields, ""))
    ensures forall t :: t in Subs(Registrations(fields, "")) && old(allocated(t)) ==>
              t.publishers == old(t.publishers) && t.topicOf == old(t.topicOf) && t.bodyOf == old(t.bodyOf)
  {
    result := ParseInto(fields, "", map[]);
  }

  /** A subscription nested one level down, under keys `a` then `b`, is
      stored under `a/b` and gets the prefix `a//b`: the nested walk's
      prefix already ends in a slash, and the leaf adds another. */
  lemma NestedPrefixDoublesSlash(s: Subscription, p: string, a: string, b: string)
    ensures Registrations([Field(a, Nested([Field(b, Sub(s))]))], p)
            == [Registration(p + a + "/" + b, s, p + a + "//" + b)]
  {
    var inner := [Field(b, Sub(s))];
    var q := p + a + "/";
    assert inner[..0] == [];
    assert q + b == p + a + "/" + b && q + "/" + b == p + a + "//" + b;
    assert Registrations(inner, q) == [Registration(q + b, s, q + "/" + b)];
    var outer := [Field(a, Nested(inner))];
    assert outer[..0] == [];
  }

}
