/** How a channel's registries are filled in bulk: `merge` copies another
    channel's exact registrations under a prefix, `events` adds the entries
    of a `Map`, and `_parseApi` walks a nested object of handlers. */
module Registry {
  import opened Js
  import opened ObjectMaps
  import opened Protocol

  /** `prefix.length ? prefix + '/' : ''` */
  function JoinPrefix(prefix: string): string
  {
    if |prefix| > 0 then prefix + "/" else ""
  }

  /** The entries of a store in property order (`forEach`). */
  function Pairs<V>(s: Store<string, V>): (r: seq<(string, V)>)
    requires WellFormed(s)
    ensures |r| == |s.keys| && forall i :: 0 <= i < |r| ==> r[i] == (s.keys[i], s.entries[s.keys[i]])
  {
    seq(|s.keys|, i requires 0 <= i < |s.keys| => (s.keys[i], s.entries[s.keys[i]]))
  }

  /** `set(p + key, value)` for each entry in turn. */
  function PutAll<V>(s: Store<string, V>, p: string, es: seq<(string, V)>): (r: Store<string, V>)
    requires WellFormed(s)
    ensures WellFormed(r) && r.count == s.count + |es|
  {
    if es == [] then s
    else
      var last := es[|es| - 1];
      Put(PutAll(s, p, es[..|es| - 1]), p + last.0, last.1)
  }

  /** One more entry is set after those before it. */
  lemma PutAllSnoc<V>(s: Store<string, V>, p: string, es: seq<(string, V)>, i: nat)
    requires WellFormed(s) && i < |es|
    ensures PutAll(s, p, es[..i + 1]) == Put(PutAll(s, p, es[..i]), p + es[i].0, es[i].1)
  {
    var front := es[..i + 1];
    assert front[..|front| - 1] == es[..i] && front[|front| - 1] == es[i];
  }

  /** Distinct keys under one prefix stay distinct. */
  lemma PrefixInjective(p: string, a: string, b: string)
    requires p + a == p + b
    ensures a == b
  {
    assert a == (p + a)[|p|..];
    assert b == (p + b)[|p|..];
  }

  /** After `PutAll`, every copied key holds the value of its last entry,
      and every other key is untouched. */
  lemma {:induction false} PutAllLookup<V>(s: Store<string, V>, p: string, es: seq<(string, V)>, x: string)
    requires WellFormed(s)
    ensures (exists i :: 0 <= i < |es| && p + es[i].0 == x) ==>
              exists i :: 0 <= i < |es| && p + es[i].0 == x && Lookup(PutAll(s, p, es), x) == Some(es[i].1) &&
                forall j :: i < j < |es| ==> es[j].0 != es[i].0
    ensures (forall i :: 0 <= i < |es| ==> p + es[i].0 != x) ==> Lookup(PutAll(s, p, es), x) == Lookup(s, x)
    decreases |es|
  {
    if es != [] {
      var front := es[..|es| - 1];
      var last := es[|es| - 1];
      PutAllLookup(s, p, front, x);
      if p + last.0 == x {
        var n := |es| - 1;
        assert p + es[n].0 == x && Lookup(PutAll(s, p, es), x) == Some(es[n].1);
      } else if exists i :: 0 <= i < |es| && p + es[i].0 == x {
        var k :| 0 <= k < |es| && p + es[k].0 == x;
        assert k < |es| - 1 && front[k] == es[k];
        var i :| 0 <= i < |front| && p + front[i].0 == x && Lookup(PutAll(s, p, front), x) == Some(front[i].1) &&
                 forall j :: i < j < |front| ==> front[j].0 != front[i].0;
        assert es[i] == front[i];
        forall j | i < j < |es| ensures es[j].0 != es[i].0 {
          if j < |es| - 1 {
            assert es[j] == front[j];
          } else {
            assert p + es[j].0 != p + es[i].0;
          }
        }
      } else {
        forall i | 0 <= i < |front| ensures p + front[i].0 != x {
          assert front[i] == es[i];
        }
      }
    }
  }

  /** `merge(channel, prefix)`: each exact entry of `from` is found under
      the joined prefix with its own value; nothing else changes; the size
      grows by the number of entries copied. */
  lemma MergeCopies<V>(into: Store<string, V>, prefix: string, from: Store<string, V>)
    requires WellFormed(into) && WellFormed(from)
    ensures var r := PutAll(into, JoinPrefix(prefix), Pairs(from));
            (forall k :: k in from.entries ==> Lookup(r, JoinPrefix(prefix) + k) == Some(from.entries[k])) &&
            (forall x :: (forall k :: k in from.entries ==> JoinPrefix(prefix) + k != x) ==> Lookup(r, x) == Lookup(into, x)) &&
            r.count == into.count + |from.keys|
  {
    var p := JoinPrefix(prefix);
    var es := Pairs(from);
    var r := PutAll(into, p, es);
    forall k | k in from.entries ensures Lookup(r, p + k) == Some(from.entries[k]) {
      var n :| 0 <= n < |from.keys| && from.keys[n] == k;
      PutAllLookup(into, p, es, p + k);
      assert p + es[n].0 == p + k;
      var i :| 0 <= i < |es| && p + es[i].0 == p + k && Lookup(r, p + k) == Some(es[i].1) &&
               forall j :: i < j < |es| ==> es[j].0 != es[i].0;
      PrefixInjective(p, es[i].0, k);
      assert from.keys[i] == k == from.keys[n];
      assert Distinct(from.keys);
      assert i == n;
    }
    forall x | forall k :: k in from.entries ==> p + k != x
      ensures Lookup(r, x) == Lookup(into, x)
    {
      PutAllLookup(into, p, es, x);
      forall i | 0 <= i < |es| ensures p + es[i].0 != x {
        assert from.keys[i] in from.entries;
      }
    }
  }

  /** `e.set(p + key, value)` for each entry of a `Map`, in insertion order. */
  function SetAll<V>(m: map<string, V>, p: string, es: seq<(string, V)>): (r: map<string, V>)
    ensures forall x :: x in r <==> x in m || exists i :: 0 <= i < |es| && p + es[i].0 == x
  {
    if es == [] then m
    else
      var last := es[|es| - 1];
      var front := SetAll(m, p, es[..|es| - 1]);
      assert forall i :: 0 <= i < |es| - 1 ==> es[..|es| - 1][i] == es[i];
      front[p + last.0 := last.1]
  }

  /** A handler object: each property holds a call handler, a stream
      handler (told apart by a tag), a nested non-null object, or a
      non-object value (skipped). A `null` property is not represented. */
  datatype ApiNode = PostLeaf(call: CallHandler) | StreamLeaf(gen: StreamHandler) | Group(entries: seq<ApiEntry>) | Other
  datatype ApiEntry = ApiEntry(key: string, node: ApiNode)

  /** One `post(path, h)` or `stream(path, h)` made by `_parseApi`. */
  datatype Registered = Registered(path: string, leaf: ApiNode)

  /** The path of a handler: `_` names the enclosing object itself. */
  function LeafPath(prefix: string, key: string): string
  {
    if key == "_" then prefix else if |prefix| > 0 then prefix + "/" + key else key
  }

  /** The prefix a nested object passes down. */
  function GroupPath(prefix: string, key: string): string
  {
    if |prefix| > 0 then prefix + "/" + key else key
  }

  /** The registrations `_parseApi(entries, prefix)` makes, in order. */
  function ApiRegistrations(entries: seq<ApiEntry>, prefix: string): (r: seq<Registered>)
    ensures forall i :: 0 <= i < |r| ==> r[i].leaf.PostLeaf? || r[i].leaf.StreamLeaf?
    decreases entries
  {
    if entries == [] then []
    else
      var last := entries[|entries| - 1];
      var here := match last.node
        case PostLeaf(_) => [Registered(LeafPath(prefix, last.key), last.node)]
        case StreamLeaf(_) => [Registered(LeafPath(prefix, last.key), last.node)]
        case Group(inner) => ApiRegistrations(inner, GroupPath(prefix, last.key))
        case Other => [];
      ApiRegistrations(entries[..|entries| - 1], prefix) + here
  }

  /** The call handlers registered, applied to the store in order. */
  function PostsAfter(s: Store<string, CallHandler>, regs: seq<Registered>): (r: Store<string, CallHandler>)
    requires WellFormed(s)
    ensures WellFormed(r)
  {
    if regs == [] then s
    else
      var last := regs[|regs| - 1];
      var front := PostsAfter(s, regs[..|regs| - 1]);
      if last.leaf.PostLeaf? then Put(front, last.path, last.leaf.call) else front
  }

  /** The stream handlers registered, applied to the store in order. */
  function StreamsAfter(s: Store<string, StreamHandler>, regs: seq<Registered>): (r: Store<string, StreamHandler>)
    requires WellFormed(s)
    ensures WellFormed(r)
  {
    if regs == [] then s
    else
      var last := regs[|regs| - 1];
      var front := StreamsAfter(s, regs[..|regs| - 1]);
      if last.leaf.StreamLeaf? then Put(front, last.path, last.leaf.gen) else front
  }

  lemma {:induction false} PostsAfterAppend(s: Store<string, CallHandler>, a: seq<Registered>, b: seq<Registered>)
    requires WellFormed(s)
    ensures PostsAfter(s, a + b) == PostsAfter(PostsAfter(s, a), b)
    decreases |b|
  {
    if b == [] {
      assert a + b == a;
    } else {
      var ab := a + b;
      assert ab[..|ab| - 1] == a + b[..|b| - 1];
      assert ab[|ab| - 1] == b[|b| - 1];
      PostsAfterAppend(s, a, b[..|b| - 1]);
    }
  }

  lemma {:induction false} StreamsAfterAppend(s: Store<string, StreamHandler>, a: seq<Registered>, b: seq<Registered>)
    requires WellFormed(s)
    ensures StreamsAfter(s, a + b) == StreamsAfter(StreamsAfter(s, a), b)
    decreases |b|
  {
    if b == [] {
      assert a + b == a;
    } else {
      var ab := a + b;
      assert ab[..|ab| - 1] == a + b[..|b| - 1];
      assert ab[|ab| - 1] == b[|b| - 1];
      StreamsAfterAppend(s, a, b[..|b| - 1]);
    }
  }

  /** One more entry adds its own registrations after those of the
      entries before it. */
  lemma ApiRegistrationsSnoc(entries: seq<ApiEntry>, prefix: string, i: nat)
    requires i < |entries|
    ensures |ApiRegistrations(entries[..i], prefix)| <= |ApiRegistrations(entries[..i + 1], prefix)|
    ensures var before := ApiRegistrations(entries[..i], prefix);
            var after := ApiRegistrations(entries[..i + 1], prefix);
            var here := after[|before|..];
            var e := entries[i];
            after == before + here &&
            match e.node
            case PostLeaf(_) => here == [Registered(LeafPath(prefix, e.key), e.node)]
            case StreamLeaf(_) => here == [Registered(LeafPath(prefix, e.key), e.node)]
            case Group(inner) => here == ApiRegistrations(inner, GroupPath(prefix, e.key))
            case Other => here == []
  {
    var front := entries[..i + 1];
    assert front[..|front| - 1] == entries[..i];
    assert front[|front| - 1] == entries[i];
  }

  /** A handler under `_` is registered under the path of the object that
      holds it: at top level under the prefix itself, one level down under
      `prefix/key` (or `key`). Any other key names its own path. */
  lemma UnderscoreNamesItsObject(prefix: string, key: string, leaf: ApiNode)
    requires leaf.PostLeaf? || leaf.StreamLeaf?
    ensures ApiRegistrations([ApiEntry("_", leaf)], prefix) == [Registered(prefix, leaf)]
    ensures ApiRegistrations([ApiEntry(key, Group([ApiEntry("_", leaf)]))], prefix)
            == [Registered(GroupPath(prefix, key), leaf)]
    ensures key != "_" ==>
              ApiRegistrations([ApiEntry(key, leaf)], prefix) == [Registered(GroupPath(prefix, key), leaf)]
  {
    var inner := [ApiEntry("_", leaf)];
    assert inner[..0] == [];
    assert ApiRegistrations(inner, GroupPath(prefix, key)) == [Registered(GroupPath(prefix, key), leaf)];
    var outer := [ApiEntry(key, Group(inner))];
    assert outer[..0] == [];
    var plain := [ApiEntry(key, leaf)];
    assert plain[..0] == [];
  }

}
