/** `LazyState`: a value recomputed on a timer only while somebody listens.
    It counts its subscribers, keeps flags that gate the update timer, and
    hands each new value to the promise of the current generation.
    `LazyStateIterator` subscribes on its first `next` and unsubscribes
    once when it is returned. */
module LazyStates {
  import opened Js

  /** The subscriber count and the flag that follows it. */
  datatype Gate = Gate(subscribers: nat, allowsUpdates: bool)

  /** `subscribe()`: one more subscriber; the first one allows updates. */
  function Joined(g: Gate): Gate
  {
    Gate(g.subscribers + 1, if g.subscribers == 0 then true else g.allowsUpdates)
  }

  /** `unsubscribe()`: nothing at zero; otherwise one fewer, and updates
      stop when the last one leaves. */
  function Left(g: Gate): Gate
  {
    if g.subscribers == 0 then g
    else if g.subscribers - 1 > 0 then Gate(g.subscribers - 1, g.allowsUpdates)
    else Gate(0, false)
  }

  /** Updates are allowed exactly while there are subscribers. */
  ghost predicate Follows(g: Gate)
  {
    g.allowsUpdates <==> g.subscribers > 0
  }

  /** Both transitions keep the flag in step with the count, and neither
      takes the count below zero. */
  lemma GateSteps(g: Gate)
    requires Follows(g)
    ensures Follows(Joined(g)) && Joined(g).subscribers == g.subscribers + 1
    ensures Follows(Left(g)) && Left(g).subscribers == if g.subscribers == 0 then 0 else g.subscribers - 1
  {
  }

  /** An iterator's two flags. */
  datatype Progress = Progress(isStarted: bool, isCancelled: bool)

  /** The number of iterators that have subscribed and not unsubscribed. */
  function Live(its: seq<Progress>): (n: nat)
    ensures n <= |its|
  {
    if its == [] then 0
    else Live(its[..|its| - 1]) + (if its[|its| - 1].isStarted && !its[|its| - 1].isCancelled then 1 else 0)
  }

  /** Changing one iterator changes the live count by its own change. */
  lemma {:induction false} LiveUpdate(its: seq<Progress>, i: nat, p: Progress)
    requires i < |its|
    ensures var was := if its[i].isStarted && !its[i].isCancelled then 1 else 0;
            var now := if p.isStarted && !p.isCancelled then 1 else 0;
            Live(its[i := p]) + was == Live(its) + now
    decreases |its|
  {
    var n := |its| - 1;
    var updated := its[i := p];
    assert updated[..n] == if i < n then its[..n][i := p] else its[..n];
    if i < n {
      LiveUpdate(its[..n], i, p);
    }
  }

  /** No iterator is live. */
  lemma {:induction false} NoneLive(its: seq<Progress>)
    requires forall i :: 0 <= i < |its| ==> !its[i].isStarted || its[i].isCancelled
    ensures Live(its) == 0
    decreases |its|
  {
    if its != [] {
      NoneLive(its[..|its| - 1]);
    }
  }

  /** One state and its iterators, as the sequence of their operations
      sees them. */
  datatype Shared = Shared(gate: Gate, its: seq<Progress>)

  datatype Op = NextOn(i: nat) | ReturnOn(i: nat)

  /** `next()` on iterator `i`: the first one starts it and subscribes. */
  function Started(s: Shared, i: nat): Shared
    requires i < |s.its|
  {
    if s.its[i].isStarted then s
    else Shared(Joined(s.gate), s.its[i := s.its[i].(isStarted := true)])
  }

  /** `return()` on iterator `i`: `cancel()` unsubscribes once, and only
      after a start. */
  function Cancelled(s: Shared, i: nat): Shared
    requires i < |s.its|
  {
    if !s.its[i].isStarted || s.its[i].isCancelled then s
    else Shared(Left(s.gate), s.its[i := s.its[i].(isCancelled := true)])
  }

  function Apply(s: Shared, op: Op): Shared
  {
    match op
    case NextOn(i) => if i < |s.its| then Started(s, i) else s
    case ReturnOn(i) => if i < |s.its| then Cancelled(s, i) else s
  }

  function ApplyAll(s: Shared, ops: seq<Op>): Shared
    decreases |ops|
  {
    if ops == [] then s else ApplyAll(Apply(s, ops[0]), ops[1..])
  }

  /** The count is the number of live iterators, updates are allowed
      exactly while one is live, and only started iterators are cancelled. */
  ghost predicate Balanced(s: Shared)
  {
    s.gate.subscribers == Live(s.its) && Follows(s.gate) &&
    forall i :: 0 <= i < |s.its| ==> s.its[i].isCancelled ==> s.its[i].isStarted
  }

  /** Whatever the iterators do, in any order and any number of times,
      each contributes exactly one subscriber while it is live. */
  lemma {:induction false} StaysBalanced(s: Shared, ops: seq<Op>)
    requires Balanced(s)
    ensures Balanced(ApplyAll(s, ops)) && |ApplyAll(s, ops).its| == |s.its|
    decreases |ops|
  {
    if ops != [] {
      var next := Apply(s, ops[0]);
      assert ApplyAll(s, ops) == ApplyAll(next, ops[1..]);
      match ops[0] {
      case NextOn(i) =>
        if i < |s.its| && !s.its[i].isStarted {
          LiveUpdate(s.its, i, s.its[i].(isStarted := true));
          assert next == Shared(Joined(s.gate), s.its[i := s.its[i].(isStarted := true)]);
        } else {
          assert next == s;
        }
      case ReturnOn(i) =>
        if i < |s.its| && s.its[i].isStarted && !s.its[i].isCancelled {
          LiveUpdate(s.its, i, s.its[i].(isCancelled := true));
          assert next == Shared(Left(s.gate), s.its[i := s.its[i].(isCancelled := true)]);
        } else {
          assert next == s;
        }
      }
      StaysBalanced(next, ops[1..]);
    }
  }

  /** Once every iterator that started has been returned, nobody is
      subscribed and no update will be scheduled. */
  lemma AllReturned(s: Shared)
    requires Balanced(s)
    requires forall i :: 0 <= i < |s.its| ==> !s.its[i].isStarted || s.its[i].isCancelled
    ensures s.gate == Gate(0, false)
  {
    NoneLive(s.its);
  }

  /** What a caller of the iterator's `next` awaits: the state's getter on
      the first call, the promise of a generation afterwards. */
  datatype Awaited = GetValue | Generation(n: nat)

  class LazyState {
    var subscribers: nat
    var allowsUpdates: bool
    var needsUpdate: bool
    var waiting: bool
    var alwaysNeeds: bool
    var minimumDelay: real
    /** How each promise generation settled, oldest first; the current
        promise is generation `|settled|`. */
    var settled: seq<Settlement>
    /** Update timers started so far; the timer body is not modelled. */
    var timers: nat

    function Counts(): Gate
      reads this
    {
      Gate(subscribers, allowsUpdates)
    }

    /** A timer has been started exactly when one is awaited: never two
        at once. */
    ghost predicate OneTimer()
      reads this
    {
      timers == if waiting then 1 else 0
    }

    /** Updates are allowed exactly while somebody is subscribed. */
    ghost predicate Valid()
      reads this
    {
      Follows(Counts()) && OneTimer()
    }

    constructor ()
      ensures Valid() && Counts() == Gate(0, false)
      ensures !needsUpdate && !waiting && !alwaysNeeds && minimumDelay == 1.0 / 30.0
      ensures settled == [] && timers == 0
    {
      subscribers := 0;
      allowsUpdates := false;
      needsUpdate := false;
      waiting := false;
      alwaysNeeds := false;
      minimumDelay := 1.0 / 30.0;
      settled := [];
      timers := 0;
    }

    /** `delay(seconds)` */
    method Delay(seconds: real)
      modifies this
      ensures minimumDelay == seconds
      ensures Counts() == old(Counts()) && needsUpdate == old(needsUpdate) && waiting == old(waiting)
      ensures alwaysNeeds == old(alwaysNeeds) && settled == old(settled) && timers == old(timers)
    {
      minimumDelay := seconds;
    }

    /** `alwaysNeedsUpdate()`: sets the flag and schedules nothing. */
    method AlwaysNeedsUpdate()
      modifies this
      ensures alwaysNeeds
      ensures Counts() == old(Counts()) && needsUpdate == old(needsUpdate) && waiting == old(waiting)
      ensures minimumDelay == old(minimumDelay) && settled == old(settled) && timers == old(timers)
    {
      alwaysNeeds := true;
    }

    /** `scheduleUpdates()`: starts a timer only when updates are allowed,
        an update is wanted (always, or flagged) and no timer is awaited. */
    method ScheduleUpdates()
      requires OneTimer()
      modifies this
      ensures OneTimer()
      ensures var proceeds := old(allowsUpdates) && (old(alwaysNeeds) || old(needsUpdate)) && !old(waiting);
              waiting == (old(waiting) || proceeds) && timers == old(timers) + (if proceeds then 1 else 0)
      ensures Counts() == old(Counts()) && needsUpdate == old(needsUpdate) && alwaysNeeds == old(alwaysNeeds)
      ensures minimumDelay == old(minimumDelay) && settled == old(settled)
    {
      if !allowsUpdates || (!alwaysNeeds && !needsUpdate) || waiting {
        return;
      }
      waiting := true;
      timers := timers + 1;
    }

    /** `subscribe()`: the first subscriber allows updates and schedules. */
    method Subscribe()
      requires Valid()
      modifies this
      ensures Valid() && Counts() == Joined(old(Counts()))
      ensures var proceeds := old(subscribers) == 0 && (old(alwaysNeeds) || old(needsUpdate)) && !old(waiting);
              waiting == (old(waiting) || proceeds) && timers == old(timers) + (if proceeds then 1 else 0)
      ensures needsUpdate == old(needsUpdate) && alwaysNeeds == old(alwaysNeeds)
      ensures minimumDelay == old(minimumDelay) && settled == old(settled)
    {
      if subscribers == 0 {
        allowsUpdates := true;
        ScheduleUpdates();
      }
      subscribers := subscribers + 1;
    }

    /** `unsubscribe()`: a no-op at zero; the last one out stops updates. */
    method Unsubscribe()
      requires Valid()
      modifies this
      ensures Valid() && Counts() == Left(old(Counts()))
      ensures needsUpdate == old(needsUpdate) && waiting == old(waiting) && alwaysNeeds == old(alwaysNeeds)
      ensures minimumDelay == old(minimumDelay) && settled == old(settled) && timers == old(timers)
    {
      if subscribers == 0 {
        return;
      }
      subscribers := subscribers - 1;
      if subscribers > 0 {
        return;
      }
      allowsUpdates := false;
    }

    /** `setNeedsUpdate()`: flags the update, and schedules only when the
        flag was clear. */
    method SetNeedsUpdate()
      requires Valid()
      modifies this
      ensures Valid() && needsUpdate
      ensures var proceeds := !old(needsUpdate) && old(allowsUpdates) && !old(waiting);
              waiting == (old(waiting) || proceeds) && timers == old(timers) + (if proceeds then 1 else 0)
      ensures Counts() == old(Counts()) && alwaysNeeds == old(alwaysNeeds)
      ensures minimumDelay == old(minimumDelay) && settled == old(settled)
    {
      var schedule := !needsUpdate;
      needsUpdate := true;
      if schedule {
        ScheduleUpdates();
      }
    }

    /** `send(value)`: clears the flag, resolves the current promise and
        moves on to a new one. */
    method Send(value: Value)
      modifies this
      ensures !needsUpdate && settled == old(settled) + [Resolved(value)]
      ensures Counts() == old(Counts()) && waiting == old(waiting) && alwaysNeeds == old(alwaysNeeds)
      ensures minimumDelay == old(minimumDelay) && timers == old(timers)
    {
      needsUpdate := false;
      settled := settled + [Resolved(value)];
    }

    /** `throw()`: clears the flag, rejects the current promise with
        `'cancelled'` and moves on to a new one. */
    method Throw()
      modifies this
      ensures !needsUpdate && settled == old(settled) + [Rejected(Str("cancelled"))]
      ensures Counts() == old(Counts()) && waiting == old(waiting) && alwaysNeeds == old(alwaysNeeds)
      ensures minimumDelay == old(minimumDelay) && timers == old(timers)
    {
      needsUpdate := false;
      settled := settled + [Rejected(Str("cancelled"))];
    }
  }

  class LazyStateIterator {
    const state: LazyState
    var isStarted: bool
    var isCancelled: bool

    function Flags(): Progress
      reads this
    {
      Progress(isStarted, isCancelled)
    }

    constructor (state: LazyState)
      ensures this.state == state && Flags() == Progress(false, false)
    {
      this.state := state;
      isStarted := false;
      isCancelled := false;
    }

    /** `next()`: the first call starts the iterator, subscribes and awaits
        the getter; later calls await the current generation's promise. */
    method Next() returns (awaited: Awaited)
      requires state.Valid()
      modifies this, state
      ensures state.Valid() && isStarted && isCancelled == old(isCancelled)
      ensures !old(isStarted) ==> awaited == GetValue && state.Counts() == Joined(old(state.Counts()))
      ensures !old(isStarted) ==>
                var proceeds := old(state.subscribers) == 0 && (old(state.alwaysNeeds) || old(state.needsUpdate)) &&
                                !old(state.waiting);
                state.waiting == (old(state.waiting) || proceeds) &&
                state.timers == old(state.timers) + (if proceeds then 1 else 0)
      ensures old(isStarted) ==> awaited == Generation(|old(state.settled)|) && unchanged(state)
      ensures state.needsUpdate == old(state.needsUpdate) && state.alwaysNeeds == old(state.alwaysNeeds)
      ensures state.minimumDelay == old(state.minimumDelay) && state.settled == old(state.settled)
    {
      if !isStarted {
        isStarted := true;
        state.Subscribe();
        return GetValue;
      }
      return Generation(|state.settled|);
    }

    /** `return()`: cancels, then reports done. */
    method Return() returns (done: bool)
      requires state.Valid()
      modifies this, state
      ensures done && state.Valid()
      ensures Flags() == if old(isStarted) then Progress(true, true) else old(Flags())
      ensures state.Counts() == if old(isStarted) && !old(isCancelled) then Left(old(state.Counts())) else old(state.Counts())
      ensures !old(isStarted) || old(isCancelled) ==> unchanged(state)
      ensures state.needsUpdate == old(state.needsUpdate) && state.waiting == old(state.waiting)
      ensures state.alwaysNeeds == old(state.alwaysNeeds) && state.timers == old(state.timers)
      ensures state.minimumDelay == old(state.minimumDelay) && state.settled == old(state.settled)
    {
      Cancel();
      done := true;
    }

    /** `cancel()`: a no-op before the start and after the first cancel;
        otherwise unsubscribes. */
    method Cancel()
      requires state.Valid()
      modifies this, state
      ensures state.Valid()
      ensures Flags() == if old(isStarted) then Progress(true, true) else old(Flags())
      ensures state.Counts() == if old(isStarted) && !old(isCancelled) then Left(old(state.Counts())) else old(state.Counts())
      ensures !old(isStarted) || old(isCancelled) ==> unchanged(state)
      ensures state.needsUpdate == old(state.needsUpdate) && state.waiting == old(state.waiting)
      ensures state.alwaysNeeds == old(state.alwaysNeeds) && state.timers == old(state.timers)
      ensures state.minimumDelay == old(state.minimumDelay) && state.settled == old(state.settled)
    {
      if !isStarted || isCancelled {
        return;
      }
      isCancelled := true;
      state.Unsubscribe();
    }
  }
}
