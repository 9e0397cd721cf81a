/**
 * The debounce helper of utils/debounce.js. `debounce(callback, wait)` returns
 * a wrapper whose closure holds two cells, `timeout` and `callbackArgs`. Time
 * is a logical clock (a `nat`). The part of the runtime's timer queue that this
 * wrapper filled is the map `pending`: timer id to deadline.
 */
module Debounce {
  import opened Options

  /** A handle returned by `setTimeout`. The model numbers this wrapper's
      timers 1, 2, 3, ...; the runtime's real handles are shared with every
      other timer of the app, but they too are positive and increasing, so
      every handle is truthy for the `if (timeout)` test. */
  type TimerId = nat

  /** One wrapper call: its arguments and the logical time it is made at. */
  datatype Arrival<A> = Arrival(args: A, at: nat)

  datatype State<A> = State(
    timeout: Option<TimerId>,     // the `timeout` cell
    callbackArgs: Option<A>,      // the `callbackArgs` cell
    pending: map<TimerId, nat>,   // timers set by the wrapper, neither cleared nor run yet
    nextId: TimerId)              // the handle the next `setTimeout` returns

  /** What every reachable state satisfies: handles are positive and already
      handed out, and a timer is only pending once some arguments were recorded. */
  predicate WellFormed<A>(s: State<A>) {
    && 1 <= s.nextId
    && (forall id :: id in s.pending ==> 1 <= id < s.nextId)
    && (s.timeout.Some? ==> 1 <= s.timeout.value < s.nextId)
    && (s.pending != map[] ==> s.callbackArgs.Some?)
  }

  /** Every pending timer is the one the `timeout` cell holds, so the next
      call clears it. */
  predicate Quiet<A>(s: State<A>) {
    forall id :: id in s.pending ==> s.timeout == Some(id)
  }

  /** The pending timers that the next call will not clear: those left
      after `clearTimeout(timeout)` (lines 11-13). */
  function Orphans<A>(s: State<A>): (m: map<TimerId, nat>)
    ensures forall id :: id in m <==> id in s.pending && s.timeout != Some(id)
    ensures forall id :: id in m ==> m[id] == s.pending[id]
  {
    if s.timeout.Some? then s.pending - {s.timeout.value} else s.pending
  }

  lemma QuietIffNoOrphans<A>(s: State<A>)
    ensures Quiet(s) <==> Orphans(s) == map[]
  {
    if !Quiet(s) {
      var id :| id in s.pending && s.timeout != Some(id);
      assert id in Orphans(s);
    }
  }

  /** The closure as `debounce` creates it (lines 2-3). */
  function Init<A>(): (s: State<A>)
    ensures WellFormed(s) && Quiet(s) && s.pending == map[]
  {
    State(None, None, map[], 1)
  }

  /** The returned wrapper (lines 10-16). It clears the timer held in
      `timeout`, records the arguments and sets a new timer due `wait` after
      the call. It never runs the callback itself. */
  function Called<A>(s: State<A>, wait: nat, a: Arrival<A>): (r: State<A>)
    requires WellFormed(s)
    ensures WellFormed(r)
    ensures r.callbackArgs == Some(a.args)
    ensures s.nextId !in s.pending
    ensures r.timeout == Some(s.nextId) && r.nextId == s.nextId + 1
    ensures r.pending == Orphans(s)[s.nextId := a.at + wait]
    ensures s.timeout.Some? ==> s.timeout.value !in r.pending
    ensures Orphans(r) == Orphans(s)
    ensures Quiet(r) <==> Quiet(s)
    ensures |r.pending| <= |s.pending| + 1
  {
    var r := State(Some(s.nextId), Some(a.args), Orphans(s)[s.nextId := a.at + wait], s.nextId + 1);
    CalledFacts(s, r);
    r
  }

  lemma CalledFacts<A>(s: State<A>, r: State<A>)
    requires WellFormed(s)
    requires r.timeout == Some(s.nextId) && r.nextId == s.nextId + 1 && r.callbackArgs.Some?
    requires s.nextId in r.pending && r.pending == Orphans(s)[s.nextId := r.pending[s.nextId]]
    ensures WellFormed(r)
    ensures Orphans(r) == Orphans(s)
    ensures Quiet(r) <==> Quiet(s)
    ensures |r.pending| <= |s.pending| + 1
  {
    var o, o' := Orphans(s), Orphans(r);
    assert forall id :: id in o' <==> id in o;
    assert forall id :: id in o' ==> o'[id] == o[id];
    QuietIffNoOrphans(s);
    QuietIffNoOrphans(r);
    OrphansNoLarger(s);
  }

  lemma OrphansNoLarger<A>(s: State<A>)
    ensures |Orphans(s)| <= |s.pending|
  {
    var o := Orphans(s);
    assert o.Keys <= s.pending.Keys;
    SubsetNoLarger(o.Keys, s.pending.Keys);
  }

  lemma SubsetNoLarger<T>(a: set<T>, b: set<T>)
    requires a <= b
    ensures |a| <= |b|
  {
    assert b == a + (b - a);
  }

  /** The runtime runs `later` for timer `id` (line 6): the callback is
      applied to the arguments in `callbackArgs`, while `timeout` still holds
      a handle. A timer that was cleared or has already run never runs. */
  function Expired<A>(s: State<A>, id: TimerId): (r: (State<A>, Option<A>))
    requires WellFormed(s)
    ensures WellFormed(r.0)
    ensures r.1.Some? <==> id in s.pending
    ensures id in s.pending ==> r.1 == s.callbackArgs
    ensures id !in s.pending ==> r.0 == s
    ensures forall k :: k in r.0.pending <==> k in s.pending && k != id
    ensures forall k :: k in r.0.pending ==> r.0.pending[k] == s.pending[k]
    ensures r.0.timeout == s.timeout && r.0.callbackArgs == s.callbackArgs && r.0.nextId == s.nextId
    ensures |r.0.pending| + (if id in s.pending then 1 else 0) == |s.pending|
  {
    if id in s.pending then
      var rest := s.pending - {id};
      assert s.pending.Keys == rest.Keys + {id};
      (s.(pending := rest), s.callbackArgs)
    else
      (s, None)
  }

  /** Line 7, once the callback has returned: `timeout = null`. The timer the
      cell held is forgotten, not cleared. */
  function Finished<A>(s: State<A>): (r: State<A>)
    requires WellFormed(s)
    ensures WellFormed(r) && r.timeout == None
    ensures r.pending == s.pending && r.callbackArgs == s.callbackArgs && r.nextId == s.nextId
  {
    s.(timeout := None)
  }

  /** A burst of wrapper calls with no timer run between them. */
  function CallAll<A>(s: State<A>, wait: nat, calls: seq<Arrival<A>>): (r: State<A>)
    requires WellFormed(s)
    ensures WellFormed(r)
    ensures r.nextId == s.nextId + |calls|
    ensures calls == [] ==> r == s
    ensures calls != [] ==>
      && r.callbackArgs == Some(calls[|calls| - 1].args)
      && r.timeout == Some(r.nextId - 1)
      && r.pending == Orphans(s)[r.nextId - 1 := calls[|calls| - 1].at + wait]
    ensures Quiet(s) && calls != [] ==> r.pending == map[r.nextId - 1 := calls[|calls| - 1].at + wait]
    ensures Orphans(r) == Orphans(s)
    ensures Quiet(r) <==> Quiet(s)
    ensures |r.pending| <= |s.pending| + |calls|
    decreases |calls|
  {
    if calls == [] then s
    else
      var t := Called(s, wait, calls[0]);
      QuietIffNoOrphans(s);
      assert Orphans(t) == Orphans(s);
      assert |calls| > 1 ==> calls[1..][|calls| - 2] == calls[|calls| - 1];
      CallAll(t, wait, calls[1..])
  }

  /** One whole run of `later` for timer `id` (lines 5-8), during which the
      callback itself makes the wrapper calls `reentrant`. */
  function Fired<A>(s: State<A>, wait: nat, id: TimerId, reentrant: seq<Arrival<A>>): (r: (State<A>, Option<A>))
    requires WellFormed(s)
    ensures WellFormed(r.0)
    ensures r.1.Some? <==> id in s.pending
    ensures id in s.pending ==> r.1 == s.callbackArgs && r.0.timeout == None
    ensures id !in s.pending ==> r.0 == s
    ensures id in s.pending && reentrant == [] ==> r.0 == s.(timeout := None, pending := s.pending - {id})
    ensures id in s.pending && reentrant != [] ==>
      && r.0.callbackArgs == Some(reentrant[|reentrant| - 1].args)
      && r.0.nextId == s.nextId + |reentrant|
      && r.0.pending == Orphans(Expired(s, id).0)[r.0.nextId - 1 := reentrant[|reentrant| - 1].at + wait]
    ensures Quiet(s) && reentrant == [] ==> Quiet(r.0) && (id in s.pending ==> r.0.pending == map[])
    ensures |r.0.pending| + (if id in s.pending then 1 else 0) <= |s.pending| + |reentrant|
  {
    var (t, invoked) := Expired(s, id);
    if invoked.None? then (s, None) else (Finished(CallAll(t, wait, reentrant)), invoked)
  }

  /** The two things that can happen to a wrapper: a call, or one of its timers running. */
  datatype Event<A> = Call(arrival: Arrival<A>) | Fire(id: TimerId, reentrant: seq<Arrival<A>>)

  /** One event; the second component is the arguments the callback ran with, if it ran. */
  function Step<A>(s: State<A>, wait: nat, e: Event<A>): (r: (State<A>, Option<A>))
    requires WellFormed(s)
    ensures WellFormed(r.0)
    ensures e.Call? ==> r.1 == None
    ensures e.Fire? ==> (r.1.Some? <==> e.id in s.pending)
  {
    match e
    case Call(a) => (Called(s, wait, a), None)
    case Fire(id, reentrant) => Fired(s, wait, id, reentrant)
  }

  /** A trace of events; the second component lists the callback invocations in order. */
  function Run<A>(s: State<A>, wait: nat, trace: seq<Event<A>>): (r: (State<A>, seq<A>))
    requires WellFormed(s)
    ensures WellFormed(r.0)
    decreases |trace|
  {
    if trace == [] then (s, [])
    else
      var (t, invoked) := Step(s, wait, trace[0]);
      var (u, rest) := Run(t, wait, trace[1..]);
      (u, (if invoked.Some? then [invoked.value] else []) + rest)
  }

  /** Wrapper calls actually made along a trace: every `Call`, and the calls
      a callback makes while it runs. A `Fire` whose timer is no longer pending
      runs no callback and so makes none of its calls. */
  function CallsMade<A>(s: State<A>, wait: nat, trace: seq<Event<A>>): nat
    requires WellFormed(s)
    decreases |trace|
  {
    if trace == [] then 0
    else
      var made := match trace[0]
        case Call(_) => 1
        case Fire(id, reentrant) => if id in s.pending then |reentrant| else 0;
      made + CallsMade(Step(s, wait, trace[0]).0, wait, trace[1..])
  }

  /** No callback calls the wrapper. */
  predicate NonReentrant<A>(trace: seq<Event<A>>) {
    forall i :: 0 <= i < |trace| && trace[i].Fire? ==> trace[i].reentrant == []
  }

  /** Invocations run so far plus invocations still pending never exceed the
      pending ones at the start plus the calls made. */
  lemma {:induction false} InvocationsBounded<A>(s: State<A>, wait: nat, trace: seq<Event<A>>)
    requires WellFormed(s)
    ensures |Run(s, wait, trace).1| + |Run(s, wait, trace).0.pending| <= |s.pending| + CallsMade(s, wait, trace)
    decreases |trace|
  {
    if trace != [] {
      var (t, invoked) := Step(s, wait, trace[0]);
      InvocationsBounded(t, wait, trace[1..]);
    }
  }

  /** The callback runs no more often than the wrapper is called. */
  lemma InvocationsAtMostCalls<A>(wait: nat, trace: seq<Event<A>>)
    ensures |Run(Init(), wait, trace).1| <= CallsMade(Init(), wait, trace)
  {
    InvocationsBounded(Init(), wait, trace);
  }

  /** In a quiet state at most one invocation is pending. */
  lemma QuietHasAtMostOne<A>(s: State<A>)
    requires Quiet(s)
    ensures |s.pending| <= 1
  {
    if s.timeout.Some? {
      SubsetNoLarger(s.pending.Keys, {s.timeout.value});
    } else {
      assert s.pending.Keys == {};
    }
  }

  /** Unless a callback calls the wrapper, every call clears the previous
      timer, so at most one invocation is ever pending. */
  lemma {:induction false} AtMostOnePending<A>(s: State<A>, wait: nat, trace: seq<Event<A>>)
    requires WellFormed(s) && Quiet(s) && NonReentrant(trace)
    ensures Quiet(Run(s, wait, trace).0)
    ensures |Run(s, wait, trace).0.pending| <= 1
    decreases |trace|
  {
    if trace == [] {
      QuietHasAtMostOne(s);
    } else {
      var (t, invoked) := Step(s, wait, trace[0]);
      assert trace[0].Fire? ==> trace[0].reentrant == [];
      assert NonReentrant(trace[1..]) by {
        forall i | 0 <= i < |trace[1..]| && trace[1..][i].Fire?
          ensures trace[1..][i].reentrant == []
        {
          assert trace[1..][i] == trace[i + 1];
        }
      }
      AtMostOnePending(t, wait, trace[1..]);
    }
  }

  /** A burst of calls with no timer run between them, started when nothing
      else is pending, leaves one timer due `wait` after the last call; of all
      timers only that one runs the callback, with the last call's arguments,
      and afterwards nothing is pending. */
  lemma BurstYieldsOneCallback<A>(s: State<A>, wait: nat, burst: seq<Arrival<A>>, id: TimerId)
    requires WellFormed(s) && Quiet(s) && burst != []
    ensures
      var b := CallAll(s, wait, burst);
      var last := burst[|burst| - 1];
      var (t, invoked) := Fired(b, wait, id, []);
      && b.pending == map[b.nextId - 1 := last.at + wait]
      && (invoked.Some? <==> id == b.nextId - 1)
      && (invoked.Some? ==> invoked.value == last.args && t.pending == map[] && t.timeout == None)
  {
    var b := CallAll(s, wait, burst);
    assert Quiet(b);
  }

  /** A call made from inside the callback sets a timer that `timeout = null`
      then forgets. The next call cannot clear it, so two invocations are
      pending, and both will run with that next call's arguments. */
  lemma ReentrantCallEscapes<A>(s: State<A>, wait: nat, id: TimerId, inner: Arrival<A>, next: Arrival<A>)
    requires WellFormed(s) && Quiet(s) && id in s.pending
    ensures
      var t := Fired(s, wait, id, [inner]).0;
      var u := Called(t, wait, next);
      && t.timeout == None
      && t.pending == map[s.nextId := inner.at + wait]
      && !Quiet(t)
      && |u.pending| == 2
      && u.callbackArgs == Some(next.args)
  {
    var t := Fired(s, wait, id, [inner]).0;
    ReentrantFire(s, wait, id, inner);
    assert s.nextId in t.pending && t.timeout != Some(s.nextId);
    var u := Called(t, wait, next);
    assert u.pending.Keys == {s.nextId, s.nextId + 1};
  }

  lemma ReentrantFire<A>(s: State<A>, wait: nat, id: TimerId, inner: Arrival<A>)
    requires WellFormed(s) && Quiet(s) && id in s.pending
    ensures
      var t := Fired(s, wait, id, [inner]).0;
      && t.timeout == None
      && t.pending == map[s.nextId := inner.at + wait]
      && t.nextId == s.nextId + 1
  {
    var e := Expired(s, id).0;
    assert e.pending == map[] by {
      assert forall k :: k in s.pending ==> k == id;
    }
    assert Quiet(e);
  }

  /** The closure returned by `debounce`, with the timers it has set. */
  class Debouncer<A> {
    const wait: nat
    var timeout: Option<TimerId>
    var callbackArgs: Option<A>
    var pending: map<TimerId, nat>
    var nextId: TimerId

    function Model(): State<A>
      reads this
    {
      State(timeout, callbackArgs, pending, nextId)
    }

    predicate Valid()
      reads this
    {
      WellFormed(Model())
    }

    constructor (wait: nat)
      ensures Valid() && Model() == Init() && this.wait == wait
    {
      this.wait := wait;
      timeout := None;
      callbackArgs := None;
      pending := map[];
      nextId := 1;
    }

    /** The wrapper itself (lines 10-16). */
    method Call(args: A, now: nat)
      requires Valid()
      modifies this
      ensures Valid() && Model() == Called(old(Model()), wait, Arrival(args, now))
    {
      if timeout.Some? {
        pending := pending - {timeout.value};
      }
      callbackArgs := Some(args);
      timeout := Some(nextId);
      pending := pending[nextId := now + wait];
      nextId := nextId + 1;
    }

    /** `later` starts for timer `id` (line 6); returns the arguments the
        callback is applied to, or `None` when the timer does not run. */
    method Expire(id: TimerId) returns (invoked: Option<A>)
      requires Valid()
      modifies this
      ensures Valid() && (Model(), invoked) == Expired(old(Model()), id)
    {
      if id in pending {
        pending := pending - {id};
        invoked := callbackArgs;
      } else {
        invoked := None;
      }
    }

    /** `later` ends after the callback has returned (line 7). */
    method Finish()
      requires Valid()
      modifies this
      ensures Valid() && Model() == Finished(old(Model()))
    {
      timeout := None;
    }
  }
}
