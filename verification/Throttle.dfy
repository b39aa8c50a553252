/**
 onedriveui/platform/notify.py: the throttle of one toast per second.  Time is counted in
 microseconds, so that a delay is cut to whole milliseconds as `_arm_flush` cuts it; the clock, how
 long a send takes and whether it succeeds are given by the caller.
 */
module Throttle {
  import opened Basics

  type Time = int

  type Key = nat

  const MS: Time := 1000
  const WINDOW: Time := 1000 * MS

  datatype Spec = Spec(id: Key, text: string)

  /** One `Notify` call: whether it succeeds and how long it blocks. */
  datatype Call = Call(ok: bool, took: nat)

  /** A call that succeeded. */
  datatype Sent = Sent(spec: Spec, begun: Time, done: Time)

  // ---------------------------------------------------------------------------------------------
  // What holds over every run

  /** Two successful sends of one toast: the second begins a whole window after the first is done. */
  ghost predicate Spaced(log: seq<Sent>) {
    forall i, j :: 0 <= i < j < |log| && log[i].spec.id == log[j].spec.id ==> log[i].done + WINDOW <= log[j].begun
  }

  ghost predicate Logged(log: seq<Sent>, lastSent: map<Key, Time>, now: Time) {
    && (forall i :: 0 <= i < |log| ==>
          var s := log[i]; s.begun <= s.done && s.spec.id in lastSent && s.done <= lastSent[s.spec.id])
    && (forall k :: k in lastSent ==> lastSent[k] <= now)
  }

  /** A pending toast is waiting for a window to end. */
  predicate Waiting(pending: map<Key, Spec>, lastSent: map<Key, Time>) {
    forall k :: k in pending ==> k in lastSent && pending[k].id == k
  }

  /** The timer goes off before every pending window has ended, but for the slack. */
  predicate Armed(pending: map<Key, Spec>, lastSent: map<Key, Time>, deadline: Option<Time>, slack: nat)
    requires Waiting(pending, lastSent)
  {
    forall k :: k in pending ==> deadline.Some? && deadline.value < lastSent[k] + WINDOW + MS + slack
  }

  lemma SendIsSpaced(log: seq<Sent>, lastSent: map<Key, Time>, s: Sent, start: Time, now: Time)
    requires Spaced(log) && Logged(log, lastSent, now)
    requires s.spec.id in lastSent ==> lastSent[s.spec.id] + WINDOW <= start
    requires start <= s.begun <= s.done && now <= s.done
    ensures Spaced(log + [s]) && Logged(log + [s], lastSent[s.spec.id := s.done], s.done)
  {
  }

  // ---------------------------------------------------------------------------------------------
  // The flush

  predicate Due(k: Key, lastSent: map<Key, Time>, now: Time) {
    k in lastSent ==> now - lastSent[k] >= WINDOW
  }

  /** The toasts a flush leaves pending. */
  function NotDue(pending: map<Key, Spec>, lastSent: map<Key, Time>, now: Time): map<Key, Spec> {
    map k | k in pending && !Due(k, lastSent, now) :: pending[k]
  }

  /** How long the calls of a flush take, when only the toasts that are due are sent. */
  function Duration(keys: seq<Key>, calls: map<Key, Call>, lastSent: map<Key, Time>, now: Time): nat {
    if keys == [] then 0
    else
      var n := |keys| - 1;
      Duration(keys[..n], calls, lastSent, now) +
        if Due(keys[n], lastSent, now) && keys[n] in calls then calls[keys[n]].took else 0
  }

  function CountDue(keys: seq<Key>, lastSent: map<Key, Time>, now: Time): nat {
    if keys == [] then 0
    else
      var n := |keys| - 1;
      CountDue(keys[..n], lastSent, now) + if Due(keys[n], lastSent, now) then 1 else 0
  }

  /** `max(1, int(delay_ms))`. */
  function Delay(remaining: Time): Time
    requires remaining >= 0
  {
    if remaining < MS then MS else remaining / MS * MS
  }

  /** The sooner of the deadline the timer has and the one it is asked for. */
  function Rearmed(deadline: Option<Time>, now: Time, remaining: Time): Option<Time>
    requires remaining >= 0
  {
    if deadline.Some? && deadline.value <= now + Delay(remaining) then deadline else Some(now + Delay(remaining))
  }

  /** Each key once, in any order. */
  ghost predicate InSomeOrder(order: seq<Key>, keys: set<Key>) {
    && (forall k :: k in order <==> k in keys)
    && (forall i, j :: 0 <= i < j < |order| ==> order[i] != order[j])
  }

  /**
   The timer is set for the first window that ends, but counted from the end of the flush although
   what remained was measured at its start: it is late by the time the flush spent sending.
   */
  ghost predicate FirstEnd(deadline: Time, pending: map<Key, Spec>, lastSent: map<Key, Time>, start: Time, end: Time)
    requires Waiting(pending, lastSent)
  {
    exists k :: k in pending
      && (forall other :: other in pending ==> lastSent[k] <= lastSent[other])
      && lastSent[k] + WINDOW > start && deadline == end + Delay(lastSent[k] + WINDOW - start)
  }

  /**
   The timer is on time exactly when a whole millisecond remained and sending took no longer than the
   part of a millisecond that is cut off; every further microsecond spent sending is lateness.
   */
  lemma LateIffSpentSending(deadline: Time, pending: map<Key, Spec>, lastSent: map<Key, Time>, start: Time, end: Time,
                            first: Key)
    requires Waiting(pending, lastSent) && FirstEnd(deadline, pending, lastSent, start, end) && start <= end
    requires first in pending && forall other :: other in pending ==> lastSent[first] <= lastSent[other]
    ensures var ends := lastSent[first] + WINDOW;
      var remained, spent := ends - start, end - start;
      && (deadline <= ends <==> remained >= MS && spent <= remained % MS)
      && (deadline > ends + MS <==> spent > if remained < MS then remained else MS + remained % MS)
      && ends - MS + spent < deadline < ends + MS + spent
  {
    var k :| k in pending && (forall other :: other in pending ==> lastSent[k] <= lastSent[other])
             && deadline == end + Delay(lastSent[k] + WINDOW - start) && lastSent[k] + WINDOW > start;
    assert lastSent[k] == lastSent[first];
  }

  lemma EndsLater(lastSent: map<Key, Time>, now: Time, log: seq<Sent>, key: Key)
    requires Logged(log, lastSent, now)
    ensures key in lastSent ==> lastSent[key] <= now
  {
  }

  // ---------------------------------------------------------------------------------------------
  // The loop of the flush, after it has visited some of the keys

  ghost predicate Left(pending: map<Key, Spec>, was: map<Key, Spec>, visited: seq<Key>, lastSent: map<Key, Time>,
                       start: Time)
  {
    && pending.Keys <= was.Keys
    && (forall k :: k in was ==> (k in pending <==> !(k in visited && Due(k, lastSent, start))))
    && (forall k :: k in pending ==> pending[k] == was[k])
  }

  ghost predicate Fired(k: Key, visited: seq<Key>, calls: map<Key, Call>, lastSent: map<Key, Time>, start: Time) {
    k in visited && Due(k, lastSent, start) && k in calls && calls[k].ok
  }

  ghost predicate Recorded(lastSent: map<Key, Time>, lastSpec: map<Key, Spec>, before: map<Key, Time>,
                           specs: map<Key, Spec>, was: map<Key, Spec>, visited: seq<Key>, calls: map<Key, Call>,
                           start: Time)
  {
    && (forall k :: k in before ==> k in lastSent)
    && (forall k :: k in was && Fired(k, visited, calls, before, start) ==> k in lastSpec && lastSpec[k] == was[k])
    && (forall k :: !Fired(k, visited, calls, before, start) ==>
          && (k in lastSpec <==> k in specs) && (k in lastSpec ==> lastSpec[k] == specs[k])
          && (k in lastSent <==> k in before) && (k in lastSent ==> lastSent[k] == before[k]))
  }

  /** The shortest time that remains to a visited toast that was not due. */
  ghost predicate Soonest(soonest: Option<Time>, visited: seq<Key>, lastSent: map<Key, Time>, start: Time) {
    && (forall k :: k in visited && !Due(k, lastSent, start) ==>
          soonest.Some? && soonest.value <= lastSent[k] + WINDOW - start)
    && (soonest.Some? ==> exists k :: k in visited && Remaining(k, lastSent, start) == soonest)
  }

  function Remaining(k: Key, lastSent: map<Key, Time>, now: Time): Option<Time> {
    if Due(k, lastSent, now) then None else Some(lastSent[k] + WINDOW - now)
  }

  lemma NextVisit(order: seq<Key>, i: nat)
    requires i < |order| && (forall m, n :: 0 <= m < n < |order| ==> order[m] != order[n])
    ensures order[..i + 1][..i] == order[..i] && order[i] !in order[..i] && order[i] in order
    ensures forall k :: k in order[..i + 1] <==> k in order[..i] || k == order[i]
  {
    assert order[..i + 1] == order[..i] + [order[i]];
  }

  /** A key that has not been visited is as it was when the flush started. */
  lemma Untouched(order: seq<Key>, i: nat, pending: map<Key, Spec>, was: map<Key, Spec>, before: map<Key, Time>,
                  lastSent: map<Key, Time>, lastSpec: map<Key, Spec>, specs: map<Key, Spec>,
                  calls: map<Key, Call>, start: Time)
    requires i < |order| && InSomeOrder(order, was.Keys)
    requires Left(pending, was, order[..i], before, start)
    requires Recorded(lastSent, lastSpec, before, specs, was, order[..i], calls, start)
    ensures var key := order[i];
      && key in pending && pending[key] == was[key] && (key in lastSent <==> key in before)
      && (key in lastSent ==> lastSent[key] == before[key])
      && Remaining(key, lastSent, start) == Remaining(key, before, start)
  {
    NextVisit(order, i);
  }

  lemma Member(order: seq<Key>, keys: set<Key>, i: nat)
    requires i < |order| && InSomeOrder(order, keys)
    ensures order[i] in order && order[i] in keys
    ensures forall m, n :: 0 <= m < n < |order| ==> order[m] != order[n]
  {
  }

  function Head(order: seq<Key>): Key {
    if order == [] then 0 else order[0]
  }

  lemma SomeKey(order: seq<Key>)
    ensures order != [] ==> Head(order) in order
  {
  }

  lemma StillWaiting(pending: map<Key, Spec>, was: map<Key, Spec>, order: seq<Key>, before: map<Key, Time>,
                     lastSent: map<Key, Time>, lastSpec: map<Key, Spec>, specs: map<Key, Spec>,
                     calls: map<Key, Call>, soonest: Option<Time>, start: Time)
    requires InSomeOrder(order, was.Keys) && Waiting(was, before)
    requires Left(pending, was, order, before, start) && Soonest(soonest, order, before, start)
    requires Recorded(lastSent, lastSpec, before, specs, was, order, calls, start)
    ensures soonest.Some? ==> soonest.value > 0
    ensures Waiting(pending, lastSent) && pending == NotDue(was, before, start)
    ensures soonest.None? <==> pending == map[]
  {
    AfterFlush(pending, was, order, before, lastSent, lastSpec, specs, calls, soonest, start);
  }

  lemma Settled(pending: map<Key, Spec>, was: map<Key, Spec>, order: seq<Key>, before: map<Key, Time>,
                lastSent: map<Key, Time>, lastSpec: map<Key, Spec>, specs: map<Key, Spec>,
                calls: map<Key, Call>, soonest: Option<Time>, start: Time, armed: Option<Time>,
                deadline: Option<Time>, now: Time, slack: nat, more: nat)
    requires InSomeOrder(order, was.Keys) && Waiting(was, before) && slack <= more && now - start <= more
    requires Left(pending, was, order, before, start) && Soonest(soonest, order, before, start)
    requires Recorded(lastSent, lastSpec, before, specs, was, order, calls, start)
    requires armed.None? || Armed(was, before, armed, slack)
    requires soonest.None? ==> deadline == armed
    requires soonest.Some? ==> soonest.value >= 0 && deadline.Some?
    requires soonest.Some? ==> var limit := now + Delay(soonest.value);
      deadline == if armed.Some? && armed.value <= limit then armed else Some(limit)
    ensures Waiting(pending, lastSent) && Armed(pending, lastSent, deadline, more)
    ensures armed.None? && pending != map[] ==>
      deadline.Some? && FirstEnd(deadline.value, pending, lastSent, start, now)
  {
    AfterFlush(pending, was, order, before, lastSent, lastSpec, specs, calls, soonest, start);
    if soonest.Some? {
      ArmedAfter(pending, before, lastSent, armed, deadline.value, soonest.value, start, now, slack, more);
    } else {
      NothingArmed(lastSent, deadline, more);
    }
  }

  lemma NothingPending(order: seq<Key>, lastSent: map<Key, Time>, lastSpec: map<Key, Spec>, calls: map<Key, Call>,
                       now: Time, deadline: Option<Time>, slack: nat)
    requires InSomeOrder(order, {}) && lastSpec.Keys == lastSent.Keys
    ensures NotDue(map[], lastSent, now) == map[] && Duration(order, calls, lastSent, now) == 0
    ensures CountDue(order, lastSent, now) == 0
    ensures Recorded(lastSent, lastSpec, lastSent, lastSpec, map[], order, calls, now)
    ensures Waiting(map[], lastSent) && Armed(map[], lastSent, deadline, slack)
  {
    SomeKey(order);
    assert order == [];
    VisitNone(map[], order, lastSent, lastSpec, calls, now);
  }

  lemma NothingArmed(lastSent: map<Key, Time>, deadline: Option<Time>, slack: nat)
    ensures Waiting(map[], lastSent) && Armed(map[], lastSent, deadline, slack)
  {
  }

  lemma VisitLeft(pending: map<Key, Spec>, was: map<Key, Spec>, order: seq<Key>, i: nat, before: map<Key, Time>,
                  start: Time)
    requires i < |order| && InSomeOrder(order, was.Keys) && Left(pending, was, order[..i], before, start)
    ensures var after := if Remaining(order[i], before, start).None? then pending - {order[i]} else pending;
      Left(after, was, order[..i + 1], before, start)
  {
    NextVisit(order, i);
  }

  lemma VisitRecorded(lastSent: map<Key, Time>, lastSpec: map<Key, Spec>, before: map<Key, Time>,
                      specs: map<Key, Spec>, was: map<Key, Spec>, order: seq<Key>, i: nat, calls: map<Key, Call>,
                      start: Time, done: Time)
    requires i < |order| && InSomeOrder(order, was.Keys) && was.Keys <= calls.Keys
    requires Recorded(lastSent, lastSpec, before, specs, was, order[..i], calls, start)
    ensures var key := order[i];
      if Remaining(key, before, start).None? && calls[key].ok
      then Recorded(lastSent[key := done], lastSpec[key := was[key]], before, specs, was, order[..i + 1], calls, start)
      else Recorded(lastSent, lastSpec, before, specs, was, order[..i + 1], calls, start)
  {
    var key, soFar, next := order[i], order[..i], order[..i + 1];
    VisitFired(order, i, was.Keys, calls, before, start);
    hide Fired, InSomeOrder, Remaining;
    if Fired(key, next, calls, before, start) {
      RecordOne(lastSent, lastSpec, before, specs, was, soFar, next, key, calls, start, done);
    }
  }

  lemma VisitFired(order: seq<Key>, i: nat, keys: set<Key>, calls: map<Key, Call>, before: map<Key, Time>, start: Time)
    requires i < |order| && InSomeOrder(order, keys) && keys <= calls.Keys
    ensures var key := order[i];
      && !Fired(key, order[..i], calls, before, start)
      && (Fired(key, order[..i + 1], calls, before, start) <==> Remaining(key, before, start).None? && calls[key].ok)
    ensures forall k :: k != order[i] ==>
      (Fired(k, order[..i + 1], calls, before, start) <==> Fired(k, order[..i], calls, before, start))
  {
    NextVisit(order, i);
  }

  lemma RecordOne(lastSent: map<Key, Time>, lastSpec: map<Key, Spec>, before: map<Key, Time>, specs: map<Key, Spec>,
                  was: map<Key, Spec>, soFar: seq<Key>, next: seq<Key>, key: Key, calls: map<Key, Call>, start: Time,
                  done: Time)
    requires Recorded(lastSent, lastSpec, before, specs, was, soFar, calls, start) && key in was
    requires Fired(key, next, calls, before, start)
    requires forall k :: k != key ==> (Fired(k, next, calls, before, start) <==> Fired(k, soFar, calls, before, start))
    ensures Recorded(lastSent[key := done], lastSpec[key := was[key]], before, specs, was, next, calls, start)
  {
    hide Fired;
  }

  lemma VisitSoonest(soonest: Option<Time>, order: seq<Key>, i: nat, before: map<Key, Time>, start: Time)
    requires i < |order|
    requires Soonest(soonest, order[..i], before, start)
    ensures var r := Remaining(order[i], before, start);
      Soonest(if r.None? || (soonest.Some? && soonest.value <= r.value) then soonest else r, order[..i + 1], before,
              start)
  {
    assert order[..i + 1] == order[..i] + [order[i]];
    if soonest.Some? {
      var k :| k in order[..i] && Remaining(k, before, start) == soonest;
      assert k in order[..i + 1];
    }
    assert order[i] in order[..i + 1];
  }

  lemma VisitDuration(order: seq<Key>, i: nat, calls: map<Key, Call>, before: map<Key, Time>, start: Time)
    requires i < |order| && order[i] in calls
    ensures Duration(order[..i + 1], calls, before, start) == Duration(order[..i], calls, before, start)
              + (if Remaining(order[i], before, start).None? then calls[order[i]].took else 0)
    ensures CountDue(order[..i + 1], before, start)
         == CountDue(order[..i], before, start) + if Remaining(order[i], before, start).None? then 1 else 0
  {
    assert order[..i + 1][..i] == order[..i];
  }

  lemma VisitNone(pending: map<Key, Spec>, order: seq<Key>, lastSent: map<Key, Time>, lastSpec: map<Key, Spec>,
                  calls: map<Key, Call>, start: Time)
    ensures Left(pending, pending, order[..0], lastSent, start) && Soonest(None, order[..0], lastSent, start)
    ensures lastSpec.Keys == lastSent.Keys ==>
      Recorded(lastSent, lastSpec, lastSent, lastSpec, pending, order[..0], calls, start)
    ensures Duration(order[..0], calls, lastSent, start) == 0 && CountDue(order[..0], lastSent, start) == 0
  {
  }

  /** The state a flush ends in, from what its loop found. */
  lemma AfterFlush(pending: map<Key, Spec>, was: map<Key, Spec>, order: seq<Key>, before: map<Key, Time>,
                   lastSent: map<Key, Time>, lastSpec: map<Key, Spec>, specs: map<Key, Spec>,
                   calls: map<Key, Call>, soonest: Option<Time>, start: Time)
    requires InSomeOrder(order, was.Keys) && Waiting(was, before)
    requires Left(pending, was, order, before, start) && Soonest(soonest, order, before, start)
    requires Recorded(lastSent, lastSpec, before, specs, was, order, calls, start)
    ensures pending == NotDue(was, before, start)
    ensures Waiting(pending, lastSent) && forall k :: k in pending ==> lastSent[k] == before[k]
    ensures soonest.None? ==> pending == map[]
    ensures soonest.Some? ==> soonest.value > 0 && EndsFirst(soonest.value, pending, lastSent, start)
  {
  }

  /** The shortest time that remains to a pending toast. */
  ghost predicate EndsFirst(remaining: Time, pending: map<Key, Spec>, lastSent: map<Key, Time>, start: Time)
    requires Waiting(pending, lastSent)
  {
    && (forall k :: k in pending ==> remaining <= lastSent[k] + WINDOW - start)
    && (exists k :: k in pending && remaining == lastSent[k] + WINDOW - start)
  }

  /** Where `_arm_flush` puts the deadline, however late it is called. */
  lemma ArmedAfter(pending: map<Key, Spec>, before: map<Key, Time>, lastSent: map<Key, Time>, was: Option<Time>,
                   deadline: Time, soonest: Time, start: Time, now: Time, slack: nat, more: nat)
    requires Waiting(pending, before) && Waiting(pending, lastSent) && slack <= more && now - start <= more
    requires forall k :: k in pending ==> lastSent[k] == before[k]
    requires soonest > 0 && EndsFirst(soonest, pending, lastSent, start)
    requires was.None? || Armed(pending, before, was, slack)
    requires Some(deadline) == was || deadline == now + Delay(soonest)
    ensures Armed(pending, lastSent, Some(deadline), more)
    ensures deadline == now + Delay(soonest) ==> FirstEnd(deadline, pending, lastSent, start, now)
  {
  }

  class Notifier {
    var lastSent: map<Key, Time>
    var lastSpec: map<Key, Spec>
    var pending: map<Key, Spec>
    var deadline: Option<Time>
    var now: Time
    ghost var log: seq<Sent>
    ghost var slack: nat

    /** `slack` is the longest time that a flush of the run has spent sending. */
    ghost predicate Valid()
      reads this
    {
      Consistent() && Armed(pending, lastSent, deadline, slack)
    }

    ghost predicate Consistent()
      reads `lastSent, `lastSpec, `pending, `log, `now
    {
      && Spaced(log) && Logged(log, lastSent, now)
      && Waiting(pending, lastSent) && lastSpec.Keys == lastSent.Keys
    }

    /** What the user is shown, or is about to be, is this. */
    predicate Shows(spec: Spec)
      reads this
    {
      if spec.id in pending then pending[spec.id] == spec else spec.id in lastSpec && lastSpec[spec.id] == spec
    }

    constructor (start: Time)
      ensures Valid() && log == [] && now == start && pending == map[] && slack == 0
      ensures lastSent == map[] && lastSpec == map[] && deadline == None
    {
      lastSent, lastSpec, pending, deadline := map[], map[], map[], None;
      log, now, slack := [], start, 0;
    }

    method Wait(until: Time)
      requires Valid() && until >= now
      modifies `now
      ensures Valid() && now == until
    {
      now := until;
    }

    /** One blocking call, at least a window after the last one of its toast was done. */
    method Send(spec: Spec, call: Call, ghost start: Time)
      requires Consistent() && Due(spec.id, lastSent, start) && start <= now
      modifies `lastSent, `lastSpec, `log, `now
      ensures Consistent() && now == old(now) + call.took
      ensures log == if call.ok then old(log) + [Sent(spec, old(now), now)] else old(log)
      ensures lastSent == if call.ok then old(lastSent)[spec.id := now] else old(lastSent)
      ensures lastSpec == if call.ok then old(lastSpec)[spec.id := spec] else old(lastSpec)
    {
      hide Spaced;
      now := now + call.took;
      if call.ok {
        SendIsSpaced(log, lastSent, Sent(spec, old(now), now), start, old(now));
        lastSent := lastSent[spec.id := now];
        lastSpec := lastSpec[spec.id := spec];
        log := log + [Sent(spec, old(now), now)];
      }
    }

    /** The timer runs for `remaining`, unless it goes off sooner than that already. */
    method ArmFlush(remaining: Time)
      requires remaining >= 0
      modifies `deadline
      ensures deadline.Some?
      ensures deadline == if old(deadline).Some? && old(deadline).value <= now + Delay(remaining)
                          then old(deadline) else Some(now + Delay(remaining))
    {
      var delay := Delay(remaining);
      if deadline.Some? && (if deadline.value > now then deadline.value - now else 0) <= delay {
        return;
      }
      deadline := Some(now + delay);
    }

    /**
     A request.  Within the window of its toast it waits or is dropped as a repetition, and is what
     the user will see; after the window it is sent, and is what the user will see exactly when no
     other request of the toast was still waiting, for that one is sent again later.
     */
    method Notify(spec: Spec, enabled: bool, call: Call)
      requires Valid()
      modifies this
      ensures Valid() && slack == old(slack)
      ensures !enabled ==> now == old(now) && log == old(log) && pending == old(pending)
      ensures enabled && !Due(spec.id, old(lastSent), old(now)) ==> Shows(spec) && now == old(now) && log == old(log)
      ensures enabled && Due(spec.id, old(lastSent), old(now)) ==>
        && now == old(now) + call.took && pending == old(pending)
        && log == if call.ok then old(log) + [Sent(spec, old(now), now)] else old(log)
      ensures enabled && Due(spec.id, old(lastSent), old(now)) && call.ok ==>
        (Shows(spec) <==> (spec.id in old(pending) ==> old(pending)[spec.id] == spec))
      ensures forall other: Spec :: other.id != spec.id ==> Shows(other) == old(Shows(other))
      ensures var sends := enabled && Due(spec.id, old(lastSent), old(now)) && call.ok;
        && lastSent == (if sends then old(lastSent)[spec.id := now] else old(lastSent))
        && lastSpec == (if sends then old(lastSpec)[spec.id := spec] else old(lastSpec))
      ensures enabled && !Due(spec.id, old(lastSent), old(now)) ==>
        if spec.id in old(lastSpec) && old(lastSpec)[spec.id] == spec
        then pending == old(pending) - {spec.id} && deadline == old(deadline)
        else pending == old(pending)[spec.id := spec]
             && deadline == Rearmed(old(deadline), now, WINDOW - (now - lastSent[spec.id]))
      ensures !enabled || Due(spec.id, old(lastSent), old(now)) ==> deadline == old(deadline)
    {
      hide Spaced, Logged;
      var key := spec.id;
      if !enabled {
        return;
      }
      if key in lastSent && now - lastSent[key] < WINDOW {
        if key in lastSpec && lastSpec[key] == spec {
          pending := pending - {key};
          return;
        }
        pending := pending[key := spec];
        EndsLater(lastSent, now, log, key);
        ArmFlush(WINDOW - (now - lastSent[key]));
        return;
      }
      EndsLater(lastSent, now, log, key);
      Send(spec, call, now);
    }

    /** `close_toast`. */
    method CloseToast(key: Key)
      requires Valid()
      modifies `pending
      ensures Valid() && pending == old(pending) - {key}
    {
      pending := pending - {key};
    }

    /** The timer goes off, at its deadline or later. */
    method OnTimeout(order: seq<Key>, calls: map<Key, Call>) returns (sent: nat)
      requires Valid() && deadline.Some? && deadline.value <= now
      requires InSomeOrder(order, pending.Keys) && pending.Keys <= calls.Keys
      modifies this
      ensures Valid() && pending == NotDue(old(pending), old(lastSent), old(now))
      ensures sent == CountDue(order, old(lastSent), old(now))
      ensures now == old(now) + Duration(order, calls, old(lastSent), old(now))
      ensures Recorded(lastSent, lastSpec, old(lastSent), old(lastSpec), old(pending), order, calls, old(now))
      ensures deadline.None? <==> pending == map[]
      ensures deadline.Some? ==> FirstEnd(deadline.value, pending, lastSent, old(now), now)
    {
      deadline := None;
      sent := FlushPending(order, calls);
    }

    /** Send every pending toast whose window has ended, in the order of the dictionary. */
    method FlushPending(order: seq<Key>, calls: map<Key, Call>) returns (sent: nat)
      requires Consistent() && (deadline.None? || Armed(pending, lastSent, deadline, slack))
      requires InSomeOrder(order, pending.Keys) && pending.Keys <= calls.Keys
      modifies this
      ensures Valid() && sent == CountDue(order, old(lastSent), old(now))
      ensures pending == NotDue(old(pending), old(lastSent), old(now))
      ensures now == old(now) + Duration(order, calls, old(lastSent), old(now))
      ensures slack == if now - old(now) > old(slack) then now - old(now) else old(slack)
      ensures Recorded(lastSent, lastSpec, old(lastSent), old(lastSpec), old(pending), order, calls, old(now))
      ensures old(deadline).None? && pending == map[] ==> deadline.None?
      ensures old(deadline).None? && pending != map[] ==>
        deadline.Some? && FirstEnd(deadline.value, pending, lastSent, old(now), now)
    {
      hide *;
      if pending == map[] {
        Parts();
        assert pending.Keys == {};
        NothingPending(order, lastSent, lastSpec, calls, now, deadline, slack);
        return 0;
      }
      sent := VisitAndRearm(order, calls);
    }

    method VisitAndRearm(order: seq<Key>, calls: map<Key, Call>) returns (sent: nat)
      requires Consistent() && (deadline.None? || Armed(pending, lastSent, deadline, slack))
      requires InSomeOrder(order, pending.Keys) && pending.Keys <= calls.Keys
      modifies this
      ensures Valid() && sent == CountDue(order, old(lastSent), old(now))
      ensures pending == NotDue(old(pending), old(lastSent), old(now))
      ensures now == old(now) + Duration(order, calls, old(lastSent), old(now))
      ensures slack == if now - old(now) > old(slack) then now - old(now) else old(slack)
      ensures Recorded(lastSent, lastSpec, old(lastSent), old(lastSpec), old(pending), order, calls, old(now))
      ensures old(deadline).None? && pending == map[] ==> deadline.None?
      ensures old(deadline).None? && pending != map[] ==>
        deadline.Some? && FirstEnd(deadline.value, pending, lastSent, old(now), now)
    {
      ghost var was, before, specs, armed := pending, lastSent, lastSpec, deadline;
      hide *;
      Parts();
      var start := now;
      var soonest;
      sent, soonest := VisitAll(order, calls);
      slack := if now - start > slack then now - start else slack;
      StillWaiting(pending, was, order, before, lastSent, lastSpec, specs, calls, soonest, start);
      if soonest.Some? {
        ArmFlush(soonest.value);
      }
      Settled(pending, was, order, before, lastSent, lastSpec, specs, calls, soonest, start, armed, deadline, now,
              old(slack), slack);
      Parts();
    }

    /** The loop of the flush. */
    method VisitAll(order: seq<Key>, calls: map<Key, Call>) returns (sent: nat, soonest: Option<Time>)
      requires Consistent() && InSomeOrder(order, pending.Keys) && pending.Keys <= calls.Keys
      modifies `lastSent, `lastSpec, `log, `now, `pending
      ensures Consistent() && sent == CountDue(order, old(lastSent), old(now))
      ensures Left(pending, old(pending), order, old(lastSent), old(now))
      ensures Recorded(lastSent, lastSpec, old(lastSent), old(lastSpec), old(pending), order, calls, old(now))
      ensures Soonest(soonest, order, old(lastSent), old(now))
      ensures now == old(now) + Duration(order, calls, old(lastSent), old(now))
    {
      hide Spaced, Logged, Armed, Left, Recorded, Soonest, Duration, CountDue, Due, InSomeOrder, Remaining, Waiting;
      hide Consistent;
      ghost var was, before, specs := pending, lastSent, lastSpec;
      var start := now;
      var i := 0;
      sent, soonest := 0, None;
      Parts();
      VisitNone(was, order, before, specs, calls, start);
      while i < |order|
        invariant i <= |order| && Consistent() && sent == CountDue(order[..i], before, start)
        invariant Left(pending, was, order[..i], before, start)
        invariant Recorded(lastSent, lastSpec, before, specs, was, order[..i], calls, start)
        invariant Soonest(soonest, order[..i], before, start)
        invariant now == start + Duration(order[..i], calls, before, start)
      {
        var key := order[i];
        Member(order, was.Keys, i);
        Untouched(order, i, pending, was, before, lastSent, lastSpec, specs, calls, start);
        VisitLeft(pending, was, order, i, before, start);
        VisitRecorded(lastSent, lastSpec, before, specs, was, order, i, calls, start, now + calls[key].took);
        VisitSoonest(soonest, order, i, before, start);
        VisitDuration(order, i, calls, before, start);
        var remaining := FlushOne(key, calls[key], start);
        if remaining.Some? {
          soonest := if soonest.None? || remaining.value < soonest.value then remaining else soonest;
        } else {
          sent := sent + 1;
        }
        i := i + 1;
      }
      assert order[..i] == order;
    }

    lemma Parts()
      requires Consistent()
      ensures lastSpec.Keys == lastSent.Keys && Waiting(pending, lastSent)
      ensures Valid() <==> Armed(pending, lastSent, deadline, slack)
    {
    }

    /** Send the pending toast if its window has ended, or else say how much of the window remains. */
    method FlushOne(key: Key, call: Call, start: Time) returns (remaining: Option<Time>)
      requires Consistent() && key in pending && start <= now
      modifies `lastSent, `lastSpec, `log, `now, `pending
      ensures Consistent()
      ensures remaining == Remaining(key, old(lastSent), start)
      ensures remaining.None? ==>
        && now == old(now) + call.took && pending == old(pending) - {key}
        && lastSent == (if call.ok then old(lastSent)[key := now] else old(lastSent))
        && lastSpec == (if call.ok then old(lastSpec)[key := old(pending)[key]] else old(lastSpec))
      ensures remaining.Some? ==>
        && now == old(now) && pending == old(pending)
        && lastSent == old(lastSent) && lastSpec == old(lastSpec)
    {
      hide Spaced, Logged;
      var waited := if key in lastSent then start - lastSent[key] else WINDOW;
      if waited >= WINDOW {
        var spec := pending[key];
        pending := pending - {key};
        Send(spec, call, start);
        return None;
      }
      return Some(WINDOW - waited);
    }
  }

  /** Two toasts wait; sending the first takes 10 ms, and the timer for the second is 10 ms late. */
  method LateTimer() returns (n: Notifier)
    ensures fresh(n) && n.Valid() && n.pending == map[1 := Spec(1, "bb")] && 1 in n.lastSent
    ensures n.deadline == Some(n.lastSent[1] + WINDOW + 10 * MS)
  {
    n := TwoWaiting();
    LateFlush(n);
  }

  method TwoWaiting() returns (n: Notifier)
    ensures fresh(n) && n.Valid() && n.now == WINDOW && n.deadline == Some(WINDOW)
    ensures n.lastSent == map[0 := 0, 1 := 500 * MS]
    ensures n.pending == map[0 := Spec(0, "bb"), 1 := Spec(1, "bb")]
  {
    hide Spaced, Logged, Armed, Waiting;
    n := new Notifier(0);
    n.Notify(Spec(0, "a"), true, Call(true, 0));
    assert n.lastSent == map[0 := 0] && n.lastSpec == map[0 := Spec(0, "a")] && n.pending == map[];
    n.Wait(500 * MS);
    n.Notify(Spec(1, "a"), true, Call(true, 0));
    assert n.lastSent == map[0 := 0, 1 := 500 * MS];
    assert n.lastSpec == map[0 := Spec(0, "a"), 1 := Spec(1, "a")] && n.pending == map[];
    n.Notify(Spec(0, "bb"), true, Call(true, 0));
    assert n.pending == map[0 := Spec(0, "bb")] && n.deadline == Some(WINDOW);
    n.Notify(Spec(1, "bb"), true, Call(true, 0));
    n.Wait(WINDOW);
  }

  lemma LateFlushTakes(lastSent: map<Key, Time>, calls: map<Key, Call>)
    requires lastSent == map[0 := 0, 1 := 500 * MS] && calls == map[0 := Call(true, 10 * MS), 1 := Call(true, 0)]
    ensures Duration([0, 1], calls, lastSent, WINDOW) == 10 * MS
  {
    assert [0, 1][..1] == [0] && [0][..0] == [];
    assert Duration([0], calls, lastSent, WINDOW) == 10 * MS;
  }

  lemma LateDeadline(deadline: Time, pending: map<Key, Spec>, lastSent: map<Key, Time>, now: Time)
    requires pending.Keys == {1} && Waiting(pending, lastSent) && lastSent[1] == 500 * MS && now == WINDOW + 10 * MS
    requires FirstEnd(deadline, pending, lastSent, WINDOW, now)
    ensures deadline == lastSent[1] + WINDOW + 10 * MS
  {
  }

  lemma LateKeeps(lastSent: map<Key, Time>, lastSpec: map<Key, Spec>, before: map<Key, Time>,
                  specs: map<Key, Spec>, was: map<Key, Spec>, calls: map<Key, Call>)
    requires before == map[0 := 0, 1 := 500 * MS]
    requires Recorded(lastSent, lastSpec, before, specs, was, [0, 1], calls, WINDOW)
    ensures 1 in lastSent && lastSent[1] == 500 * MS
  {
    assert !Fired(1, [0, 1], calls, before, WINDOW);
  }

  method LateFlush(n: Notifier)
    requires n.Valid() && n.now == WINDOW && n.deadline == Some(WINDOW)
    requires n.lastSent == map[0 := 0, 1 := 500 * MS]
    requires n.pending == map[0 := Spec(0, "bb"), 1 := Spec(1, "bb")]
    modifies n
    ensures n.Valid() && n.pending == map[1 := Spec(1, "bb")] && 1 in n.lastSent
    ensures n.deadline == Some(n.lastSent[1] + WINDOW + 10 * MS)
  {
    hide Spaced, Logged, Armed, FirstEnd, Duration, CountDue, Delay, Recorded;
    ghost var before, specs, was := n.lastSent, n.lastSpec, n.pending;
    var calls := map[0 := Call(true, 10 * MS), 1 := Call(true, 0)];
    LateFlushTakes(n.lastSent, calls);
    var sent := n.OnTimeout([0, 1], calls);
    assert n.pending == map[1 := Spec(1, "bb")];
    LateKeeps(n.lastSent, n.lastSpec, before, specs, was, calls);
    LateDeadline(n.deadline.value, n.pending, n.lastSent, n.now);
  }
}
