/**
 What each step of the coordinator does, told without the step functions: who is told what, what is
 submitted, what stays pending and until when, and where an accepted alert comes from.
 */
module NotificationSteps {
  import opened Common
  import opened Notifications

  /** The window of the batch is over. */
  predicate Over(c: Coordinator, now: int) { c.batch.deadline.Some? && c.batch.deadline.value <= now }

  /** What is pending once the window has been looked at. */
  function PendingAt(c: Coordinator, now: int): map<string, Event> {
    if Over(c, now) then map[] else c.batch.pending
  }

  ghost predicate AllAccepted(c: Coordinator, events: seq<Event>) {
    forall i :: 0 <= i < |events| ==> c.batch.Accepted(events[i])
  }

  // ----- raising events -------------------------------------------------------------------------

  /** The event is not accepted, and no later one of the list that is not accepted has its key. */
  ghost predicate IsRaised(c: Coordinator, events: seq<Event>, i: nat)
    requires i < |events|
  {
    !c.batch.Accepted(events[i]) && forall j :: i < j < |events| && events[j].Key() == events[i].Key() ==> c.batch.Accepted(events[j])
  }

  /** Under each key the last event raised that is not accepted, and what was pending where there is none. */
  ghost predicate Raises(c: Coordinator, before: map<string, Event>, events: seq<Event>, after: map<string, Event>) {
    && (forall i :: 0 <= i < |events| && IsRaised(c, events, i) ==> events[i].Key() in after && after[events[i].Key()] == events[i])
    && (forall k :: (forall i :: 0 <= i < |events| && events[i].Key() == k ==> c.batch.Accepted(events[i])) ==> Same(before, after, k))
  }

  ghost predicate Same(before: map<string, Event>, after: map<string, Event>, k: string) {
    (k in after <==> k in before) && (k in before ==> after[k] == before[k])
  }

  lemma {:induction false} EnqueueAllRaises(c: Coordinator, b: Batch, events: seq<Event>)
    requires b.accepted == c.batch.accepted
    ensures b.EnqueueAll(events).0 == b.(pending := b.EnqueueAll(events).0.pending)
    ensures Raises(c, b.pending, events, b.EnqueueAll(events).0.pending)
    ensures !b.EnqueueAll(events).1 ==> b.EnqueueAll(events).0 == b
  {
    if events != [] {
      var front, last := events[..|events| - 1], events[|events| - 1];
      EnqueueAllRaises(c, b, front);
      var before := b.EnqueueAll(front).0;
      OneEnqueue(c, before, last);
      RaisesMore(c, b.pending, front, last, before.pending, before.Enqueue(last).0.pending);
      assert front + [last] == events;
    }
  }

  lemma OneEnqueue(c: Coordinator, b: Batch, e: Event)
    requires b.accepted == c.batch.accepted
    ensures b.Enqueue(e).0 == b.(pending := if c.batch.Accepted(e) then b.pending else b.pending[e.Key() := e])
    ensures !b.Enqueue(e).1 ==> b.Enqueue(e).0 == b
  {
  }

  lemma {:induction false} AcceptedChangesNothing(c: Coordinator, b: Batch, events: seq<Event>)
    requires b.accepted == c.batch.accepted && AllAccepted(c, events)
    ensures b.EnqueueAll(events) == (b, false)
  {
    if events != [] {
      var front := events[..|events| - 1];
      forall i | 0 <= i < |front| ensures c.batch.Accepted(front[i]) { assert front[i] == events[i]; }
      AcceptedChangesNothing(c, b, front);
      assert c.batch.Accepted(events[|events| - 1]);
    }
  }

  lemma RaisesMore(c: Coordinator, before: map<string, Event>, events: seq<Event>, last: Event, mid: map<string, Event>, after: map<string, Event>)
    requires Raises(c, before, events, mid)
    requires after == if c.batch.Accepted(last) then mid else mid[last.Key() := last]
    ensures Raises(c, before, events + [last], after)
  {
    var all := events + [last];
    forall i | 0 <= i < |all| && IsRaised(c, all, i) ensures all[i].Key() in after && after[all[i].Key()] == all[i] {
      if i < |events| {
        assert all[|events|] == last && (last.Key() == all[i].Key() ==> c.batch.Accepted(last));
        assert forall j :: i < j < |events| ==> all[j] == events[j];
        assert IsRaised(c, events, i);
      }
    }
    forall k | forall i :: 0 <= i < |all| && all[i].Key() == k ==> c.batch.Accepted(all[i]) ensures Same(before, after, k) {
      forall i | 0 <= i < |events| && events[i].Key() == k ensures c.batch.Accepted(events[i]) { assert all[i] == events[i]; }
      assert all[|events|] == last;
      assert Same(before, mid, k);
    }
  }

  /** Something not accepted is raised, so something is pending afterwards. */
  lemma RaisedIsPending(c: Coordinator, before: map<string, Event>, events: seq<Event>, after: map<string, Event>)
    requires Raises(c, before, events, after) && !AllAccepted(c, events)
    ensures after != map[]
  {
    var i :| 0 <= i < |events| && !c.batch.Accepted(events[i]);
    var j := LastRaised(c, events, i);
  }

  lemma LastRaised(c: Coordinator, events: seq<Event>, i: nat) returns (j: nat)
    requires i < |events| && !c.batch.Accepted(events[i])
    ensures i <= j < |events| && events[j].Key() == events[i].Key() && IsRaised(c, events, j)
    decreases |events| - i
  {
    if k :| i < k < |events| && events[k].Key() == events[i].Key() && !c.batch.Accepted(events[k]) {
      j := LastRaised(c, events, k);
    } else {
      j := i;
    }
  }

  // ----- the enqueue step -----------------------------------------------------------------------

  /** A new request for what is pending, on account of one more waiter, at the deadline of the batch. */
  ghost predicate Submits(c: Coordinator, d: Coordinator, w: Waiter, deadline: int) {
    && d.generation == c.generation + 1 && d.waiting == c.waiting + [w]
    && d.outstanding == c.outstanding[d.generation := d.batch.pending]
    && d.batch.deadline == Some(deadline)
  }

  ghost predicate SubmitsNothing(c: Coordinator, d: Coordinator) {
    d.generation == c.generation && d.waiting == c.waiting && d.outstanding == c.outstanding
  }

  /** The deadline of a batch that goes on, or a new window. */
  function DeadlineAt(c: Coordinator, now: int): int {
    if c.batch.deadline.Some? && c.batch.deadline.value > now then c.batch.deadline.value else now + WINDOW
  }

  /**
   One enqueue. Who raises nothing is told true at once. Otherwise the caller is told in this step exactly
   when every event it raised is accepted already, and told true; and if some event is not, a new request
   is submitted that holds, under its key, every event just raised that is not accepted, over what was
   pending, and the caller waits for it.
   */
  lemma EnqueueIs(c: Coordinator, now: int, events: seq<Event>, caller: nat)
    ensures var d := Next(c, Enqueue(now, events, caller));
      && d.asked == c.asked + [caller] && d.batch.accepted == c.batch.accepted
      && (events == [] ==> d == c.(asked := d.asked, answers := c.answers + [(caller, true)]))
      && (events != [] ==> (AllAccepted(c, events) <==> d.answers == c.answers + [(caller, true)]))
      && (events != [] ==> (!AllAccepted(c, events) <==> d.answers == c.answers))
      && (events != [] && AllAccepted(c, events) ==> SubmitsNothing(c, d) && d.batch.pending == PendingAt(c, now))
      && (events != [] && !AllAccepted(c, events) ==>
            && Submits(c, d, Caller(caller), DeadlineAt(c, now))
            && Raises(c, PendingAt(c, now), events, d.outstanding[d.generation]))
  {
    ToldOne(Caller(caller), true);
    if events != [] {
      if AllAccepted(c, events) {
        AcceptedEnqueue(c, now, events, caller);
      } else {
        RaisedEnqueue(c, now, events, caller);
      }
    }
  }

  lemma AcceptedEnqueue(c: Coordinator, now: int, events: seq<Event>, caller: nat)
    requires events != [] && AllAccepted(c, events)
    ensures Next(c, Enqueue(now, events, caller))
         == c.(asked := c.asked + [caller], answers := c.answers + [(caller, true)], batch := c.batch.Expire(now))
  {
    ToldOne(Caller(caller), true);
    var b := c.batch.Expire(now);
    AcceptedChangesNothing(c, b, events);
    assert forall i :: 0 <= i < |events| ==> (b.Accepted(events[i]) <==> c.batch.Accepted(events[i]));
  }

  lemma RaisedEnqueue(c: Coordinator, now: int, events: seq<Event>, caller: nat)
    requires events != [] && !AllAccepted(c, events)
    ensures var d := Next(c, Enqueue(now, events, caller));
      && d.asked == c.asked + [caller] && d.batch.accepted == c.batch.accepted && d.answers == c.answers
      && Submits(c, d, Caller(caller), DeadlineAt(c, now))
      && Raises(c, PendingAt(c, now), events, d.outstanding[d.generation])
  {
    var b := c.batch.Expire(now);
    EnqueueAllRaises(c, b, events);
    var (after, changed) := b.EnqueueAll(events);
    RaisedIsPending(c, b.pending, events, after.pending);
    var i :| 0 <= i < |events| && !c.batch.Accepted(events[i]);
    assert !after.Accepted(events[i]);
  }

  // ----- the other steps ------------------------------------------------------------------------

  /** Everyone who waits is told this, once for each time it waits, and nobody waits any more. */
  ghost predicate TellsEveryone(c: Coordinator, d: Coordinator, submitted: bool) {
    && d.waiting == [] && |d.answers| >= |c.answers| && d.answers[..|c.answers|] == c.answers
    && (forall i :: |c.answers| <= i < |d.answers| ==> d.answers[i].1 == submitted)
    && (forall id: nat :: TimesTold(d.answers[|c.answers|..], id) == TimesWaiting(c.waiting, id))
  }

  ghost predicate TellsNobody(c: Coordinator, d: Coordinator) { d.answers == c.answers }

  lemma FlushTells(c: Coordinator, d: Coordinator, submitted: bool)
    requires d.waiting == [] && d.answers == c.answers + Told(c.waiting, submitted)
    ensures TellsEveryone(c, d, submitted)
  {
    FlushSays(c.waiting, submitted);
    assert d.answers[|c.answers|..] == Told(c.waiting, submitted);
    forall id: nat ensures TimesTold(d.answers[|c.answers|..], id) == TimesWaiting(c.waiting, id) { FlushTellsAll(c.waiting, submitted, id); }
  }

  /** After a resolve or a retain: the deadline is kept while it is ahead and something is left; with nothing left the request is withdrawn. */
  ghost predicate Shrinks(c: Coordinator, d: Coordinator, now: int) {
    && d.asked == c.asked && d.outstanding == c.outstanding
    && (d.batch.pending != map[] ==>
          && TellsNobody(c, d) && SubmitsNothing(c, d)
          && d.batch.deadline == if c.batch.deadline.Some? && c.batch.deadline.value > now then c.batch.deadline else None)
    && (d.batch.pending == map[] ==> TellsEveryone(c, d, true) && d.generation == c.generation + 1 && d.batch.deadline == None)
  }

  /** Resolving a scope drops what is pending and what was accepted for it, and nothing else that is pending. */
  lemma ResolveIs(c: Coordinator, now: int, scope: string)
    ensures var d := Next(c, Resolve(now, scope));
      && Shrinks(c, d, now)
      && (forall k :: k in d.batch.pending <==> k in c.batch.pending && c.batch.pending[k].scope != scope)
      && (forall k :: k in d.batch.pending ==> d.batch.pending[k] == c.batch.pending[k])
      && (forall k :: k in d.batch.accepted <==> k in c.batch.accepted && k != scope && !(scope + "|" <= k))
      && (forall k :: k in d.batch.accepted ==> d.batch.accepted[k] == c.batch.accepted[k])
  {
    var d := Next(c, Resolve(now, scope));
    if d.batch.pending == map[] {
      FlushTells(c, d, true);
    }
  }

  /** Retaining scopes keeps exactly what is pending and what was accepted for one of them. */
  lemma RetainIs(c: Coordinator, now: int, scopes: set<string>)
    ensures var d := Next(c, Retain(now, scopes));
      && Shrinks(c, d, now)
      && (forall k :: k in d.batch.pending <==> k in c.batch.pending && c.batch.pending[k].scope in scopes)
      && (forall k :: k in d.batch.pending ==> d.batch.pending[k] == c.batch.pending[k])
      && (forall k :: k in d.batch.accepted <==> k in c.batch.accepted && exists s :: s in scopes && (k == s || s + "|" <= k))
      && (forall k :: k in d.batch.accepted ==> d.batch.accepted[k] == c.batch.accepted[k])
  {
    var d := Next(c, Retain(now, scopes));
    if d.batch.pending == map[] {
      FlushTells(c, d, true);
    }
  }

  /** A refresh, or the clearing of a delivered summary, submits what is still pending again, on nobody's account, and tells nobody. */
  lemma RefreshIs(c: Coordinator, now: int, summaryIsPending: bool)
    ensures var d := Next(c, Refresh(now, summaryIsPending));
      && TellsNobody(c, d) && d.asked == c.asked && d.batch == c.batch.(deadline := d.batch.deadline)
      && (c.batch.pending == map[] ==> d == c)
      && (c.batch.pending != map[] && !summaryIsPending ==> SubmitsNothing(c, d) && d.batch.deadline == None)
      && (c.batch.pending != map[] && summaryIsPending ==>
            Submits(c, d, Nobody, if c.batch.deadline.Some? then c.batch.deadline.value else now + WINDOW))
  {
  }

  lemma ClearDeliveredIs(c: Coordinator, now: int)
    ensures var d := Next(c, ClearDelivered(now));
      && TellsNobody(c, d) && d.asked == c.asked && d.batch == c.batch.(deadline := d.batch.deadline)
      && (c.batch.pending == map[] ==> d == c)
      && (c.batch.pending != map[] ==> Submits(c, d, Nobody, now + WINDOW))
  {
  }

  /** Suppressing counts everything pending as accepted and tells everyone true; clearing everything tells everyone false. */
  lemma SuppressIs(c: Coordinator)
    ensures var d := Next(c, Suppress);
      && TellsEveryone(c, d, true) && d.generation == c.generation + 1 && d.asked == c.asked && d.outstanding == c.outstanding
      && d.batch.pending == map[] && d.batch.deadline == None
      && (forall k :: k in d.batch.accepted <==> k in c.batch.accepted || k in c.batch.pending)
      && (forall k :: k in d.batch.accepted ==>
            d.batch.accepted[k] == if k in c.batch.pending then c.batch.pending[k].fingerprint else c.batch.accepted[k])
  {
    FlushTells(c, Next(c, Suppress), true);
  }

  lemma ClearAllIs(c: Coordinator)
    ensures var d := Next(c, ClearAll);
      && TellsEveryone(c, d, false) && d.generation == c.generation + 1 && d.asked == c.asked && d.outstanding == c.outstanding
      && d.batch == EMPTY
  {
    FlushTells(c, Next(c, ClearAll), false);
  }

  // ----- where an accepted alert comes from --------------------------------------------------------

  /** The step accepts this fingerprint under this key: the newest request was taken with it, or it was suppressed while pending. */
  ghost predicate AcceptsAt(c: Coordinator, s: Step, key: string, fingerprint: string) {
    || (s.AddReturned? && s.ok && s.generation == c.generation && s.generation in c.outstanding
        && key in c.outstanding[s.generation] && c.outstanding[s.generation][key].fingerprint == fingerprint)
    || (s.Suppress? && key in c.batch.pending && c.batch.pending[key].fingerprint == fingerprint)
  }

  lemma AcceptedStep(c: Coordinator, s: Step, key: string)
    requires Can(c, s) && key in Next(c, s).batch.accepted
    ensures || (key in c.batch.accepted && c.batch.accepted[key] == Next(c, s).batch.accepted[key])
            || AcceptsAt(c, s, key, Next(c, s).batch.accepted[key])
  {
    match s
    case Enqueue(now, events, caller) => EnqueueIs(c, now, events, caller);
    case Resolve(now, scope) => ResolveIs(c, now, scope);
    case Retain(now, scopes) => RetainIs(c, now, scopes);
    case _ =>
  }

  /** No alert counts as accepted unless, earlier in the run, the newest request holding it was taken, or it was suppressed. */
  lemma {:induction false} AcceptedWasSubmitted(states: seq<Coordinator>, steps: seq<Step>, n: nat, key: string) returns (m: nat)
    requires IsRun(states, steps) && n < |states| && key in states[n].batch.accepted
    ensures m < n && AcceptsAt(states[m], steps[m], key, states[n].batch.accepted[key])
  {
    m := n - 1;
    AcceptedStep(states[m], steps[m], key);
    if !AcceptsAt(states[m], steps[m], key, states[n].batch.accepted[key]) {
      m := AcceptedWasSubmitted(states, steps, m, key);
    }
  }
}
