/** The coordinator as the program keeps it: each method is one block on its serial queue, and updates the fields in place. */
module NotificationCoordinator {
  import opened Common
  import opened Notifications
  import opened NotificationSteps

  /** The newest callback, in counts: each caller hears once for each time it waits. */
  lemma NewestTells(c: Coordinator, ok: bool)
    requires Inv(c) && c.generation in c.outstanding
    ensures forall id: nat :: TimesTold(Next(c, AddReturned(c.generation, ok)).answers, id) == TimesTold(c.answers, id) + TimesWaiting(c.waiting, id)
  {
    NewestAnswersEveryone(c, ok);
    var d := Next(c, AddReturned(c.generation, ok));
    forall id: nat ensures TimesTold(d.answers, id) == TimesTold(c.answers, id) + TimesWaiting(c.waiting, id) {
      ToldConcat(c.answers, d.answers[|c.answers|..], id);
      assert c.answers + d.answers[|c.answers|..] == d.answers;
    }
  }

  class NotificationCoordinator {
    var pendingEvents: map<string, Event>
    var acceptedFingerprints: map<string, string>
    var batchDeadline: Option<int>
    var submissionGeneration: nat
    var pendingSubmissionCompletions: seq<Waiter>
    /** The requests whose callback has not come, with the events each closure captured. */
    var outstanding: map<nat, map<string, Event>>
    /** Every caller, and every completion that was called, in order. */
    var asked: seq<nat>
    var answers: seq<(nat, bool)>

    constructor ()
      ensures View() == START && Valid()
    {
      pendingEvents, acceptedFingerprints, batchDeadline := map[], map[], None;
      submissionGeneration, pendingSubmissionCompletions, outstanding := 0, [], map[];
      asked, answers := [], [];
    }

    function Batched(): Batch
      reads this
    {
      Batch(pendingEvents, acceptedFingerprints, batchDeadline)
    }

    function View(): Coordinator
      reads this
    {
      Coordinator(Batched(), submissionGeneration, pendingSubmissionCompletions, outstanding, asked, answers)
    }

    /** Whoever waits is owed an answer by the newest submission, and every caller was answered once or waits. */
    ghost predicate Valid()
      reads this
    {
      Inv(View())
    }

    /** When the notification centre owes no callback, every caller has been answered exactly as often as it asked. */
    lemma EveryoneAnswered(id: nat)
      requires Valid() && outstanding == map[]
      ensures TimesTold(answers, id) == TimesAsked(asked, id)
    {
      var c := View();
      assert TimesAsked(c.asked, id) == TimesTold(c.answers, id) + TimesWaiting(c.waiting, id) + IsCaller(Nobody, id);
    }

    // ----- the batch state ------------------------------------------------------------------

    method EnqueueEvent(e: Event) returns (changed: bool)
      modifies this`pendingEvents
      ensures (Batched(), changed) == old(Batched()).Enqueue(e)
    {
      if e.Key() in acceptedFingerprints && acceptedFingerprints[e.Key()] == e.fingerprint { return false; }
      if e.Key() in pendingEvents && pendingEvents[e.Key()] == e { return false; }
      pendingEvents := pendingEvents[e.Key() := e];
      changed := true;
    }

    method EnqueueEvents(events: seq<Event>) returns (changed: bool)
      modifies this`pendingEvents
      ensures (Batched(), changed) == old(Batched()).EnqueueAll(events)
    {
      changed := false;
      var k := 0;
      assert events[..0] == [];
      while k < |events|
        invariant k <= |events|
        invariant (Batched(), changed) == old(Batched()).EnqueueAll(events[..k])
      {
        PrefixOf(events, k);
        var more := EnqueueEvent(events[k]);
        changed := more || changed;
        k := k + 1;
      }
      assert events[..k] == events;
    }

    method MarkAccepted(events: map<string, Event>)
      modifies this`acceptedFingerprints
      ensures Batched() == old(Batched()).MarkAccepted(events)
    {
      acceptedFingerprints := acceptedFingerprints + (map k | k in events :: events[k].fingerprint);
    }

    method ExpireBatchIfNeeded(now: int)
      modifies this`pendingEvents, this`batchDeadline
      ensures Batched() == old(Batched()).Expire(now)
    {
      if batchDeadline.None? || batchDeadline.value > now { return; }
      pendingEvents := map[];
      batchDeadline := None;
    }

    // ----- submissions ----------------------------------------------------------------------

    /** Calls one completion. */
    method Complete(w: Waiter, submitted: bool)
      modifies this`answers
      ensures View() == Answer(old(View()), w, submitted)
    {
      ToldOne(w, submitted);
      answers := answers + if w.Caller? then [(w.id, submitted)] else [];
    }

    method FlushSubmissionCompletions(submitted: bool)
      modifies this`pendingSubmissionCompletions, this`answers
      ensures View() == Flush(old(View()), submitted)
    {
      var completions := pendingSubmissionCompletions;
      pendingSubmissionCompletions := [];
      var k := 0;
      assert completions[..0] == [];
      while k < |completions|
        invariant k <= |completions|
        invariant pendingSubmissionCompletions == []
        invariant answers == old(answers) + Told(completions[..k], submitted)
      {
        PrefixOf(completions, k);
        match completions[k] {
          case Caller(id) => answers := answers + [(id, submitted)];
          case Nobody =>
        }
        k := k + 1;
      }
      assert completions[..k] == completions;
    }

    method SchedulePendingSummary(now: int, w: Waiter)
      modifies this
      ensures View() == Schedule(old(View()), now, w)
    {
      if pendingEvents == map[] {
        Complete(w, true);
        return;
      }
      var deadline := if batchDeadline.Some? then batchDeadline.value else now + WINDOW;
      batchDeadline := Some(deadline);
      submissionGeneration := submissionGeneration + 1;
      pendingSubmissionCompletions := pendingSubmissionCompletions + [w];
      outstanding := outstanding[submissionGeneration := pendingEvents];
    }

    // ----- the queue's blocks ---------------------------------------------------------------

    method EnqueueFor(now: int, events: seq<Event>, caller: nat)
      requires Valid()
      modifies this
      ensures Valid() && View() == Next(old(View()), Enqueue(now, events, caller))
      ensures events == [] || AllAccepted(old(View()), events) ==> answers == old(answers) + [(caller, true)] && SubmitsNothing(old(View()), View())
      ensures events != [] && !AllAccepted(old(View()), events) ==>
        && answers == old(answers)
        && Submits(old(View()), View(), Caller(caller), DeadlineAt(old(View()), now))
        && Raises(old(View()), PendingAt(old(View()), now), events, outstanding[submissionGeneration])
    {
      NextKeeps(View(), Enqueue(now, events, caller));
      EnqueueIs(View(), now, events, caller);
      TakeEvents(now, events, caller);
    }

    method TakeEvents(now: int, events: seq<Event>, caller: nat)
      modifies this
      ensures View() == Ask(old(View()), now, events, caller)
    {
      asked := asked + [caller];
      if events == [] {
        Complete(Caller(caller), true);
        return;
      }
      ExpireBatchIfNeeded(now);
      var changed := EnqueueEvents(events);
      if !changed {
        if forall i :: 0 <= i < |events| ==> Batched().Accepted(events[i]) {
          Complete(Caller(caller), true);
        } else {
          SchedulePendingSummary(now, Caller(caller));
        }
        return;
      }
      if batchDeadline.None? {
        batchDeadline := Some(now + WINDOW);
      }
      SchedulePendingSummary(now, Caller(caller));
    }

    /** Nothing is left to announce: the generation moves on and whoever waits is answered. */
    method WithdrawSummary(submitted: bool)
      modifies this
      ensures View() == Withdraw(old(View()), submitted)
    {
      submissionGeneration := submissionGeneration + 1;
      FlushSubmissionCompletions(submitted);
    }

    method ResolveOne(now: int, scope: string)
      requires Valid()
      modifies this
      ensures Valid() && View() == Next(old(View()), Resolve(now, scope))
    {
      NextKeeps(View(), Resolve(now, scope));
      var existing := batchDeadline;
      pendingEvents := map k | k in pendingEvents && pendingEvents[k].scope != scope :: pendingEvents[k];
      acceptedFingerprints := map k | k in acceptedFingerprints && k != scope && !(scope + "|" <= k) :: acceptedFingerprints[k];
      batchDeadline := None;
      if pendingEvents != map[] && Ahead(existing, now) {
        batchDeadline := existing;
      }
      assert Batched().pending == old(Batched()).Resolve(scope).pending;
      if pendingEvents == map[] {
        WithdrawSummary(true);
      }
    }

    method RetainOnly(now: int, scopes: set<string>)
      requires Valid()
      modifies this
      ensures Valid() && View() == Next(old(View()), Retain(now, scopes))
    {
      NextKeeps(View(), Retain(now, scopes));
      var existing := batchDeadline;
      pendingEvents := map k | k in pendingEvents && pendingEvents[k].scope in scopes :: pendingEvents[k];
      acceptedFingerprints := map k | k in acceptedFingerprints && (exists s :: s in scopes && (k == s || s + "|" <= k)) :: acceptedFingerprints[k];
      batchDeadline := if pendingEvents != map[] && Ahead(existing, now) then existing else None;
      if pendingEvents == map[] {
        WithdrawSummary(true);
      }
    }

    method RefreshSummary(now: int, summaryIsPending: bool)
      requires Valid()
      modifies this
      ensures Valid() && View() == Next(old(View()), Refresh(now, summaryIsPending))
    {
      NextKeeps(View(), Refresh(now, summaryIsPending));
      if pendingEvents == map[] { return; }
      if !summaryIsPending {
        batchDeadline := None;
        return;
      }
      SchedulePendingSummary(now, Nobody);
    }

    method ClearDeliveredSummary(now: int)
      requires Valid()
      modifies this
      ensures Valid() && View() == Next(old(View()), ClearDelivered(now))
    {
      NextKeeps(View(), ClearDelivered(now));
      if pendingEvents == map[] { return; }
      batchDeadline := None;
      SchedulePendingSummary(now, Nobody);
    }

    method SuppressCurrentBatch()
      requires Valid()
      modifies this
      ensures Valid() && View() == Next(old(View()), Suppress)
    {
      NextKeeps(View(), Suppress);
      MarkAccepted(pendingEvents);
      pendingEvents, batchDeadline := map[], None;
      WithdrawSummary(true);
    }

    method ClearEverything()
      requires Valid()
      modifies this
      ensures Valid() && View() == Next(old(View()), ClearAll)
    {
      NextKeeps(View(), ClearAll);
      pendingEvents, acceptedFingerprints, batchDeadline := map[], map[], None;
      WithdrawSummary(false);
    }

    /**
     The callback of one submission. A superseded one changes nothing and answers nobody; the newest one
     answers everyone who waits with what became of it, and only if it succeeded are its events accepted.
     */
    method AddCallback(generation: nat, ok: bool)
      requires Valid() && generation in outstanding
      modifies this
      ensures Valid() && View() == Next(old(View()), AddReturned(generation, ok))
      ensures generation != submissionGeneration ==> answers == old(answers) && View() == old(View()).(outstanding := outstanding)
      ensures generation == submissionGeneration ==>
        && pendingSubmissionCompletions == []
        && (forall id: nat :: TimesTold(answers, id) == old(TimesTold(answers, id)) + old(TimesWaiting(pendingSubmissionCompletions, id)))
        && (ok ==> forall k :: k in old(outstanding)[generation] ==> Batched().Accepted(old(outstanding)[generation][k]))
        && (!ok ==> Batched() == old(Batched()))
    {
      NextKeeps(View(), AddReturned(generation, ok));
      if generation == submissionGeneration {
        NewestAnswersEveryone(View(), ok);
        NewestTells(View(), ok);
      }
      var events := outstanding[generation];
      outstanding := outstanding - {generation};
      if generation != submissionGeneration { return; }
      if ok {
        MarkAccepted(events);
      }
      FlushSubmissionCompletions(ok);
    }
  }
}
