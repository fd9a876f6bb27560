/** One run over the stored snapshot is a run of the protocol, so that whatever holds of every execution holds of it. */
module OutboxRefinement {
  import opened Common
  import opened OutboxModel
  import opened OutboxUpdates
  import opened OutboxRunner
  import opened OutboxForgotten
  import opened OutboxStore

  // ----- the events, by what they store ------------------------------------------------------------------

  lemma BeginStores(sha: Data -> string, w: World, now: int)
    requires w.pc.Idle?
    ensures var e := BeginRun(now);
      && Enabled(sha, w, e) && NextStore(sha, w, e) == Open(w.store, now).0
      && NextPc(sha, w, e) == if Open(w.store, now).1.Some? then Opened(Open(w.store, now).1.value) else Idle
  {
  }

  lemma CancelStores(sha: Data -> string, w: World, e: Event)
    requires w.pc.Prepared? && e == CancelBeforeSend(CANCELLED_BEFORE_SUBMISSION)
    ensures Enabled(sha, w, e) && NextPc(sha, w, e).Idle?
    ensures NextStore(sha, w, e) == OrSame(w.store, RecordCancelled(w.store, w.pc.sel.item.itemId, CANCELLED_BEFORE_SUBMISSION))
  {
  }

  lemma SendStores(sha: Data -> string, w: World)
    requires w.pc.Prepared?
    ensures Enabled(sha, w, Send) && NextPc(sha, w, Send) == Sending(w.pc.endpoint, w.pc.tip, w.pc.sel) && NextStore(sha, w, Send) == w.store
  {
  }

  function EndOf(reply: SendReply, now: int, random: Random): Event {
    match reply
    case Failed(error, _) => SendFails(error, now)
    case Answered(code, message, alreadyKnown) => Event.Answer(code, message, alreadyKnown, now, random)
  }

  lemma AnswerStores(sha: Data -> string, w: World, reply: SendReply, now: int, random: Random)
    requires w.pc.Sending?
    ensures var e := EndOf(reply, now, random);
      && Enabled(sha, w, e) && NextPc(sha, w, e).Idle? && !e.Send?
      && NextStore(sha, w, e) == Stored(sha, UpdateFor(w.pc.sel, w.pc.tip, reply, now, random), w.store)
  {
  }

  function UpdateFor(sel: Selection, tip: U64, reply: SendReply, now: int, random: Random): Update {
    if reply.Accepts() then AcceptanceOf(sel, tip, reply, now, random)
    else if reply.Failed? then UncertainUpdate(sel.item.itemId, reply.error, now)
    else RejectedUpdate(sel.item.itemId, tip, reply.code, reply.message, now)
  }

  lemma AnswerStored(sha: Data -> string, s: Snapshot, sel: Selection, tip: U64, reply: SendReply, now: int, random: Random)
    ensures Stored(sha, UpdateFor(sel, tip, reply, now, random), s) == AfterAnswer(sha, s, sel, tip, reply, now, random)
  {
    if reply.Accepts() {
      AcceptanceStored(sha, s, AcceptanceOf(sel, tip, reply, now, random));
    } else if reply.Failed? {
      FailureStored(sha, s, sel.item.itemId, reply.error, now);
    } else {
      RefusalStored(sha, s, sel.item.itemId, tip, reply.code, reply.message, now);
    }
  }

  lemma AcceptanceStored(sha: Data -> string, s: Snapshot, u: Update)
    requires u.AcceptedUpdate?
    ensures Stored(sha, u, s) == OrSame(s, AcceptAndAnnounce(sha, s, u))
  {
  }

  lemma FailureStored(sha: Data -> string, s: Snapshot, itemId: string, error: string, now: int)
    ensures Stored(sha, UncertainUpdate(itemId, error, now), s) == OrSame(s, RecordUncertain(s, itemId, error, now))
  {
  }

  lemma RefusalStored(sha: Data -> string, s: Snapshot, itemId: string, tip: U64, code: int, message: string, now: int)
    ensures Stored(sha, RejectedUpdate(itemId, tip, code, message, now), s) == OrSame(s, RecordRejected(s, itemId, tip, code, message, now))
  {
  }

  // ----- stretches of a run ----------------------------------------------------------------------------------

  /** An execution and the same one carried on, to a world with this store and at this position; `sends` tells whether it sent on the way. */
  ghost predicate Continues(worlds: seq<World>, events: seq<Event>, ws: seq<World>, es: seq<Event>, store: Snapshot, pc: Pc, sends: bool) {
    && |worlds| == |events| + 1 && |ws| == |es| + 1 && worlds <= ws && events <= es
    && ws[|es|].store == store && ws[|es|].pc == pc && (Send in es[|events|..] <==> sends)
  }

  /** One more event. */
  lemma Then(sha: Data -> string, worlds: seq<World>, events: seq<Event>, e: Event, store: Snapshot, pc: Pc) returns (ws: seq<World>, es: seq<Event>)
    requires IsExecution(sha, worlds, events) && Enabled(sha, worlds[|events|], e)
    requires store == NextStore(sha, worlds[|events|], e) && pc == NextPc(sha, worlds[|events|], e)
    ensures IsExecution(sha, ws, es) == true && Continues(worlds, events, ws, es, store, pc, e.Send?)
  {
    ws, es := Extend(sha, worlds, events, e);
    assert es[|events|..] == [e];
  }

  lemma Joined(worlds: seq<World>, events: seq<Event>, ws: seq<World>, es: seq<Event>, vs: seq<World>, ds: seq<Event>,
               store: Snapshot, pc: Pc, sends: bool, last: Snapshot, end: Pc, sendsLater: bool)
    requires Continues(worlds, events, ws, es, store, pc, sends) && Continues(ws, es, vs, ds, last, end, sendsLater)
    ensures Continues(worlds, events, vs, ds, last, end, sends || sendsLater)
  {
    assert ds[|events|..] == es[|events|..] + ds[|es|..];
  }

  /** An item that is selected and sent: the send, and what comes of it. */
  lemma SendRuns(sha: Data -> string, worlds: seq<World>, events: seq<Event>, pc: Pc, now: int, reply: SendReply, random: Random)
    returns (ws: seq<World>, es: seq<Event>)
    requires IsExecution(sha, worlds, events) && worlds[|events|].pc == pc && pc.Prepared?
    ensures IsExecution(sha, ws, es) == true
    ensures Continues(worlds, events, ws, es, AfterAnswer(sha, worlds[|events|].store, pc.sel, pc.tip, reply, now, random), Idle, true)
  {
    var w, sending := worlds[|events|], Sending(pc.endpoint, pc.tip, pc.sel);
    SendStores(sha, w);
    var vs, ds := Then(sha, worlds, events, Send, w.store, sending);
    var last := EndOf(reply, now, random);
    AnswerStores(sha, vs[|ds|], reply, now, random);
    AnswerStored(sha, w.store, pc.sel, pc.tip, reply, now, random);
    var after := AfterAnswer(sha, w.store, pc.sel, pc.tip, reply, now, random);
    ws, es := Then(sha, vs, ds, last, after, Idle);
    Joined(worlds, events, vs, ds, ws, es, w.store, sending, true, after, Idle, false);
  }

  /** From a selected item to the end of the run: a cancellation, or the send and what comes of it. */
  lemma SelectedRuns(sha: Data -> string, worlds: seq<World>, events: seq<Event>, pc: Pc, now: int, cancelledBeforeSend: bool, reply: SendReply,
                     random: Random) returns (ws: seq<World>, es: seq<Event>)
    requires IsExecution(sha, worlds, events) && worlds[|events|].pc == pc && pc.Prepared?
    ensures IsExecution(sha, ws, es) == true
    ensures Continues(worlds, events, ws, es,
                      AfterSelection(sha, worlds[|events|].store, pc.sel, pc.tip, now, cancelledBeforeSend, reply, random), Idle, !cancelledBeforeSend)
  {
    if cancelledBeforeSend {
      var c := CancelBeforeSend(CANCELLED_BEFORE_SUBMISSION);
      CancelStores(sha, worlds[|events|], c);
      ws, es := Then(sha, worlds, events, c, NextStore(sha, worlds[|events|], c), Idle);
    } else {
      ws, es := SendRuns(sha, worlds, events, pc, now, reply, random);
    }
  }

  /** What is stored after a selected item was cancelled or sent and answered. */
  function AfterSelection(sha: Data -> string, s: Snapshot, sel: Selection, tip: U64, now: int, cancelledBeforeSend: bool, reply: SendReply,
                          random: Random): Snapshot
  {
    if cancelledBeforeSend then OrSame(s, RecordCancelled(s, sel.item.itemId, CANCELLED_BEFORE_SUBMISSION))
    else AfterAnswer(sha, s, sel, tip, reply, now, random)
  }

  /** What is stored after a run that came to its tip, given how the write-ahead ended. */
  function AfterTip(sha: Data -> string, s: Snapshot, tip: U64, prepared: Result<(Snapshot, Option<Selection>), OutboxError>,
                    now: int, cancelledBeforeSend: bool, reply: SendReply, random: Random): Snapshot
  {
    match prepared
    case Err(_) => s
    case Ok(done) =>
      match done.1
      case None => done.0
      case Some(sel) => AfterSelection(sha, done.0, sel, tip, now, cancelledBeforeSend, reply, random)
  }

  predicate Selects(prepared: Result<(Snapshot, Option<Selection>), OutboxError>) { prepared.Ok? && prepared.value.1.Some? }

  /** From a tip that is known: the write-ahead, and what follows if it selects something. */
  lemma TipRuns(sha: Data -> string, worlds: seq<World>, events: seq<Event>, pc: Pc, verify: bool, attemptId: string,
                prepared: Result<(Snapshot, Option<Selection>), OutboxError>,
                now: int, cancelledBeforeSend: bool, reply: SendReply, random: Random) returns (ws: seq<World>, es: seq<Event>)
    requires IsExecution(sha, worlds, events) && worlds[|events|].pc == pc && pc.AtTip?
    requires prepared == Prepare(worlds[|events|].store, pc.tip, pc.endpoint, verify, attemptId, now)
    ensures IsExecution(sha, ws, es) == true
    ensures Continues(worlds, events, ws, es, AfterTip(sha, worlds[|events|].store, pc.tip, prepared, now, cancelledBeforeSend, reply, random), Idle,
                      Selects(prepared) && !cancelledBeforeSend)
  {
    var w, p := worlds[|events|], OutboxRunner.WriteAhead(verify, attemptId, now);
    WriteAheadStep(sha, w, p, PrepareUpdate(pc.tip, pc.endpoint, verify, attemptId, now), prepared);
    WriteAheadPc(sha, w, p, prepared);
    var store, next := NextStore(sha, w, p), NextPc(sha, w, p);
    ws, es := Then(sha, worlds, events, p, store, next);
    if Selects(prepared) {
      var vs, ds := SelectedRuns(sha, ws, es, next, now, cancelledBeforeSend, reply, random);
      Joined(worlds, events, ws, es, vs, ds, store, next, false,
             AfterSelection(sha, store, next.sel, pc.tip, now, cancelledBeforeSend, reply, random), Idle, !cancelledBeforeSend);
      ws, es := vs, ds;
    }
  }

  /** From an endpoint: the tip arrives and is used, or the run stops. */
  lemma OpenRuns(sha: Data -> string, worlds: seq<World>, events: seq<Event>, endpoint: string, verify: bool, tip: TipReply, cancelledAtTip: bool,
                 attemptId: string, now: int, cancelledBeforeSend: bool, reply: SendReply, random: Random,
                 prepared: Result<(Snapshot, Option<Selection>), OutboxError>) returns (ws: seq<World>, es: seq<Event>)
    requires IsExecution(sha, worlds, events) && worlds[|events|].pc == Opened(endpoint)
    requires prepared == Prepare(worlds[|events|].store, HeightOf(tip), endpoint, verify, attemptId, now)
    ensures IsExecution(sha, ws, es) == true
    ensures var learns := tip.TipAt? && !cancelledAtTip; var s := worlds[|events|].store;
      Continues(worlds, events, ws, es, if learns then AfterTip(sha, s, HeightOf(tip), prepared, now, cancelledBeforeSend, reply, random) else s, Idle,
                learns && Selects(prepared) && !cancelledBeforeSend)
  {
    var s := worlds[|events|].store;
    if tip.TipAt? && !cancelledAtTip {
      var known := AtTip(endpoint, tip.height);
      ws, es := Then(sha, worlds, events, TipArrives(tip.height), s, known);
      var vs, ds := TipRuns(sha, ws, es, known, verify, attemptId, prepared, now, cancelledBeforeSend, reply, random);
      Joined(worlds, events, ws, es, vs, ds, s, known, false,
             AfterTip(sha, s, tip.height, prepared, now, cancelledBeforeSend, reply, random), Idle, Selects(prepared) && !cancelledBeforeSend);
      ws, es := vs, ds;
    } else {
      ws, es := Then(sha, worlds, events, Stop, s, Idle);
    }
  }

  /**
   One run of the runner, whatever it is told, is a stretch of the protocol: every execution that is idle
   goes on, by events of one run, to an idle world with exactly the store that the run leaves, and a send
   is among these events if and only if the run sends.
   */
  lemma RunIsProtocol(sha: Data -> string, worlds: seq<World>, events: seq<Event>, now: int, verify: bool, tip: TipReply, cancelledAtTip: bool,
                      attemptId: string, cancelledBeforeSend: bool, reply: SendReply, random: Random) returns (ws: seq<World>, es: seq<Event>)
    requires IsExecution(sha, worlds, events) && worlds[|events|].pc.Idle?
    ensures IsExecution(sha, ws, es) == true
    ensures var s := worlds[|events|].store;
      Continues(worlds, events, ws, es,
                AfterRun(sha, s, false, now, verify, tip, cancelledAtTip, attemptId, cancelledBeforeSend, reply, random), Idle,
                !cancelledBeforeSend && AtSend(s, now, verify, tip, cancelledAtTip, attemptId).1.Some?)
  {
    var s := worlds[|events|].store;
    var (recovered, endpoint) := Open(s, now);
    var opening := if endpoint.Some? then Opened(endpoint.value) else Idle;
    BeginStores(sha, worlds[|events|], now);
    ws, es := Then(sha, worlds, events, BeginRun(now), recovered, opening);
    if endpoint.Some? {
      var prepared := Prepare(recovered, HeightOf(tip), endpoint.value, verify, attemptId, now);
      var vs, ds := OpenRuns(sha, ws, es, endpoint.value, verify, tip, cancelledAtTip, attemptId, now, cancelledBeforeSend, reply, random, prepared);
      var learns := tip.TipAt? && !cancelledAtTip;
      Joined(worlds, events, ws, es, vs, ds, recovered, opening, false,
             if learns then AfterTip(sha, recovered, HeightOf(tip), prepared, now, cancelledBeforeSend, reply, random) else recovered, Idle,
             learns && Selects(prepared) && !cancelledBeforeSend);
      ws, es := vs, ds;
    }
    RunLeaves(sha, s, now, verify, tip, cancelledAtTip, attemptId, cancelledBeforeSend, reply, random);
  }

  /** What a run leaves, by how far it came. */
  lemma RunLeaves(sha: Data -> string, s: Snapshot, now: int, verify: bool, tip: TipReply, cancelledAtTip: bool, attemptId: string,
                  cancelledBeforeSend: bool, reply: SendReply, random: Random)
    ensures var (recovered, endpoint) := Open(s, now); var learns := tip.TipAt? && !cancelledAtTip;
      var after := AfterRun(sha, s, false, now, verify, tip, cancelledAtTip, attemptId, cancelledBeforeSend, reply, random);
      var selects := AtSend(s, now, verify, tip, cancelledAtTip, attemptId).1.Some?;
      if endpoint.Some? && learns
      then var prepared := Prepare(recovered, HeightOf(tip), endpoint.value, verify, attemptId, now);
           after == AfterTip(sha, recovered, HeightOf(tip), prepared, now, cancelledBeforeSend, reply, random) && (selects <==> Selects(prepared))
      else after == recovered && !selects
  {
  }
}
