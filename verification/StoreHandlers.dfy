/**
 What the browser store's handlers leave: when a run counts as live, what a snapshot, a switch and a
 stream change, and that only the newest stream generation is ever active.
 */
module StoreHandlers {
  import opened Common
  import opened RunCursor
  import opened RunStore

  // ---------------------------------------------------------------------------
  // Live runs
  // ---------------------------------------------------------------------------

  /** Events after which the backend may still emit others. */
  predicate KeepsOpen(kind: string) {
    kind == "agent.run_started" || kind == "agent.cancel_requested" || kind == "selection.required" || kind == "approval.required"
  }

  predicate ClosesRun(kind: string) {
    || kind == "agent.run_completed" || kind == "agent.run_failed"
    || kind == "agent.run_cancelled" || kind == "agent.run_paused"
  }

  predicate IsFinalStatus(status: string) {
    || status == "COMPLETED" || status == "EXECUTED" || status == "VERIFIED" || status == "FAILED" || status == "RECOVERY_FAILED"
    || status == "CANCELLED" || status == "PAUSED"
  }

  predicate Marks(kind: string) {
    KeepsOpen(kind) || ClosesRun(kind)
  }

  /** The last event that opens or closes the run, or -1 without one. */
  function LastMark(events: seq<Envelope>): (i: int)
    ensures -1 <= i < |events|
    ensures i >= 0 ==> Marks(events[i].kind)
    ensures forall j :: i < j < |events| ==> !Marks(events[j].kind)
  {
    if events == [] then -1
    else if Marks(events[|events| - 1].kind) then |events| - 1
    else
      var before := events[..|events| - 1];
      assert forall j :: 0 <= j < |before| ==> before[j] == events[j];
      LastMark(before)
  }

  /** The latest event that opens or closes the run opens it; without such an event the status of its record is not final. */
  predicate IsLive(run: Option<RunRecord>, events: seq<Envelope>) {
    run.Some? && if LastMark(events) >= 0 then KeepsOpen(events[LastMark(events)].kind) else !IsFinalStatus(run.value.status)
  }

  lemma EventTells(kind: string)
    ensures EventLifecycle(kind).Some? <==> KeepsOpen(kind) || ClosesRun(kind)
    ensures KeepsOpen(kind) ==> EventLifecycle(kind).value in {Running, Cancelling, AwaitingSelection, AwaitingApproval}
    ensures ClosesRun(kind) ==> EventLifecycle(kind).value !in {Running, Cancelling, AwaitingSelection, AwaitingApproval}
    ensures !(KeepsOpen(kind) && ClosesRun(kind))
  {
    assert |"agent.run_started"| == 17 && |"agent.cancel_requested"| == 22 && |"selection.required"| == 18;
    assert |"approval.required"| == 17 && "approval.required"[1] == 'p' && "agent.run_started"[1] == 'g';
    assert |"agent.run_completed"| == 19 && |"agent.run_failed"| == 16 && |"agent.run_cancelled"| == 19 && |"agent.run_paused"| == 16;
    assert "agent.run_completed"[11] == 'o' && "agent.run_cancelled"[11] == 'a';
    assert "agent.run_failed"[10] == 'f' && "agent.run_paused"[10] == 'p';
  }

  lemma StatusTells(status: string)
    ensures StatusLifecycle(status) in {Running, Cancelling, AwaitingSelection, AwaitingApproval} <==> !IsFinalStatus(status)
    ensures StatusLifecycle(status) == Cancelling <==> status == "CANCELLING"
    ensures StatusLifecycle(status) == AwaitingSelection <==> status == "WAITING_FOR_USER_SELECTION"
    ensures StatusLifecycle(status) == AwaitingApproval <==> status == "PENDING_APPROVAL" || status == "WAITING_FOR_APPROVAL"
  {
    assert |"CANCELLING"| == 10 && |"WAITING_FOR_USER_SELECTION"| == 26 && |"PENDING_APPROVAL"| == 16 && |"WAITING_FOR_APPROVAL"| == 20;
    assert |"COMPLETED"| == 9 && |"EXECUTED"| == 8 && |"VERIFIED"| == 8 && |"FAILED"| == 6 && |"RECOVERY_FAILED"| == 15;
    assert |"CANCELLED"| == 9 && |"PAUSED"| == 6;
  }

  /** What the store takes for live is live by its events and its record. */
  lemma {:induction false} LiveIff(s: State)
    ensures RunIsLive(s) <==> IsLive(s.run, s.events)
    decreases |s.events|
  {
    hide EventLifecycle, StatusLifecycle, KeepsOpen, ClosesRun, IsFinalStatus;
    if s.run.Some? {
      StatusTells(s.run.value.status);
      if s.events != [] {
        var n := |s.events| - 1;
        var before := s.(events := s.events[..n]);
        EventTells(s.events[n].kind);
        if EventLifecycle(s.events[n].kind).None? {
          LiveIff(before);
        }
      }
    }
  }

  lemma NoRunIsNotLive(events: seq<Envelope>)
    ensures !IsLive(None, events)
  {
  }

  // ---------------------------------------------------------------------------
  // The handlers
  // ---------------------------------------------------------------------------

  /** The events of the run among the first n of a snapshot that are newer than all kept before them. */
  function Kept(runId: string, events: seq<Envelope>, n: nat): seq<Envelope>
    requires n <= |events|
  {
    if n == 0 then []
    else
      var before, ev := Kept(runId, events, n - 1), events[n - 1];
      if ev.runId == runId && ev.sequence > (if before == [] then 0 else before[|before| - 1].sequence) then before + [ev] else before
  }

  lemma {:induction false} KeepsNewer(s: State, events: seq<Envelope>, n: nat)
    requires n <= |events| && s.events == [] && s.lastSequence == 0
    ensures var t := AppliedAll(s, events[..n]);
            && t == s.(events := t.events, lastSequence := t.lastSequence)
            && t.events == (if s.run.Some? then Kept(s.run.value.runId, events, n) else [])
            && t.lastSequence == if t.events == [] then 0 else t.events[|t.events| - 1].sequence
  {
    if n > 0 {
      KeepsNewer(s, events, n - 1);
      assert events[..n][..n - 1] == events[..n - 1];
    }
  }

  /**
   Adopting a snapshot forgets what the store had, keeps the snapshot's own newer events, and opens a stream
   of a new generation exactly when the run is live by what was kept; otherwise no stream is touched.
   */
  lemma AdoptTells(s: State, eventId: string, run: Option<RunRecord>, events: seq<Envelope>)
    ensures var u := Adopted(s, eventId, run, events);
            && u.eventId == Some(eventId) && u.run == run
            && u.events == (if run.Some? then Kept(run.value.runId, events, |events|) else [])
            && u.lastSequence == (if u.events == [] then 0 else u.events[|u.events| - 1].sequence)
            && if IsLive(run, u.events) then
                 u.connection == Connecting && u.generation > s.generation && u.active == Some(u.generation)
               else
                 && u.connection == (if run.Some? then Closed else Idle)
                 && u.generation == s.generation && u.active == s.active
  {
    hide RunIsLive, IsLive, AppliedAll, Kept;
    var emptied := s.(eventId := Some(eventId), run := run, events := [], lastSequence := 0);
    KeepsNewer(emptied, events, |events|);
    assert events[..|events|] == events;
    LiveIff(Filled(s, eventId, run, events));
    NoRunIsNotLive([]);
  }

  /** Switching to another event empties the store and ends its stream; switching to the same one does nothing. */
  lemma SwitchTells(s: State, eventId: string)
    ensures var u := SwitchedTo(s, eventId);
            if s.eventId == Some(eventId) then u == s
            else u.eventId == Some(eventId) && u.run == None && u.events == [] && u.lastSequence == 0 && u.connection == Idle
                 && u.generation > s.generation && u.active == None
  {
  }

  /** An event is taken if and only if it is of the run and newer than the last; it then is the last. */
  lemma FrameTells(s: State, ev: Envelope)
    ensures var u := Applied(s, ev);
            if s.run.Some? && ev.runId == s.run.value.runId && ev.sequence > s.lastSequence
            then u.events == s.events + [ev] && u.lastSequence == ev.sequence && u == s.(events := u.events, lastSequence := u.lastSequence)
            else u == s
  {
  }

  /** A status that the server reports changes the record's status and nothing else, and nothing without a run. */
  lemma StatusChanges(s: State, status: string)
    ensures var u := Handle(s, SetStatus(status));
            && u == s.(run := u.run) && (s.run.None? ==> u.run.None?)
            && (s.run.Some? ==> u.run.Some? && u.run.value.runId == s.run.value.runId && u.run.value.status == status)
  {
  }

  // ---------------------------------------------------------------------------
  // Streams
  // ---------------------------------------------------------------------------

  /** A stream can always bring the next event there is, which moves it one on; a duplicate does not move it. */
  lemma StreamGoesOn(w: World, i: nat, j: nat)
    requires i < |w.streams|
    ensures w.streams[i].position < |RunLog(w.rows, w.streams[i].runId)| ==> Enabled(w, Deliver(i, w.streams[i].position))
    ensures Enabled(w, Deliver(i, j)) ==>
              var next := RunStore.Take(w, Deliver(i, j));
              && |next.streams| == |w.streams| && next.streams[i].runId == w.streams[i].runId && next.streams[i].epoch == w.streams[i].epoch
              && next.streams[i].position == (if j == w.streams[i].position then j + 1 else w.streams[i].position)
              && next.rows == w.rows && next.epoch == w.epoch
              && forall k :: 0 <= k < |w.streams| && k != i ==> next.streams[k] == w.streams[k]
  {
    hide RunLog;
  }

  /** A stream of the present epoch that was dropped resumes with the very event that the store needs next, and the store takes it. */
  lemma ResumesWhereItStopped(w: World, i: nat)
    requires WellNumbered(w.rows) && i < |w.streams| && w.streams[i].epoch == w.epoch && w.store.run.Some?
    requires w.streams[i].runId == w.store.run.value.runId && w.store.lastSequence < |RunLog(w.rows, w.streams[i].runId)|
    ensures Enabled(w, Reconnect(i))
    ensures var again := RunStore.Take(w, Reconnect(i));
            && Enabled(again, Deliver(i, w.store.lastSequence)) && again.store == w.store
            && var next := RunStore.Take(again, Deliver(i, w.store.lastSequence));
               && next.store.lastSequence == w.store.lastSequence + 1
               && next.store.events == w.store.events + [Log(w.rows, w.streams[i].runId)[w.store.lastSequence]]
               && next.streams[i].position == w.store.lastSequence + 1 && next.jumped == w.jumped
  {
    LogIsNumbered(w.rows, w.streams[i].runId);
    hide RunLog, WellNumbered;
  }

  /** Switching events empties the store and begins a new epoch; switching to the same one does nothing. */
  lemma SwitchBeginsEpoch(w: World, eventId: string)
    ensures var next := RunStore.Take(w, SwitchEvent(eventId));
            if w.store.eventId == Some(eventId) then next == w
            else next.store.run == None && next.store.events == [] && next.store.eventId == Some(eventId)
                 && next.epoch > w.epoch && !next.jumped && next.rows == w.rows && next.streams == w.streams
  {
  }

  // ---------------------------------------------------------------------------
  // Generations
  // ---------------------------------------------------------------------------

  /** A call that ends the stream there was: a drop, a switch to another event, or a snapshot of a live run. */
  predicate EndsStream(s: State, call: Call) {
    match call
    case Drop => true
    case Switch(eventId) => s.eventId != Some(eventId)
    case Snapshot(_, run, events) => run.Some? && IsLive(run, Kept(run.value.runId, events, |events|))
    case Frame(_) => false
    case SetStatus(_) => false
  }

  lemma GenerationStep(s: State, call: Call)
    ensures var t := Handle(s, call);
            && (EndsStream(s, call) ==> t.generation > s.generation && (t.active.Some? ==> t.active.value == t.generation))
            && (!EndsStream(s, call) ==> t.generation == s.generation && t.active == s.active)
  {
    hide IsLive, Adopted, Kept;
    match call
    case Snapshot(eventId, run, events) =>
      AdoptTells(s, eventId, run, events);
      NoRunIsNotLive([]);
    case Switch(eventId) => SwitchTells(s, eventId);
    case Frame(ev) => FrameTells(s, ev);
    case _ =>
  }

  /**
   Over every history of calls only a stream of the newest generation is active, and from a call that ends
   it on, no stream that was active before is ever active again: its loop stops at its next check.
   */
  lemma {:induction false} OldStreamsStayOver(calls: seq<Call>, i: nat)
    requires i < |calls|
    ensures var before, now := HandleAll(INITIAL, calls[..i]), HandleAll(INITIAL, calls);
            && (now.active.Some? ==> now.active.value == now.generation)
            && before.generation <= now.generation
            && (EndsStream(before, calls[i]) ==> before.generation < now.generation)
            && (EndsStream(before, calls[i]) && before.active.Some? ==> now.active != before.active)
    decreases |calls|
  {
    hide Handle, EndsStream;
    var n := |calls| - 1;
    var last := HandleAll(INITIAL, calls[..n]);
    ActiveIsNewest(calls);
    ActiveIsNewest(calls[..i]);
    GenerationStep(last, calls[n]);
    if i < n {
      OldStreamsStayOver(calls[..n], i);
      assert calls[..n][..i] == calls[..i];
    }
  }

  lemma {:induction false} ActiveIsNewest(calls: seq<Call>)
    ensures var now := HandleAll(INITIAL, calls); now.active.Some? ==> now.active.value == now.generation
  {
    hide Handle, EndsStream;
    if calls != [] {
      var n := |calls| - 1;
      ActiveIsNewest(calls[..n]);
      GenerationStep(HandleAll(INITIAL, calls[..n]), calls[n]);
    }
  }
}
