/**
 The browser's mirror of a run and its progress log (apps/web/stores/agentRunStore.ts).

 The store is a class whose handlers run to completion one at a time, as they do between two
 awaits of the original; each handler is proved equal to a function on the store's state. The
 second part lets these handlers interleave with the server's log and with any number of
 streams, current and stale.
 */
module RunStore {
  import opened Common
  import opened RunCursor

  datatype RunRecord = RunRecord(runId: string, status: string)

  datatype Connection = Idle | Connecting | Live | Reconnecting | Closed

  /**
   What the handlers read and write. `active` is the generation of the stream whose abort
   controller is held and not aborted.
   */
  datatype State = State(
    eventId: Option<string>, run: Option<RunRecord>, events: seq<Envelope>, lastSequence: nat,
    connection: Connection, generation: nat, active: Option<nat>)

  // ---------------------------------------------------------------------------
  // Lifecycle of a run (apps/web/lib/agentRun/view.ts)
  // ---------------------------------------------------------------------------

  datatype Lifecycle =
    | NoRun | Running | Cancelling | AwaitingSelection | AwaitingApproval
    | Completed | Failed | Cancelled | Paused

  function StatusLifecycle(status: string): Lifecycle {
    if status == "CANCELLING" then Cancelling
    else if status == "WAITING_FOR_USER_SELECTION" then AwaitingSelection
    else if status == "PENDING_APPROVAL" || status == "WAITING_FOR_APPROVAL" then AwaitingApproval
    else if status == "COMPLETED" || status == "EXECUTED" || status == "VERIFIED" then Completed
    else if status == "FAILED" || status == "RECOVERY_FAILED" then Failed
    else if status == "CANCELLED" then Cancelled
    else if status == "PAUSED" then Paused
    else Running
  }

  function EventLifecycle(kind: string): Option<Lifecycle> {
    if kind == "agent.run_started" then Some(Running)
    else if kind == "agent.cancel_requested" then Some(Cancelling)
    else if kind == "selection.required" then Some(AwaitingSelection)
    else if kind == "approval.required" then Some(AwaitingApproval)
    else if kind == "agent.run_completed" then Some(Completed)
    else if kind == "agent.run_failed" then Some(Failed)
    else if kind == "agent.run_cancelled" then Some(Cancelled)
    else if kind == "agent.run_paused" then Some(Paused)
    else None
  }

  /** The latest lifecycle event decides; without one, the status of the record. */
  function LifecycleOf(run: Option<RunRecord>, events: seq<Envelope>): Lifecycle {
    if run.None? then NoRun
    else if events == [] then StatusLifecycle(run.value.status)
    else
      var latest := EventLifecycle(events[|events| - 1].kind);
      if latest.Some? then latest.value else LifecycleOf(run, events[..|events| - 1])
  }

  predicate RunIsLive(s: State) {
    LifecycleOf(s.run, s.events) in {Running, Cancelling, AwaitingSelection, AwaitingApproval}
  }

  // ---------------------------------------------------------------------------
  // The handlers, as functions
  // ---------------------------------------------------------------------------

  predicate Accepts(s: State, ev: Envelope) {
    s.run.Some? && ev.runId == s.run.value.runId && ev.sequence > s.lastSequence
  }

  function Applied(s: State, ev: Envelope): State {
    if Accepts(s, ev) then s.(events := s.events + [ev], lastSequence := ev.sequence) else s
  }

  function AppliedAll(s: State, evs: seq<Envelope>): State {
    if evs == [] then s else Applied(AppliedAll(s, evs[..|evs| - 1]), evs[|evs| - 1])
  }

  function Disconnected(s: State): State {
    s.(generation := s.generation + 1, active := None)
  }

  function Connected(s: State): State {
    var d := Disconnected(s);
    d.(generation := d.generation + 1, active := Some(d.generation + 1), connection := Connecting)
  }

  /** The snapshot's run and events, applied one by one to an emptied store. */
  function Filled(s: State, eventId: string, run: Option<RunRecord>, events: seq<Envelope>): State {
    AppliedAll(s.(eventId := Some(eventId), run := run, events := [], lastSequence := 0), events)
  }

  function Adopted(s: State, eventId: string, run: Option<RunRecord>, events: seq<Envelope>): State {
    var filled := Filled(s, eventId, run, events);
    if run.Some? && RunIsLive(filled) then Connected(filled)
    else filled.(connection := if run.Some? then Closed else Idle)
  }

  function SwitchedTo(s: State, eventId: string): State {
    if s.eventId == Some(eventId) then s
    else Disconnected(s).(eventId := Some(eventId), run := None, events := [], lastSequence := 0, connection := Idle)
  }

  // ---------------------------------------------------------------------------
  // The store
  // ---------------------------------------------------------------------------

  /** One connection of a stream loop: whether it opened, how far it delivered, how it ended. */
  datatype Attempt = Attempt(connected: bool, upTo: nat, failure: Option<nat>)

  class AgentRunStore {
    var eventId: Option<string>
    var run: Option<RunRecord>
    var events: seq<Envelope>
    var lastSequence: nat
    var connection: Connection
    var streamGeneration: nat
    var streamAbort: Option<nat>

    function View(): State
      reads this
    {
      State(eventId, run, events, lastSequence, connection, streamGeneration, streamAbort)
    }

    constructor ()
      ensures View() == State(None, None, [], 0, Idle, 0, None)
    {
      eventId, run, events, lastSequence := None, None, [], 0;
      connection, streamGeneration, streamAbort := Idle, 0, None;
    }

    method ApplyEvent(ev: Envelope)
      modifies this
      ensures View() == Applied(old(View()), ev)
    {
      if run.None? || ev.runId != run.value.runId || ev.sequence <= lastSequence {
        return;
      }
      events := events + [ev];
      lastSequence := ev.sequence;
    }

    method Disconnect()
      modifies this
      ensures View() == Disconnected(old(View()))
    {
      streamGeneration := streamGeneration + 1;
      streamAbort := None;
    }

    method Connect()
      modifies this
      ensures View() == Connected(old(View()))
    {
      Disconnect();
      streamGeneration := streamGeneration + 1;
      streamAbort := Some(streamGeneration);
      connection := Connecting;
    }

    method AdoptSnapshot(eventId: string, run: Option<RunRecord>, events: seq<Envelope>)
      modifies this
      ensures View() == Adopted(old(View()), eventId, run, events)
    {
      this.eventId := Some(eventId);
      this.run := run;
      this.events := [];
      lastSequence := 0;
      ghost var reset := View();
      for i := 0 to |events|
        invariant View() == AppliedAll(reset, events[..i])
      {
        assert events[..i + 1][..i] == events[..i];
        ApplyEvent(events[i]);
      }
      assert events[..|events|] == events;
      if run.Some? && RunIsLive(View()) {
        Connect();
      } else {
        connection := if run.Some? then Closed else Idle;
      }
    }

    /** hydrate, up to the request. */
    method BeginHydrate(eventId: string)
      modifies this
      ensures View() == SwitchedTo(old(View()), eventId)
    {
      if this.eventId != Some(eventId) {
        Disconnect();
        this.eventId := Some(eventId);
        run, events, lastSequence, connection := None, [], 0, Idle;
      }
    }

    /** hydrate, once the snapshot has arrived. */
    method FinishHydrate(eventId: string, run: Option<RunRecord>, events: seq<Envelope>)
      modifies this
      ensures View() == if old(this.eventId) != Some(eventId) then old(View()) else Adopted(old(View()), eventId, run, events)
    {
      if this.eventId != Some(eventId) {
        return;
      }
      AdoptSnapshot(eventId, run, events);
    }

    /**
     streamLoop, with nothing else running: every connection resumes at lastSequence and brings
     the events of the server's log from there up to `upTo`, in order. Through any number of
     drops the store stays a prefix of the log and never goes back; it has everything that any
     connection brought; and the loop ends early only by closing.
     */
    method StreamLoop(generation: nat, log: seq<Envelope>, attempts: seq<Attempt>) returns (tried: nat)
      requires run.Some? && IsLogOf(log, run.value.runId) && IsPrefixOf(View(), log)
      modifies this
      ensures IsPrefixOf(View(), log) && lastSequence >= old(lastSequence) && run == old(run)
      ensures tried <= |attempts|
      ensures forall i :: 0 <= i < tried && attempts[i].connected ==> lastSequence >= Min(attempts[i].upTo, |log|)
      ensures old(streamAbort) == Some(generation) && old(streamGeneration) == generation ==>
                tried == |attempts| || connection == Closed
      ensures old(streamAbort) != Some(generation) || old(streamGeneration) != generation ==> tried == 0
      ensures tried == 0 ==> View() == old(View())
      ensures tried > 0 ==>
                && (connection == Closed <==> attempts[tried - 1].failure in {Some(401), Some(403), Some(404)} || !RunIsLive(View()))
                && (connection != Closed ==> connection == Reconnecting)
      ensures forall i :: 0 <= i < tried - 1 ==> attempts[i].failure !in {Some(401), Some(403), Some(404)}
      ensures lastSequence == old(lastSequence)
              || exists i :: 0 <= i < tried && attempts[i].connected && lastSequence == Min(attempts[i].upTo, |log|)
    {
      hide LifecycleOf, IsLogOf;
      var attempt := 0;
      tried := 0;
      while streamAbort == Some(generation) && generation == streamGeneration && tried < |attempts|
        invariant IsPrefixOf(View(), log) && lastSequence >= old(lastSequence) && run == old(run)
        invariant streamAbort == old(streamAbort) && streamGeneration == old(streamGeneration) && tried <= |attempts|
        invariant forall i :: 0 <= i < tried && attempts[i].connected ==> lastSequence >= Min(attempts[i].upTo, |log|)
        invariant forall i :: 0 <= i < tried ==> attempts[i].failure !in {Some(401), Some(403), Some(404)}
        invariant if tried == 0 then View() == old(View())
                  else connection == Reconnecting && RunIsLive(View()) && streamAbort == Some(generation) && generation == streamGeneration
        invariant lastSequence == old(lastSequence)
                  || exists i :: 0 <= i < tried && attempts[i].connected && lastSequence == Min(attempts[i].upTo, |log|)
        decreases |attempts| - tried
      {
        connection := if attempt == 0 then Connecting else Reconnecting;
        if attempts[tried].connected {
          attempt := 0;
          connection := Live;
          Receive(log, Min(attempts[tried].upTo, |log|));
        }
        tried := tried + 1;
        if attempts[tried - 1].failure in {Some(401), Some(403), Some(404)} {
          connection := Closed;
          return;
        }
        if !RunIsLive(View()) {
          connection := Closed;
          return;
        }
        connection := Reconnecting;
        attempt := attempt + 1;
      }
    }

    /** The frames of one connection opened at lastSequence. */
    method Receive(log: seq<Envelope>, upTo: nat)
      requires run.Some? && IsLogOf(log, run.value.runId) && IsPrefixOf(View(), log) && upTo <= |log|
      modifies this
      ensures View() == old(View()).(events := events, lastSequence := lastSequence)
      ensures IsPrefixOf(View(), log) && lastSequence == (if old(lastSequence) < upTo then upTo else old(lastSequence))
    {
      var next := lastSequence;
      while next < upTo
        invariant lastSequence == next <= |log| && (next <= upTo || next == old(lastSequence))
        invariant IsPrefixOf(View(), log)
        invariant View() == old(View()).(events := events, lastSequence := lastSequence)
      {
        ApplyEvent(log[next]);
        assert log[..next + 1] == log[..next] + [log[next]];
        next := next + 1;
      }
    }
  }

  /** The envelopes of one run, numbered 1, 2, 3, ... */
  ghost predicate IsLogOf(log: seq<Envelope>, runId: string) {
    forall i :: 0 <= i < |log| ==> log[i].runId == runId && log[i].sequence == i + 1
  }

  ghost predicate IsPrefixOf(s: State, log: seq<Envelope>) {
    s.lastSequence <= |log| && s.events == log[..s.lastSequence]
  }

  // ---------------------------------------------------------------------------
  // Any handlers, any frames
  // ---------------------------------------------------------------------------

  /** The events are of the current run, strictly increasing, and end at lastSequence. */
  ghost predicate Sound(s: State) {
    && (s.events != [] ==> s.run.Some?)
    && (forall i :: 0 <= i < |s.events| ==> s.events[i].runId == s.run.value.runId && s.events[i].sequence > i)
    && (forall i, j :: 0 <= i < j < |s.events| ==> s.events[i].sequence < s.events[j].sequence)
    && s.lastSequence == (if s.events == [] then 0 else s.events[|s.events| - 1].sequence)
  }

  /** A call of a handler; frames and snapshots are arbitrary. */
  datatype Call =
    | Frame(ev: Envelope)
    | Snapshot(eventId: string, run: Option<RunRecord>, events: seq<Envelope>)
    | Switch(eventId: string)
    | Drop
    | SetStatus(status: string)

  function Handle(s: State, call: Call): State {
    match call
    case Frame(ev) => Applied(s, ev)
    case Snapshot(eventId, run, events) => Adopted(s, eventId, run, events)
    case Switch(eventId) => SwitchedTo(s, eventId)
    case Drop => Disconnected(s)
    case SetStatus(status) => if s.run.Some? then s.(run := Some(s.run.value.(status := status))) else s
  }

  function HandleAll(s: State, calls: seq<Call>): State {
    if calls == [] then s else Handle(HandleAll(s, calls[..|calls| - 1]), calls[|calls| - 1])
  }

  const INITIAL := State(None, None, [], 0, Idle, 0, None)

  lemma AppliedKeepsSound(s: State, ev: Envelope)
    requires Sound(s)
    ensures Sound(Applied(s, ev))
  {
    if Accepts(s, ev) && s.events != [] {
      var n := |s.events|;
      assert s.events[n - 1].sequence < ev.sequence;
      forall i | 0 <= i < n ensures s.events[i].sequence < ev.sequence {
        assert i < n - 1 ==> s.events[i].sequence < s.events[n - 1].sequence;
      }
    }
  }

  lemma {:induction false} AppliedAllKeepsSound(s: State, evs: seq<Envelope>)
    requires Sound(s)
    ensures Sound(AppliedAll(s, evs)) && AppliedAll(s, evs) == s.(events := AppliedAll(s, evs).events, lastSequence := AppliedAll(s, evs).lastSequence)
  {
    hide Sound;
    if evs != [] {
      AppliedAllKeepsSound(s, evs[..|evs| - 1]);
      AppliedKeepsSound(AppliedAll(s, evs[..|evs| - 1]), evs[|evs| - 1]);
    }
  }

  /**
   For every history of snapshots, frames (duplicate, stale, of other runs or made up), switches
   and drops, the store's events are of the current run, strictly increasing and end at
   lastSequence.
   */
  lemma {:induction false} StoreIsSound(calls: seq<Call>)
    ensures Sound(HandleAll(INITIAL, calls))
  {
    if calls != [] {
      var before, call := HandleAll(INITIAL, calls[..|calls| - 1]), calls[|calls| - 1];
      StoreIsSound(calls[..|calls| - 1]);
      match call
      case Frame(ev) => AppliedKeepsSound(before, ev);
      case Snapshot(eventId, run, events) =>
        AppliedAllKeepsSound(before.(eventId := Some(eventId), run := run, events := [], lastSequence := 0), events);
      case _ =>
    }
  }

  // ---------------------------------------------------------------------------
  // The store, the server's log and the streams between them
  // ---------------------------------------------------------------------------

  /**
   A stream that delivers the log of its run in order from a cursor: `position` events of the
   log are behind it. `epoch` is the number of resets of the store when it connected.
   */
  datatype Stream = Stream(runId: string, position: nat, epoch: nat)

  /**
   `epoch` counts the resets of the store (snapshots adopted, switches of event); `jumped` says
   that since the last one some delivery was ahead of the store.
   */
  datatype World = World(rows: seq<Row>, store: State, streams: seq<Stream>, epoch: nat, jumped: bool)

  datatype Step =
    | Append(row: Row)                                        // the server commits the next event of a run
    | Adopt(eventId: string, run: Option<RunRecord>, seen: nat)  // a snapshot that saw `seen` events of its run
    | SwitchEvent(eventId: string)
    | Deliver(i: nat, j: nat)                                 // stream i brings event j, the next one or a duplicate
    | Reconnect(i: nat)                                       // stream i was dropped and resumes

  function Log(rows: seq<Row>, runId: string): seq<Envelope> {
    Envelopes(RunLog(rows, runId))
  }

  predicate Enabled(w: World, step: Step) {
    match step
    case Append(row) => row.sequence == |RunLog(w.rows, row.runId)| + 1
    case Adopt(_, run, seen) => run.Some? ==> seen <= |RunLog(w.rows, run.value.runId)|
    case SwitchEvent(_) => true
    case Deliver(i, j) =>
      i < |w.streams| && j <= w.streams[i].position && j < |RunLog(w.rows, w.streams[i].runId)|
    case Reconnect(i) => i < |w.streams| && w.streams[i].epoch == w.epoch
  }

  /** The delivery is of the store's run and skips the event the store needs next. */
  predicate Jumps(w: World, step: Step) {
    && step.Deliver? && step.i < |w.streams| && w.store.run.Some?
    && w.streams[step.i].runId == w.store.run.value.runId && step.j > w.store.lastSequence
  }

  function Take(w: World, step: Step): World
    requires Enabled(w, step)
  {
    match step
    case Append(row) => w.(rows := w.rows + [row])
    case Adopt(eventId, run, seen) =>
      var events := if run.Some? then Log(w.rows, run.value.runId)[..seen] else [];
      var store := Adopted(w.store, eventId, run, events);
      var streams := if run.Some? && RunIsLive(Filled(w.store, eventId, run, events))
                     then w.streams + [Stream(run.value.runId, store.lastSequence, w.epoch + 1)] else w.streams;
      World(w.rows, store, streams, w.epoch + 1, false)
    case SwitchEvent(eventId) =>
      if w.store.eventId == Some(eventId) then w
      else w.(store := SwitchedTo(w.store, eventId), epoch := w.epoch + 1, jumped := false)
    case Deliver(i, j) =>
      var stream := w.streams[i];
      w.(store := Applied(w.store, Log(w.rows, stream.runId)[j]),
         streams := w.streams[i := stream.(position := if j == stream.position then j + 1 else stream.position)],
         jumped := w.jumped || Jumps(w, step))
    case Reconnect(i) =>
      w.(streams := w.streams[i := w.streams[i].(position := w.store.lastSequence)])
  }

  /** What holds of the store's events against the log of its run. */
  ghost predicate InLog(rows: seq<Row>, s: State) {
    s.run.Some? ==>
      var log := Log(rows, s.run.value.runId);
      && s.lastSequence <= |log|
      && forall i :: 0 <= i < |s.events| ==> 1 <= s.events[i].sequence <= |log| && s.events[i] == log[s.events[i].sequence - 1]
  }

  ghost predicate Inv(w: World) {
    && WellNumbered(w.rows) && Sound(w.store) && InLog(w.rows, w.store)
    && (|w.store.events| == w.store.lastSequence <==> !w.jumped)
    && (forall i :: 0 <= i < |w.streams| ==> w.streams[i].epoch <= w.epoch)
    && (forall i :: 0 <= i < |w.streams| && w.streams[i].epoch == w.epoch ==>
          w.store.run.Some? && w.streams[i].runId == w.store.run.value.runId
          && w.streams[i].position <= w.store.lastSequence)
  }

  /** The store shows exactly the first `lastSequence` events of its run. */
  ghost predicate IsMirror(w: World) {
    w.store.run.Some? ==> IsPrefixOf(w.store, Log(w.rows, w.store.run.value.runId))
  }

  lemma LogIsNumbered(rows: seq<Row>, runId: string)
    requires WellNumbered(rows)
    ensures IsLogOf(Log(rows, runId), runId)
  {
    NumberedAt(rows, runId);
    RunLogMembers(rows, runId);
    var log := RunLog(rows, runId);
    forall i | 0 <= i < |log| ensures log[i].runId == runId {
      assert log[i] in log;
    }
  }

  lemma LogGrows(rows: seq<Row>, row: Row, runId: string)
    ensures Log(rows, runId) <= Log(rows + [row], runId)
  {
    RunLogAppend(rows, row, runId);
  }

  /** A sound store whose events are in the log is a prefix of it exactly when none is missing. */
  lemma MirrorIffCounted(w: World)
    requires WellNumbered(w.rows) && Sound(w.store) && InLog(w.rows, w.store)
    ensures w.store.run.Some? ==> (IsMirror(w) <==> |w.store.events| == w.store.lastSequence)
    ensures |w.store.events| <= w.store.lastSequence
  {
    var s := w.store;
    if s.run.Some? && |s.events| == s.lastSequence {
      var log := Log(w.rows, s.run.value.runId);
      CountedMeansNumbered(s, |s.events|);
      assert s.events == log[..s.lastSequence];
    }
  }

  lemma {:induction false} CountedMeansNumbered(s: State, n: nat)
    requires Sound(s) && |s.events| == s.lastSequence && n <= |s.events|
    ensures forall i :: |s.events| - n <= i < |s.events| ==> s.events[i].sequence == i + 1
    decreases n
  {
    if n > 0 {
      CountedMeansNumbered(s, n - 1);
      var i := |s.events| - n;
      assert s.events[i].sequence > i;
      assert i + 1 < |s.events| ==> s.events[i].sequence < s.events[i + 1].sequence;
    }
  }

  /** Filling an empty store from the log of its run. */
  lemma {:induction false} FillFromLog(s: State, log: seq<Envelope>, seen: nat)
    requires s.run.Some? && s.events == [] && s.lastSequence == 0
    requires IsLogOf(log, s.run.value.runId) && seen <= |log|
    ensures AppliedAll(s, log[..seen]) == s.(events := log[..seen], lastSequence := seen)
  {
    if seen > 0 {
      FillFromLog(s, log, seen - 1);
      assert log[..seen][..seen - 1] == log[..seen - 1];
      assert log[..seen - 1] + [log[seen - 1]] == log[..seen];
    }
  }

  lemma AppendKeepsInv(w: World, row: Row)
    requires Inv(w) && Enabled(w, Append(row))
    ensures Inv(Take(w, Append(row)))
  {
    hide Log, Sound;
    AppendKeepsNumbering(w.rows, row);
    if w.store.run.Some? {
      LogGrows(w.rows, row, w.store.run.value.runId);
    }
  }

  lemma AdoptKeepsInv(w: World, eventId: string, run: Option<RunRecord>, seen: nat)
    requires Inv(w) && Enabled(w, Adopt(eventId, run, seen))
    ensures Inv(Take(w, Adopt(eventId, run, seen))) && IsMirror(Take(w, Adopt(eventId, run, seen)))
  {
    hide RunIsLive, WellNumbered, Log, Sound, IsLogOf;
    if run.Some? {
      var log := Log(w.rows, run.value.runId);
      assert |log| == |RunLog(w.rows, run.value.runId)| by { LogLength(w.rows, run.value.runId); }
      LogIsNumbered(w.rows, run.value.runId);
      FilledFromLog(w.store, eventId, run.value, log, seen);
    } else {
      NothingIsSound(Adopted(w.store, eventId, run, []));
    }
  }

  lemma LogLength(rows: seq<Row>, runId: string)
    ensures |Log(rows, runId)| == |RunLog(rows, runId)|
  {
  }

  lemma NothingIsSound(s: State)
    requires s.events == [] && s.lastSequence == 0
    ensures Sound(s)
  {
  }

  lemma FilledFromLog(s: State, eventId: string, run: RunRecord, log: seq<Envelope>, seen: nat)
    requires IsLogOf(log, run.runId) && seen <= |log|
    ensures var a := Adopted(s, eventId, Some(run), log[..seen]);
            && a.run == Some(run) && a.events == log[..seen] && a.lastSequence == seen
            && Sound(a)
            && forall i :: 0 <= i < seen ==> a.events[i].sequence == i + 1
  {
    hide RunIsLive;
    FillFromLog(s.(eventId := Some(eventId), run := Some(run), events := [], lastSequence := 0), log, seen);
  }

  lemma AppliedKeepsInLog(rows: seq<Row>, s: State, ev: Envelope)
    requires InLog(rows, s) && Sound(s)
    requires s.run.Some? && ev.runId == s.run.value.runId ==>
               1 <= ev.sequence <= |Log(rows, ev.runId)| && ev == Log(rows, ev.runId)[ev.sequence - 1]
    ensures InLog(rows, Applied(s, ev))
  {
    hide Log, Sound;
  }

  lemma DeliverKeepsInv(w: World, i: nat, j: nat)
    requires Inv(w) && Enabled(w, Deliver(i, j))
    ensures Inv(Take(w, Deliver(i, j)))
  {
    hide WellNumbered, RunLog, Sound, Log, InLog, IsLogOf;
    var runId := w.streams[i].runId;
    LogLength(w.rows, runId);
    LogIsNumbered(w.rows, runId);
    var ev := Log(w.rows, runId)[j];
    assert ev.runId == runId && ev.sequence == j + 1 by { NumberedEntry(Log(w.rows, runId), runId, j); }
    AppliedKeepsSound(w.store, ev);
    AppliedKeepsInLog(w.rows, w.store, ev);
    MirrorIffCounted(w);
  }

  lemma NumberedEntry(log: seq<Envelope>, runId: string, j: nat)
    requires IsLogOf(log, runId) && j < |log|
    ensures log[j].runId == runId && log[j].sequence == j + 1
  {
  }

  lemma {:induction false} TakeKeepsInv(w: World, step: Step)
    requires Inv(w) && Enabled(w, step)
    ensures Inv(Take(w, step))
  {
    match step
    case Append(row) => AppendKeepsInv(w, row);
    case Adopt(eventId, run, seen) => AdoptKeepsInv(w, eventId, run, seen);
    case Deliver(i, j) => DeliverKeepsInv(w, i, j);
    case SwitchEvent(eventId) => hide WellNumbered, Log;
    case Reconnect(i) => hide WellNumbered, Log;
  }

  ghost predicate Possible(w: World, steps: seq<Step>)
    decreases |steps|
  {
    steps == [] || (Enabled(w, steps[0]) && Possible(Take(w, steps[0]), steps[1..]))
  }

  function TakeAll(w: World, steps: seq<Step>): World
    requires Possible(w, steps)
    decreases |steps|
  {
    if steps == [] then w else TakeAll(Take(w, steps[0]), steps[1..])
  }

  const START := World([], INITIAL, [], 0, false)

  lemma {:induction false} TakeAllKeepsInv(w: World, steps: seq<Step>)
    requires Inv(w) && Possible(w, steps)
    ensures Inv(TakeAll(w, steps))
    decreases |steps|
  {
    hide Inv, Take, Enabled;
    if steps != [] {
      TakeKeepsInv(w, steps[0]);
      TakeAllKeepsInv(Take(w, steps[0]), steps[1..]);
    }
  }

  /**
   After every history of appends, snapshots (fresh or old), drops, reconnects from lastSequence,
   duplicates and stale streams, the store is a prefix of the server's log exactly when no
   delivery since its last reset was ahead of it.
   */
  lemma PrefixIffNoJump(steps: seq<Step>)
    requires Possible(START, steps)
    ensures var w := TakeAll(START, steps); w.store.run.Some? ==> (IsMirror(w) <==> !w.jumped)
  {
    hide Possible;
    NothingNumbered();
    TakeAllKeepsInv(START, steps);
    MirrorIffCounted(TakeAll(START, steps));
  }

  lemma NothingNumbered()
    ensures WellNumbered([])
  {
  }

  /**
   A stream that connected since the last reset never jumps: only a stream that is stale can
   put a gap into the store.
   */
  lemma CurrentStreamNeverJumps(steps: seq<Step>, i: nat, j: nat)
    requires Possible(START, steps)
    requires var w := TakeAll(START, steps);
             Enabled(w, Deliver(i, j)) && w.streams[i].epoch == w.epoch
    ensures !Jumps(TakeAll(START, steps), Deliver(i, j))
  {
    hide Possible;
    NothingNumbered();
    TakeAllKeepsInv(START, steps);
  }

  /** Once a stream connected since the last reset has drained, the store is the whole log. */
  lemma DrainedIsComplete(steps: seq<Step>, i: nat)
    requires Possible(START, steps)
    requires var w := TakeAll(START, steps);
             && i < |w.streams| && w.streams[i].epoch == w.epoch && !w.jumped
             && w.streams[i].position == |RunLog(w.rows, w.streams[i].runId)|
    ensures var w := TakeAll(START, steps); w.store.events == Log(w.rows, w.streams[i].runId)
  {
    hide Possible;
    NothingNumbered();
    var w := TakeAll(START, steps);
    TakeAllKeepsInv(START, steps);
    MirrorIffCounted(w);
  }

  lemma {:induction false} Extend(w: World, steps: seq<Step>, step: Step)
    requires Possible(w, steps) && Enabled(TakeAll(w, steps), step)
    ensures Possible(w, steps + [step]) && TakeAll(w, steps + [step]) == Take(TakeAll(w, steps), step)
    decreases |steps|
  {
    hide Enabled, Take;
    var all := steps + [step];
    if steps == [] {
      assert all == [step] && all[1..] == [];
    } else {
      assert all[1..] == steps[1..] + [step];
      Extend(Take(w, steps[0]), steps[1..], step);
    }
  }

  lemma StartedIsLive(s: State)
    requires s.run.Some? && s.events != [] && s.events[|s.events| - 1].kind == "agent.run_started"
    ensures RunIsLive(s)
  {
  }

  /** Adopting a live snapshot that saw the first `seen` events. */
  lemma AdoptLive(w: World, eventId: string, run: RunRecord, seen: nat)
    requires IsLogOf(Log(w.rows, run.runId), run.runId) && 1 <= seen <= |Log(w.rows, run.runId)|
    requires Log(w.rows, run.runId)[seen - 1].kind == "agent.run_started"
    ensures Enabled(w, Adopt(eventId, Some(run), seen))
    ensures var next := Take(w, Adopt(eventId, Some(run), seen));
            && next.rows == w.rows && next.store.run == Some(run) && next.epoch == w.epoch + 1
            && next.store.events == Log(w.rows, run.runId)[..seen] && next.store.lastSequence == seen
            && next.streams == w.streams + [Stream(run.runId, seen, w.epoch + 1)]
  {
    hide RunIsLive, IsLogOf, Sound;
    var log := Log(w.rows, run.runId);
    LogLength(w.rows, run.runId);
    FilledFromLog(w.store, eventId, run, log, seen);
    StartedIsLive(Filled(w.store, eventId, Some(run), log[..seen]));
  }

  lemma ThreeAppends(row1: Row, row2: Row, row3: Row)
    requires row1.runId == row2.runId == row3.runId
    requires row1.sequence == 1 && row2.sequence == 2 && row3.sequence == 3
    ensures RunLog([row1, row2, row3], row1.runId) == [row1, row2, row3]
    ensures RunLog([row1, row2], row1.runId) == [row1, row2] && RunLog([row1], row1.runId) == [row1] && RunLog([], row1.runId) == []
  {
    RunLogAppend([], row1, row1.runId);
    RunLogAppend([row1], row2, row1.runId);
    RunLogAppend([row1, row2], row3, row1.runId);
    assert [] + [row1] == [row1] && [row1] + [row2] == [row1, row2] && [row1, row2] + [row3] == [row1, row2, row3];
  }

  /** One more row, before any browser looks. */
  lemma AppendOne(steps: seq<Step>, rows: seq<Row>, row: Row)
    requires Possible(START, steps) && TakeAll(START, steps) == World(rows, INITIAL, [], 0, false)
    requires row.sequence == |RunLog(rows, row.runId)| + 1
    ensures Possible(START, steps + [Append(row)])
    ensures TakeAll(START, steps + [Append(row)]) == World(rows + [row], INITIAL, [], 0, false)
  {
    hide Possible, TakeAll, RunLog;
    Extend(START, steps, Append(row));
  }

  /** The log of three rows of one run, after the server appended them. */
  lemma ThreeRows(row1: Row, row2: Row, row3: Row) returns (w: World)
    requires row1.runId == row2.runId == row3.runId
    requires row1.sequence == 1 && row2.sequence == 2 && row3.sequence == 3
    ensures var steps := [Append(row1), Append(row2), Append(row3)]; Possible(START, steps) && w == TakeAll(START, steps)
    ensures w == World([row1, row2, row3], INITIAL, [], 0, false)
    ensures Log(w.rows, row1.runId) == [ToEnvelope(row1), ToEnvelope(row2), ToEnvelope(row3)]
    ensures IsLogOf(Log(w.rows, row1.runId), row1.runId)
  {
    ThreeAppends(row1, row2, row3);
    ThreeLogged(row1, row2, row3);
    assert Possible(START, []) && TakeAll(START, []) == START;
    hide TakeAll, Possible, Log, IsLogOf, ToEnvelope, RunLog;
    AppendOne([], [], row1);
    assert [] + [row1] == [row1] && [] + [Append(row1)] == [Append(row1)];
    AppendOne([Append(row1)], [row1], row2);
    assert [row1] + [row2] == [row1, row2] && [Append(row1)] + [Append(row2)] == [Append(row1), Append(row2)];
    AppendOne([Append(row1), Append(row2)], [row1, row2], row3);
    assert [row1, row2] + [row3] == [row1, row2, row3];
    assert [Append(row1), Append(row2)] + [Append(row3)] == [Append(row1), Append(row2), Append(row3)];
    w := TakeAll(START, [Append(row1), Append(row2), Append(row3)]);
  }

  lemma ThreeLogged(row1: Row, row2: Row, row3: Row)
    requires row1.runId == row2.runId == row3.runId
    requires row1.sequence == 1 && row2.sequence == 2 && row3.sequence == 3
    ensures Log([row1, row2, row3], row1.runId) == [ToEnvelope(row1), ToEnvelope(row2), ToEnvelope(row3)]
    ensures IsLogOf(Log([row1, row2, row3], row1.runId), row1.runId)
  {
    hide ToEnvelope, RunLog;
    ThreeAppends(row1, row2, row3);
    EnvelopeNumbers(row1);
    EnvelopeNumbers(row2);
    EnvelopeNumbers(row3);
  }

  lemma EnvelopeNumbers(row: Row)
    ensures ToEnvelope(row).sequence == row.sequence && ToEnvelope(row).runId == row.runId
    ensures ToEnvelope(row).kind == row.kind
  {
  }

  /**
   A history that leaves a gap for good: three events; the snapshot saw two of them, then an
   older snapshot that saw one is adopted, and the stream of the first, still in flight, brings
   the third. The new stream then delivers everything, and the store drops it.
   */
  lemma OldSnapshotThenStaleStream(row1: Row, row2: Row, row3: Row, eventId: string, run: RunRecord)
    requires row1.runId == row2.runId == row3.runId == run.runId
    requires row1.sequence == 1 && row2.sequence == 2 && row3.sequence == 3
    requires row1.kind == row2.kind == "agent.run_started"
    ensures var appends := [Append(row1), Append(row2), Append(row3)];
            var steps := appends + [Adopt(eventId, Some(run), 2)] + [Adopt(eventId, Some(run), 1)]
                         + [Deliver(0, 2)] + [Deliver(1, 1)] + [Deliver(1, 2)];
            && Possible(START, steps)
            && var w := TakeAll(START, steps);
               && |w.streams| == 2 && w.streams[1] == Stream(run.runId, 3, w.epoch)
               && w.store.events == [ToEnvelope(row1), ToEnvelope(row3)]
  {
    hide Enabled, Take, Possible, TakeAll, Log, IsLogOf, ToEnvelope;
    var s3 := [Append(row1), Append(row2), Append(row3)];
    var w3 := ThreeRows(row1, row2, row3);
    EnvelopeNumbers(row1);
    EnvelopeNumbers(row2);
    EnvelopeNumbers(row3);
    AdoptLive(w3, eventId, run, 2);
    Extend(START, s3, Adopt(eventId, Some(run), 2));
    var s4 := s3 + [Adopt(eventId, Some(run), 2)];
    var w4 := TakeAll(START, s4);
    AdoptLive(w4, eventId, run, 1);
    Extend(START, s4, Adopt(eventId, Some(run), 1));
    var s5 := s4 + [Adopt(eventId, Some(run), 1)];
    var w5 := TakeAll(START, s5);
    DeliverTo(w5, 0, 2);
    Extend(START, s5, Deliver(0, 2));
    var s6 := s5 + [Deliver(0, 2)];
    var w6 := TakeAll(START, s6);
    DeliverTo(w6, 1, 1);
    Extend(START, s6, Deliver(1, 1));
    var s7 := s6 + [Deliver(1, 1)];
    DeliverTo(TakeAll(START, s7), 1, 2);
    Extend(START, s7, Deliver(1, 2));
  }

  /** The delivery of the next event of a stream. */
  lemma DeliverTo(w: World, i: nat, j: nat)
    requires i < |w.streams| && w.streams[i].position == j < |Log(w.rows, w.streams[i].runId)|
    ensures Enabled(w, Deliver(i, j))
    ensures var next := Take(w, Deliver(i, j));
            && next.rows == w.rows && next.epoch == w.epoch
            && next.streams == w.streams[i := w.streams[i].(position := j + 1)]
            && next.store == Applied(w.store, Log(w.rows, w.streams[i].runId)[j])
  {
  }
}
