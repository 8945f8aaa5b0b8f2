/**
 The durable, ordered progress log of agent runs: AgentRunEventRecorder.record
 (apps/api/app/services/agent_run_events.py) over a table whose only protection is the unique
 constraint on (run_id, sequence) (apps/api/app/models/agent_run_event.py).

 Writers are interleaved at the level of their database steps: a read of max(sequence), then
 an insert with commit that succeeds or conflicts. The first part gives the steps of any
 number of writers; the second part is the retry loop of one call.
 */
module EventLog {
  import opened Common
  import opened RunCursor

  const MAX_SEQUENCE_RETRIES: nat := 3

  /** The arguments of one call of record; an empty run id stands for None. */
  datatype Request = Request(runId: string, eventId: string, kind: string, data: string)

  // ---------------------------------------------------------------------------
  // The two database operations of a writer
  // ---------------------------------------------------------------------------

  /** max(sequence) over the rows of a run; None when there are none. */
  function MaxSequence(rows: seq<Row>, runId: string): Option<nat> {
    if rows == [] then None
    else
      var before, row := MaxSequence(rows[..|rows| - 1], runId), rows[|rows| - 1];
      if row.runId != runId then before
      else if before.Some? && before.value > row.sequence then before
      else Some(row.sequence)
  }

  /** It is the greatest number of the run's rows, in whatever order they are stored. */
  lemma {:induction false} MaxIsGreatest(rows: seq<Row>, runId: string)
    ensures MaxSequence(rows, runId).None? <==> forall i :: 0 <= i < |rows| ==> rows[i].runId != runId
    ensures var max := MaxSequence(rows, runId);
            max.Some? ==>
              && (exists i :: 0 <= i < |rows| && rows[i].runId == runId && rows[i].sequence == max.value)
              && forall i :: 0 <= i < |rows| && rows[i].runId == runId ==> rows[i].sequence <= max.value
  {
    if rows != [] {
      var n := |rows| - 1;
      var before := rows[..n];
      MaxIsGreatest(before, runId);
      assert forall i :: 0 <= i < n ==> before[i] == rows[i];
      if rows[n].runId != runId && MaxSequence(before, runId).Some? {
        var i :| 0 <= i < n && before[i].runId == runId && before[i].sequence == MaxSequence(before, runId).value;
        assert rows[i] == before[i];
      } else if MaxSequence(before, runId).Some? {
        var i :| 0 <= i < n && before[i].runId == runId && before[i].sequence == MaxSequence(before, runId).value;
        assert rows[i] == before[i];
      }
    }
  }

  /** (current or 0) + 1 */
  function NextSequence(rows: seq<Row>, runId: string): nat {
    match MaxSequence(rows, runId)
    case None => 1
    case Some(current) => current + 1
  }

  /** The keys an event row refers to. */
  datatype Parents = Parents(runs: set<string>, events: set<string>)

  ghost predicate HasParents(parents: Parents, request: Request) {
    request.runId in parents.runs && request.eventId in parents.events
  }

  /** The insert violates no constraint: both foreign keys exist, (run_id, sequence) is new. */
  predicate Accepts(rows: seq<Row>, parents: Parents, row: Row) {
    && row.runId in parents.runs && row.eventId in parents.events
    && forall i :: 0 <= i < |rows| ==> !(rows[i].runId == row.runId && rows[i].sequence == row.sequence)
  }

  function NewRow(request: Request, sequence: nat, now: int): Row {
    Row(request.runId, request.eventId, sequence, request.kind, request.data, now)
  }

  /** In a well-numbered table, max(sequence) is the number of rows of the run. */
  lemma {:induction false} MaxIsLength(rows: seq<Row>, runId: string)
    requires forall i :: 0 <= i < |RunLog(rows, runId)| ==> RunLog(rows, runId)[i].sequence == i + 1
    ensures MaxSequence(rows, runId)
         == if RunLog(rows, runId) == [] then None else Some(|RunLog(rows, runId)|)
  {
    if rows != [] {
      var init, row := rows[..|rows| - 1], rows[|rows| - 1];
      var before, log := RunLog(init, runId), RunLog(rows, runId);
      assert forall i :: 0 <= i < |before| ==> before[i] == log[i];
      MaxIsLength(init, runId);
      if row.runId == runId {
        assert log[|before|] == row;
      }
    }
  }

  lemma NextIsLengthPlusOne(rows: seq<Row>, runId: string)
    requires WellNumbered(rows)
    ensures NextSequence(rows, runId) == |RunLog(rows, runId)| + 1
  {
    MaxIsLength(rows, runId);
  }

  /** A number up to the next free one is accepted exactly when it is the next free one. */
  lemma AcceptedIffNext(rows: seq<Row>, parents: Parents, row: Row)
    requires WellNumbered(rows) && 1 <= row.sequence <= |RunLog(rows, row.runId)| + 1
    ensures Accepts(rows, parents, row) <==>
            row.runId in parents.runs && row.eventId in parents.events && row.sequence == |RunLog(rows, row.runId)| + 1
  {
    var log := RunLog(rows, row.runId);
    RunLogMembers(rows, row.runId);
    if row.sequence <= |log| {
      assert log[row.sequence - 1] in log;
      assert log[row.sequence - 1].sequence == row.sequence;
      var k :| 0 <= k < |rows| && rows[k] == log[row.sequence - 1];
    } else {
      forall k | 0 <= k < |rows| ensures !(rows[k].runId == row.runId && rows[k].sequence == row.sequence) {
        if rows[k].runId == row.runId {
          assert rows[k] in log;
        }
      }
    }
  }

  // ---------------------------------------------------------------------------
  // Any number of writers, interleaved
  // ---------------------------------------------------------------------------

  /** Where a call stands: about to read, holding a sequence number, or returned. */
  datatype Phase =
    | Reading
    | Holding(sequence: nat)
    | Recorded(envelope: Envelope)
    | Ignored       // no run id
    | GaveUp        // three conflicts
    | Faulted       // another database error

  /** `startLength` remembers how long the log of the run was when the call began. */
  datatype Writer = Writer(request: Request, conflicts: nat, phase: Phase, startLength: nat)

  datatype System = System(rows: seq<Row>, parents: Parents, writers: seq<Writer>)

  datatype Action =
    | Call(request: Request)
    | Read(w: nat)
    | Commit(w: nat, now: int, fault: bool)

  /** Who takes the step; None for a new call. */
  function Actor(action: Action): Option<nat> {
    if action.Call? then None else Some(action.w)
  }

  function Update(sys: System, w: nat, phase: Phase): System
    requires w < |sys.writers|
  {
    sys.(writers := sys.writers[w := sys.writers[w].(phase := phase)])
  }

  /** One step; a step that is not enabled changes nothing. */
  function Next(sys: System, action: Action): System {
    match action
    case Call(request) =>
      var phase := if request.runId == "" then Ignored else Reading;
      sys.(writers := sys.writers + [Writer(request, 0, phase, |RunLog(sys.rows, request.runId)|)])
    case Read(w) =>
      if w < |sys.writers| && sys.writers[w].phase.Reading? then
        Update(sys, w, Holding(NextSequence(sys.rows, sys.writers[w].request.runId)))
      else sys
    case Commit(w, now, fault) =>
      if w < |sys.writers| && sys.writers[w].phase.Holding? then CommitStep(sys, w, now, fault) else sys
  }

  function CommitStep(sys: System, w: nat, now: int, fault: bool): System
    requires w < |sys.writers| && sys.writers[w].phase.Holding?
  {
    var writer := sys.writers[w];
    var row := NewRow(writer.request, writer.phase.sequence, now);
    if fault then Update(sys, w, Faulted)
    else if Accepts(sys.rows, sys.parents, row) then
      Update(sys, w, Recorded(ToEnvelope(row))).(rows := sys.rows + [row])
    else
      var conflicts := writer.conflicts + 1;
      var phase := if conflicts == MAX_SEQUENCE_RETRIES then GaveUp else Reading;
      sys.(writers := sys.writers[w := writer.(conflicts := conflicts, phase := phase)])
  }

  function Run(sys: System, actions: seq<Action>): System
    decreases |actions|
  {
    if actions == [] then sys else Run(Next(sys, actions[0]), actions[1..])
  }

  function Start(parents: Parents): System {
    System([], parents, [])
  }

  function CountRecorded(writers: seq<Writer>): nat {
    if writers == [] then 0
    else CountRecorded(writers[..|writers| - 1]) + (if writers[|writers| - 1].phase.Recorded? then 1 else 0)
  }

  /** What holds of one writer. */
  ghost predicate WriterOk(rows: seq<Row>, parents: Parents, writer: Writer) {
    var length := |RunLog(rows, writer.request.runId)|;
    && writer.conflicts <= MAX_SEQUENCE_RETRIES
    && (writer.phase.GaveUp? <==> writer.conflicts == MAX_SEQUENCE_RETRIES)
    && (HasParents(parents, writer.request) ==> writer.startLength + writer.conflicts <= length)
    && (writer.phase.Holding? ==> 1 <= writer.phase.sequence <= length + 1)
    && (writer.phase.Holding? && HasParents(parents, writer.request) ==>
          writer.startLength + writer.conflicts + 1 <= writer.phase.sequence)
    && (writer.phase.Recorded? ==> InLog(rows, writer.request.runId, writer.phase.envelope))
  }

  ghost predicate InLog(rows: seq<Row>, runId: string, envelope: Envelope) {
    exists row :: row in RunLog(rows, runId) && ToEnvelope(row) == envelope
  }

  /** Two writers that recorded into the same run got different numbers. */
  predicate Distinct(v: Writer, w: Writer) {
    v.phase.Recorded? && w.phase.Recorded? && v.request.runId == w.request.runId
    ==> v.phase.envelope.sequence != w.phase.envelope.sequence
  }

  ghost predicate Inv(sys: System) {
    && WellNumbered(sys.rows)
    && (forall w :: 0 <= w < |sys.writers| ==> WriterOk(sys.rows, sys.parents, sys.writers[w]))
    && |sys.rows| == CountRecorded(sys.writers)
    && (forall v, w :: 0 <= v < w < |sys.writers| ==> Distinct(sys.writers[v], sys.writers[w]))
  }

  lemma {:induction false} CountAfterUpdate(writers: seq<Writer>, w: nat, writer: Writer)
    requires w < |writers| && !writers[w].phase.Recorded?
    ensures CountRecorded(writers[w := writer]) == CountRecorded(writers) + (if writer.phase.Recorded? then 1 else 0)
  {
    var updated := writers[w := writer];
    if w == |writers| - 1 {
      assert updated[..|writers| - 1] == writers[..|writers| - 1];
    } else {
      assert updated[..|writers| - 1] == writers[..|writers| - 1][w := writer];
      CountAfterUpdate(writers[..|writers| - 1], w, writer);
    }
  }

  /** A row added to the log takes nothing from another writer. */
  lemma WriterOkAfterAppend(rows: seq<Row>, row: Row, parents: Parents, writer: Writer)
    requires WriterOk(rows, parents, writer)
    ensures WriterOk(rows + [row], parents, writer)
  {
    RunLogAppend(rows, row, writer.request.runId);
    var before, after := RunLog(rows, writer.request.runId), RunLog(rows + [row], writer.request.runId);
    if writer.phase.Recorded? {
      var r :| r in before && ToEnvelope(r) == writer.phase.envelope;
      assert r in after;
    }
  }

  lemma NumbersInLog(rows: seq<Row>, runId: string, envelope: Envelope)
    requires WellNumbered(rows) && InLog(rows, runId, envelope)
    ensures 1 <= envelope.sequence <= |RunLog(rows, runId)| && envelope.runId == runId
  {
    var row :| row in RunLog(rows, runId) && ToEnvelope(row) == envelope;
    RunLogMembers(rows, runId);
    var i :| 0 <= i < |RunLog(rows, runId)| && RunLog(rows, runId)[i] == row;
  }

  lemma CallKeepsInv(sys: System, request: Request)
    requires Inv(sys)
    ensures Inv(Next(sys, Call(request)))
  {
    hide ToEnvelope, WellNumbered, InLog;
    var next := Next(sys, Call(request));
    assert next.writers[..|next.writers| - 1] == sys.writers;
  }

  lemma ReadKeepsInv(sys: System, w: nat)
    requires Inv(sys)
    ensures Inv(Next(sys, Read(w)))
  {
    hide ToEnvelope, WellNumbered, InLog, CountRecorded;
    if w < |sys.writers| && sys.writers[w].phase.Reading? {
      NextIsLengthPlusOne(sys.rows, sys.writers[w].request.runId);
      CountAfterUpdate(sys.writers, w, Next(sys, Read(w)).writers[w]);
    }
  }

  lemma CommitKeepsInv(sys: System, w: nat, now: int, fault: bool)
    requires Inv(sys) && w < |sys.writers| && sys.writers[w].phase.Holding?
    ensures Inv(CommitStep(sys, w, now, fault))
  {
    hide ToEnvelope, WellNumbered, InLog, CountRecorded, Accepts, RunLog;
    var writer := sys.writers[w];
    var row := NewRow(writer.request, writer.phase.sequence, now);
    CountAfterUpdate(sys.writers, w, CommitStep(sys, w, now, fault).writers[w]);
    AcceptedIffNext(sys.rows, sys.parents, row);
    if !fault && Accepts(sys.rows, sys.parents, row) {
      RecordKeepsInv(sys, w, row);
    }
  }

  lemma RecordKeepsInv(sys: System, w: nat, row: Row)
    requires Inv(sys) && w < |sys.writers| && sys.writers[w].phase.Holding?
    requires row.runId == sys.writers[w].request.runId && row.sequence == |RunLog(sys.rows, row.runId)| + 1
    ensures Inv(Update(sys, w, Recorded(ToEnvelope(row))).(rows := sys.rows + [row]))
  {
    hide WellNumbered, InLog, CountRecorded, WriterOk;
    var next := Update(sys, w, Recorded(ToEnvelope(row))).(rows := sys.rows + [row]);
    AppendKeepsNumbering(sys.rows, row);
    CountAfterUpdate(sys.writers, w, next.writers[w]);
    forall v | 0 <= v < |next.writers|
      ensures WriterOk(next.rows, next.parents, next.writers[v])
    {
      WriterOkAfterAppend(sys.rows, row, sys.parents, sys.writers[v]);
      if v == w {
        WriterRecorded(sys.rows, row, sys.parents, sys.writers[w]);
      }
    }
    forall v | 0 <= v < |sys.writers| && v != w
      ensures Distinct(next.writers[v], next.writers[w]) && Distinct(next.writers[w], next.writers[v])
    {
      if sys.writers[v].phase.Recorded? && sys.writers[v].request.runId == row.runId {
        OlderNumbersDiffer(sys, v, row);
      }
    }
  }

  lemma WriterRecorded(rows: seq<Row>, row: Row, parents: Parents, writer: Writer)
    requires WriterOk(rows + [row], parents, writer) && writer.phase.Holding? && row.runId == writer.request.runId
    ensures WriterOk(rows + [row], parents, writer.(phase := Recorded(ToEnvelope(row))))
  {
    RunLogAppend(rows, row, row.runId);
    assert row in RunLog(rows + [row], row.runId);
  }

  lemma OlderNumbersDiffer(sys: System, v: nat, row: Row)
    requires Inv(sys) && v < |sys.writers| && row.sequence == |RunLog(sys.rows, row.runId)| + 1
    requires sys.writers[v].phase.Recorded? && sys.writers[v].request.runId == row.runId
    ensures sys.writers[v].phase.envelope.sequence != row.sequence
  {
    NumbersInLog(sys.rows, row.runId, sys.writers[v].phase.envelope);
  }

  lemma NextKeepsInv(sys: System, action: Action)
    requires Inv(sys)
    ensures Inv(Next(sys, action)) && sys.rows <= Next(sys, action).rows && Next(sys, action).parents == sys.parents
  {
    hide Inv;
    match action
    case Call(request) => CallKeepsInv(sys, request);
    case Read(w) => ReadKeepsInv(sys, w);
    case Commit(w, now, fault) =>
      if w < |sys.writers| && sys.writers[w].phase.Holding? {
        CommitKeepsInv(sys, w, now, fault);
      }
  }

  lemma {:induction false} RunKeepsInv(sys: System, actions: seq<Action>)
    requires Inv(sys)
    ensures Inv(Run(sys, actions)) && sys.rows <= Run(sys, actions).rows && Run(sys, actions).parents == sys.parents
    decreases |actions|
  {
    hide Inv, Next;
    if actions != [] {
      NextKeepsInv(sys, actions[0]);
      RunKeepsInv(Next(sys, actions[0]), actions[1..]);
    }
  }

  /**
   Under every interleaving of any number of writers, the committed sequences of every run are
   exactly 1..n in commit order, every returned envelope is that of a row of its run, no two
   calls share a number in a run, and there are as many rows as calls that recorded one.
   */
  lemma NumbersAreGapFree(parents: Parents, actions: seq<Action>)
    ensures var sys := Run(Start(parents), actions);
            && (forall runId: string, i :: 0 <= i < |RunLog(sys.rows, runId)| ==>
                  RunLog(sys.rows, runId)[i].sequence == i + 1)
            && (forall w :: 0 <= w < |sys.writers| && sys.writers[w].phase.Recorded? ==>
                  InLog(sys.rows, sys.writers[w].request.runId, sys.writers[w].phase.envelope))
            && (forall v, w :: 0 <= v < w < |sys.writers| ==> Distinct(sys.writers[v], sys.writers[w]))
            && |sys.rows| == CountRecorded(sys.writers)
  {
    RunKeepsInv(Start(parents), actions);
  }

  /** The log is append-only from any moment of any run on. */
  lemma LogIsAppendOnly(parents: Parents, before: seq<Action>, after: seq<Action>)
    ensures Run(Start(parents), before).rows <= Run(Start(parents), before + after).rows
  {
    RunKeepsInv(Start(parents), before);
    RunKeepsInv(Run(Start(parents), before), after);
    RunConcat(Start(parents), before, after);
  }

  lemma {:induction false} RunConcat(sys: System, a: seq<Action>, b: seq<Action>)
    ensures Run(sys, a + b) == Run(Run(sys, a), b)
    decreases |a|
  {
    if a == [] {
      assert a + b == b;
    } else {
      RunConcat(Next(sys, a[0]), a[1..], b);
      assert (a + b)[1..] == a[1..] + b;
    }
  }

  /**
   A call that gave up on an existing run and event lost three numbers: at least three rows
   were committed to the run, by others, while it ran.
   */
  lemma GivingUpMeansThreeOthers(parents: Parents, actions: seq<Action>, w: nat)
    requires var sys := Run(Start(parents), actions);
             w < |sys.writers| && sys.writers[w].phase.GaveUp? && HasParents(parents, sys.writers[w].request)
    ensures var sys := Run(Start(parents), actions);
            |RunLog(sys.rows, sys.writers[w].request.runId)| >= sys.writers[w].startLength + MAX_SEQUENCE_RETRIES
  {
    hide RunLog, Next;
    StartInv(parents);
    RunKeepsInv(Start(parents), actions);
  }

  lemma StartInv(parents: Parents)
    ensures Inv(Start(parents))
  {
  }

  // ---------------------------------------------------------------------------
  // What is recorded
  // ---------------------------------------------------------------------------

  /** The row holds what was asked to be recorded, under this number and at this time. */
  ghost predicate Stores(row: Row, request: Request, sequence: nat, now: int) {
    && row.runId == request.runId && row.eventId == request.eventId && row.sequence == sequence
    && row.kind == request.kind && row.data == request.data && row.createdAt == now
  }

  /** So does the envelope, whose id is the run's with the number in decimal. */
  ghost predicate Tells(envelope: Envelope, request: Request, sequence: nat, now: int) {
    && envelope.id == request.runId + ":" + Decimal(sequence)
    && envelope.runId == request.runId && envelope.eventId == request.eventId && envelope.sequence == sequence
    && envelope.kind == request.kind && envelope.data == request.data && envelope.timestamp == now
  }

  /** The requests of the calls made, in their order. */
  function Requests(actions: seq<Action>): seq<Request> {
    if actions == [] then []
    else (if actions[0].Call? then [actions[0].request] else []) + Requests(actions[1..])
  }

  lemma {:induction false} WritersAreCallers(sys: System, actions: seq<Action>)
    ensures var end, requests := Run(sys, actions), Requests(actions);
            && |end.writers| == |sys.writers| + |requests|
            && (forall w :: 0 <= w < |sys.writers| ==> end.writers[w].request == sys.writers[w].request)
            && (forall w :: 0 <= w < |requests| ==> end.writers[|sys.writers| + w].request == requests[w])
    decreases |actions|
  {
    hide RunLog, Accepts, NextSequence, NewRow;
    if actions != [] {
      WritersAreCallers(Next(sys, actions[0]), actions[1..]);
    }
  }

  /** Writer w commits a row here, and its envelope is told from it. */
  ghost predicate RecordsAt(sys: System, action: Action, w: nat) {
    && action.Commit? && action.w == w && w < |sys.writers|
    && var next := Next(sys, action);
       && |next.writers| == |sys.writers| && next.writers[w].phase.Recorded? && next.writers[w].request == sys.writers[w].request
       && |next.rows| == |sys.rows| + 1
       && var request, envelope := sys.writers[w].request, next.writers[w].phase.envelope;
          && Stores(next.rows[|sys.rows|], request, envelope.sequence, action.now)
          && Tells(envelope, request, envelope.sequence, action.now)
  }

  lemma StepRecords(sys: System, action: Action, w: nat)
    requires w < |Next(sys, action).writers| && Next(sys, action).writers[w].phase.Recorded?
    requires w < |sys.writers| ==> !sys.writers[w].phase.Recorded?
    ensures RecordsAt(sys, action, w)
  {
    hide RunLog, Accepts, NextSequence, Decimal;
  }

  lemma RecordedStays(sys: System, action: Action, w: nat)
    requires w < |sys.writers| && sys.writers[w].phase.Recorded?
    ensures w < |Next(sys, action).writers| && Next(sys, action).writers[w] == sys.writers[w]
  {
    hide RunLog, Accepts, NextSequence, NewRow;
  }

  lemma {:induction false} RecordedAt(sys: System, actions: seq<Action>, w: nat) returns (k: nat)
    requires w < |Run(sys, actions).writers| && Run(sys, actions).writers[w].phase.Recorded?
    requires w < |sys.writers| ==> !sys.writers[w].phase.Recorded?
    ensures k < |actions| && RecordsAt(Run(sys, actions[..k]), actions[k], w)
    ensures w < |Run(sys, actions[..k + 1]).writers| && Run(sys, actions[..k + 1]).writers[w] == Run(sys, actions).writers[w]
    ensures Run(sys, actions[..k + 1]) == Next(Run(sys, actions[..k]), actions[k])
    decreases |actions|
  {
    hide Next, RecordsAt;
    var n := |actions| - 1;
    var front, last := actions[..n], actions[n];
    assert actions == front + [last];
    RunConcat(sys, front, [last]);
    var before := Run(sys, front);
    assert Run(before, [last]) == Next(before, last);
    if w < |before.writers| && before.writers[w].phase.Recorded? {
      RecordedStays(before, last, w);
      k := RecordedAt(sys, front, w);
      assert front[..k] == actions[..k] && front[..k + 1] == actions[..k + 1];
    } else {
      StepRecords(before, last, w);
      k := n;
      assert actions[..k + 1] == actions;
    }
  }

  /**
   Under every interleaving: what a call returns tells exactly what that call was asked to record, with
   its number and the clock reading of one of its own commits, and at the end the log still holds the
   row with just that.
   */
  lemma {:induction false} RecordsWhatWasAsked(parents: Parents, actions: seq<Action>, w: nat) returns (k: nat)
    requires w < |Run(Start(parents), actions).writers| && Run(Start(parents), actions).writers[w].phase.Recorded?
    ensures var sys, requests := Run(Start(parents), actions), Requests(actions);
            && w < |requests| && k < |actions| && actions[k].Commit? && actions[k].w == w
            && var envelope := sys.writers[w].phase.envelope;
               && Tells(envelope, requests[w], envelope.sequence, actions[k].now)
               && exists i :: 0 <= i < |sys.rows| && Stores(sys.rows[i], requests[w], envelope.sequence, actions[k].now)
  {
    hide Next, Tells, Stores;
    WritersAreCallers(Start(parents), actions);
    WritersAreCallers(Start(parents), []);
    k := RecordedAt(Start(parents), actions, w);
    var before, after := Run(Start(parents), actions[..k]), Run(Start(parents), actions[..k + 1]);
    LogIsAppendOnly(parents, actions[..k + 1], actions[k + 1..]);
    assert actions[..k + 1] + actions[k + 1..] == actions;
    var sys := Run(Start(parents), actions);
    assert sys.rows[|before.rows|] == after.rows[|before.rows|];
  }

  /** Every call without a run id is ignored, and every row has one. */
  ghost predicate NoRunNoRow(sys: System) {
    && (forall w :: 0 <= w < |sys.writers| && sys.writers[w].request.runId == "" ==> sys.writers[w].phase.Ignored?)
    && (forall w :: 0 <= w < |sys.writers| && sys.writers[w].phase.Ignored? ==> sys.writers[w].request.runId == "")
    && forall i :: 0 <= i < |sys.rows| ==> sys.rows[i].runId != ""
  }

  lemma NextKeepsNoRow(sys: System, action: Action)
    requires NoRunNoRow(sys)
    ensures NoRunNoRow(Next(sys, action))
  {
    hide RunLog, Accepts, NextSequence;
  }

  /** Under every interleaving exactly the calls without a run id are ignored, and none of them leaves a row. */
  lemma {:induction false} IgnoredIffNoRun(sys: System, actions: seq<Action>)
    requires NoRunNoRow(sys)
    ensures NoRunNoRow(Run(sys, actions))
    decreases |actions|
  {
    hide Next, NoRunNoRow;
    if actions != [] {
      NextKeepsNoRow(sys, actions[0]);
      IgnoredIffNoRun(Next(sys, actions[0]), actions[1..]);
    }
  }

  // ---------------------------------------------------------------------------
  // Who wins a round
  // ---------------------------------------------------------------------------

  ghost predicate NoStepOf(actions: seq<Action>, w: nat) {
    forall i :: 0 <= i < |actions| ==> Actor(actions[i]) != Some(w)
  }

  /** While a writer does not move, it keeps its place; new writers come after it. */
  lemma {:induction false} OthersLeaveWriter(sys: System, actions: seq<Action>, w: nat)
    requires w < |sys.writers| && NoStepOf(actions, w)
    ensures w < |Run(sys, actions).writers| && Run(sys, actions).writers[w] == sys.writers[w]
    decreases |actions|
  {
    hide RunLog, Accepts, NextSequence;
    if actions != [] {
      assert Actor(actions[0]) != Some(w);
      assert forall i :: 0 <= i < |actions[1..]| ==> actions[1..][i] == actions[i + 1];
      OthersLeaveWriter(Next(sys, actions[0]), actions[1..], w);
    }
  }

  /** The commit of a writer conflicts in this state. */
  ghost predicate Conflicts(sys: System, w: nat) {
    && w < |sys.writers| && sys.writers[w].phase.Holding?
    && !Accepts(sys.rows, sys.parents, NewRow(sys.writers[w].request, sys.writers[w].phase.sequence, 0))
  }

  /**
   For an existing run and event, a commit conflicts exactly when the log of the run has grown
   since the writer's read. So the first of the writers that read the same log to insert wins:
   some writer succeeds in every round.
   */
  lemma ConflictIffOvertaken(sys: System, w: nat, others: seq<Action>)
    requires Inv(sys) && w < |sys.writers| && sys.writers[w].phase.Reading?
    requires HasParents(sys.parents, sys.writers[w].request) && NoStepOf(others, w)
    ensures var after := Run(Next(sys, Read(w)), others);
            Conflicts(after, w)
            <==> |RunLog(after.rows, sys.writers[w].request.runId)| > |RunLog(sys.rows, sys.writers[w].request.runId)|
  {
    hide RunLog, Accepts, WellNumbered;
    var runId := sys.writers[w].request.runId;
    var read := Next(sys, Read(w));
    NextKeepsInv(sys, Read(w));
    NextIsLengthPlusOne(sys.rows, runId);
    RunKeepsInv(read, others);
    OthersLeaveWriter(read, others, w);
    var after := Run(read, others);
    PrefixOfLog(sys.rows, after.rows, runId);
    AcceptedIffNext(after.rows, after.parents, NewRow(after.writers[w].request, after.writers[w].phase.sequence, 0));
  }

  /** Without its run or event in the database every attempt conflicts, with no other writer about. */
  lemma MissingParentAlwaysConflicts(sys: System, w: nat)
    requires w < |sys.writers| && sys.writers[w].phase.Holding?
    requires !HasParents(sys.parents, sys.writers[w].request)
    ensures Conflicts(sys, w)
  {
  }

  /** One call alone on a run the database does not know: it gives up, and nothing was committed. */
  lemma GivingUpAlone(request: Request)
    requires request.runId != ""
    ensures var step := [Read(0), Commit(0, 0, false)];
            var sys := Run(Start(Parents({}, {})), [Call(request)] + step + step + step);
            |sys.writers| == 1 && sys.writers[0].phase.GaveUp? && sys.rows == []
  {
    var step := [Read(0), Commit(0, 0, false)];
    var s0 := Next(Start(Parents({}, {})), Call(request));
    var s1 := Round(s0);
    var s2 := Round(s1);
    var s3 := Round(s2);
    RunConcat(Start(Parents({}, {})), [Call(request)], step + step + step);
    RunConcat(s0, step, step + step);
    RunConcat(s1, step, step);
    assert [Call(request)] + step + step + step == [Call(request)] + (step + (step + step));
    assert step + step + step == step + (step + step);
  }

  /** A read and a commit by the only writer, without the parents of its row. */
  lemma Round(sys: System) returns (next: System)
    requires |sys.writers| == 1 && sys.writers[0].phase.Reading? && sys.rows == [] && sys.parents == Parents({}, {})
    ensures next == Run(sys, [Read(0), Commit(0, 0, false)])
    ensures next.rows == [] && next.parents == sys.parents && |next.writers| == 1
    ensures next.writers[0].conflicts == sys.writers[0].conflicts + 1
    ensures next.writers[0].phase == if next.writers[0].conflicts == MAX_SEQUENCE_RETRIES then GaveUp else Reading
  {
    next := Next(Next(sys, Read(0)), Commit(0, 0, false));
    assert [Read(0), Commit(0, 0, false)][1..] == [Commit(0, 0, false)];
  }

  // ---------------------------------------------------------------------------
  // One call: the retry loop
  // ---------------------------------------------------------------------------

  function Flatten(batches: seq<seq<Row>>): seq<Row> {
    if batches == [] then [] else Flatten(batches[..|batches| - 1]) + batches[|batches| - 1]
  }

  /** Some row of the batch belongs to the run. */
  ghost predicate Touches(batch: seq<Row>, runId: string) {
    RunLog(batch, runId) != []
  }

  class AgentRunEventRecorder {
    /** The table as committed, by this and by other writers. */
    var rows: seq<Row>
    const parents: Parents

    constructor (rows: seq<Row>, parents: Parents)
      ensures this.rows == rows && this.parents == parents
    {
      this.rows := rows;
      this.parents := parents;
    }

    /**
     record. `others[k]` is what other writers commit between the read and the insert of attempt
     k; `faults[k]` says that the commit of attempt k fails for a reason of its own.

     The call records at the first attempt that no other writer overtakes, directly after the
     rows committed until then, and gives up only when all three attempts are overtaken.
     */
    method Record(request: Request, others: seq<seq<Row>>, faults: seq<bool>, now: int)
      returns (envelope: Option<Envelope>)
      requires |others| == |faults| == MAX_SEQUENCE_RETRIES
      requires forall k :: 0 <= k <= |others| ==> WellNumbered(rows + Flatten(others[..k]))
      modifies this`rows
      ensures WellNumbered(rows)
      ensures request.runId == "" ==> envelope == None && rows == old(rows)
      ensures envelope.Some? ==>
                exists k :: 0 <= k < |others|
                  && Wins(old(rows), parents, request, others, faults, now, k, envelope.value, rows)
      ensures envelope.None? && request.runId != "" && HasParents(parents, request) && (forall k :: 0 <= k < 3 ==> !faults[k]) ==>
                rows == old(rows) + Flatten(others) && forall k :: 0 <= k < |others| ==> Touches(others[k], request.runId)
      ensures envelope.None? && request.runId != "" ==>
                exists k :: 0 < k <= |others| && StopsAfter(old(rows), parents, request, others, faults, k, rows)
    {
      envelope := None;
      if request.runId == "" {
        assert rows + Flatten(others[..0]) == rows;
        return;
      }
      ghost var initial := rows;
      assert rows + Flatten(others[..0]) == rows;
      for k := 0 to MAX_SEQUENCE_RETRIES
        invariant rows == initial + Flatten(others[..k])
        invariant HasParents(parents, request) ==> forall j :: 0 <= j < k ==> Touches(others[j], request.runId)
        invariant forall j :: 0 <= j < k ==> !faults[j]
      {
        var sequence := NextSequence(rows, request.runId);
        OneAttempt(initial, parents, request, others, k, now);
        rows := rows + others[k];
        var row := NewRow(request, sequence, now);
        if faults[k] {
          assert StopsAfter(initial, parents, request, others, faults, k + 1, rows);
          return;
        }
        if Accepts(rows, parents, row) {
          rows := rows + [row];
          envelope := Some(ToEnvelope(row));
          assert Wins(initial, parents, request, others, faults, now, k, envelope.value, rows);
          return;
        }
      }
      assert others[..MAX_SEQUENCE_RETRIES] == others;
      assert StopsAfter(initial, parents, request, others, faults, MAX_SEQUENCE_RETRIES, rows);
    }
  }

  /**
   Nothing is recorded: the table has what the others committed during k attempts, of which only the last
   may have met a fault of its own, and every other one was overtaken unless the parents are missing.
   */
  ghost predicate StopsAfter(initial: seq<Row>, parents: Parents, request: Request, others: seq<seq<Row>>, faults: seq<bool>,
                             k: nat, rows: seq<Row>)
    requires 0 < k <= |others| == |faults|
  {
    && rows == initial + Flatten(others[..k])
    && (forall j :: 0 <= j < k - 1 ==> !faults[j])
    && (k < |others| ==> faults[k - 1])
    && (HasParents(parents, request) ==> forall j :: 0 <= j < k && !faults[j] ==> Touches(others[j], request.runId))
  }

  /** Attempt k records the next number, not overtaken; every earlier attempt was. */
  ghost predicate Wins(initial: seq<Row>, parents: Parents, request: Request, others: seq<seq<Row>>,
                       faults: seq<bool>, now: int, k: nat, envelope: Envelope, rows: seq<Row>)
    requires k < |others| == |faults|
  {
    var before := initial + Flatten(others[..k + 1]);
    var sequence := |RunLog(before, request.runId)| + 1;
    && HasParents(parents, request) && !faults[k]
    && !Touches(others[k], request.runId)
    && (forall j :: 0 <= j < k ==> Touches(others[j], request.runId))
    && |rows| == |before| + 1 && rows[..|before|] == before
    && Stores(rows[|before|], request, sequence, now) && Tells(envelope, request, sequence, now)
  }

  lemma OneAttempt(initial: seq<Row>, parents: Parents, request: Request, others: seq<seq<Row>>, k: nat, now: int)
    requires k < |others|
    requires WellNumbered(initial + Flatten(others[..k])) && WellNumbered(initial + Flatten(others[..k + 1]))
    ensures var before, after := initial + Flatten(others[..k]), initial + Flatten(others[..k + 1]);
            var row := NewRow(request, NextSequence(before, request.runId), now);
            && after == before + others[k]
            && (Accepts(after, parents, row) <==> HasParents(parents, request) && !Touches(others[k], request.runId))
            && (Accepts(after, parents, row) ==>
                  row.sequence == |RunLog(after, request.runId)| + 1 && WellNumbered(after + [row]))
  {
    hide RunLog, Accepts, WellNumbered;
    assert others[..k + 1][..k] == others[..k];
    var before, after := initial + Flatten(others[..k]), initial + Flatten(others[..k + 1]);
    assert after == before + others[k];
    NextIsLengthPlusOne(before, request.runId);
    RunLogConcat(before, others[k], request.runId);
    var row := NewRow(request, NextSequence(before, request.runId), now);
    AcceptedIffNext(after, parents, row);
    if Accepts(after, parents, row) {
      AppendKeepsNumbering(after, row);
    }
  }
}
