/**
 What the action executor guarantees over any serial history of its calls, with other services
 committing between them.
 */
module ActionHistory {
  import opened Common
  import opened Operations
  import opened ActionService

  // ---------------------------------------------------------------------------
  // One call
  // ---------------------------------------------------------------------------

  /** `after` is `before` with x executed: one more execution, one more transition, the option marked. */
  ghost predicate Recorded(before: Db, after: Db, c: Call, x: Execution) {
    && after.executions == before.executions + [x]
    && x.eventId == c.eventId && x.executor == c.executor
    && (c.actionId != "" ==> x.actionId == c.actionId)
    && (forall y :: y in before.executions ==> y.actionId != x.actionId)
    && |after.transitions| == |before.transitions| + 1 && after.transitions[..|before.transitions|] == before.transitions
    && after.transitions[|before.transitions|].eventId == c.eventId
    && after.members == before.members && after.approved == before.approved
    && (c.ActionCall? ==> after.recoveries == before.recoveries)
    && (c.RecoveryCall? ==>
          && c.optionId in before.recoveries && x.recoveryId == Some(c.optionId)
          && after.recoveries == Marked(before, c.optionId, "EXECUTED").recoveries
          && after.transitions[|before.transitions|].previous == before.recoveries[c.optionId].status)
  }

  /** The one thing a failing call may leave behind: the option it was refused for is now stale. */
  ghost predicate OnlyMarked(snap: Snapshot, before: Db, after: Db, c: Call) {
    && c.RecoveryCall? && c.optionId in before.recoveries && before.recoveries[c.optionId].eventId == c.eventId
    && StaleNow(before, before.recoveries[c.optionId], snap(before.tables, c.eventId))
    && after == Marked(before, c.optionId, "STALE")
  }

  /** All or nothing: an execution is recorded once and in full, or nothing but a stale mark is left. */
  lemma CallIsAtomic(snap: Snapshot, db: Db, c: Call, chance: Chance)
    ensures var o := OutcomeOf(snap, db, c, chance);
            if o.answer.Ok? then
              if o.db == db then o.answer.value in db.executions else Recorded(db, o.db, c, o.answer.value)
            else o.db == db || (o.answer.error == StaleAction && OnlyMarked(snap, db, o.db, c))
  {
    hide Operate, ApplyChanges, Stamped, Guard, Authorized, PlanVersion, Short;
    var actionId := FirstNonEmpty(c.actionId, chance.freshId);
    if Find(db.executions, actionId).None? {
      var o := OutcomeOf(snap, db, c, chance);
      assert o.answer.Ok? ==> o.db.executions[|db.executions|] == o.answer.value;
    }
  }

  /** An engagement in this call finds an assignment of the event, or one already approved, or none. */
  predicate EngagesOwn(t: Tables, c: Call) {
    c.ActionCall? && c.operation.ProviderEngagement? ==>
      var i := FirstAssignment(t.assignments, c.operation.assignmentId);
      i == -1 || t.assignments[i].eventId == c.eventId || t.assignments[i].negotiation == "APPROVED"
  }

  /** A call writes rows of its own event only, and perhaps a new vendor, unless it engages another event's assignment. */
  lemma {:induction false} CallStaysInEvent(snap: Snapshot, db: Db, c: Call, chance: Chance)
    requires EngagesOwn(db.tables, c)
    ensures var t, u := db.tables, OutcomeOf(snap, db, c, chance).db.tables;
            && OnlyEvent(t.(vendors := u.vendors), u, c.eventId)
            && (if c.ActionCall? && c.operation.Contract? then VendorMayBeNew(t, u, c.operation.payload.vendorId) else u.vendors == t.vendors)
  {
    hide OnlyEvent, Operate, ApplyChanges, Guard, Authorized, PlanVersion, Short, VendorMayBeNew, FirstAssignment, Stamped;
    var t := db.tables;
    NothingOnlyEvent(t, c.eventId);
    assert t.(vendors := t.vendors) == t;
    NoNewVendor(t);
    if c.ActionCall? {
      var r := Operate(t, c.eventId, c.operation, chance.rowId);
      if r.Ok? {
        EngagementFinds(t, c.eventId, c.operation, chance.rowId);
        OperateOnlyEventIff(t, c.eventId, c.operation, chance.rowId);
        StampOnlyEvent(t, r.value, chance.stamp, c.eventId);
      }
    } else if c.optionId in db.recoveries {
      var option := db.recoveries[c.optionId];
      var r := ApplyChanges(t, c.eventId, option.changes, option.affected, chance.rowId);
      if r.Ok? {
        ApplyChangesOnlyEvent(t, c.eventId, option.changes, option.affected, chance.rowId);
        SameVendors(t, r.value, c.eventId);
        StampOnlyEvent(t, r.value, chance.stamp, c.eventId);
      }
    }
  }

  lemma NoNewVendor(t: Tables)
    ensures forall vendorId :: VendorMayBeNew(t, t, vendorId)
  {
  }

  lemma SameVendors(t: Tables, u: Tables, eventId: string)
    requires OnlyEvent(t, u, eventId)
    ensures u.vendors == t.vendors && t.(vendors := u.vendors) == t
  {
  }

  lemma EngagementFinds(t: Tables, eventId: string, op: Operation, newId: string)
    ensures Operate(t, eventId, op, newId).Ok? && op.ProviderEngagement? ==> FirstAssignment(t.assignments, op.assignmentId) != -1
  {
  }

  lemma StampOnlyEvent(t: Tables, u: Tables, stamp: string, eventId: string)
    requires OnlyEvent(t.(vendors := u.vendors), u, eventId)
    ensures var v := Stamped(t, u, stamp);
            OnlyEvent(t.(vendors := v.vendors), v, eventId) && v.vendors == u.vendors
            && forall vendorId :: VendorMayBeNew(t, u, vendorId) ==> VendorMayBeNew(t, v, vendorId)
  {
  }

  // ---------------------------------------------------------------------------
  // Histories
  // ---------------------------------------------------------------------------

  /** A call of the service, or a commit of some other service. */
  datatype Step = Calls(call: Call, chance: Chance) | Others(db: Db)

  function Apply(snap: Snapshot, db: Db, step: Step): Db {
    match step
    case Calls(call, chance) => OutcomeOf(snap, db, call, chance).db
    case Others(after) => after
  }

  function After(snap: Snapshot, db: Db, steps: seq<Step>): Db {
    if steps == [] then db else Apply(snap, After(snap, db, steps[..|steps| - 1]), steps[|steps| - 1])
  }

  ghost predicate OneEach(rows: seq<Execution>) {
    forall i, j :: 0 <= i < j < |rows| ==> rows[i].actionId != rows[j].actionId
  }

  /** Executions and transitions are only ever added; an option keeps its event and plan version, and stays stale. */
  ghost predicate Grows(before: Db, after: Db) {
    && before.executions <= after.executions
    && before.transitions <= after.transitions
    && forall o :: o in before.recoveries ==>
         && o in after.recoveries
         && after.recoveries[o].eventId == before.recoveries[o].eventId
         && after.recoveries[o].planVersion == before.recoveries[o].planVersion
         && (before.recoveries[o].status == "STALE" ==> after.recoveries[o].status == "STALE")
  }

  /** Other services add rows, under the unique constraint on action ids. */
  ghost predicate Legal(snap: Snapshot, db: Db, steps: seq<Step>) {
    && OneEach(db.executions)
    && forall i :: 0 <= i < |steps| && steps[i].Others? ==>
         Grows(After(snap, db, steps[..i]), steps[i].db) && OneEach(steps[i].db.executions)
  }

  lemma CallGrows(snap: Snapshot, db: Db, c: Call, chance: Chance)
    requires OneEach(db.executions)
    ensures var after := OutcomeOf(snap, db, c, chance).db; Grows(db, after) && OneEach(after.executions)
  {
    hide OutcomeOf;
    CallIsAtomic(snap, db, c, chance);
    if c.RecoveryCall? && c.optionId in db.recoveries {
      StaleOptionIsRefused(snap, db, c, chance);
    }
  }

  /** A stale option is never executed, whatever else holds. */
  lemma StaleOptionIsRefused(snap: Snapshot, db: Db, c: Call, chance: Chance)
    requires c.RecoveryCall? && c.optionId in db.recoveries
    ensures var o := OutcomeOf(snap, db, c, chance); db.recoveries[c.optionId].status == "STALE" ==> o.answer.Err? && o.db == db
  {
    hide Guard, Authorized, PlanVersion, ApplyChanges;
    if db.recoveries[c.optionId].status == "STALE" {
      assert Marked(db, c.optionId, "STALE").recoveries == db.recoveries;
    }
  }

  lemma GrowsTransitive(a: Db, b: Db, c: Db)
    requires Grows(a, b) && Grows(b, c)
    ensures Grows(a, c)
  {
  }

  lemma PrefixIsLegal(snap: Snapshot, db: Db, steps: seq<Step>, n: nat)
    requires n <= |steps| && Legal(snap, db, steps)
    ensures Legal(snap, db, steps[..n])
  {
    forall i | 0 <= i < n ensures steps[..n][..i] == steps[..i] {
    }
  }

  /** From any point of a history to any later one the database only grows, and no action id occurs twice in it. */
  lemma {:induction false} HistoryGrows(snap: Snapshot, db: Db, steps: seq<Step>, i: nat)
    requires i <= |steps| && Legal(snap, db, steps)
    ensures Grows(After(snap, db, steps[..i]), After(snap, db, steps))
    ensures OneEach(After(snap, db, steps).executions)
    decreases |steps|
  {
    hide Grows, OneEach, OutcomeOf;
    if steps == [] {
      GrowsReflexive(db);
    } else {
      var n := |steps| - 1;
      var before := After(snap, db, steps[..n]);
      PrefixIsLegal(snap, db, steps, n);
      HistoryGrows(snap, db, steps[..n], n);
      match steps[n] {
        case Calls(call, chance) => CallGrows(snap, before, call, chance);
        case Others(_) =>
      }
      if i == |steps| {
        assert steps[..i] == steps;
        GrowsReflexive(After(snap, db, steps));
      } else {
        HistoryGrows(snap, db, steps[..n], i);
        assert steps[..n][..i] == steps[..i];
        GrowsTransitive(After(snap, db, steps[..i]), before, After(snap, db, steps));
      }
    }
  }

  lemma GrowsReflexive(db: Db)
    ensures Grows(db, db)
  {
  }

  ghost predicate Paired(xs: seq<Execution>, ts: seq<Transition>) {
    |xs| == |ts| && forall k :: 0 <= k < |xs| ==> xs[k].eventId == ts[k].eventId
  }

  /**
   Over a history of calls alone, executions and transitions stay paired: as many of each are added, no
   more than there were calls, and the k-th of both belong to the same event.
   */
  lemma {:induction false} ExecutionsAndTransitionsPair(snap: Snapshot, db: Db, steps: seq<Step>)
    requires forall i :: 0 <= i < |steps| ==> steps[i].Calls?
    ensures var now := After(snap, db, steps);
            && db.executions <= now.executions && db.transitions <= now.transitions
            && Paired(now.executions[|db.executions|..], now.transitions[|db.transitions|..])
            && |now.executions| <= |db.executions| + |steps|
    decreases |steps|
  {
    hide OutcomeOf, OnlyMarked;
    if steps != [] {
      var n := |steps| - 1;
      var before, step := After(snap, db, steps[..n]), steps[n];
      ExecutionsAndTransitionsPair(snap, db, steps[..n]);
      CallIsAtomic(snap, before, step.call, step.chance);
      var now := Apply(snap, before, step);
      OnlyMarkedKeepsRows(snap, before, now, step.call);
      if now.executions != before.executions {
        assert now.executions[|db.executions|..] == before.executions[|db.executions|..] + [now.executions[|before.executions|]];
        assert now.transitions[|db.transitions|..] == before.transitions[|db.transitions|..] + [now.transitions[|before.transitions|]];
      }
    }
  }

  lemma OnlyMarkedKeepsRows(snap: Snapshot, before: Db, after: Db, c: Call)
    ensures OnlyMarked(snap, before, after, c) ==>
              after.executions == before.executions && after.transitions == before.transitions && after.tables == before.tables
  {
  }

  /** In any history each action id is executed at most once, and what was executed stays on record. */
  lemma {:induction false} ActionIdsStayUnique(snap: Snapshot, db: Db, steps: seq<Step>)
    requires Legal(snap, db, steps)
    ensures OneEach(After(snap, db, steps).executions)
    ensures db.executions <= After(snap, db, steps).executions
  {
    HistoryGrows(snap, db, steps, 0);
  }

  /**
   However much later, an action call with an id already executed changes nothing and answers with
   that execution, whichever event or action the call itself names.
   */
  lemma {:induction false} ReplayReturnsFirst(snap: Snapshot, db: Db, steps: seq<Step>, x: Execution, c: Call, chance: Chance)
    requires Legal(snap, db, steps) && x in db.executions
    requires c.ActionCall? && c.actionId == x.actionId != "" && Guard(After(snap, db, steps), c.eventId).None?
    ensures OutcomeOf(snap, After(snap, db, steps), c, chance) == Outcome(After(snap, db, steps), Ok(x))
  {
    HistoryGrows(snap, db, steps, 0);
    var now := After(snap, db, steps).executions;
    var found := Find(now, x.actionId);
    assert x in now;
    SameIdSameExecution(now, x, found.value);
  }

  lemma SameIdSameExecution(rows: seq<Execution>, x: Execution, y: Execution)
    requires OneEach(rows) && x in rows && y in rows && x.actionId == y.actionId
    ensures x == y
  {
    var i :| 0 <= i < |rows| && rows[i] == x;
    var j :| 0 <= j < |rows| && rows[j] == y;
    assert !(i < j) && !(j < i);
  }

  /** Once stale, an option is stale for good and every call for it fails. */
  lemma {:induction false} StaleIsFinal(snap: Snapshot, db: Db, steps: seq<Step>, c: Call, chance: Chance)
    requires Legal(snap, db, steps)
    requires c.RecoveryCall? && c.optionId in db.recoveries && db.recoveries[c.optionId].status == "STALE"
    ensures var now := After(snap, db, steps);
            && c.optionId in now.recoveries && now.recoveries[c.optionId].status == "STALE"
            && OutcomeOf(snap, now, c, chance).answer.Err? && OutcomeOf(snap, now, c, chance).db == now
  {
    HistoryGrows(snap, db, steps, 0);
    StaleOptionIsRefused(snap, After(snap, db, steps), c, chance);
  }

  // ---------------------------------------------------------------------------
  // Plan versions
  // ---------------------------------------------------------------------------

  /** The step is a call that executes option o now. */
  predicate Executes(snap: Snapshot, db: Db, step: Step, o: string) {
    && step.Calls? && step.call.RecoveryCall? && step.call.optionId == o
    && OutcomeOf(snap, db, step.call, step.chance).db.executions != db.executions
  }

  lemma {:induction false} TransitionsOfPrefix(a: seq<Transition>, b: seq<Transition>, eventId: string)
    requires a <= b
    ensures TransitionsOf(a, eventId) <= TransitionsOf(b, eventId)
    decreases |b|
  {
    if |a| == |b| {
      assert a == b;
    } else {
      TransitionsOfPrefix(a, b[..|b| - 1], eventId);
    }
  }

  /** An option is executed at the plan version it was made for, and its execution ends that version. */
  lemma ExecutionEndsVersion(snap: Snapshot, db: Db, step: Step, o: string)
    requires Executes(snap, db, step, o)
    ensures o in db.recoveries
    ensures var r := db.recoveries[o];
            && (r.planVersion.Some? ==> r.planVersion.value == PlanVersion(db, r.eventId))
            && PlanVersion(Apply(snap, db, step), r.eventId) == PlanVersion(db, r.eventId) + 1
            && r.status != "STALE" && r.snapshot == snap(db.tables, r.eventId)
  {
    hide ApplyChanges, Guard, Authorized;
    var c, chance := step.call, step.chance;
    CallIsAtomic(snap, db, c, chance);
    var after := OutcomeOf(snap, db, c, chance).db;
    var n := |db.transitions|;
    assert after.transitions[..|after.transitions| - 1] == db.transitions;
  }

  /** In any history, later executions of options of an event carry strictly greater plan versions. */
  lemma {:induction false} PlanVersionsIncrease(snap: Snapshot, db: Db, steps: seq<Step>, i: nat, j: nat, o: string, p: string)
    requires i < j < |steps| && Legal(snap, db, steps)
    ensures var first, second := After(snap, db, steps[..i]), After(snap, db, steps[..j]);
            Executes(snap, first, steps[i], o) && Executes(snap, second, steps[j], p) ==>
              && o in first.recoveries && p in second.recoveries
              && var r, x := first.recoveries[o], second.recoveries[p];
                 (r.eventId == x.eventId && r.planVersion.Some? && x.planVersion.Some? ==> r.planVersion.value < x.planVersion.value)
  {
    hide Executes, Legal, Apply;
    var first, second := After(snap, db, steps[..i]), After(snap, db, steps[..j]);
    if Executes(snap, first, steps[i], o) && Executes(snap, second, steps[j], p) {
      ExecutionEndsVersion(snap, first, steps[i], o);
      ExecutionEndsVersion(snap, second, steps[j], p);
      PrefixIsLegal(snap, db, steps, j);
      HistoryGrows(snap, db, steps[..j], i + 1);
      assert steps[..j][..i + 1] == steps[..i + 1];
      assert steps[..i + 1][..i] == steps[..i];
      var next := After(snap, db, steps[..i + 1]);
      assert next == Apply(snap, first, steps[i]);
      TransitionsOfPrefix(next.transitions, second.transitions, first.recoveries[o].eventId);
    }
  }

  /** So no option that carries a plan version is executed twice. */
  lemma {:induction false} VersionedOptionRunsOnce(snap: Snapshot, db: Db, steps: seq<Step>, i: nat, j: nat, o: string)
    requires i < j < |steps| && Legal(snap, db, steps)
    ensures var first, second := After(snap, db, steps[..i]), After(snap, db, steps[..j]);
            o in first.recoveries && first.recoveries[o].planVersion.Some? ==>
              !(Executes(snap, first, steps[i], o) && Executes(snap, second, steps[j], o))
  {
    hide Executes, Legal, After;
    PrefixIsLegal(snap, db, steps, j);
    HistoryGrows(snap, db, steps[..j], i);
    assert steps[..j][..i] == steps[..i];
    PlanVersionsIncrease(snap, db, steps, i, j, o, o);
  }

  // ---------------------------------------------------------------------------
  // Calling again
  // ---------------------------------------------------------------------------

  ghost predicate Ran(snap: Snapshot, db: Db, c: Call, chance: Chance) {
    c.RecoveryCall? && Executes(snap, db, Calls(c, chance), c.optionId)
  }

  /** Right after an option has run, its own caller passes every gate but the plan version's. */
  lemma GateAfterRun(snap: Snapshot, db: Db, c: Call, chance: Chance)
    requires Ran(snap, db, c, chance)
    ensures var o := RecoveryOutcome(snap, db, c, chance);
            && c.optionId in db.recoveries
            && o.answer.Ok? && Recorded(db, o.db, c, o.answer.value)
            && Gate(o.db, c) == if db.recoveries[c.optionId].planVersion.Some? then Some(StalePlan) else None
  {
    hide OnlyEvent, ApplyChanges, Stamped, Executes;
    assert OutcomeOf(snap, db, c, chance).db.executions != db.executions by {
      RanExecutes(snap, db, c, chance);
    }
    CallIsAtomic(snap, db, c, chance);
    ExecutionEndsVersion(snap, db, Calls(c, chance), c.optionId);
    CallStaysInEvent(snap, db, c, chance);
    EventStaysOpen(db.tables, RecoveryOutcome(snap, db, c, chance).db.tables, c.eventId);
  }

  lemma RanExecutes(snap: Snapshot, db: Db, c: Call, chance: Chance)
    requires Ran(snap, db, c, chance)
    ensures OutcomeOf(snap, db, c, chance).db.executions != db.executions
  {
  }

  lemma EventStaysOpen(t: Tables, u: Tables, eventId: string)
    requires OnlyEvent(t, u, eventId)
    ensures eventId in t.events <==> eventId in u.events
    ensures eventId in t.events ==> u.events[eventId].executionState == t.events[eventId].executionState
                                    && u.events[eventId].ownerId == t.events[eventId].ownerId
  {
  }

  /**
   Repeating a recovery call with its own action id returns the stored execution exactly when the
   option carries no plan version and running it did not move the snapshot; otherwise the repeat is
   refused as stale, and in the second case the executed option is marked STALE.
   */
  lemma RepeatReturnsStoredIff(snap: Snapshot, db: Db, c: Call, chance: Chance, again: Chance)
    requires Ran(snap, db, c, chance) && c.actionId != ""
    ensures var first := RecoveryOutcome(snap, db, c, chance);
            var second := RecoveryOutcome(snap, first.db, c, again);
            && c.optionId in db.recoveries && c.optionId in first.db.recoveries && first.answer.Ok?
            && var r := db.recoveries[c.optionId];
               && (second.answer == first.answer <==> r.planVersion.None? && first.answer.value.after == first.answer.value.before)
               && (r.planVersion.Some? ==> second == Outcome(first.db, Err(StalePlan)))
               && (r.planVersion.None? && first.answer.value.after != first.answer.value.before ==>
                     second == Outcome(Marked(first.db, c.optionId, "STALE"), Err(StaleAction)))
  {
    GateAfterRun(snap, db, c, chance);
    RunTellsSnapshots(snap, db, c, chance);
    var first := RecoveryOutcome(snap, db, c, chance);
    var x := first.answer.value;
    assert first.db.executions[|db.executions|] == x;
    var found := Find(first.db.executions, c.actionId);
    assert found.value in first.db.executions;
    hide Carried, Gate, Executes;
  }

  lemma RunTellsSnapshots(snap: Snapshot, db: Db, c: Call, chance: Chance)
    requires Ran(snap, db, c, chance)
    ensures var o := RecoveryOutcome(snap, db, c, chance);
            && c.optionId in db.recoveries && o.answer.Ok?
            && o.answer.value.before == snap(db.tables, c.eventId) == db.recoveries[c.optionId].snapshot
            && o.answer.value.after == snap(o.db.tables, c.eventId)
  {
    hide Guard, Authorized, PlanVersion, ApplyChanges, Stamped;
  }

  function Renamed(c: Call, actionId: string): Call
    requires c.RecoveryCall?
  {
    RecoveryCall(c.eventId, c.executor, c.optionId, actionId)
  }

  /**
   With another action id the option runs a second time exactly when it carries no plan version, its
   first run did not move the snapshot, its changes apply once more and the database accepts them.
   */
  lemma RunsTwiceIff(snap: Snapshot, db: Db, c: Call, chance: Chance, actionId: string, again: Chance)
    requires Ran(snap, db, c, chance)
    requires actionId != "" && Find(RecoveryOutcome(snap, db, c, chance).db.executions, actionId).None?
    ensures var first := RecoveryOutcome(snap, db, c, chance);
            && c.optionId in db.recoveries && first.answer.Ok?
            && var r := db.recoveries[c.optionId];
               Ran(snap, first.db, Renamed(c, actionId), again) <==>
               && r.planVersion.None? && first.answer.value.after == first.answer.value.before
               && ApplyChanges(first.db.tables, c.eventId, r.changes, r.affected, again.rowId).Ok? && !again.refused
  {
    GateAfterRun(snap, db, c, chance);
    RunTellsSnapshots(snap, db, c, chance);
    var first := RecoveryOutcome(snap, db, c, chance);
    assert Gate(first.db, Renamed(c, actionId)) == Gate(first.db, c);
    hide Gate, ApplyChanges, Stamped;
    var second := RecoveryOutcome(snap, first.db, Renamed(c, actionId), again);
    assert second.answer.Ok? ==> |second.db.executions| == |first.db.executions| + 1;
  }

  /** For instance: an option without a plan version whose changes move no row runs twice. */
  lemma UnversionedOptionRunsTwice()
    ensures exists snap: Snapshot, db, c, chance, again :: Ran(snap, db, c, chance) && c.actionId != "" && c.actionId != "again"
              && Ran(snap, RecoveryOutcome(snap, db, c, chance).db, Renamed(c, "again"), again)
  {
    var event := Event("RUNNING", "owner", 10);
    var option := Recovery("e", "SHED_SCOPE", "FEASIBLE", false, None, "s", NO_CHANGES, []);
    var db := Db(Tables(map["e" := event], map[], map[], [], [], map[], ""), {}, {}, map["o" := option], [], []);
    var snap: Snapshot := (t, e) => "s";
    var c, chance := RecoveryCall("e", "owner", "o", "once"), Chance("f", "r", "t", false);
    var first := RecoveryOutcome(snap, db, c, chance);
    assert first.db.executions[0].actionId == "once";
    assert Ran(snap, db, c, chance);
    RunsTwiceIff(snap, db, c, chance, "again", chance);
    assert Ran(snap, first.db, Renamed(c, "again"), chance);
  }
}
