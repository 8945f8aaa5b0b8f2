/**
 Which calls of the action executor succeed, and what a successful call leaves in the committed
 database, stated on its rows.
 */
module ActionResults {
  import opened Common
  import opened Operations
  import opened ActionService
  import opened ActionHistory

  // ---------------------------------------------------------------------------
  // Which calls run
  // ---------------------------------------------------------------------------

  /** The event exists and is neither paused nor pausing. */
  ghost predicate IsOpen(db: Db, eventId: string) {
    && eventId in db.tables.events
    && db.tables.events[eventId].executionState != "PAUSED" && db.tables.events[eventId].executionState != "PAUSING"
  }

  /** A system name, the owner of the event, or a member of it. */
  ghost predicate MayRun(db: Db, eventId: string, executor: string) {
    || executor == "anonymous_operator" || executor == "system" || executor == "SYSTEM"
    || (eventId in db.tables.events && db.tables.events[eventId].ownerId == executor)
    || (eventId, executor) in db.members
  }

  /** An option that needs approval has an approved request for its event. */
  ghost predicate IsApproved(db: Db, optionId: string, eventId: string)
    requires optionId in db.recoveries
  {
    db.recoveries[optionId].status == "APPROVAL_REQUIRED" || db.recoveries[optionId].approvalFlag ==> (optionId, eventId) in db.approved
  }

  /** The transitions of an event, by their positions. */
  function OwnTransitions(rows: seq<Transition>, eventId: string): set<int> {
    set i | 0 <= i < |rows| && rows[i].eventId == eventId
  }

  /** The option was made for the present plan version, which counts the transitions of the event. */
  ghost predicate FitsPlan(db: Db, optionId: string, eventId: string)
    requires optionId in db.recoveries
  {
    db.recoveries[optionId].planVersion.Some? ==>
      db.recoveries[optionId].planVersion.value == 1 + |OwnTransitions(db.transitions, eventId)|
  }

  /** The option has not been marked stale, and the event is still as it was made for. */
  ghost predicate IsFresh(snap: Snapshot, db: Db, optionId: string, eventId: string)
    requires optionId in db.recoveries
  {
    db.recoveries[optionId].status != "STALE" && db.recoveries[optionId].snapshot == snap(db.tables, eventId)
  }

  ghost predicate IsUsed(db: Db, actionId: string) {
    exists i :: 0 <= i < |db.executions| && db.executions[i].actionId == actionId
  }

  lemma {:induction false} TransitionsAreCounted(rows: seq<Transition>, eventId: string)
    ensures TransitionsOf(rows, eventId) == |OwnTransitions(rows, eventId)|
  {
    if rows != [] {
      var n := |rows| - 1;
      TransitionsAreCounted(rows[..n], eventId);
      var before := OwnTransitions(rows[..n], eventId);
      if rows[n].eventId == eventId {
        assert OwnTransitions(rows, eventId) == before + {n};
      } else {
        assert OwnTransitions(rows, eventId) == before;
      }
    }
  }

  lemma FindIsUsed(db: Db, actionId: string)
    ensures Find(db.executions, actionId).Some? <==> IsUsed(db, actionId)
  {
    var r := Find(db.executions, actionId);
    if r.Some? {
      var i :| 0 <= i < |db.executions| && db.executions[i] == r.value;
    }
    forall i | 0 <= i < |db.executions| && db.executions[i].actionId == actionId ensures r.Some? {
      assert db.executions[i] in db.executions;
    }
  }

  /** What an action needs to find, by its kind. */
  ghost predicate Finds(t: Tables, eventId: string, op: Operation) {
    match op
    case VendorReassignment(taskId, vendorId, _) => taskId != "" && HasTask(t, eventId, taskId) && vendorId != "" && vendorId in t.vendors
    case TaskReassignment(taskId, _, _, _) => HasTask(t, eventId, taskId)
    case ScheduleAdjustment(taskId, _) => HasTask(t, eventId, taskId)
    case ResourceAllocation(resourceId, taskId, _) =>
      && resourceId in t.resources && t.resources[resourceId].eventId == eventId
      && (taskId != "" ==> HasTask(t, eventId, taskId))
    case BudgetAdjustment(itemId, _, _) =>
      exists i :: 0 <= i < |t.budget| && t.budget[i].eventId == eventId && t.budget[i].id == itemId
    case ProviderEngagement(id) => exists i :: 0 <= i < |t.assignments| && t.assignments[i].id == id
    case Contract(_) => true
    case UnknownOperation(_) => false
  }

  lemma OperatesIff(t: Tables, eventId: string, op: Operation, newId: string)
    ensures Operate(t, eventId, op, newId).Ok? <==> Finds(t, eventId, op)
  {
    match op
    case BudgetAdjustment(itemId, actual, estimated) =>
      AmountsChangeOnlyGiven(t, eventId, itemId, actual, estimated);
      hide AdjustBudget;
    case ProviderEngagement(id) =>
      var i := FirstAssignment(t.assignments, id);
      forall k | 0 <= k < |t.assignments| && t.assignments[k].id == id ensures i != -1 {
        assert t.assignments[k] in t.assignments;
      }
    case Contract(p) =>
      hide ContractVendor;
    case VendorReassignment(_, _, _) =>
      hide Assigned, Confirmed, Committed;
    case _ =>
  }

  /**
   An action is executed exactly when its event exists and is neither paused nor pausing, its id is new,
   what it needs is there, and the database accepts the write.
   */
  lemma ActionRunsIff(snap: Snapshot, db: Db, c: Call, chance: Chance)
    requires c.ActionCall?
    ensures var id := if c.actionId != "" then c.actionId else chance.freshId;
            OutcomeOf(snap, db, c, chance).db.executions != db.executions
            <==> IsOpen(db, c.eventId) && !IsUsed(db, id) && Finds(db.tables, c.eventId, c.operation) && !chance.refused
  {
    var id := if c.actionId != "" then c.actionId else chance.freshId;
    FindIsUsed(db, id);
    OperatesIff(db.tables, c.eventId, c.operation, chance.rowId);
    hide Operate, Stamped, Finds, Find, IsUsed;
    var o := OutcomeOf(snap, db, c, chance);
    CallIsAtomic(snap, db, c, chance);
    assert o.answer.Ok? && o.db != db ==> |o.db.executions| == |db.executions| + 1;
  }

  /** What the parts of a recovery option need to find. */
  ghost predicate PartsFind(t: Tables, eventId: string, c: Changes, affected: seq<string>) {
    && (VendorTask(c, affected) != "" && c.vendorId != "" ==> HasTask(t, eventId, VendorTask(c, affected)) && c.vendorId in t.vendors)
    && (c.reschedules && ScheduleTask(c, affected) != "" ==> HasTask(t, eventId, ScheduleTask(c, affected)))
    && (c.resourceId.Some? ==>
          && c.resourceId.value in t.resources && t.resources[c.resourceId.value].eventId == eventId
          && (ResourceTask(c, affected) != "" ==> HasTask(t, eventId, ResourceTask(c, affected))))
  }

  /** The task named for a part, or else the first affected one. */
  function Named(id: string, affected: seq<string>): string {
    if id != "" then id else if affected != [] then affected[0] else ""
  }

  function VendorTask(c: Changes, affected: seq<string>): string {
    if c.taskId != "" then c.taskId else Named(c.vendorTask, affected)
  }

  function ScheduleTask(c: Changes, affected: seq<string>): string {
    Named(c.scheduleTask, affected)
  }

  function ResourceTask(c: Changes, affected: seq<string>): string {
    Named(c.taskId, affected)
  }

  /** The explicit schedule, or a shift by the given minutes. */
  function ScheduleGiven(c: Changes): SchedulePayload {
    if c.schedule.Some? then c.schedule.value else SchedulePayload(c.shiftMinutes, 0, None, None)
  }

  /** Neither of the first two parts moves a task to another event, and neither writes resources. */
  ghost predicate KeepsPlaces(t: Tables, u: Tables, eventId: string) {
    u.resources == t.resources && forall id :: HasTask(u, eventId, id) <==> HasTask(t, eventId, id)
  }

  lemma VendorPartFinds(t: Tables, eventId: string, c: Changes, affected: seq<string>, newId: string)
    ensures var r := VendorPart(t, eventId, c, affected, newId);
            && (r.Ok? <==> (VendorTask(c, affected) != "" && c.vendorId != "" ==>
                              HasTask(t, eventId, VendorTask(c, affected)) && c.vendorId in t.vendors))
            && (r.Ok? ==> KeepsPlaces(t, r.value, eventId))
  {
    hide Assigned, Confirmed, Committed;
  }

  lemma SchedulePartFinds(t: Tables, eventId: string, c: Changes, affected: seq<string>)
    ensures var r := SchedulePart(t, eventId, c, affected);
            && (r.Ok? <==> (c.reschedules && ScheduleTask(c, affected) != "" ==> HasTask(t, eventId, ScheduleTask(c, affected))))
            && (r.Ok? ==> KeepsPlaces(t, r.value, eventId))
  {
  }

  lemma AppliesIff(t: Tables, eventId: string, c: Changes, affected: seq<string>, newId: string)
    ensures ApplyChanges(t, eventId, c, affected, newId).Ok? <==> PartsFind(t, eventId, c, affected)
  {
    hide LateParts, VendorPart, SchedulePart, HasTask;
    VendorPartFinds(t, eventId, c, affected, newId);
    var vendor := VendorPart(t, eventId, c, affected, newId);
    if vendor.Ok? {
      SchedulePartFinds(vendor.value, eventId, c, affected);
    }
  }

  /**
   A recovery option is executed exactly when its event exists and is neither paused nor pausing, the
   executor is a system name, the owner or a member, the option is the event's, approved if it needs to
   be, made for the present plan version and not stale, the action id is new, its parts find what they
   need, and the database accepts the write.
   */
  lemma OptionRunsIff(snap: Snapshot, db: Db, c: Call, chance: Chance)
    requires c.RecoveryCall?
    ensures var id := if c.actionId != "" then c.actionId else chance.freshId;
            OutcomeOf(snap, db, c, chance).db.executions != db.executions
            <==> && IsOpen(db, c.eventId) && MayRun(db, c.eventId, c.executor)
                 && c.optionId in db.recoveries && db.recoveries[c.optionId].eventId == c.eventId
                 && IsApproved(db, c.optionId, c.eventId) && FitsPlan(db, c.optionId, c.eventId)
                 && IsFresh(snap, db, c.optionId, c.eventId) && !IsUsed(db, id)
                 && PartsFind(db.tables, c.eventId, db.recoveries[c.optionId].changes, db.recoveries[c.optionId].affected)
                 && !chance.refused
  {
    var id := if c.actionId != "" then c.actionId else chance.freshId;
    FindIsUsed(db, id);
    TransitionsAreCounted(db.transitions, c.eventId);
    if c.optionId in db.recoveries {
      AppliesIff(db.tables, c.eventId, db.recoveries[c.optionId].changes, db.recoveries[c.optionId].affected, chance.rowId);
    }
    hide ApplyChanges, Stamped, PartsFind, Find, IsUsed, OwnTransitions, TransitionsOf;
    var o := OutcomeOf(snap, db, c, chance);
    CallIsAtomic(snap, db, c, chance);
    OnlyMarkedKeepsRows(snap, db, o.db, c);
    assert o.answer.Ok? && o.db != db ==> |o.db.executions| == |db.executions| + 1;
  }

  /** A call that is refused names the first thing that stands in its way. */
  lemma RefusalsInOrder(snap: Snapshot, db: Db, c: Call, chance: Chance)
    requires c.RecoveryCall?
    ensures var o := OutcomeOf(snap, db, c, chance);
            && (c.eventId !in db.tables.events ==> o.answer == Err(NotFound))
            && (c.eventId in db.tables.events && !IsOpen(db, c.eventId) ==> o.answer == Err(ExecutionPaused))
            && (IsOpen(db, c.eventId) && !MayRun(db, c.eventId, c.executor) ==> o.answer == Err(Forbidden))
            && (IsOpen(db, c.eventId) && MayRun(db, c.eventId, c.executor) ==>
                  if c.optionId !in db.recoveries || db.recoveries[c.optionId].eventId != c.eventId then o.answer == Err(NotFound)
                  else
                    && (!IsApproved(db, c.optionId, c.eventId) ==> o.answer == Err(ApprovalRequired))
                    && (IsApproved(db, c.optionId, c.eventId) && !FitsPlan(db, c.optionId, c.eventId) ==> o.answer == Err(StalePlan))
                    && (IsApproved(db, c.optionId, c.eventId) && FitsPlan(db, c.optionId, c.eventId)
                        && !IsFresh(snap, db, c.optionId, c.eventId) ==>
                          && o.answer == Err(StaleAction)
                          && o.db == db.(recoveries := db.recoveries[c.optionId := db.recoveries[c.optionId].(status := "STALE")])))
  {
    TransitionsAreCounted(db.transitions, c.eventId);
    hide Carried, Find, OwnTransitions, TransitionsOf;
  }

  /** In every history an option runs only in an open event, for someone who may, as approved, and as it was made for. */
  lemma {:induction false} OptionsRunOnlyAsAllowed(snap: Snapshot, db: Db, steps: seq<Step>, i: nat, o: string)
    requires i < |steps| && Executes(snap, After(snap, db, steps[..i]), steps[i], o)
    ensures var now, c := After(snap, db, steps[..i]), steps[i].call;
            && IsOpen(now, c.eventId) && MayRun(now, c.eventId, c.executor)
            && o in now.recoveries && now.recoveries[o].eventId == c.eventId
            && IsApproved(now, o, c.eventId) && FitsPlan(now, o, c.eventId) && IsFresh(snap, now, o, c.eventId)
  {
    hide After, OutcomeOf;
    OptionRunsIff(snap, After(snap, db, steps[..i]), steps[i].call, steps[i].chance);
  }

  /** A call changes the plan version of its own event only. */
  lemma OtherEventsKeepVersion(snap: Snapshot, db: Db, c: Call, chance: Chance, eventId: string)
    ensures var now := OutcomeOf(snap, db, c, chance).db;
            |OwnTransitions(now.transitions, eventId)| ==
            |OwnTransitions(db.transitions, eventId)| + if eventId == c.eventId then |now.executions| - |db.executions| else 0
  {
    CallIsAtomic(snap, db, c, chance);
    var now := OutcomeOf(snap, db, c, chance).db;
    OnlyMarkedKeepsRows(snap, db, now, c);
    TransitionsAreCounted(now.transitions, eventId);
    TransitionsAreCounted(db.transitions, eventId);
    hide OutcomeOf, OnlyMarked, OwnTransitions;
  }

  // ---------------------------------------------------------------------------
  // What is recorded
  // ---------------------------------------------------------------------------

  /** The first twelve characters, or all when there are fewer. */
  predicate IsShort(short: string, s: string) {
    short <= s && (|short| == 12 || (|short| < 12 && short == s))
  }

  /** The execution and the transition say who did what to which event, and how its snapshot moved. */
  ghost predicate Documents(snap: Snapshot, before: Db, after: Db, c: Call, x: Execution, tr: Transition) {
    && x.eventId == c.eventId && x.executor == c.executor
    && x.before == snap(before.tables, c.eventId) && x.after == snap(after.tables, c.eventId)
    && tr.eventId == c.eventId
    && match c
       case ActionCall(_, _, actionType, _, _, recoveryId) =>
         && x.actionType == actionType && x.recoveryId == recoveryId
         && tr.entityType == "ACTION" && tr.entityId == x.actionId && IsShort(tr.previous, x.before) && IsShort(tr.next, x.after)
         && after.recoveries == before.recoveries
       case RecoveryCall(_, _, o, _) =>
         && o in before.recoveries
         && x.actionType == "RECOVERY_" + before.recoveries[o].strategy && x.recoveryId == Some(o)
         && tr.entityType == "RECOVERY_OPTION" && tr.entityId == o
         && tr.previous == before.recoveries[o].status && tr.next == "EXECUTED"
         && after.recoveries == before.recoveries[o := before.recoveries[o].(status := "EXECUTED")]
  }

  lemma ExecutionIsDocumented(snap: Snapshot, db: Db, c: Call, chance: Chance)
    requires OutcomeOf(snap, db, c, chance).db.executions != db.executions
    ensures var now := OutcomeOf(snap, db, c, chance).db;
            && |now.executions| == |db.executions| + 1 && |now.transitions| == |db.transitions| + 1
            && OutcomeOf(snap, db, c, chance).answer == Ok(now.executions[|db.executions|])
            && Documents(snap, db, now, c, now.executions[|db.executions|], now.transitions[|db.transitions|])
  {
    hide Operate, ApplyChanges, Stamped, Guard, Authorized, PlanVersion, Find;
    CallIsAtomic(snap, db, c, chance);
    OnlyMarkedKeepsRows(snap, db, OutcomeOf(snap, db, c, chance).db, c);
  }
}
