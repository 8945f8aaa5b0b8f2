/**
 The transactional executor of actions and recovery options
 (apps/api/app/services/action_service.py, up to line 367): one function per entry point gives the
 committed database and the answer, and the class that works step by step meets them.
 */
module ActionService {
  import opened Common
  import opened Operations

  datatype Recovery = Recovery(
    eventId: string, strategy: string, status: string, approvalFlag: bool, planVersion: Option<nat>, snapshot: string,
    changes: Changes, affected: seq<string>)

  datatype Execution = Execution(
    actionId: string, eventId: string, actionType: string, recoveryId: Option<string>, executor: string,
    before: string, after: string)

  datatype Transition = Transition(eventId: string, entityType: string, entityId: string, previous: string, next: string)

  /** `members` holds (event, user) pairs, `approved` the (option, event) pairs with an approved request. */
  datatype Db = Db(
    tables: Tables, members: set<(string, string)>, approved: set<(string, string)>, recoveries: map<string, Recovery>,
    executions: seq<Execution>, transitions: seq<Transition>)

  datatype Call =
    | ActionCall(eventId: string, executor: string, actionType: string, operation: Operation, actionId: string,
                 recoveryId: Option<string>)
    | RecoveryCall(eventId: string, executor: string, optionId: string, actionId: string)

  /** What a call does not decide itself: the ids drawn, the update stamp, and whether the database refuses the write. */
  datatype Chance = Chance(freshId: string, rowId: string, stamp: string, refused: bool)

  datatype Outcome = Outcome(db: Db, answer: Result<Execution, Error>)

  type Snapshot = (Tables, string) -> string

  // ---------------------------------------------------------------------------
  // What the two entry points consult
  // ---------------------------------------------------------------------------

  function Find(rows: seq<Execution>, actionId: string): (r: Option<Execution>)
    ensures r.Some? ==> r.value in rows && r.value.actionId == actionId
    ensures r.None? ==> forall x :: x in rows ==> x.actionId != actionId
  {
    if rows == [] then None
    else if rows[0].actionId == actionId then Some(rows[0])
    else
      var r := Find(rows[1..], actionId);
      assert forall x :: x in rows ==> x == rows[0] || x in rows[1..];
      r
  }

  function TransitionsOf(rows: seq<Transition>, eventId: string): nat {
    if rows == [] then 0
    else TransitionsOf(rows[..|rows| - 1], eventId) + if rows[|rows| - 1].eventId == eventId then 1 else 0
  }

  function PlanVersion(db: Db, eventId: string): nat {
    1 + TransitionsOf(db.transitions, eventId)
  }

  /** The event must exist and must not be paused or pausing. */
  function Guard(db: Db, eventId: string): Option<Error> {
    if eventId !in db.tables.events then Some(NotFound)
    else if db.tables.events[eventId].executionState in {"PAUSED", "PAUSING"} then Some(ExecutionPaused)
    else None
  }

  predicate Authorized(db: Db, eventId: string, executor: string)
    requires eventId in db.tables.events
  {
    || executor in {"anonymous_operator", "system", "SYSTEM"}
    || db.tables.events[eventId].ownerId == executor
    || (eventId, executor) in db.members
  }

  predicate NeedsApproval(r: Recovery) {
    r.status == "APPROVAL_REQUIRED" || r.approvalFlag
  }

  predicate StaleNow(db: Db, r: Recovery, current: string) {
    r.status == "STALE" || r.snapshot != current
  }

  function Marked(db: Db, optionId: string, status: string): Db
    requires optionId in db.recoveries
  {
    db.(recoveries := db.recoveries[optionId := db.recoveries[optionId].(status := status)])
  }

  /** A write moves the stamp, except on budget rows, which have no update time. */
  function Stamped(before: Tables, after: Tables, stamp: string): Tables {
    if after.(budget := before.budget) == before then after else after.(stamp := stamp)
  }

  function Short(s: string): string {
    if |s| <= 12 then s else s[..12]
  }

  // ---------------------------------------------------------------------------
  // The entry points
  // ---------------------------------------------------------------------------

  function ActionExecuted(snap: Snapshot, db: Db, c: Call, actionId: string, tables: Tables): Execution
    requires c.ActionCall?
  {
    Execution(actionId, c.eventId, c.actionType, c.recoveryId, c.executor, snap(db.tables, c.eventId), snap(tables, c.eventId))
  }

  function ActionTransition(x: Execution): Transition {
    Transition(x.eventId, "ACTION", x.actionId, Short(x.before), Short(x.after))
  }

  function ActionOutcome(snap: Snapshot, db: Db, c: Call, chance: Chance): Outcome
    requires c.ActionCall?
  {
    var actionId := FirstNonEmpty(c.actionId, chance.freshId);
    if Guard(db, c.eventId).Some? then Outcome(db, Err(Guard(db, c.eventId).value))
    else if Find(db.executions, actionId).Some? then Outcome(db, Ok(Find(db.executions, actionId).value))
    else
      match Operate(db.tables, c.eventId, c.operation, chance.rowId)
      case Err(e) => Outcome(db, Err(e))
      case Ok(t) =>
        if chance.refused then Outcome(db, Err(DatabaseError))
        else
          var u := Stamped(db.tables, t, chance.stamp);
          var x := ActionExecuted(snap, db, c, actionId, u);
          Outcome(db.(tables := u, executions := db.executions + [x], transitions := db.transitions + [ActionTransition(x)]), Ok(x))
  }

  function Gate(db: Db, c: Call): Option<Error>
    requires c.RecoveryCall?
  {
    if Guard(db, c.eventId).Some? then Guard(db, c.eventId)
    else if !Authorized(db, c.eventId, c.executor) then Some(Forbidden)
    else if c.optionId !in db.recoveries || db.recoveries[c.optionId].eventId != c.eventId then Some(NotFound)
    else if NeedsApproval(db.recoveries[c.optionId]) && (c.optionId, c.eventId) !in db.approved then Some(ApprovalRequired)
    else if db.recoveries[c.optionId].planVersion.Some? && db.recoveries[c.optionId].planVersion.value != PlanVersion(db, c.eventId)
    then Some(StalePlan)
    else None
  }

  function RecoveryExecuted(snap: Snapshot, db: Db, c: Call, actionId: string, tables: Tables): Execution
    requires c.RecoveryCall? && c.optionId in db.recoveries
  {
    Execution(actionId, c.eventId, "RECOVERY_" + db.recoveries[c.optionId].strategy, Some(c.optionId), c.executor,
              snap(db.tables, c.eventId), snap(tables, c.eventId))
  }

  function RecoveryTransition(x: Execution, optionId: string, previous: string): Transition {
    Transition(x.eventId, "RECOVERY_OPTION", optionId, previous, "EXECUTED")
  }

  /** All checks passed: apply the option's changes and record them. */
  function Carried(snap: Snapshot, db: Db, c: Call, chance: Chance, actionId: string): Outcome
    requires c.RecoveryCall? && c.optionId in db.recoveries
  {
    var r := db.recoveries[c.optionId];
    match ApplyChanges(db.tables, c.eventId, r.changes, r.affected, chance.rowId)
    case Err(e) => Outcome(db, Err(e))
    case Ok(t) =>
      if chance.refused then Outcome(db, Err(DatabaseError))
      else
        var u := Stamped(db.tables, t, chance.stamp);
        var x := RecoveryExecuted(snap, db, c, actionId, u);
        Outcome(Marked(db, c.optionId, "EXECUTED").(
                  tables := u, executions := db.executions + [x],
                  transitions := db.transitions + [RecoveryTransition(x, c.optionId, r.status)]), Ok(x))
  }

  function RecoveryOutcome(snap: Snapshot, db: Db, c: Call, chance: Chance): Outcome
    requires c.RecoveryCall?
  {
    if Gate(db, c).Some? then Outcome(db, Err(Gate(db, c).value))
    else if StaleNow(db, db.recoveries[c.optionId], snap(db.tables, c.eventId)) then
      Outcome(Marked(db, c.optionId, "STALE"), Err(StaleAction))
    else
      var actionId := FirstNonEmpty(c.actionId, chance.freshId);
      if Find(db.executions, actionId).Some? then Outcome(db, Ok(Find(db.executions, actionId).value))
      else Carried(snap, db, c, chance, actionId)
  }

  function OutcomeOf(snap: Snapshot, db: Db, c: Call, chance: Chance): Outcome {
    if c.ActionCall? then ActionOutcome(snap, db, c, chance) else RecoveryOutcome(snap, db, c, chance)
  }

  // ---------------------------------------------------------------------------
  // The service
  // ---------------------------------------------------------------------------

  /** A session: `work` is what the transaction sees, `committed` what everyone else does. */
  class ActionService {
    var committed: Db
    var work: Db
    const snapshot: Snapshot

    ghost predicate Valid()
      reads this
    {
      work == committed
    }

    constructor (db: Db, snapshot: Snapshot)
      ensures Valid() && committed == db && this.snapshot == snapshot
    {
      committed, work := db, db;
      this.snapshot := snapshot;
    }

    method ConfirmAll(eventId: string, vendorId: string)
      modifies `work
      ensures work == old(work).(tables := old(work).tables.(
                        assignments := Confirmed(old(work).tables.assignments, eventId, vendorId)))
    {
      var rows := work.tables.assignments;
      var i := 0;
      while i < |rows|
        invariant 0 <= i <= |rows| == |old(work).tables.assignments|
        invariant forall k :: 0 <= k < i ==> rows[k] == ConfirmIf(old(work).tables.assignments[k], eventId, vendorId)
        invariant forall k :: i <= k < |rows| ==> rows[k] == old(work).tables.assignments[k]
      {
        if rows[i].eventId == eventId && rows[i].vendorId == vendorId {
          rows := rows[i := rows[i].(status := "CONFIRMED")];
        }
        i := i + 1;
      }
      assert rows == Confirmed(old(work).tables.assignments, eventId, vendorId);
      work := work.(tables := work.tables.(assignments := rows));
    }

    method ReassignVendor(eventId: string, taskId: string, vendorId: string, cost: int, newId: string) returns (error: Option<Error>)
      modifies `work
      ensures work.tables == match Operations.ReassignVendor(old(work).tables, eventId, taskId, vendorId, cost, newId)
                             case Ok(t) => t
                             case Err(_) => old(work).tables
      ensures error == match Operations.ReassignVendor(old(work).tables, eventId, taskId, vendorId, cost, newId)
                       case Ok(_) => None
                       case Err(e) => Some(e)
      ensures work == old(work).(tables := work.tables)
    {
      if taskId == "" {
        return Some(BadRequest);
      }
      if !HasTask(work.tables, eventId, taskId) {
        return Some(NotFound);
      }
      if vendorId == "" {
        return Some(BadRequest);
      }
      if vendorId !in work.tables.vendors {
        return Some(NotFound);
      }
      var task := work.tables.tasks[taskId];
      var category := FirstNonEmpty(FirstNonEmpty(task.category, work.tables.vendors[vendorId].category), "general");
      var rows := work.tables.assignments;
      var i := FirstByVendor(rows, eventId, vendorId);
      if i == -1 {
        i := FirstByCategory(rows, eventId, category);
      }
      if i != -1 {
        rows := rows[i := rows[i].(vendorId := vendorId, status := "CONFIRMED")];
        if cost > 0 {
          rows := rows[i := rows[i].(cost := cost)];
        }
      } else {
        rows := rows + [Assignment(newId, eventId, vendorId, category, "CONFIRMED", "DISCOVERED", cost)];
      }
      assert rows == Assigned(work.tables.assignments, eventId, vendorId, category, cost, newId);
      work := work.(tables := work.tables.(assignments := rows));
      ConfirmAll(eventId, vendorId);
      task := task.(category := category, providerId := vendorId, status := "ASSIGNED");
      work := work.(tables := work.tables.(tasks := work.tables.tasks[taskId := task]));
      var b := FirstBudget(work.tables.budget, eventId, category);
      if b != -1 && cost > 0 {
        var item := work.tables.budget[b].(actual := cost, status := "COMMITTED");
        work := work.(tables := work.tables.(budget := work.tables.budget[b := item]));
      }
      return None;
    }

    method AdjustSchedule(eventId: string, taskId: string, p: SchedulePayload) returns (error: Option<Error>)
      modifies `work
      ensures work.tables == match Operations.AdjustSchedule(old(work).tables, eventId, taskId, p)
                             case Ok(t) => t
                             case Err(_) => old(work).tables
      ensures error == match Operations.AdjustSchedule(old(work).tables, eventId, taskId, p)
                       case Ok(_) => None
                       case Err(e) => Some(e)
      ensures work == old(work).(tables := work.tables)
    {
      if !HasTask(work.tables, eventId, taskId) {
        return Some(NotFound);
      }
      var task := work.tables.tasks[taskId];
      var shift := if p.shift != 0 then p.shift else p.delay;
      if shift != 0 && task.plannedStart.Some? && task.plannedEnd.Some? {
        task := task.(plannedStart := Some(task.plannedStart.value + shift));
        task := task.(plannedEnd := Some(task.plannedEnd.value + shift));
        if task.slack.Some? {
          task := task.(slack := Some(if task.slack.value - shift > 0 then task.slack.value - shift else 0));
        }
      }
      if p.start.Some? {
        task := task.(plannedStart := p.start);
      }
      if p.end.Some? {
        task := task.(plannedEnd := p.end);
      }
      work := work.(tables := work.tables.(tasks := work.tables.tasks[taskId := task]));
      return None;
    }

    method AllocateResource(eventId: string, resourceId: string, taskId: string, quantity: Option<int>) returns (error: Option<Error>)
      modifies `work
      ensures work.tables == match Operations.AllocateResource(old(work).tables, eventId, resourceId, taskId, quantity)
                             case Ok(t) => t
                             case Err(_) => old(work).tables
      ensures error == match Operations.AllocateResource(old(work).tables, eventId, resourceId, taskId, quantity)
                       case Ok(_) => None
                       case Err(e) => Some(e)
      ensures work == old(work).(tables := work.tables)
      ensures error.None? <==> resourceId in old(work).tables.resources && old(work).tables.resources[resourceId].eventId == eventId
                               && (taskId == "" || HasTask(old(work).tables, eventId, taskId))
      ensures error.None? ==> OnlyBound(old(work).tables, work.tables, eventId, resourceId, taskId, quantity)
    {
      AllocationBinds(work.tables, eventId, resourceId, taskId, quantity);
      hide OnlyBound;
      if resourceId !in work.tables.resources || work.tables.resources[resourceId].eventId != eventId {
        return Some(NotFound);
      }
      var r := work.tables.resources[resourceId];
      if taskId != "" {
        if !HasTask(work.tables, eventId, taskId) {
          return Some(NotFound);
        }
        r := r.(allocatedTask := taskId, status := "ALLOCATED");
      }
      if quantity.Some? {
        r := r.(quantity := quantity.value);
      }
      work := work.(tables := work.tables.(resources := work.tables.resources[resourceId := r]));
      return None;
    }

    method ReassignTask(eventId: string, taskId: string, category: Option<string>, priority: Option<string>, duration: Option<int>)
      returns (error: Option<Error>)
      modifies `work
      ensures work.tables == match Operations.ReassignTask(old(work).tables, eventId, taskId, category, priority, duration)
                             case Ok(t) => t
                             case Err(_) => old(work).tables
      ensures error == match Operations.ReassignTask(old(work).tables, eventId, taskId, category, priority, duration)
                       case Ok(_) => None
                       case Err(e) => Some(e)
      ensures work == old(work).(tables := work.tables)
      ensures error.None? <==> HasTask(old(work).tables, eventId, taskId)
      ensures error.None? ==> OnlyGivenOfTask(old(work).tables, work.tables, taskId, category, priority, duration)
    {
      TaskChangesOnlyGiven(work.tables, eventId, taskId, category, priority, duration);
      hide OnlyGivenOfTask;
      if !HasTask(work.tables, eventId, taskId) {
        return Some(NotFound);
      }
      var task := work.tables.tasks[taskId];
      if category.Some? {
        task := task.(category := category.value);
      }
      if priority.Some? {
        task := task.(priority := priority.value);
      }
      if duration.Some? {
        task := task.(duration := duration.value);
      }
      work := work.(tables := work.tables.(tasks := work.tables.tasks[taskId := task]));
      return None;
    }

    method AdjustBudget(eventId: string, itemId: string, actual: Option<int>, estimated: Option<int>) returns (error: Option<Error>)
      modifies `work
      ensures work.tables == match Operations.AdjustBudget(old(work).tables, eventId, itemId, actual, estimated)
                             case Ok(t) => t
                             case Err(_) => old(work).tables
      ensures error == match Operations.AdjustBudget(old(work).tables, eventId, itemId, actual, estimated)
                       case Ok(_) => None
                       case Err(e) => Some(e)
      ensures work == old(work).(tables := work.tables)
      ensures error.None? <==> exists i :: 0 <= i < |old(work).tables.budget|
                                 && old(work).tables.budget[i].eventId == eventId && old(work).tables.budget[i].id == itemId
      ensures error.None? ==> OnlyAmounts(old(work).tables, work.tables, eventId, itemId, actual, estimated)
    {
      AmountsChangeOnlyGiven(work.tables, eventId, itemId, actual, estimated);
      hide OnlyAmounts;
      var i := FirstItem(work.tables.budget, eventId, itemId);
      if i == -1 {
        return Some(NotFound);
      }
      var item := work.tables.budget[i];
      if actual.Some? {
        item := item.(actual := actual.value);
      }
      if estimated.Some? {
        item := item.(estimated := estimated.value);
      }
      work := work.(tables := work.tables.(budget := work.tables.budget[i := item]));
      return None;
    }

    method EngageProvider(assignmentId: string) returns (error: Option<Error>)
      modifies `work
      ensures work.tables == match Engage(old(work).tables, assignmentId)
                             case Ok(t) => t
                             case Err(_) => old(work).tables
      ensures error == match Engage(old(work).tables, assignmentId)
                       case Ok(_) => None
                       case Err(e) => Some(e)
      ensures work == old(work).(tables := work.tables)
    {
      var i := FirstAssignment(work.tables.assignments, assignmentId);
      if i == -1 {
        return Some(NotFound);
      }
      var assignment := work.tables.assignments[i].(negotiation := "APPROVED");
      work := work.(tables := work.tables.(assignments := work.tables.assignments[i := assignment]));
      return None;
    }

    method ContractAssignment(eventId: string, p: ContractPayload, newId: string)
      modifies `work
      ensures work == old(work).(tables := WithContract(old(work).tables, eventId, p, newId))
    {
      var rows := work.tables.assignments;
      var i := FindContracted(rows, eventId, p);
      hide ContractedRow;
      if i != -1 {
        var assignment := rows[i].(status := "CONFIRMED", negotiation := "APPROVED");
        if p.cost > 0 {
          assignment := assignment.(cost := p.cost);
        }
        work := work.(tables := work.tables.(assignments := rows[i := assignment]));
      } else if p.vendorId != "" && p.category != "" {
        if p.vendorId !in work.tables.vendors {
          work := work.(tables := work.tables.(vendors := work.tables.vendors[p.vendorId := Vendor(p.category)]));
        }
        var assignment := Assignment(newId, eventId, p.vendorId, p.category, "CONFIRMED", "APPROVED", if p.cost > 0 then p.cost else 0);
        work := work.(tables := work.tables.(assignments := rows + [assignment]));
      }
    }

    method ContractVendor(eventId: string, p: ContractPayload, newId: string)
      modifies `work
      ensures work == old(work).(tables := Operations.ContractVendor(old(work).tables, eventId, p, newId))
    {
      hide Committed, WithContract, ContractedTask;
      ContractAssignment(eventId, p, newId);
      var id := ContractedTask(work.tables, eventId, p);
      if id.Some? {
        var task := work.tables.tasks[id.value];
        if p.vendorId != "" {
          task := task.(providerId := p.vendorId);
        }
        task := task.(status := "ASSIGNED");
        work := work.(tables := work.tables.(tasks := work.tables.tasks[id.value := task]));
      }
      NothingCommitted(work.tables.budget, eventId, p.category, p.cost);
      if p.category != "" && p.cost > 0 {
        work := work.(tables := work.tables.(budget := Committed(work.tables.budget, eventId, p.category, p.cost)));
      }
    }

    method CompressTasks(eventId: string, ids: seq<string>, minutes: int)
      modifies `work
      ensures work == old(work).(tables := CompressAll(old(work).tables, eventId, ids, minutes))
    {
      var i := 0;
      while i < |ids|
        invariant 0 <= i <= |ids|
        invariant work == old(work).(tables := CompressAll(old(work).tables, eventId, ids[..i], minutes))
      {
        assert ids[..i + 1][..i] == ids[..i];
        if HasTask(work.tables, eventId, ids[i]) && work.tables.tasks[ids[i]].duration != 0 {
          var task := work.tables.tasks[ids[i]];
          task := task.(duration := if task.duration - minutes > 1 then task.duration - minutes else 1);
          if task.plannedStart.Some? {
            task := task.(plannedEnd := Some(task.plannedStart.value + task.duration));
          }
          work := work.(tables := work.tables.(tasks := work.tables.tasks[ids[i] := task]));
        }
        i := i + 1;
      }
      assert ids[..|ids|] == ids;
    }

    method CancelTasks(eventId: string, ids: seq<string>)
      modifies `work
      ensures work == old(work).(tables := CancelAll(old(work).tables, eventId, ids))
    {
      var i := 0;
      while i < |ids|
        invariant 0 <= i <= |ids|
        invariant work == old(work).(tables := CancelAll(old(work).tables, eventId, ids[..i]))
      {
        assert ids[..i + 1][..i] == ids[..i];
        if HasTask(work.tables, eventId, ids[i]) {
          var task := work.tables.tasks[ids[i]].(status := "CANCELLED");
          work := work.(tables := work.tables.(tasks := work.tables.tasks[ids[i] := task]));
        }
        i := i + 1;
      }
      assert ids[..|ids|] == ids;
    }

    method ApplyLateParts(eventId: string, c: Changes, affected: seq<string>)
      modifies `work
      ensures work == old(work).(tables := LateParts(old(work).tables, eventId, c, affected))
    {
      hide CompressAll;
      if c.compression.Some? {
        CompressTasks(eventId, affected, c.compression.value);
      }
      if c.cancels {
        CancelTasks(eventId, if c.cancelled != [] then c.cancelled else affected);
      }
      if c.capacity.Some? && eventId in work.tables.events {
        var event := work.tables.events[eventId].(guestCount := c.capacity.value);
        work := work.(tables := work.tables.(events := work.tables.events[eventId := event]));
      }
    }

    /** The parts of an option one after another; a failing part leaves the earlier ones' writes in `work`. */
    method ApplyParts(eventId: string, c: Changes, affected: seq<string>, newId: string) returns (error: Option<Error>)
      modifies `work
      ensures error == match ApplyChanges(old(work).tables, eventId, c, affected, newId)
                       case Ok(_) => None
                       case Err(e) => Some(e)
      ensures error.None? ==> work.tables == ApplyChanges(old(work).tables, eventId, c, affected, newId).value
      ensures work == old(work).(tables := work.tables)
    {
      hide Operations.ReassignVendor, Operations.AdjustSchedule, Operations.AllocateResource, LateParts;
      var vendorTask := FirstNonEmpty(FirstNonEmpty(c.taskId, c.vendorTask), Head(affected));
      if c.vendorId != "" && vendorTask != "" {
        error := ReassignVendor(eventId, vendorTask, c.vendorId, c.cost, newId);
        if error.Some? {
          return;
        }
      }
      var scheduleTask := FirstNonEmpty(c.scheduleTask, Head(affected));
      if c.reschedules && scheduleTask != "" {
        error := AdjustSchedule(eventId, scheduleTask,
                                if c.schedule.Some? then c.schedule.value else SchedulePayload(c.shiftMinutes, 0, None, None));
        if error.Some? {
          return;
        }
      }
      if c.resourceId.Some? {
        error := AllocateResource(eventId, c.resourceId.value, FirstNonEmpty(c.taskId, Head(affected)), None);
        if error.Some? {
          return;
        }
      }
      ApplyLateParts(eventId, c, affected);
      return None;
    }

    method Dispatch(eventId: string, op: Operation, newId: string) returns (error: Option<Error>)
      modifies `work
      ensures error == match Operate(old(work).tables, eventId, op, newId)
                       case Ok(_) => None
                       case Err(e) => Some(e)
      ensures error.None? ==> work.tables == Operate(old(work).tables, eventId, op, newId).value
      ensures work == old(work).(tables := work.tables)
    {
      hide Operations.ReassignVendor, Operations.AdjustSchedule, Operations.AllocateResource, Operations.ReassignTask,
           Operations.AdjustBudget, Operations.ContractVendor, Engage;
      match op {
        case VendorReassignment(taskId, vendorId, cost) =>
          error := ReassignVendor(eventId, taskId, vendorId, cost, newId);
        case ScheduleAdjustment(taskId, p) =>
          error := AdjustSchedule(eventId, taskId, p);
        case ResourceAllocation(resourceId, taskId, quantity) =>
          error := AllocateResource(eventId, resourceId, taskId, quantity);
        case TaskReassignment(taskId, category, priority, duration) =>
          error := ReassignTask(eventId, taskId, category, priority, duration);
        case BudgetAdjustment(itemId, actual, estimated) =>
          error := AdjustBudget(eventId, itemId, actual, estimated);
        case ProviderEngagement(assignmentId) =>
          error := EngageProvider(assignmentId);
        case Contract(p) =>
          ContractVendor(eventId, p, newId);
          return None;
        case UnknownOperation(_) =>
          return Some(BadRequest);
      }
    }

    method ExecuteAction(c: Call, chance: Chance) returns (answer: Result<Execution, Error>)
      requires Valid() && c.ActionCall?
      modifies this
      ensures Valid() && Outcome(committed, answer) == ActionOutcome(snapshot, old(committed), c, chance)
    {
      hide Operate, Guard, Stamped, Short;
      var stop := Guard(work, c.eventId);
      if stop.Some? {
        return Err(stop.value);
      }
      var actionId := FirstNonEmpty(c.actionId, chance.freshId);
      var existing := Find(work.executions, actionId);
      if existing.Some? {
        return Ok(existing.value);
      }
      var before := snapshot(work.tables, c.eventId);
      var error := Dispatch(c.eventId, c.operation, chance.rowId);
      if error.None? && chance.refused {
        error := Some(DatabaseError);
      }
      if error.Some? {
        work := committed;
        return Err(error.value);
      }
      work := work.(tables := Stamped(committed.tables, work.tables, chance.stamp));
      var after := snapshot(work.tables, c.eventId);
      var transition := Transition(c.eventId, "ACTION", actionId, Short(before), Short(after));
      work := work.(transitions := work.transitions + [transition]);
      var x := Execution(actionId, c.eventId, c.actionType, c.recoveryId, c.executor, before, after);
      work := work.(executions := work.executions + [x]);
      committed := work;
      return Ok(x);
    }

    method ExecuteRecoveryOption(c: Call, chance: Chance) returns (answer: Result<Execution, Error>)
      requires Valid() && c.RecoveryCall?
      modifies this
      ensures Valid() && Outcome(committed, answer) == RecoveryOutcome(snapshot, old(committed), c, chance)
    {
      hide ApplyChanges, Guard, Stamped, Authorized, NeedsApproval, PlanVersion;
      var stop := Guard(work, c.eventId);
      if stop.Some? {
        return Err(stop.value);
      }
      GuardFindsEvent(work, c.eventId);
      if !Authorized(work, c.eventId, c.executor) {
        return Err(Forbidden);
      }
      if c.optionId !in work.recoveries || work.recoveries[c.optionId].eventId != c.eventId {
        return Err(NotFound);
      }
      var r := work.recoveries[c.optionId];
      if NeedsApproval(r) && (c.optionId, c.eventId) !in work.approved {
        return Err(ApprovalRequired);
      }
      if r.planVersion.Some? && r.planVersion.value != PlanVersion(work, c.eventId) {
        return Err(StalePlan);
      }
      var before := snapshot(work.tables, c.eventId);
      if r.status == "STALE" || r.snapshot != before {
        work := work.(recoveries := work.recoveries[c.optionId := r.(status := "STALE")]);
        committed := work;
        return Err(StaleAction);
      }
      var actionId := FirstNonEmpty(c.actionId, chance.freshId);
      var existing := Find(work.executions, actionId);
      if existing.Some? {
        return Ok(existing.value);
      }
      var error := ApplyParts(c.eventId, r.changes, r.affected, chance.rowId);
      if error.None? && chance.refused {
        error := Some(DatabaseError);
      }
      if error.Some? {
        work := committed;
        return Err(error.value);
      }
      work := work.(recoveries := work.recoveries[c.optionId := r.(status := "EXECUTED")]);
      work := work.(tables := Stamped(committed.tables, work.tables, chance.stamp));
      var after := snapshot(work.tables, c.eventId);
      work := work.(transitions := work.transitions + [Transition(c.eventId, "RECOVERY_OPTION", c.optionId, r.status, "EXECUTED")]);
      var x := Execution(actionId, c.eventId, "RECOVERY_" + r.strategy, Some(c.optionId), c.executor, before, after);
      work := work.(executions := work.executions + [x]);
      committed := work;
      return Ok(x);
    }
  }

  /** The four lookups of a contract, each tried when those before found nothing. */
  method FindContracted(rows: seq<Assignment>, eventId: string, p: ContractPayload) returns (i: int)
    ensures i == ContractedRow(rows, eventId, p)
  {
    hide FirstById, FirstByBoth, FirstByCategory, FirstByVendor;
    i := if p.assignmentId != "" then FirstById(rows, eventId, p.assignmentId) else -1;
    if i == -1 && p.vendorId != "" && p.category != "" {
      i := FirstByBoth(rows, eventId, p.vendorId, p.category);
    }
    if i == -1 && p.category != "" {
      i := FirstByCategory(rows, eventId, p.category);
    }
    if i == -1 && p.vendorId != "" {
      i := FirstByVendor(rows, eventId, p.vendorId);
    }
  }

  lemma NothingCommitted(rows: seq<BudgetItem>, eventId: string, category: string, cost: int)
    ensures cost <= 0 ==> Committed(rows, eventId, category, cost) == rows
  {
  }

  lemma GuardFindsEvent(db: Db, eventId: string)
    requires Guard(db, eventId).None?
    ensures eventId in db.tables.events
  {
  }
}
