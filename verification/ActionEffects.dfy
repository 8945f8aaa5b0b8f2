/**
 What every kind of action, and every part of a recovery option, does to the rows: stated on the
 fields of the tables before a call and of those committed by it.
 */
module ActionEffects {
  import opened Common
  import opened Operations
  import opened ActionService
  import opened ActionHistory
  import opened ActionResults

  // ---------------------------------------------------------------------------
  // First rows
  // ---------------------------------------------------------------------------

  /** A row of the event with what is given of its id, vendor and category. */
  predicate Fits(a: Assignment, eventId: string, id: Option<string>, vendorId: Option<string>, category: Option<string>) {
    && a.eventId == eventId && (id.Some? ==> a.id == id.value)
    && (vendorId.Some? ==> a.vendorId == vendorId.value) && (category.Some? ==> a.category == category.value)
  }

  ghost predicate NoRow(rows: seq<Assignment>, eventId: string, id: Option<string>, vendorId: Option<string>, category: Option<string>) {
    forall k :: 0 <= k < |rows| ==> !Fits(rows[k], eventId, id, vendorId, category)
  }

  /** i is the first such row. */
  ghost predicate IsFirst(rows: seq<Assignment>, i: int, eventId: string, id: Option<string>, vendorId: Option<string>,
                          category: Option<string>)
  {
    0 <= i < |rows| && Fits(rows[i], eventId, id, vendorId, category) && NoRow(rows[..i], eventId, id, vendorId, category)
  }

  /** The index is that of the first such row, or -1 without one. */
  ghost predicate FirstIs(rows: seq<Assignment>, i: int, eventId: string, id: Option<string>, vendorId: Option<string>,
                         category: Option<string>)
  {
    if i == -1 then NoRow(rows, eventId, id, vendorId, category) else IsFirst(rows, i, eventId, id, vendorId, category)
  }

  lemma FirstWhereIs(rows: seq<Assignment>, holds: Assignment -> bool, eventId: string, id: Option<string>, vendorId: Option<string>,
                  category: Option<string>)
    requires forall a :: holds(a) <==> Fits(a, eventId, id, vendorId, category)
    ensures FirstIs(rows, FirstWhere(rows, holds), eventId, id, vendorId, category)
  {
    var i := FirstWhere(rows, holds);
    if i == -1 {
      forall k | 0 <= k < |rows| ensures !Fits(rows[k], eventId, id, vendorId, category) {
        assert rows[k] in rows;
      }
    }
  }

  lemma LookupsFindFirst(rows: seq<Assignment>, eventId: string, id: string, vendorId: string, category: string)
    ensures FirstIs(rows, FirstById(rows, eventId, id), eventId, Some(id), None, None)
    ensures FirstIs(rows, FirstByBoth(rows, eventId, vendorId, category), eventId, None, Some(vendorId), Some(category))
    ensures FirstIs(rows, FirstByVendor(rows, eventId, vendorId), eventId, None, Some(vendorId), None)
    ensures FirstIs(rows, FirstByCategory(rows, eventId, category), eventId, None, None, Some(category))
  {
    FirstWhereIs(rows, (a: Assignment) => a.eventId == eventId && a.id == id, eventId, Some(id), None, None);
    FirstWhereIs(rows, (a: Assignment) => a.eventId == eventId && a.vendorId == vendorId && a.category == category,
              eventId, None, Some(vendorId), Some(category));
    FirstWhereIs(rows, (a: Assignment) => a.eventId == eventId && a.vendorId == vendorId, eventId, None, Some(vendorId), None);
    FirstWhereIs(rows, (a: Assignment) => a.eventId == eventId && a.category == category, eventId, None, None, Some(category));
  }

  // ---------------------------------------------------------------------------
  // The kinds of actions
  // ---------------------------------------------------------------------------

  /** The category under which a vendor takes over a task: the task's, else the vendor's, else "general". */
  function CategoryOf(t: Tables, taskId: string, vendorId: string): string
    requires taskId in t.tasks && vendorId in t.vendors
  {
    if t.tasks[taskId].category != "" then t.tasks[taskId].category
    else if t.vendors[vendorId].category != "" then t.vendors[vendorId].category
    else "general"
  }

  /** No task but this one has changed. */
  ghost predicate OnlyTask(t: Tables, u: Tables, taskId: string) {
    && u.tasks.Keys == t.tasks.Keys
    && forall id :: id in t.tasks && id != taskId ==> u.tasks[id] == t.tasks[id]
  }

  /** The task is the vendor's, and nothing else about it has changed. */
  ghost predicate TaskAssigned(a: Task, b: Task, vendorId: string, category: string) {
    && b.providerId == vendorId && b.status == "ASSIGNED" && b.category == category
    && b.eventId == a.eventId && b.priority == a.priority && b.duration == a.duration
    && b.plannedStart == a.plannedStart && b.plannedEnd == a.plannedEnd && b.slack == a.slack
  }

  /** The vendor has this row of the event, confirmed, at the cost given if there is one. */
  ghost predicate TakenOver(a: Assignment, b: Assignment, vendorId: string, cost: int) {
    && b.vendorId == vendorId && b.status == "CONFIRMED" && b.cost == (if cost > 0 then cost else a.cost)
    && b.id == a.id && b.eventId == a.eventId && b.category == a.category && b.negotiation == a.negotiation
  }

  /** The row has at most been confirmed, and has been if it is the vendor's in the event. */
  ghost predicate AtMostConfirmed(a: Assignment, b: Assignment, eventId: string, vendorId: string) {
    && b.id == a.id && b.eventId == a.eventId && b.vendorId == a.vendorId && b.category == a.category
    && b.negotiation == a.negotiation && b.cost == a.cost
    && b.status == if a.eventId == eventId && a.vendorId == vendorId then "CONFIRMED" else a.status
  }

  /** The vendor's first row, or else the category's, is taken over; without one a row is added; all of the vendor's are confirmed. */
  ghost predicate VendorHasRow(rows: seq<Assignment>, now: seq<Assignment>, eventId: string, vendorId: string, category: string,
                               cost: int, newId: string)
  {
    |rows| <= |now| <= |rows| + 1 && exists at :: HasRowAt(rows, now, at, eventId, vendorId, category, cost, newId)
  }

  ghost predicate HasRowAt(rows: seq<Assignment>, now: seq<Assignment>, at: nat, eventId: string, vendorId: string, category: string,
                           cost: int, newId: string)
  {
    && at < |now| && |rows| <= |now|
    && (forall i :: 0 <= i < |rows| && i != at ==> AtMostConfirmed(rows[i], now[i], eventId, vendorId))
    && if |now| > |rows| then
         && at == |rows|
         && NoRow(rows, eventId, None, Some(vendorId), None) && NoRow(rows, eventId, None, None, Some(category))
         && now[at] == Assignment(newId, eventId, vendorId, category, "CONFIRMED", "DISCOVERED", cost)
       else
         && TakenOver(rows[at], now[at], vendorId, cost)
         && (IsFirst(rows, at, eventId, None, Some(vendorId), None)
             || (NoRow(rows, eventId, None, Some(vendorId), None) && IsFirst(rows, at, eventId, None, None, Some(category))))
  }

  predicate BudgetOf(b: BudgetItem, eventId: string, category: string) {
    b.eventId == eventId && b.category == category
  }

  /** A positive cost is what the category's first budget item of the event now actually costs; no other item has changed. */
  ghost predicate CostBooked(rows: seq<BudgetItem>, now: seq<BudgetItem>, eventId: string, category: string, cost: int) {
    && |now| == |rows|
    && forall i :: 0 <= i < |rows| ==>
         if cost > 0 && BudgetOf(rows[i], eventId, category) && forall k :: 0 <= k < i ==> !BudgetOf(rows[k], eventId, category)
         then BookedAt(rows[i], now[i], cost) else now[i] == rows[i]
  }

  ghost predicate BookedAt(a: BudgetItem, b: BudgetItem, cost: int) {
    && b.actual == cost && b.status == "COMMITTED"
    && b.id == a.id && b.eventId == a.eventId && b.category == a.category && b.estimated == a.estimated
  }

  lemma CostIsBooked(rows: seq<BudgetItem>, eventId: string, category: string, cost: int)
    ensures CostBooked(rows, Committed(rows, eventId, category, cost), eventId, category, cost)
  {
    var b := FirstBudget(rows, eventId, category);
    forall i | 0 <= i < |rows| && BudgetOf(rows[i], eventId, category) ensures b != -1 {
      assert rows[i] in rows;
    }
  }

  ghost predicate VendorReassigned(t: Tables, u: Tables, eventId: string, taskId: string, vendorId: string, cost: int, newId: string) {
    && taskId in t.tasks && vendorId in t.vendors && taskId in u.tasks
    && u == t.(tasks := u.tasks, assignments := u.assignments, budget := u.budget)
    && OnlyTask(t, u, taskId) && TaskAssigned(t.tasks[taskId], u.tasks[taskId], vendorId, CategoryOf(t, taskId, vendorId))
    && VendorHasRow(t.assignments, u.assignments, eventId, vendorId, CategoryOf(t, taskId, vendorId), cost, newId)
    && CostBooked(t.budget, u.budget, eventId, CategoryOf(t, taskId, vendorId), cost)
  }

  lemma RowsReassigned(rows: seq<Assignment>, eventId: string, vendorId: string, category: string, cost: int, newId: string)
    ensures VendorHasRow(rows, Confirmed(Assigned(rows, eventId, vendorId, category, cost, newId), eventId, vendorId),
                         eventId, vendorId, category, cost, newId)
  {
    LookupsFindFirst(rows, eventId, "", vendorId, category);
    hide FirstByVendor, FirstByCategory, FirstById, FirstByBoth, NoRow, Fits;
    var byVendor, byCategory := FirstByVendor(rows, eventId, vendorId), FirstByCategory(rows, eventId, category);
    var i := if byVendor != -1 then byVendor else byCategory;
    var at := if i == -1 then |rows| else i;
    var now := Confirmed(Assigned(rows, eventId, vendorId, category, cost, newId), eventId, vendorId);
    assert HasRowAt(rows, now, at, eventId, vendorId, category, cost, newId);
  }

  lemma VendorIsReassigned(t: Tables, eventId: string, taskId: string, vendorId: string, cost: int, newId: string)
    requires ReassignVendor(t, eventId, taskId, vendorId, cost, newId).Ok?
    ensures VendorReassigned(t, ReassignVendor(t, eventId, taskId, vendorId, cost, newId).value, eventId, taskId, vendorId, cost, newId)
  {
    var category := CategoryOf(t, taskId, vendorId);
    RowsReassigned(t.assignments, eventId, vendorId, category, cost, newId);
    CostIsBooked(t.budget, eventId, category, cost);
    hide Assigned, Confirmed, Committed, VendorHasRow, CostBooked;
  }

  /** Where a shift and an explicit time leave one end of a task; a shift moves only tasks that have both ends. */
  function MovedEnd(task: Task, at: Option<int>, p: SchedulePayload, explicit: Option<int>): Option<int> {
    if explicit.Some? then explicit
    else if task.plannedStart.Some? && task.plannedEnd.Some? && at.Some? then
      Some(at.value + if p.shift != 0 then p.shift else p.delay)
    else at
  }

  /** Both ends are moved and the slack is used up as far as there is any; nothing else of the task has changed. */
  ghost predicate Rescheduled(a: Task, b: Task, p: SchedulePayload) {
    && b.plannedStart == MovedEnd(a, a.plannedStart, p, p.start)
    && b.plannedEnd == MovedEnd(a, a.plannedEnd, p, p.end)
    && SlackUsed(a, b, p)
    && b.eventId == a.eventId && b.category == a.category && b.priority == a.priority && b.providerId == a.providerId
    && b.status == a.status && b.duration == a.duration
  }

  ghost predicate SlackUsed(a: Task, b: Task, p: SchedulePayload) {
    var shift := if p.shift != 0 then p.shift else p.delay;
    if a.slack.None? || shift == 0 || a.plannedStart.None? || a.plannedEnd.None? then b.slack == a.slack
    else b.slack == Some(if a.slack.value > shift then a.slack.value - shift else 0)
  }

  lemma ShiftedIsRescheduled(task: Task, p: SchedulePayload)
    ensures Rescheduled(task, Shifted(task, p), p)
  {
  }

  ghost predicate ScheduleAdjusted(t: Tables, u: Tables, taskId: string, p: SchedulePayload) {
    && taskId in t.tasks && u == t.(tasks := u.tasks) && OnlyTask(t, u, taskId)
    && Rescheduled(t.tasks[taskId], u.tasks[taskId], p)
  }

  /** The first assignment with the id is approved, and nothing else has changed. */
  ghost predicate Engaged(t: Tables, u: Tables, id: string) {
    && u == t.(assignments := u.assignments) && |u.assignments| == |t.assignments|
    && (exists i :: 0 <= i < |t.assignments| && t.assignments[i].id == id)
    && forall i :: 0 <= i < |t.assignments| ==>
         if t.assignments[i].id == id && forall k :: 0 <= k < i ==> t.assignments[k].id != id
         then u.assignments[i] == Approved(t.assignments[i]) else u.assignments[i] == t.assignments[i]
  }

  function Approved(a: Assignment): Assignment {
    Assignment(a.id, a.eventId, a.vendorId, a.category, a.status, "APPROVED", a.cost)
  }

  lemma EngageApproves(t: Tables, id: string)
    requires Engage(t, id).Ok?
    ensures Engaged(t, Engage(t, id).value, id)
  {
    var i := FirstAssignment(t.assignments, id);
    assert t.assignments[i].id == id;
  }

  // ---------------------------------------------------------------------------
  // A contract
  // ---------------------------------------------------------------------------

  /** The row a contract is about: by its id, else by vendor and category, else by category, else by vendor; or none. */
  ghost predicate ContractFinds(rows: seq<Assignment>, i: int, eventId: string, p: ContractPayload) {
    var id, vendorId, category := Some(p.assignmentId), Some(p.vendorId), Some(p.category);
    if p.assignmentId != "" && !NoRow(rows, eventId, id, None, None) then IsFirst(rows, i, eventId, id, None, None)
    else if p.vendorId != "" && p.category != "" && !NoRow(rows, eventId, None, vendorId, category)
    then IsFirst(rows, i, eventId, None, vendorId, category)
    else if p.category != "" && !NoRow(rows, eventId, None, None, category) then IsFirst(rows, i, eventId, None, None, category)
    else if p.vendorId != "" && !NoRow(rows, eventId, None, vendorId, None) then IsFirst(rows, i, eventId, None, vendorId, None)
    else i == -1
  }

  lemma ContractedRowIsFound(rows: seq<Assignment>, eventId: string, p: ContractPayload)
    ensures ContractFinds(rows, ContractedRow(rows, eventId, p), eventId, p)
  {
    LookupsFindFirst(rows, eventId, p.assignmentId, p.vendorId, p.category);
    FirstOrNone(rows, eventId, Some(p.assignmentId), None, None);
    FirstOrNone(rows, eventId, None, Some(p.vendorId), Some(p.category));
    FirstOrNone(rows, eventId, None, None, Some(p.category));
    FirstOrNone(rows, eventId, None, Some(p.vendorId), None);
    hide FirstById, FirstByBoth, FirstByVendor, FirstByCategory, NoRow, IsFirst;
  }

  lemma FirstOrNone(rows: seq<Assignment>, eventId: string, id: Option<string>, vendorId: Option<string>, category: Option<string>)
    ensures forall i :: IsFirst(rows, i, eventId, id, vendorId, category) ==> i >= 0 && !NoRow(rows, eventId, id, vendorId, category)
  {
  }

  /** The row found is confirmed and approved, at the cost given if there is one; or a row is added, and its vendor if unknown. */
  ghost predicate RowContracted(t: Tables, u: Tables, i: int, eventId: string, p: ContractPayload, newId: string)
    requires -1 <= i < |t.assignments|
  {
    var rows, now := t.assignments, u.assignments;
    if i != -1 then
      && u.vendors == t.vendors && |now| == |rows| && (forall k :: 0 <= k < |rows| && k != i ==> now[k] == rows[k])
      && now[i] == Assignment(rows[i].id, rows[i].eventId, rows[i].vendorId, rows[i].category, "CONFIRMED", "APPROVED",
                              if p.cost > 0 then p.cost else rows[i].cost)
    else if p.vendorId == "" || p.category == "" then u.vendors == t.vendors && now == rows
    else
      && now == rows + [Assignment(newId, eventId, p.vendorId, p.category, "CONFIRMED", "APPROVED", if p.cost > 0 then p.cost else 0)]
      && p.vendorId in u.vendors && VendorMayBeNew(t, u, p.vendorId)
      && (p.vendorId !in t.vendors ==> u.vendors[p.vendorId].category == p.category)
  }

  /** The task a contract is about. */
  ghost predicate IsContracted(t: Tables, eventId: string, p: ContractPayload, id: string) {
    && HasTask(t, eventId, id)
    && if p.taskId != "" then id == p.taskId else p.category != "" && id == p.firstTask && t.tasks[id].category == p.category
  }

  /** It is assigned, to the vendor if one is given; no other task has changed, and none without such a task. */
  ghost predicate TaskContracted(t: Tables, u: Tables, eventId: string, p: ContractPayload) {
    && u.tasks.Keys == t.tasks.Keys
    && forall id :: id in t.tasks ==>
         if IsContracted(t, eventId, p, id) then AssignedTo(t.tasks[id], u.tasks[id], p.vendorId) else u.tasks[id] == t.tasks[id]
  }

  ghost predicate AssignedTo(a: Task, b: Task, vendorId: string) {
    && b.status == "ASSIGNED" && b.providerId == (if vendorId != "" then vendorId else a.providerId)
    && b.eventId == a.eventId && b.category == a.category && b.priority == a.priority && b.duration == a.duration
    && b.plannedStart == a.plannedStart && b.plannedEnd == a.plannedEnd && b.slack == a.slack
  }

  ghost predicate VendorContracted(t: Tables, u: Tables, eventId: string, p: ContractPayload, newId: string) {
    && u == t.(vendors := u.vendors, tasks := u.tasks, assignments := u.assignments, budget := u.budget)
    && (exists i :: -1 <= i < |t.assignments| && ContractFinds(t.assignments, i, eventId, p) && RowContracted(t, u, i, eventId, p, newId))
    && TaskContracted(t, u, eventId, p)
    && if p.category == "" then u.budget == t.budget else CostBooked(t.budget, u.budget, eventId, p.category, p.cost)
  }

  lemma ContractContracts(t: Tables, eventId: string, p: ContractPayload, newId: string)
    ensures VendorContracted(t, ContractVendor(t, eventId, p, newId), eventId, p, newId)
  {
    var w, u := WithContract(t, eventId, p, newId), ContractVendor(t, eventId, p, newId);
    var i := ContractedRow(t.assignments, eventId, p);
    ContractedRowIsFound(t.assignments, eventId, p);
    CostIsBooked(t.budget, eventId, p.category, p.cost);
    RowIsContracted(t, eventId, p, newId);
    TaskIsContracted(w, eventId, p);
    hide ContractFinds, ContractedRow, CostBooked, Committed, TaskContracted, WithContract, WithContractedTask, RowContracted;
    assert w.tasks == t.tasks;
    SameTasksContracted(t, w, u, eventId, p);
    SameRowContracted(t, w, u, i, eventId, p, newId);
  }

  lemma RowIsContracted(t: Tables, eventId: string, p: ContractPayload, newId: string)
    ensures var w := WithContract(t, eventId, p, newId);
            && w == t.(vendors := w.vendors, assignments := w.assignments)
            && RowContracted(t, w, ContractedRow(t.assignments, eventId, p), eventId, p, newId)
  {
    hide ContractedRow;
  }

  lemma TaskIsContracted(t: Tables, eventId: string, p: ContractPayload)
    ensures var b := WithContractedTask(t, eventId, p); b == t.(tasks := b.tasks) && TaskContracted(t, b, eventId, p)
  {
  }

  lemma SameTasksContracted(t: Tables, w: Tables, u: Tables, eventId: string, p: ContractPayload)
    requires w.tasks == t.tasks && u.tasks == WithContractedTask(w, eventId, p).tasks
    requires TaskContracted(w, WithContractedTask(w, eventId, p), eventId, p)
    ensures TaskContracted(t, u, eventId, p)
  {
    hide WithContractedTask;
  }

  lemma SameRowContracted(t: Tables, w: Tables, u: Tables, i: int, eventId: string, p: ContractPayload, newId: string)
    requires -1 <= i < |t.assignments| && u.vendors == w.vendors && u.assignments == w.assignments
    requires RowContracted(t, w, i, eventId, p, newId)
    ensures RowContracted(t, u, i, eventId, p, newId)
  {
  }

  // ---------------------------------------------------------------------------
  // A whole action
  // ---------------------------------------------------------------------------

  /** What an action of each kind has done to the tables. */
  ghost predicate Achieved(t: Tables, u: Tables, eventId: string, op: Operation, newId: string) {
    match op
    case VendorReassignment(taskId, vendorId, cost) => VendorReassigned(t, u, eventId, taskId, vendorId, cost, newId)
    case TaskReassignment(taskId, category, priority, duration) => OnlyGivenOfTask(t, u, taskId, category, priority, duration)
    case ScheduleAdjustment(taskId, p) => ScheduleAdjusted(t, u, taskId, p)
    case ResourceAllocation(resourceId, taskId, quantity) => OnlyBound(t, u, eventId, resourceId, taskId, quantity)
    case BudgetAdjustment(itemId, actual, estimated) => OnlyAmounts(t, u, eventId, itemId, actual, estimated)
    case ProviderEngagement(id) => Engaged(t, u, id)
    case Contract(p) => VendorContracted(t, u, eventId, p, newId)
    case UnknownOperation(_) => false
  }

  lemma OperateAchieves(t: Tables, eventId: string, op: Operation, newId: string)
    requires Operate(t, eventId, op, newId).Ok?
    ensures Achieved(t, Operate(t, eventId, op, newId).value, eventId, op, newId)
    ensures Operate(t, eventId, op, newId).value.stamp == t.stamp
  {
    hide VendorReassigned, OnlyGivenOfTask, OnlyBound, OnlyAmounts, Engaged, VendorContracted, Assigned, Confirmed, Committed, Shifted,
         ContractVendor;
    match op
    case VendorReassignment(taskId, vendorId, cost) => VendorIsReassigned(t, eventId, taskId, vendorId, cost, newId);
    case TaskReassignment(taskId, category, priority, duration) => TaskChangesOnlyGiven(t, eventId, taskId, category, priority, duration);
    case ScheduleAdjustment(taskId, p) => ShiftedIsRescheduled(t.tasks[taskId], p);
    case ResourceAllocation(resourceId, taskId, quantity) => AllocationBinds(t, eventId, resourceId, taskId, quantity);
    case BudgetAdjustment(itemId, actual, estimated) => AmountsChangeOnlyGiven(t, eventId, itemId, actual, estimated);
    case ProviderEngagement(id) => EngageApproves(t, id);
    case Contract(p) =>
      ContractContracts(t, eventId, p, newId);
      KeepsStamp(t, ContractVendor(t, eventId, p, newId), eventId, p, newId);
    case UnknownOperation(_) =>
  }

  lemma KeepsStamp(t: Tables, u: Tables, eventId: string, p: ContractPayload, newId: string)
    requires VendorContracted(t, u, eventId, p, newId)
    ensures u.stamp == t.stamp
  {
  }

  /** The update stamp moves with every change, except one of budget rows alone. */
  ghost predicate StampMoves(t: Tables, u: Tables, stamp: string) {
    u.stamp == if u.(budget := t.budget, stamp := t.stamp) == t then t.stamp else stamp
  }

  /**
   What an executed action leaves in the committed tables is what its kind of action does, and nothing
   else but the update stamp.
   */
  lemma ActionAchieves(snap: Snapshot, db: Db, c: Call, chance: Chance)
    requires c.ActionCall?
    ensures var t, o := db.tables, OutcomeOf(snap, db, c, chance);
            if o.db.executions == db.executions then o.db == db
            else
              && Achieved(t, o.db.tables.(stamp := t.stamp), c.eventId, c.operation, chance.rowId)
              && StampMoves(t, o.db.tables, chance.stamp)
  {
    hide Operate, Achieved, Guard, Short;
    var t, r := db.tables, Operate(db.tables, c.eventId, c.operation, chance.rowId);
    if r.Ok? {
      OperateAchieves(t, c.eventId, c.operation, chance.rowId);
      StampedMoves(t, r.value, chance.stamp);
    }
    hide Stamped, StampMoves;
  }

  lemma StampedMoves(t: Tables, u: Tables, stamp: string)
    requires u.stamp == t.stamp
    ensures var v := Stamped(t, u, stamp); StampMoves(t, v, stamp) && v.(stamp := t.stamp) == u
  {
  }
}
