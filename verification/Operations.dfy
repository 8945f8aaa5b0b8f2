/**
 The operational tables that actions change, and the handlers that change them
 (apps/api/app/services/action_service.py, from line 371 on), as functions on the tables.
 */
module Operations {
  import opened Common

  datatype Error =
    | NotFound | BadRequest | ExecutionPaused | Forbidden | ApprovalRequired | StalePlan | StaleAction | DatabaseError

  /** Times and durations in minutes, money in the smallest unit; "" stands for a missing string. */
  datatype Event = Event(executionState: string, ownerId: string, guestCount: int)
  datatype Task = Task(
    eventId: string, category: string, priority: string, providerId: string, status: string, duration: int,
    plannedStart: Option<int>, plannedEnd: Option<int>, slack: Option<int>)
  datatype Vendor = Vendor(category: string)
  datatype Assignment = Assignment(
    id: string, eventId: string, vendorId: string, category: string, status: string, negotiation: string, cost: int)
  datatype BudgetItem = BudgetItem(id: string, eventId: string, category: string, actual: int, estimated: int, status: string)
  datatype Resource = Resource(eventId: string, allocatedTask: string, status: string, quantity: int)

  /**
   Tables queried by id are maps; tables searched with first() keep their row order. `stamp` stands
   for the update times of the rows and for the tables that only the state snapshot reads.
   */
  datatype Tables = Tables(
    events: map<string, Event>, tasks: map<string, Task>, vendors: map<string, Vendor>,
    assignments: seq<Assignment>, budget: seq<BudgetItem>, resources: map<string, Resource>, stamp: string)

  datatype SchedulePayload = SchedulePayload(shift: int, delay: int, start: Option<int>, end: Option<int>)

  predicate HasTask(t: Tables, eventId: string, taskId: string) {
    taskId in t.tasks && t.tasks[taskId].eventId == eventId
  }

  // ---------------------------------------------------------------------------
  // REASSIGN_VENDOR
  // ---------------------------------------------------------------------------

  /** first(): the index of the first row for which the filter holds, or -1. */
  function FirstWhere<T>(rows: seq<T>, holds: T -> bool): (i: int)
    ensures -1 <= i < |rows|
    ensures i == -1 ==> forall r :: r in rows ==> !holds(r)
    ensures i >= 0 ==> holds(rows[i]) && forall k :: 0 <= k < i ==> !holds(rows[k])
  {
    if rows == [] then -1
    else if holds(rows[0]) then 0
    else
      var r := FirstWhere(rows[1..], holds);
      assert rows == [rows[0]] + rows[1..];
      if r == -1 then -1 else r + 1
  }

  function FirstByVendor(rows: seq<Assignment>, eventId: string, vendorId: string): int {
    FirstWhere(rows, (a: Assignment) => a.eventId == eventId && a.vendorId == vendorId)
  }

  function FirstByCategory(rows: seq<Assignment>, eventId: string, category: string): int {
    FirstWhere(rows, (a: Assignment) => a.eventId == eventId && a.category == category)
  }

  function FirstBudget(rows: seq<BudgetItem>, eventId: string, category: string): int {
    FirstWhere(rows, (b: BudgetItem) => b.eventId == eventId && b.category == category)
  }

  function ConfirmIf(a: Assignment, eventId: string, vendorId: string): Assignment {
    if a.eventId == eventId && a.vendorId == vendorId then a.(status := "CONFIRMED") else a
  }

  /** The vendor's assignment, or the category's, is taken over; without one it is created. */
  function Assigned(rows: seq<Assignment>, eventId: string, vendorId: string, category: string, cost: int, newId: string): seq<Assignment> {
    var byVendor := FirstByVendor(rows, eventId, vendorId);
    var i := if byVendor != -1 then byVendor else FirstByCategory(rows, eventId, category);
    if i == -1 then rows + [Assignment(newId, eventId, vendorId, category, "CONFIRMED", "DISCOVERED", cost)]
    else rows[i := rows[i].(vendorId := vendorId, status := "CONFIRMED", cost := if cost > 0 then cost else rows[i].cost)]
  }

  function Confirmed(rows: seq<Assignment>, eventId: string, vendorId: string): seq<Assignment> {
    seq(|rows|, i requires 0 <= i < |rows| => ConfirmIf(rows[i], eventId, vendorId))
  }

  function Committed(rows: seq<BudgetItem>, eventId: string, category: string, cost: int): seq<BudgetItem> {
    var i := FirstBudget(rows, eventId, category);
    if i == -1 || cost <= 0 then rows else rows[i := rows[i].(actual := cost, status := "COMMITTED")]
  }

  function ReassignVendor(t: Tables, eventId: string, taskId: string, vendorId: string, cost: int, newId: string)
    : Result<Tables, Error>
  {
    if taskId == "" then Err(BadRequest)
    else if !HasTask(t, eventId, taskId) then Err(NotFound)
    else if vendorId == "" then Err(BadRequest)
    else if vendorId !in t.vendors then Err(NotFound)
    else
      var task := t.tasks[taskId];
      var category := FirstNonEmpty(FirstNonEmpty(task.category, t.vendors[vendorId].category), "general");
      Ok(t.(assignments := Confirmed(Assigned(t.assignments, eventId, vendorId, category, cost, newId), eventId, vendorId),
            tasks := t.tasks[taskId := task.(category := category, providerId := vendorId, status := "ASSIGNED")],
            budget := Committed(t.budget, eventId, category, cost)))
  }

  // ---------------------------------------------------------------------------
  // The other handlers
  // ---------------------------------------------------------------------------

  function ReassignTask(t: Tables, eventId: string, taskId: string, category: Option<string>, priority: Option<string>,
                        duration: Option<int>): Result<Tables, Error>
  {
    if !HasTask(t, eventId, taskId) then Err(NotFound)
    else
      var task := t.tasks[taskId];
      Ok(t.(tasks := t.tasks[taskId := task.(
           category := if category.Some? then category.value else task.category,
           priority := if priority.Some? then priority.value else task.priority,
           duration := if duration.Some? then duration.value else task.duration)]))
  }

  function Shifted(task: Task, p: SchedulePayload): Task {
    var shift := if p.shift != 0 then p.shift else p.delay;
    var moved :=
      if shift != 0 && task.plannedStart.Some? && task.plannedEnd.Some? then
        task.(plannedStart := Some(task.plannedStart.value + shift), plannedEnd := Some(task.plannedEnd.value + shift),
              slack := match task.slack
                       case None => None
                       case Some(s) => Some(if s - shift > 0 then s - shift else 0))
      else task;
    moved.(plannedStart := if p.start.Some? then p.start else moved.plannedStart,
           plannedEnd := if p.end.Some? then p.end else moved.plannedEnd)
  }

  function AdjustSchedule(t: Tables, eventId: string, taskId: string, p: SchedulePayload): Result<Tables, Error> {
    if !HasTask(t, eventId, taskId) then Err(NotFound)
    else Ok(t.(tasks := t.tasks[taskId := Shifted(t.tasks[taskId], p)]))
  }

  function AllocateResource(t: Tables, eventId: string, resourceId: string, taskId: string, quantity: Option<int>)
    : Result<Tables, Error>
  {
    if resourceId !in t.resources || t.resources[resourceId].eventId != eventId then Err(NotFound)
    else if taskId != "" && !HasTask(t, eventId, taskId) then Err(NotFound)
    else
      var r := t.resources[resourceId];
      var bound := if taskId != "" then r.(allocatedTask := taskId, status := "ALLOCATED") else r;
      Ok(t.(resources := t.resources[resourceId := bound.(quantity := if quantity.Some? then quantity.value else r.quantity)]))
  }

  function FirstItem(rows: seq<BudgetItem>, eventId: string, itemId: string): int {
    FirstWhere(rows, (b: BudgetItem) => b.eventId == eventId && b.id == itemId)
  }

  function AdjustBudget(t: Tables, eventId: string, itemId: string, actual: Option<int>, estimated: Option<int>)
    : Result<Tables, Error>
  {
    var i := FirstItem(t.budget, eventId, itemId);
    if i == -1 then Err(NotFound)
    else
      var item := t.budget[i];
      Ok(t.(budget := t.budget[i := item.(actual := if actual.Some? then actual.value else item.actual,
                                          estimated := if estimated.Some? then estimated.value else item.estimated)]))
  }

  // ---------------------------------------------------------------------------
  // PROVIDER_ENGAGEMENT, and the dispatch on the action type
  // ---------------------------------------------------------------------------

  function FirstAssignment(rows: seq<Assignment>, id: string): int {
    FirstWhere(rows, (a: Assignment) => a.id == id)
  }

  /** The assignment is looked up by its id alone, not within the event. */
  function Engage(t: Tables, assignmentId: string): Result<Tables, Error> {
    var i := FirstAssignment(t.assignments, assignmentId);
    if i == -1 then Err(NotFound) else Ok(t.(assignments := t.assignments[i := t.assignments[i].(negotiation := "APPROVED")]))
  }

  // ---------------------------------------------------------------------------
  // CONTRACT_VENDOR
  // ---------------------------------------------------------------------------

  /** `firstTask` is the event's task of the category that the database returns first, or "". */
  datatype ContractPayload = ContractPayload(
    vendorId: string, assignmentId: string, taskId: string, category: string, cost: int, firstTask: string)

  function FirstById(rows: seq<Assignment>, eventId: string, id: string): int {
    FirstWhere(rows, (a: Assignment) => a.eventId == eventId && a.id == id)
  }

  function FirstByBoth(rows: seq<Assignment>, eventId: string, vendorId: string, category: string): int {
    FirstWhere(rows, (a: Assignment) => a.eventId == eventId && a.vendorId == vendorId && a.category == category)
  }

  /** By id, else by vendor and category, else by category, else by vendor. */
  function ContractedRow(rows: seq<Assignment>, eventId: string, p: ContractPayload): (i: int)
    ensures -1 <= i < |rows|
    ensures i >= 0 ==> rows[i].eventId == eventId
  {
    var byId := if p.assignmentId != "" then FirstById(rows, eventId, p.assignmentId) else -1;
    if byId != -1 then byId
    else
      var byBoth := if p.vendorId != "" && p.category != "" then FirstByBoth(rows, eventId, p.vendorId, p.category) else -1;
      if byBoth != -1 then byBoth
      else
        var byCategory := if p.category != "" then FirstByCategory(rows, eventId, p.category) else -1;
        if byCategory != -1 then byCategory
        else if p.vendorId != "" then FirstByVendor(rows, eventId, p.vendorId) else -1
  }

  /** The contracted task: the named one, or else the first of the category. */
  function ContractedTask(t: Tables, eventId: string, p: ContractPayload): (id: Option<string>)
    ensures id.Some? ==> HasTask(t, eventId, id.value)
  {
    if p.taskId != "" then (if HasTask(t, eventId, p.taskId) then Some(p.taskId) else None)
    else if p.category != "" && HasTask(t, eventId, p.firstTask) && t.tasks[p.firstTask].category == p.category then Some(p.firstTask)
    else None
  }

  /** A known assignment is confirmed; otherwise one is created, with its vendor if that is unknown. */
  function WithContract(t: Tables, eventId: string, p: ContractPayload, newId: string): Tables {
    var i := ContractedRow(t.assignments, eventId, p);
    if i != -1 then
      t.(assignments := t.assignments[i := t.assignments[i].(
           status := "CONFIRMED", negotiation := "APPROVED", cost := if p.cost > 0 then p.cost else t.assignments[i].cost)])
    else if p.vendorId != "" && p.category != "" then
      t.(vendors := if p.vendorId in t.vendors then t.vendors else t.vendors[p.vendorId := Vendor(p.category)],
         assignments := t.assignments
                        + [Assignment(newId, eventId, p.vendorId, p.category, "CONFIRMED", "APPROVED", if p.cost > 0 then p.cost else 0)])
    else t
  }

  function WithContractedTask(t: Tables, eventId: string, p: ContractPayload): Tables {
    var id := ContractedTask(t, eventId, p);
    if id.None? then t
    else
      t.(tasks := t.tasks[id.value := t.tasks[id.value].(
           providerId := if p.vendorId != "" then p.vendorId else t.tasks[id.value].providerId, status := "ASSIGNED")])
  }

  function ContractVendor(t: Tables, eventId: string, p: ContractPayload, newId: string): Tables {
    var bound := WithContractedTask(WithContract(t, eventId, p, newId), eventId, p);
    if p.category != "" then bound.(budget := Committed(bound.budget, eventId, p.category, p.cost)) else bound
  }

  datatype Operation =
    | VendorReassignment(taskId: string, vendorId: string, cost: int)
    | TaskReassignment(taskId: string, category: Option<string>, priority: Option<string>, duration: Option<int>)
    | ScheduleAdjustment(taskId: string, schedule: SchedulePayload)
    | ResourceAllocation(resourceId: string, taskId: string, quantity: Option<int>)
    | BudgetAdjustment(itemId: string, actual: Option<int>, estimated: Option<int>)
    | ProviderEngagement(assignmentId: string)
    | Contract(payload: ContractPayload)
    | UnknownOperation(name: string)

  function Operate(t: Tables, eventId: string, op: Operation, newId: string): Result<Tables, Error> {
    match op
    case VendorReassignment(taskId, vendorId, cost) => ReassignVendor(t, eventId, taskId, vendorId, cost, newId)
    case TaskReassignment(taskId, category, priority, duration) => ReassignTask(t, eventId, taskId, category, priority, duration)
    case ScheduleAdjustment(taskId, p) => AdjustSchedule(t, eventId, taskId, p)
    case ResourceAllocation(resourceId, taskId, quantity) => AllocateResource(t, eventId, resourceId, taskId, quantity)
    case BudgetAdjustment(itemId, actual, estimated) => AdjustBudget(t, eventId, itemId, actual, estimated)
    case ProviderEngagement(assignmentId) => Engage(t, assignmentId)
    case Contract(p) => Ok(ContractVendor(t, eventId, p, newId))
    case UnknownOperation(_) => Err(BadRequest)
  }

  // ---------------------------------------------------------------------------
  // The parts of a recovery option
  // ---------------------------------------------------------------------------

  /** `vendorId`, `vendorTask` and `cost` are the first present of their alternative keys. */
  datatype Changes = Changes(
    taskId: string, vendorId: string, vendorTask: string, cost: int,
    reschedules: bool, scheduleTask: string, schedule: Option<SchedulePayload>, shiftMinutes: int,
    resourceId: Option<string>, compression: Option<int>, cancels: bool, cancelled: seq<string>, capacity: Option<int>)

  const NO_CHANGES := Changes("", "", "", 0, false, "", None, 0, None, None, false, [], None)

  function Head(ids: seq<string>): string {
    if ids == [] then "" else ids[0]
  }

  function VendorPart(t: Tables, eventId: string, c: Changes, affected: seq<string>, newId: string): Result<Tables, Error> {
    var taskId := FirstNonEmpty(FirstNonEmpty(c.taskId, c.vendorTask), Head(affected));
    if c.vendorId != "" && taskId != "" then ReassignVendor(t, eventId, taskId, c.vendorId, c.cost, newId) else Ok(t)
  }

  function SchedulePart(t: Tables, eventId: string, c: Changes, affected: seq<string>): Result<Tables, Error> {
    var taskId := FirstNonEmpty(c.scheduleTask, Head(affected));
    var payload := if c.schedule.Some? then c.schedule.value else SchedulePayload(c.shiftMinutes, 0, None, None);
    if c.reschedules && taskId != "" then AdjustSchedule(t, eventId, taskId, payload) else Ok(t)
  }

  function ResourcePart(t: Tables, eventId: string, c: Changes, affected: seq<string>): Result<Tables, Error> {
    if c.resourceId.Some? then
      AllocateResource(t, eventId, c.resourceId.value, FirstNonEmpty(c.taskId, Head(affected)), None)
    else Ok(t)
  }

  function Compressed(task: Task, minutes: int): Task {
    if task.duration == 0 then task
    else
      var d := if task.duration - minutes > 1 then task.duration - minutes else 1;
      task.(duration := d, plannedEnd := if task.plannedStart.Some? then Some(task.plannedStart.value + d) else task.plannedEnd)
  }

  function CompressAll(t: Tables, eventId: string, ids: seq<string>, minutes: int): Tables {
    if ids == [] then t
    else
      var before, id := CompressAll(t, eventId, ids[..|ids| - 1], minutes), ids[|ids| - 1];
      if HasTask(before, eventId, id) then before.(tasks := before.tasks[id := Compressed(before.tasks[id], minutes)])
      else before
  }

  function CancelAll(t: Tables, eventId: string, ids: seq<string>): Tables {
    if ids == [] then t
    else
      var before, id := CancelAll(t, eventId, ids[..|ids| - 1]), ids[|ids| - 1];
      if HasTask(before, eventId, id) then before.(tasks := before.tasks[id := before.tasks[id].(status := "CANCELLED")])
      else before
  }

  function CapacityPart(t: Tables, eventId: string, c: Changes): Tables {
    if c.capacity.Some? && eventId in t.events
    then t.(events := t.events[eventId := t.events[eventId].(guestCount := c.capacity.value)]) else t
  }

  function CancelIds(c: Changes, affected: seq<string>): seq<string> {
    if !c.cancels then [] else if c.cancelled != [] then c.cancelled else affected
  }

  function LateParts(t: Tables, eventId: string, c: Changes, affected: seq<string>): Tables {
    var compressed := if c.compression.Some? then CompressAll(t, eventId, affected, c.compression.value) else t;
    CapacityPart(CancelAll(compressed, eventId, CancelIds(c, affected)), eventId, c)
  }

  /** All parts of an option in their order; the first failure ends it. */
  function ApplyChanges(t: Tables, eventId: string, c: Changes, affected: seq<string>, newId: string): Result<Tables, Error> {
    match VendorPart(t, eventId, c, affected, newId)
    case Err(e) => Err(e)
    case Ok(t1) =>
      match SchedulePart(t1, eventId, c, affected)
      case Err(e) => Err(e)
      case Ok(t2) =>
        match ResourcePart(t2, eventId, c, affected)
        case Err(e) => Err(e)
        case Ok(t3) => Ok(LateParts(t3, eventId, c, affected))
  }

  // ---------------------------------------------------------------------------
  // What handlers leave alone
  // ---------------------------------------------------------------------------

  /** No row of another event, no vendor, and no row's event differs; no row has gone. */
  ghost predicate OnlyEvent(t: Tables, u: Tables, eventId: string) {
    && u.vendors == t.vendors
    && u.events.Keys == t.events.Keys && u.tasks.Keys == t.tasks.Keys && u.resources.Keys == t.resources.Keys
    && (forall id :: id in t.events && id != eventId ==> u.events[id] == t.events[id])
    && (forall id :: id in t.tasks ==> u.tasks[id].eventId == t.tasks[id].eventId)
    && (forall id :: id in t.tasks && t.tasks[id].eventId != eventId ==> u.tasks[id] == t.tasks[id])
    && (forall id :: id in t.resources ==> u.resources[id].eventId == t.resources[id].eventId)
    && (forall id :: id in t.resources && t.resources[id].eventId != eventId ==> u.resources[id] == t.resources[id])
    && AssignmentsOnly(t.assignments, u.assignments, eventId) && BudgetOnly(t.budget, u.budget, eventId)
    && (forall id :: id in t.events ==> u.events[id].executionState == t.events[id].executionState
                                        && u.events[id].ownerId == t.events[id].ownerId)
  }

  ghost predicate AssignmentsOnly(a: seq<Assignment>, b: seq<Assignment>, eventId: string) {
    && |a| <= |b|
    && (forall i :: 0 <= i < |a| ==> b[i].eventId == a[i].eventId && b[i].id == a[i].id)
    && (forall i :: 0 <= i < |a| && a[i].eventId != eventId ==> b[i] == a[i])
    && (forall i :: |a| <= i < |b| ==> b[i].eventId == eventId)
  }

  ghost predicate BudgetOnly(a: seq<BudgetItem>, b: seq<BudgetItem>, eventId: string) {
    && |a| == |b|
    && (forall i :: 0 <= i < |a| ==> b[i].eventId == a[i].eventId && b[i].id == a[i].id)
    && (forall i :: 0 <= i < |a| && a[i].eventId != eventId ==> b[i] == a[i])
  }

  lemma OnlyEventTransitive(t: Tables, u: Tables, v: Tables, eventId: string)
    requires OnlyEvent(t, u, eventId) && OnlyEvent(u, v, eventId)
    ensures OnlyEvent(t, v, eventId)
  {
  }

  lemma {:induction false} ReassignVendorOnlyEvent(t: Tables, eventId: string, taskId: string, vendorId: string, cost: int, newId: string)
    requires ReassignVendor(t, eventId, taskId, vendorId, cost, newId).Ok?
    ensures OnlyEvent(t, ReassignVendor(t, eventId, taskId, vendorId, cost, newId).value, eventId)
  {
    var category := FirstNonEmpty(FirstNonEmpty(t.tasks[taskId].category, t.vendors[vendorId].category), "general");
    AssignmentsOnlyEvent(t.assignments, eventId, vendorId, category, cost, newId);
    CommittedOnlyEvent(t.budget, eventId, category, cost);
    hide AssignmentsOnly, BudgetOnly, Assigned, Confirmed, Committed, FirstNonEmpty;
  }

  lemma AssignmentsOnlyEvent(rows: seq<Assignment>, eventId: string, vendorId: string, category: string, cost: int, newId: string)
    ensures AssignmentsOnly(rows, Confirmed(Assigned(rows, eventId, vendorId, category, cost, newId), eventId, vendorId), eventId)
  {
  }

  lemma CommittedOnlyEvent(rows: seq<BudgetItem>, eventId: string, category: string, cost: int)
    ensures BudgetOnly(rows, Committed(rows, eventId, category, cost), eventId)
  {
  }

  lemma HandlersOnlyEvent(t: Tables, eventId: string, taskId: string, p: SchedulePayload, resourceId: string, quantity: Option<int>)
    ensures var r := AdjustSchedule(t, eventId, taskId, p); r.Ok? ==> OnlyEvent(t, r.value, eventId)
    ensures var r := AllocateResource(t, eventId, resourceId, taskId, quantity); r.Ok? ==> OnlyEvent(t, r.value, eventId)
  {
  }

  lemma TaskOnlyEvent(t: Tables, eventId: string, taskId: string, category: Option<string>, priority: Option<string>, duration: Option<int>)
    ensures var r := ReassignTask(t, eventId, taskId, category, priority, duration); r.Ok? ==> OnlyEvent(t, r.value, eventId)
  {
  }

  lemma BudgetOnlyEvent(t: Tables, eventId: string, itemId: string, actual: Option<int>, estimated: Option<int>)
    ensures var r := AdjustBudget(t, eventId, itemId, actual, estimated); r.Ok? ==> OnlyEvent(t, r.value, eventId)
  {
  }

  /** The vendors are as they were, except that one with the given id may be new. */
  ghost predicate VendorMayBeNew(t: Tables, u: Tables, vendorId: string) {
    t.vendors.Keys <= u.vendors.Keys <= t.vendors.Keys + {vendorId} && forall id :: id in t.vendors ==> u.vendors[id] == t.vendors[id]
  }

  /** A contract writes rows of its event only, besides creating its vendor when that is unknown. */
  lemma ContractOnlyEvent(t: Tables, eventId: string, p: ContractPayload, newId: string)
    ensures var u := ContractVendor(t, eventId, p, newId); OnlyEvent(t.(vendors := u.vendors), u, eventId) && VendorMayBeNew(t, u, p.vendorId)
  {
    var w := WithContract(t, eventId, p, newId);
    var b := WithContractedTask(w, eventId, p);
    var u := ContractVendor(t, eventId, p, newId);
    ContractedAssignmentOnly(t, eventId, p, newId);
    ContractedTaskOnly(w, eventId, p);
    ContractedBudgetOnly(b, eventId, p);
    hide OnlyEvent, WithContract, WithContractedTask, Committed;
    OnlyEventTransitive(t.(vendors := w.vendors), w, b, eventId);
    OnlyEventTransitive(t.(vendors := w.vendors), b, u, eventId);
  }

  lemma ContractedAssignmentOnly(t: Tables, eventId: string, p: ContractPayload, newId: string)
    ensures var w := WithContract(t, eventId, p, newId); OnlyEvent(t.(vendors := w.vendors), w, eventId) && VendorMayBeNew(t, w, p.vendorId)
  {
    hide ContractedRow;
    ContractedRowsOnly(t, eventId, p, newId);
    SameRowsOnly(t.assignments, t.budget, eventId);
    hide AssignmentsOnly, BudgetOnly;
  }

  lemma ContractedRowsOnly(t: Tables, eventId: string, p: ContractPayload, newId: string)
    ensures AssignmentsOnly(t.assignments, WithContract(t, eventId, p, newId).assignments, eventId)
  {
    hide ContractedRow;
  }

  lemma ContractedTaskOnly(t: Tables, eventId: string, p: ContractPayload)
    ensures OnlyEvent(t, WithContractedTask(t, eventId, p), eventId) && WithContractedTask(t, eventId, p).vendors == t.vendors
    ensures WithContractedTask(t, eventId, p).assignments == t.assignments
  {
    hide ContractedTask;
    SameRowsOnly(t.assignments, t.budget, eventId);
    hide AssignmentsOnly, BudgetOnly;
  }

  lemma ContractedBudgetOnly(t: Tables, eventId: string, p: ContractPayload)
    ensures OnlyEvent(t, t.(budget := Committed(t.budget, eventId, p.category, p.cost)), eventId) && OnlyEvent(t, t, eventId)
  {
    CommittedOnlyEvent(t.budget, eventId, p.category, p.cost);
    SameRowsOnly(t.assignments, t.budget, eventId);
    hide AssignmentsOnly, BudgetOnly, Committed;
  }

  lemma SameRowsOnly(assignments: seq<Assignment>, budget: seq<BudgetItem>, eventId: string)
    ensures AssignmentsOnly(assignments, assignments, eventId) && BudgetOnly(budget, budget, eventId)
  {
  }

  /** A contract leaves a confirmed, approved assignment in the event: the one known, or a new last one for the vendor. */
  lemma ContractConfirms(t: Tables, eventId: string, p: ContractPayload, newId: string)
    requires p.vendorId != "" && p.category != ""
    ensures var u, i := ContractVendor(t, eventId, p, newId), ContractedRow(t.assignments, eventId, p);
            var at := if i == -1 then |t.assignments| else i;
            && |u.assignments| == |t.assignments| + (if i == -1 then 1 else 0)
            && u.assignments[at].eventId == eventId && u.assignments[at].status == "CONFIRMED"
            && u.assignments[at].negotiation == "APPROVED" && (p.cost > 0 ==> u.assignments[at].cost == p.cost)
            && (i == -1 ==> u.assignments[at].vendorId == p.vendorId && u.assignments[at].category == p.category
                            && p.vendorId in u.vendors)
  {
    var w := WithContract(t, eventId, p, newId);
    ContractedTaskOnly(w, eventId, p);
    assert ContractVendor(t, eventId, p, newId).assignments == w.assignments && ContractVendor(t, eventId, p, newId).vendors == w.vendors;
    hide Committed, ContractedRow, WithContractedTask, OnlyEvent;
  }

  /** And the contracted task is the vendor's. */
  lemma ContractAssignsTask(t: Tables, eventId: string, p: ContractPayload, newId: string)
    requires p.vendorId != ""
    ensures var u, task := ContractVendor(t, eventId, p, newId), ContractedTask(t, eventId, p);
            task.Some? ==>
              task.value in u.tasks && u.tasks[task.value].providerId == p.vendorId && u.tasks[task.value].status == "ASSIGNED"
  {
    var w := WithContract(t, eventId, p, newId);
    assert w.tasks == t.tasks by {
      hide ContractedRow;
    }
    assert ContractedTask(w, eventId, p) == ContractedTask(t, eventId, p);
    hide Committed, WithContract, ContractedTask;
  }

  lemma EngageOnlyEventIff(t: Tables, eventId: string, id: string)
    requires Engage(t, id).Ok?
    ensures OnlyEvent(t, Engage(t, id).value, eventId) <==>
            var a := t.assignments[FirstAssignment(t.assignments, id)]; a.eventId == eventId || a.negotiation == "APPROVED"
  {
    assert Engage(t, id).value.assignments[FirstAssignment(t.assignments, id)].negotiation == "APPROVED";
  }

  /**
   Every action stays within its event, except that an engagement, which finds its assignment by id
   alone, may approve another event's: it stays within exactly when the assignment is the event's own or
   was approved already. A contract may also create its vendor.
   */
  lemma {:induction false} OperateOnlyEventIff(t: Tables, eventId: string, op: Operation, newId: string)
    requires Operate(t, eventId, op, newId).Ok?
    ensures var u := Operate(t, eventId, op, newId).value;
            OnlyEvent(t.(vendors := u.vendors), u, eventId) <==>
            (op.ProviderEngagement? ==>
              var a := t.assignments[FirstAssignment(t.assignments, op.assignmentId)];
              a.eventId == eventId || a.negotiation == "APPROVED")
    ensures var u := Operate(t, eventId, op, newId).value;
            if op.Contract? then VendorMayBeNew(t, u, op.payload.vendorId) else u.vendors == t.vendors
  {
    assert t.(vendors := t.vendors) == t;
    match op
    case VendorReassignment(taskId, vendorId, cost) =>
      hide OnlyEvent, ReassignVendor;
      ReassignVendorOnlyEvent(t, eventId, taskId, vendorId, cost, newId);
    case ScheduleAdjustment(taskId, p) =>
      hide OnlyEvent, AdjustSchedule;
      HandlersOnlyEvent(t, eventId, taskId, p, "", None);
    case ResourceAllocation(resourceId, taskId, quantity) =>
      hide OnlyEvent, AllocateResource;
      HandlersOnlyEvent(t, eventId, taskId, SchedulePayload(0, 0, None, None), resourceId, quantity);
    case ProviderEngagement(id) =>
      hide OnlyEvent, Engage;
      EngageOnlyEventIff(t, eventId, id);
    case Contract(p) =>
      hide OnlyEvent, ContractVendor, VendorMayBeNew;
      ContractOnlyEvent(t, eventId, p, newId);
    case TaskReassignment(taskId, category, priority, duration) =>
      TaskOnlyEvent(t, eventId, taskId, category, priority, duration);
      hide OnlyEvent, ReassignTask;
    case BudgetAdjustment(itemId, actual, estimated) =>
      BudgetOnlyEvent(t, eventId, itemId, actual, estimated);
      hide OnlyEvent, AdjustBudget;
    case _ =>
  }

  lemma {:induction false} CompressOnlyEvent(t: Tables, eventId: string, ids: seq<string>, minutes: int)
    ensures OnlyEvent(t, CompressAll(t, eventId, ids, minutes), eventId)
  {
    if ids != [] {
      CompressOnlyEvent(t, eventId, ids[..|ids| - 1], minutes);
    }
  }

  lemma {:induction false} CancelOnlyEvent(t: Tables, eventId: string, ids: seq<string>)
    ensures OnlyEvent(t, CancelAll(t, eventId, ids), eventId)
  {
    if ids != [] {
      CancelOnlyEvent(t, eventId, ids[..|ids| - 1]);
    }
  }

  lemma LatePartsOnlyEvent(t: Tables, eventId: string, c: Changes, affected: seq<string>)
    ensures OnlyEvent(t, LateParts(t, eventId, c, affected), eventId)
  {
    hide OnlyEvent, CompressAll, CancelAll;
    var t1 := if c.compression.Some? then CompressAll(t, eventId, affected, c.compression.value) else t;
    var t2 := CancelAll(t1, eventId, CancelIds(c, affected));
    NothingOnlyEvent(t, eventId);
    if c.compression.Some? {
      CompressOnlyEvent(t, eventId, affected, c.compression.value);
    }
    CancelOnlyEvent(t1, eventId, CancelIds(c, affected));
    CapacityOnlyEvent(t2, eventId, c);
    OnlyEventTransitive(t, t1, t2, eventId);
    OnlyEventTransitive(t, t2, CapacityPart(t2, eventId, c), eventId);
  }

  lemma NothingOnlyEvent(t: Tables, eventId: string)
    ensures OnlyEvent(t, t, eventId)
  {
  }

  lemma CapacityOnlyEvent(t: Tables, eventId: string, c: Changes)
    ensures OnlyEvent(t, CapacityPart(t, eventId, c), eventId)
  {
  }

  /** A recovery option, whatever it combines, touches no row of another event. */
  lemma ApplyChangesOnlyEvent(t: Tables, eventId: string, c: Changes, affected: seq<string>, newId: string)
    requires ApplyChanges(t, eventId, c, affected, newId).Ok?
    ensures OnlyEvent(t, ApplyChanges(t, eventId, c, affected, newId).value, eventId)
  {
    hide OnlyEvent, ReassignVendor, AdjustSchedule, AllocateResource, LateParts;
    NothingOnlyEvent(t, eventId);
    var taskId := FirstNonEmpty(FirstNonEmpty(c.taskId, c.vendorTask), Head(affected));
    var t1 := VendorPart(t, eventId, c, affected, newId).value;
    if c.vendorId != "" && taskId != "" {
      ReassignVendorOnlyEvent(t, eventId, taskId, c.vendorId, c.cost, newId);
    }
    var t2 := SchedulePart(t1, eventId, c, affected).value;
    var payload := if c.schedule.Some? then c.schedule.value else SchedulePayload(c.shiftMinutes, 0, None, None);
    NothingOnlyEvent(t1, eventId);
    HandlersOnlyEvent(t1, eventId, FirstNonEmpty(c.scheduleTask, Head(affected)), payload, "", None);
    var t3 := ResourcePart(t2, eventId, c, affected).value;
    NothingOnlyEvent(t2, eventId);
    HandlersOnlyEvent(t2, eventId, FirstNonEmpty(c.taskId, Head(affected)), payload,
                      if c.resourceId.Some? then c.resourceId.value else "", None);
    LatePartsOnlyEvent(t3, eventId, c, affected);
    OnlyEventTransitive(t, t1, t2, eventId);
    OnlyEventTransitive(t, t2, t3, eventId);
    OnlyEventTransitive(t, t3, LateParts(t3, eventId, c, affected), eventId);
  }

  // ---------------------------------------------------------------------------
  // What handlers achieve
  // ---------------------------------------------------------------------------

  /**
   A reassignment gives the task to the vendor, who then has an assignment in the event, and
   all of its assignments there are confirmed.
   */
  lemma VendorIsAssigned(t: Tables, eventId: string, taskId: string, vendorId: string, cost: int, newId: string)
    requires ReassignVendor(t, eventId, taskId, vendorId, cost, newId).Ok?
    ensures var u := ReassignVendor(t, eventId, taskId, vendorId, cost, newId).value;
            && u.tasks[taskId].providerId == vendorId && u.tasks[taskId].status == "ASSIGNED"
            && (exists i :: 0 <= i < |u.assignments| && u.assignments[i].eventId == eventId && u.assignments[i].vendorId == vendorId)
            && (forall i :: 0 <= i < |u.assignments| && u.assignments[i].eventId == eventId && u.assignments[i].vendorId == vendorId
                  ==> u.assignments[i].status == "CONFIRMED")
  {
    var u := ReassignVendor(t, eventId, taskId, vendorId, cost, newId).value;
    var byVendor := FirstByVendor(t.assignments, eventId, vendorId);
    var category := FirstNonEmpty(FirstNonEmpty(t.tasks[taskId].category, t.vendors[vendorId].category), "general");
    var i := if byVendor != -1 then byVendor else FirstByCategory(t.assignments, eventId, category);
    var at := if i == -1 then |t.assignments| else i;
    assert u.assignments[at].eventId == eventId && u.assignments[at].vendorId == vendorId;
  }

  /**
   A positive cost goes to the assignment that was taken over or created and to the category's budget
   item, and to nothing else; without one no cost and no budget row changes.
   */
  lemma VendorCostIsCommitted(t: Tables, eventId: string, taskId: string, vendorId: string, cost: int, newId: string)
    requires ReassignVendor(t, eventId, taskId, vendorId, cost, newId).Ok?
    ensures var u := ReassignVendor(t, eventId, taskId, vendorId, cost, newId).value;
            var b := FirstBudget(t.budget, eventId, u.tasks[taskId].category);
            && u.tasks.Keys == t.tasks.Keys && |u.budget| == |t.budget| && |u.assignments| >= |t.assignments|
            && (cost <= 0 ==> u.budget == t.budget && forall i :: 0 <= i < |t.assignments| ==> u.assignments[i].cost == t.assignments[i].cost)
            && (cost > 0 && b != -1 ==> u.budget[b].actual == cost && u.budget[b].status == "COMMITTED")
            && (forall i :: 0 <= i < |t.budget| && i != b ==> u.budget[i] == t.budget[i])
            && (cost > 0 ==> exists i :: 0 <= i < |u.assignments| && u.assignments[i].vendorId == vendorId && u.assignments[i].cost == cost)
            && (forall i :: 0 <= i < |t.assignments| && u.assignments[i].cost != t.assignments[i].cost ==>
                  u.assignments[i].vendorId == vendorId && u.assignments[i].eventId == eventId && u.assignments[i].cost == cost)
            && (forall i, j :: 0 <= i < j < |t.assignments| ==>
                  u.assignments[i].cost == t.assignments[i].cost || u.assignments[j].cost == t.assignments[j].cost)
  {
    var category := FirstNonEmpty(FirstNonEmpty(t.tasks[taskId].category, t.vendors[vendorId].category), "general");
    AssignedCost(t.assignments, eventId, vendorId, category, cost, newId);
    hide Assigned, Confirmed, FirstByVendor, FirstByCategory, FirstNonEmpty;
  }

  lemma AssignedCost(rows: seq<Assignment>, eventId: string, vendorId: string, category: string, cost: int, newId: string)
    ensures var s := Confirmed(Assigned(rows, eventId, vendorId, category, cost, newId), eventId, vendorId);
            && |s| >= |rows|
            && (cost <= 0 ==> forall i :: 0 <= i < |rows| ==> s[i].cost == rows[i].cost)
            && (cost > 0 ==> exists i :: 0 <= i < |s| && s[i].vendorId == vendorId && s[i].cost == cost)
            && (forall i :: 0 <= i < |rows| && s[i].cost != rows[i].cost ==>
                  s[i].vendorId == vendorId && s[i].eventId == eventId && s[i].cost == cost)
            && (forall i, j :: 0 <= i < j < |rows| ==> s[i].cost == rows[i].cost || s[j].cost == rows[j].cost)
  {
    var byVendor := FirstByVendor(rows, eventId, vendorId);
    var i := if byVendor != -1 then byVendor else FirstByCategory(rows, eventId, category);
    var at := if i == -1 then |rows| else i;
    assert Confirmed(Assigned(rows, eventId, vendorId, category, cost, newId), eventId, vendorId)[at].vendorId == vendorId;
  }

  /** `u` is `t` but for one task; what is not given of it stays. */
  ghost predicate OnlyGivenOfTask(t: Tables, u: Tables, taskId: string, category: Option<string>, priority: Option<string>,
                                  duration: Option<int>)
  {
    && u == t.(tasks := u.tasks) && taskId in t.tasks && u.tasks.Keys == t.tasks.Keys
    && (forall id :: id in t.tasks && id != taskId ==> u.tasks[id] == t.tasks[id])
    && var a, b := t.tasks[taskId], u.tasks[taskId];
       && b.eventId == a.eventId && b.providerId == a.providerId && b.status == a.status
       && b.plannedStart == a.plannedStart && b.plannedEnd == a.plannedEnd && b.slack == a.slack
       && (b.category == a.category || category == Some(b.category)) && (category.Some? ==> b.category == category.value)
       && (b.priority == a.priority || priority == Some(b.priority)) && (priority.Some? ==> b.priority == priority.value)
       && (b.duration == a.duration || duration == Some(b.duration)) && (duration.Some? ==> b.duration == duration.value)
  }

  /** `u` is `t` but for one resource of the event, which now belongs to the given task of the same event, if any. */
  ghost predicate OnlyBound(t: Tables, u: Tables, eventId: string, resourceId: string, taskId: string, quantity: Option<int>) {
    && u == t.(resources := u.resources) && resourceId in t.resources && u.resources.Keys == t.resources.Keys
    && (forall id :: id in t.resources && id != resourceId ==> u.resources[id] == t.resources[id])
    && var a, b := t.resources[resourceId], u.resources[resourceId];
       && b.eventId == a.eventId == eventId
       && (if taskId == "" then b.allocatedTask == a.allocatedTask && b.status == a.status
           else b.allocatedTask == taskId && b.status == "ALLOCATED" && HasTask(u, eventId, taskId))
       && (b.quantity == a.quantity || quantity == Some(b.quantity)) && (quantity.Some? ==> b.quantity == quantity.value)
  }

  /** `u` is `t` but for the given amounts of one budget item of the event. */
  ghost predicate OnlyAmounts(t: Tables, u: Tables, eventId: string, itemId: string, actual: Option<int>, estimated: Option<int>) {
    && u == t.(budget := u.budget) && |u.budget| == |t.budget|
    && exists i :: 0 <= i < |t.budget|
         && t.budget[i].eventId == eventId && t.budget[i].id == itemId && OnlyAmountsAt(t.budget, u.budget, i, actual, estimated)
  }

  ghost predicate OnlyAmountsAt(rows: seq<BudgetItem>, now: seq<BudgetItem>, i: nat, actual: Option<int>, estimated: Option<int>) {
    && i < |rows| == |now| && (forall k :: 0 <= k < |rows| && k != i ==> now[k] == rows[k])
    && var a, b := rows[i], now[i];
       && b.id == a.id && b.eventId == a.eventId && b.category == a.category && b.status == a.status
       && (b.actual == a.actual || actual == Some(b.actual)) && (actual.Some? ==> b.actual == actual.value)
       && (b.estimated == a.estimated || estimated == Some(b.estimated)) && (estimated.Some? ==> b.estimated == estimated.value)
  }

  /** A task reassignment fails without the event's task, and otherwise changes nothing but what it is given. */
  lemma TaskChangesOnlyGiven(t: Tables, eventId: string, taskId: string, category: Option<string>, priority: Option<string>,
                             duration: Option<int>)
    ensures var r := ReassignTask(t, eventId, taskId, category, priority, duration);
            && (r.Ok? <==> HasTask(t, eventId, taskId))
            && (r.Ok? ==> OnlyGivenOfTask(t, r.value, taskId, category, priority, duration))
  {
  }

  /** An allocation fails without the event's resource or its task, and otherwise binds the one to the other. */
  lemma AllocationBinds(t: Tables, eventId: string, resourceId: string, taskId: string, quantity: Option<int>)
    ensures var r := AllocateResource(t, eventId, resourceId, taskId, quantity);
            && (r.Ok? <==> resourceId in t.resources && t.resources[resourceId].eventId == eventId
                           && (taskId == "" || HasTask(t, eventId, taskId)))
            && (r.Ok? ==> OnlyBound(t, r.value, eventId, resourceId, taskId, quantity))
  {
  }

  /** A budget adjustment fails without the event's item, and otherwise changes nothing but the given amounts of it. */
  lemma AmountsChangeOnlyGiven(t: Tables, eventId: string, itemId: string, actual: Option<int>, estimated: Option<int>)
    ensures var r := AdjustBudget(t, eventId, itemId, actual, estimated);
            && (r.Ok? <==> exists i :: 0 <= i < |t.budget| && t.budget[i].eventId == eventId && t.budget[i].id == itemId)
            && (r.Ok? ==> OnlyAmounts(t, r.value, eventId, itemId, actual, estimated))
  {
    var i := FirstItem(t.budget, eventId, itemId);
    if i != -1 {
      assert OnlyAmountsAt(t.budget, AdjustBudget(t, eventId, itemId, actual, estimated).value.budget, i, actual, estimated);
    }
    forall k | 0 <= k < |t.budget| && t.budget[k].eventId == eventId && t.budget[k].id == itemId ensures i != -1 {
      assert t.budget[k] in t.budget;
    }
  }

  /** A pure shift moves both ends of a task, keeps its length, and takes as much off its slack as there is. */
  lemma ShiftKeepsLength(task: Task, shift: int)
    requires task.plannedStart.Some? && task.plannedEnd.Some?
    ensures var moved := Shifted(task, SchedulePayload(shift, 0, None, None));
            && moved.plannedStart == Some(task.plannedStart.value + shift)
            && moved.plannedEnd.Some? && moved.plannedEnd.value - moved.plannedStart.value
                                         == task.plannedEnd.value - task.plannedStart.value
            && (moved.slack.Some? <==> task.slack.Some?)
            && (task.slack.Some? && shift != 0 ==>
                  moved.slack.value >= 0 && (moved.slack.value == task.slack.value - shift || (moved.slack.value == 0 && task.slack.value <= shift)))
            && (shift == 0 ==> moved == task)
  {
  }

  /** Scope shedding cancels exactly the listed tasks of the event, and changes nothing else about any task. */
  lemma {:induction false} CancelsExactlyTheListed(t: Tables, eventId: string, ids: seq<string>)
    ensures var u := CancelAll(t, eventId, ids);
            && u.tasks.Keys == t.tasks.Keys
            && forall id :: id in t.tasks ==>
                 u.tasks[id] == if id in ids && t.tasks[id].eventId == eventId then t.tasks[id].(status := "CANCELLED") else t.tasks[id]
  {
    if ids != [] {
      var front, last := ids[..|ids| - 1], ids[|ids| - 1];
      CancelsExactlyTheListed(t, eventId, front);
      assert ids == front + [last];
    }
  }

  /** Compression never brings a task below one minute, and keeps a started task's end at start plus duration. */
  lemma {:induction false} CompressionKeepsTasksReal(t: Tables, eventId: string, ids: seq<string>, minutes: int, id: string)
    requires id in t.tasks
    ensures CompressAll(t, eventId, ids, minutes).tasks.Keys == t.tasks.Keys
    ensures var task, u := t.tasks[id], CompressAll(t, eventId, ids, minutes).tasks[id];
            && u.eventId == task.eventId && u.plannedStart == task.plannedStart
            && (task.duration >= 1 ==> u.duration >= 1)
            && (minutes >= 0 && task.duration >= 1 ==> u.duration <= task.duration)
            && (u == task || CompressedTask(u))
            && (task.eventId == eventId && task.duration != 0 && id in ids ==> CompressedTask(u))
  {
    if ids != [] {
      var front, last := ids[..|ids| - 1], ids[|ids| - 1];
      CompressionKeepsTasksReal(t, eventId, front, minutes, id);
      assert ids == front + [last];
    }
  }

  predicate CompressedTask(task: Task) {
    task.duration >= 1 && (task.plannedStart.Some? ==> task.plannedEnd == Some(task.plannedStart.value + task.duration))
  }
}
