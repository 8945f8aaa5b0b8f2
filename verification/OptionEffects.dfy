/**
 What an executed recovery option has done, whatever parts it combines: every field of every row of
 the committed tables, told from the tables before and the option alone.
 */
module OptionEffects {
  import opened Common
  import opened Operations
  import opened ActionService
  import opened ActionHistory
  import opened ActionResults
  import opened ActionEffects

  // ---------------------------------------------------------------------------
  // Compression
  // ---------------------------------------------------------------------------

  /** A duration after being compressed k times; nothing is taken from a task without one. */
  function Shortened(duration: int, minutes: int, k: nat): int {
    if k == 0 then duration
    else
      var d := Shortened(duration, minutes, k - 1);
      if d == 0 then 0 else if d - minutes > 1 then d - minutes else 1
  }

  /** Non-negative minutes are taken off as often as the task is listed, down to one minute. */
  lemma {:induction false} ShortenedTo(duration: int, minutes: nat, k: nat)
    requires duration >= 1
    ensures Shortened(duration, minutes, k) == if duration - k * minutes > 1 then duration - k * minutes else 1
  {
    if k > 0 {
      ShortenedTo(duration, minutes, k - 1);
      assert (k - 1) * minutes + minutes == k * minutes;
    }
  }

  lemma {:induction false} ShortenedIsReal(duration: int, minutes: int, k: nat)
    ensures Shortened(duration, minutes, k) == 0 <==> duration == 0
  {
    if k > 0 {
      ShortenedIsReal(duration, minutes, k - 1);
    }
  }

  /** How often a task of the event is compressed. */
  function TimesListed(t: Tables, eventId: string, ids: seq<string>, id: string): nat {
    if HasTask(t, eventId, id) then multiset(ids)[id] else 0
  }

  /** The end of a compressed task is its start plus what is left of its duration. */
  function CompressedEnd(task: Task, end: Option<int>, minutes: int, k: nat): Option<int> {
    if k > 0 && task.duration != 0 && task.plannedStart.Some? then Some(task.plannedStart.value + Shortened(task.duration, minutes, k))
    else end
  }

  lemma {:induction false} CompressedExactly(t: Tables, eventId: string, ids: seq<string>, minutes: int, id: string)
    requires id in t.tasks
    ensures var u, k := CompressAll(t, eventId, ids, minutes), TimesListed(t, eventId, ids, id);
            && u == t.(tasks := u.tasks) && u.tasks.Keys == t.tasks.Keys
            && u.tasks[id] == t.tasks[id].(duration := Shortened(t.tasks[id].duration, minutes, k),
                                           plannedEnd := CompressedEnd(t.tasks[id], t.tasks[id].plannedEnd, minutes, k))
  {
    if ids != [] {
      var front, last := ids[..|ids| - 1], ids[|ids| - 1];
      CompressedExactly(t, eventId, front, minutes, id);
      assert ids == front + [last];
      ShortenedIsReal(t.tasks[id].duration, minutes, TimesListed(t, eventId, front, id));
      CompressKeepsPlaces(t, eventId, front, minutes, last);
    }
  }

  lemma {:induction false} CompressKeepsPlaces(t: Tables, eventId: string, ids: seq<string>, minutes: int, id: string)
    ensures var u := CompressAll(t, eventId, ids, minutes);
            && u == t.(tasks := u.tasks) && u.tasks.Keys == t.tasks.Keys && (HasTask(u, eventId, id) <==> HasTask(t, eventId, id))
  {
    if ids != [] {
      CompressKeepsPlaces(t, eventId, ids[..|ids| - 1], minutes, id);
      CompressKeepsPlaces(t, eventId, ids[..|ids| - 1], minutes, ids[|ids| - 1]);
    }
  }

  // ---------------------------------------------------------------------------
  // One task
  // ---------------------------------------------------------------------------

  /** The option reassigns this task to its vendor. */
  predicate Reassigns(c: Changes, affected: seq<string>, id: string) {
    c.vendorId != "" && id != "" && id == VendorTask(c, affected)
  }

  predicate Reschedules(c: Changes, affected: seq<string>, id: string) {
    c.reschedules && id != "" && id == ScheduleTask(c, affected)
  }

  /** The option lists this task to be cancelled; without a list of its own it cancels what is affected. */
  predicate Cancels(c: Changes, affected: seq<string>, id: string) {
    c.cancels && id in (if c.cancelled != [] then c.cancelled else affected)
  }

  /** How often the option compresses this task. */
  function Compressions(t: Tables, eventId: string, c: Changes, affected: seq<string>, id: string): nat {
    if c.compression.Some? then TimesListed(t, eventId, affected, id) else 0
  }

  function Minutes(c: Changes): int {
    if c.compression.Some? then c.compression.value else 0
  }

  /** Where the task starts and ends before compression. */
  function StartOf(task: Task, c: Changes, affected: seq<string>, id: string): Option<int> {
    if Reschedules(c, affected, id) then MovedEnd(task, task.plannedStart, ScheduleGiven(c), ScheduleGiven(c).start) else task.plannedStart
  }

  function EndOf(task: Task, c: Changes, affected: seq<string>, id: string): Option<int> {
    if Reschedules(c, affected, id) then MovedEnd(task, task.plannedEnd, ScheduleGiven(c), ScheduleGiven(c).end) else task.plannedEnd
  }

  /** Task `a` of the tables before has become `b`, field by field. */
  ghost predicate TaskCarried(t: Tables, eventId: string, c: Changes, affected: seq<string>, id: string, b: Task)
    requires id in t.tasks && (Reassigns(c, affected, id) ==> c.vendorId in t.vendors)
  {
    var a, k := t.tasks[id], Compressions(t, eventId, c, affected, id);
    && b.eventId == a.eventId && b.priority == a.priority
    && b.providerId == (if Reassigns(c, affected, id) then c.vendorId else a.providerId)
    && b.category == (if Reassigns(c, affected, id) then CategoryOf(t, id, c.vendorId) else a.category)
    && b.status == (if Cancels(c, affected, id) && a.eventId == eventId then "CANCELLED"
                    else if Reassigns(c, affected, id) then "ASSIGNED" else a.status)
    && b.duration == Shortened(a.duration, Minutes(c), k)
    && b.plannedStart == StartOf(a, c, affected, id)
    && b.plannedEnd == (if k > 0 && a.duration != 0 && b.plannedStart.Some? then Some(b.plannedStart.value + b.duration)
                        else EndOf(a, c, affected, id))
    && (if Reschedules(c, affected, id) then SlackUsed(a, b, ScheduleGiven(c)) else b.slack == a.slack)
  }

  // ---------------------------------------------------------------------------
  // All rows
  // ---------------------------------------------------------------------------

  ghost predicate TasksCarried(t: Tables, u: Tables, eventId: string, c: Changes, affected: seq<string>) {
    && u.tasks.Keys == t.tasks.Keys
    && forall id :: id in t.tasks ==>
         && (Reassigns(c, affected, id) ==> c.vendorId in t.vendors)
         && TaskCarried(t, eventId, c, affected, id, u.tasks[id])
  }

  /** The vendor's rows and the booked cost, when there is a task to reassign; nothing otherwise. */
  ghost predicate VendorCarried(t: Tables, u: Tables, eventId: string, c: Changes, affected: seq<string>, newId: string) {
    var id := VendorTask(c, affected);
    if !Reassigns(c, affected, id) then u.assignments == t.assignments && u.budget == t.budget
    else
      && HasTask(t, eventId, id) && c.vendorId in t.vendors
      && VendorHasRow(t.assignments, u.assignments, eventId, c.vendorId, CategoryOf(t, id, c.vendorId), c.cost, newId)
      && CostBooked(t.budget, u.budget, eventId, CategoryOf(t, id, c.vendorId), c.cost)
  }

  /** The resource belongs to the task, if there is one; no other resource has changed. */
  ghost predicate ResourceCarried(t: Tables, u: Tables, eventId: string, c: Changes, affected: seq<string>) {
    && u.resources.Keys == t.resources.Keys
    && (c.resourceId.Some? ==> c.resourceId.value in t.resources && t.resources[c.resourceId.value].eventId == eventId)
    && forall id :: id in t.resources ==>
         var a, b := t.resources[id], u.resources[id];
         && b.eventId == a.eventId && b.quantity == a.quantity
         && if c.resourceId == Some(id) && ResourceTask(c, affected) != ""
            then b.allocatedTask == ResourceTask(c, affected) && b.status == "ALLOCATED"
            else b.allocatedTask == a.allocatedTask && b.status == a.status
  }

  /** The guest count of the event is the capacity given; nothing else of any event has changed. */
  ghost predicate CapacityCarried(t: Tables, u: Tables, eventId: string, c: Changes) {
    && u.events.Keys == t.events.Keys
    && forall id :: id in t.events ==>
         && u.events[id].executionState == t.events[id].executionState && u.events[id].ownerId == t.events[id].ownerId
         && u.events[id].guestCount == if id == eventId && c.capacity.Some? then c.capacity.value else t.events[id].guestCount
  }

  ghost predicate Carries(t: Tables, u: Tables, eventId: string, c: Changes, affected: seq<string>, newId: string) {
    && TasksCarried(t, u, eventId, c, affected) && VendorCarried(t, u, eventId, c, affected, newId)
    && ResourceCarried(t, u, eventId, c, affected) && CapacityCarried(t, u, eventId, c)
    && u.vendors == t.vendors && u.stamp == t.stamp
  }

  // ---------------------------------------------------------------------------
  // Part by part
  // ---------------------------------------------------------------------------

  /** After the vendor part. */
  ghost predicate AfterVendor(t: Tables, u: Tables, eventId: string, c: Changes, affected: seq<string>, newId: string) {
    && u == t.(tasks := u.tasks, assignments := u.assignments, budget := u.budget) && u.tasks.Keys == t.tasks.Keys
    && VendorCarried(t, u, eventId, c, affected, newId)
    && forall id :: id in t.tasks ==>
         if Reassigns(c, affected, id) then
           c.vendorId in t.vendors && TaskAssigned(t.tasks[id], u.tasks[id], c.vendorId, CategoryOf(t, id, c.vendorId))
         else u.tasks[id] == t.tasks[id]
  }

  lemma VendorPartDoes(t: Tables, eventId: string, c: Changes, affected: seq<string>, newId: string)
    requires VendorPart(t, eventId, c, affected, newId).Ok?
    ensures AfterVendor(t, VendorPart(t, eventId, c, affected, newId).value, eventId, c, affected, newId)
  {
    hide ReassignVendor, VendorHasRow, CostBooked;
    var id := VendorTask(c, affected);
    if Reassigns(c, affected, id) {
      VendorPartFinds(t, eventId, c, affected, newId);
      VendorIsReassigned(t, eventId, id, c.vendorId, c.cost, newId);
    }
  }

  /** After the schedule part. */
  ghost predicate AfterSchedule(t: Tables, u: Tables, c: Changes, affected: seq<string>) {
    && u == t.(tasks := u.tasks) && u.tasks.Keys == t.tasks.Keys
    && forall id :: id in t.tasks ==>
         if Reschedules(c, affected, id) then Rescheduled(t.tasks[id], u.tasks[id], ScheduleGiven(c)) else u.tasks[id] == t.tasks[id]
  }

  lemma SchedulePartDoes(t: Tables, eventId: string, c: Changes, affected: seq<string>)
    requires SchedulePart(t, eventId, c, affected).Ok?
    ensures AfterSchedule(t, SchedulePart(t, eventId, c, affected).value, c, affected)
  {
    hide Shifted, Rescheduled;
    var id := ScheduleTask(c, affected);
    if Reschedules(c, affected, id) {
      SchedulePartFinds(t, eventId, c, affected);
      ShiftedIsRescheduled(t.tasks[id], ScheduleGiven(c));
    }
  }

  lemma ResourcePartDoes(t: Tables, eventId: string, c: Changes, affected: seq<string>)
    requires ResourcePart(t, eventId, c, affected).Ok?
    ensures var u := ResourcePart(t, eventId, c, affected).value;
            u == t.(resources := u.resources) && ResourceCarried(t, u, eventId, c, affected)
  {
  }

  /** After compression, cancellation and capacity. */
  ghost predicate AfterLate(t: Tables, u: Tables, eventId: string, c: Changes, affected: seq<string>) {
    && u == t.(tasks := u.tasks, events := u.events) && u.tasks.Keys == t.tasks.Keys && CapacityCarried(t, u, eventId, c)
    && forall id :: id in t.tasks ==> LateTask(t, eventId, c, affected, id, u.tasks[id])
  }

  lemma LatePartsDo(t: Tables, eventId: string, c: Changes, affected: seq<string>)
    ensures AfterLate(t, LateParts(t, eventId, c, affected), eventId, c, affected)
  {
    hide CompressAll, CancelAll, Shortened, CompressedEnd, Compressions, Cancels, CancelIds;
    var v := if c.compression.Some? then CompressAll(t, eventId, affected, c.compression.value) else t;
    CompressKeepsPlaces(t, eventId, affected, Minutes(c), "");
    CancelsExactlyTheListed(v, eventId, CancelIds(c, affected));
    CancelChangesTasks(v, eventId, CancelIds(c, affected));
    var u := LateParts(t, eventId, c, affected);
    CapacityPartDoes(t, CancelAll(v, eventId, CancelIds(c, affected)), eventId, c);
    hide CapacityCarried, CapacityPart, LateTask;
    forall id | id in t.tasks ensures LateTask(t, eventId, c, affected, id, u.tasks[id]) {
      LateOnTask(t, eventId, c, affected, id);
    }
  }

  lemma CapacityPartDoes(t: Tables, w: Tables, eventId: string, c: Changes)
    requires w.events == t.events
    ensures var u := CapacityPart(w, eventId, c); u == w.(events := u.events) && CapacityCarried(t, u, eventId, c)
  {
  }

  /** What the late parts make of a task. */
  ghost predicate LateTask(t: Tables, eventId: string, c: Changes, affected: seq<string>, id: string, b: Task)
    requires id in t.tasks
  {
    var a, k := t.tasks[id], Compressions(t, eventId, c, affected, id);
    b == a.(duration := Shortened(a.duration, Minutes(c), k), plannedEnd := CompressedEnd(a, a.plannedEnd, Minutes(c), k),
            status := if Cancels(c, affected, id) && a.eventId == eventId then "CANCELLED" else a.status)
  }

  lemma LateOnTask(t: Tables, eventId: string, c: Changes, affected: seq<string>, id: string)
    requires id in t.tasks
    ensures var v := if c.compression.Some? then CompressAll(t, eventId, affected, c.compression.value) else t;
            var w := CancelAll(v, eventId, CancelIds(c, affected));
            w.tasks.Keys == t.tasks.Keys && LateTask(t, eventId, c, affected, id, w.tasks[id])
  {
    var v := if c.compression.Some? then CompressAll(t, eventId, affected, c.compression.value) else t;
    CompressedByOption(t, eventId, c, affected, id);
    CancelsExactlyTheListed(v, eventId, CancelIds(c, affected));
    hide CompressAll, CancelAll, Shortened, CompressedEnd, Compressions;
  }

  lemma CompressedByOption(t: Tables, eventId: string, c: Changes, affected: seq<string>, id: string)
    requires id in t.tasks
    ensures var v := if c.compression.Some? then CompressAll(t, eventId, affected, c.compression.value) else t;
            var a, k := t.tasks[id], Compressions(t, eventId, c, affected, id);
            && v.tasks.Keys == t.tasks.Keys
            && v.tasks[id] == a.(duration := Shortened(a.duration, Minutes(c), k), plannedEnd := CompressedEnd(a, a.plannedEnd, Minutes(c), k))
  {
    CompressedExactly(t, eventId, affected, Minutes(c), id);
  }

  lemma {:induction false} CancelChangesTasks(t: Tables, eventId: string, ids: seq<string>)
    ensures var u := CancelAll(t, eventId, ids); u == t.(tasks := u.tasks)
  {
    if ids != [] {
      CancelChangesTasks(t, eventId, ids[..|ids| - 1]);
    }
  }

  /** The parts together, on one task. */
  lemma PartsOnTask(t: Tables, t1: Tables, t2: Tables, u: Tables, eventId: string, c: Changes, affected: seq<string>, newId: string,
                    id: string)
    requires AfterVendor(t, t1, eventId, c, affected, newId) && AfterSchedule(t1, t2, c, affected)
    requires t2.tasks.Keys == u.tasks.Keys && id in t.tasks
    requires LateTask(t2, eventId, c, affected, id, u.tasks[id])
    ensures Reassigns(c, affected, id) ==> c.vendorId in t.vendors
    ensures TaskCarried(t, eventId, c, affected, id, u.tasks[id])
  {
    hide VendorCarried, Reassigns, Reschedules, Cancels, ScheduleGiven, Shortened, CategoryOf;
  }

  lemma OptionCarries(t: Tables, eventId: string, c: Changes, affected: seq<string>, newId: string)
    requires ApplyChanges(t, eventId, c, affected, newId).Ok?
    ensures Carries(t, ApplyChanges(t, eventId, c, affected, newId).value, eventId, c, affected, newId)
  {
    var t1 := VendorPart(t, eventId, c, affected, newId).value;
    var t2 := SchedulePart(t1, eventId, c, affected).value;
    var t3 := ResourcePart(t2, eventId, c, affected).value;
    var u := ApplyChanges(t, eventId, c, affected, newId).value;
    VendorPartDoes(t, eventId, c, affected, newId);
    SchedulePartDoes(t1, eventId, c, affected);
    ResourcePartDoes(t2, eventId, c, affected);
    LatePartsDo(t3, eventId, c, affected);
    hide VendorPart, SchedulePart, ResourcePart, LateParts, AfterVendor, AfterSchedule, AfterLate, ResourceCarried, Carries;
    PartsTogether(t, t1, t2, t3, u, eventId, c, affected, newId);
  }

  lemma PartsTogether(t: Tables, t1: Tables, t2: Tables, t3: Tables, u: Tables, eventId: string, c: Changes, affected: seq<string>,
                      newId: string)
    requires AfterVendor(t, t1, eventId, c, affected, newId) && AfterSchedule(t1, t2, c, affected)
    requires t3 == t2.(resources := t3.resources) && ResourceCarried(t2, t3, eventId, c, affected)
    requires AfterLate(t3, u, eventId, c, affected)
    ensures Carries(t, u, eventId, c, affected, newId)
  {
    assert TasksCarried(t, u, eventId, c, affected) by {
      AllTasksCarried(t, t1, t2, t3, u, eventId, c, affected, newId);
    }
    assert VendorCarried(t, u, eventId, c, affected, newId) by {
      hide AfterSchedule, ResourceCarried, TasksCarried, VendorHasRow, CostBooked, TaskAssigned, LateTask, CapacityCarried, HasTask,
           CategoryOf;
      assert t2.assignments == t1.assignments && t2.budget == t1.budget by {
        ScheduleKeepsRows(t1, t2, c, affected);
      }
    }
    ScheduleKeepsRows(t1, t2, c, affected);
    hide AfterSchedule, TasksCarried, VendorCarried, TaskAssigned, LateTask, ResourceTask, CategoryOf, Reassigns, VendorHasRow, CostBooked;
  }

  lemma ScheduleKeepsRows(t: Tables, u: Tables, c: Changes, affected: seq<string>)
    requires AfterSchedule(t, u, c, affected)
    ensures u == t.(tasks := u.tasks)
  {
  }

  lemma AllTasksCarried(t: Tables, t1: Tables, t2: Tables, t3: Tables, u: Tables, eventId: string, c: Changes, affected: seq<string>,
                        newId: string)
    requires AfterVendor(t, t1, eventId, c, affected, newId) && AfterSchedule(t1, t2, c, affected)
    requires t3 == t2.(resources := t3.resources) && AfterLate(t3, u, eventId, c, affected)
    ensures TasksCarried(t, u, eventId, c, affected)
  {
    hide TaskCarried, VendorCarried, Rescheduled, TaskAssigned, Shortened, CompressedEnd, Cancels, CategoryOf, Reassigns, Reschedules,
         CapacityCarried;
    forall id | id in t.tasks
      ensures (Reassigns(c, affected, id) ==> c.vendorId in t.vendors) && TaskCarried(t, eventId, c, affected, id, u.tasks[id])
    {
      assert Compressions(t3, eventId, c, affected, id) == Compressions(t2, eventId, c, affected, id);
      hide AfterVendor, AfterSchedule, Compressions;
      SameKeys(t, t1, t2, eventId, c, affected, newId);
      PartsOnTask(t, t1, t2, u, eventId, c, affected, newId, id);
    }
    hide AfterSchedule;
  }

  lemma SameKeys(t: Tables, t1: Tables, t2: Tables, eventId: string, c: Changes, affected: seq<string>, newId: string)
    requires AfterVendor(t, t1, eventId, c, affected, newId) && AfterSchedule(t1, t2, c, affected)
    ensures t2.tasks.Keys == t.tasks.Keys
  {
  }

  /**
   An executed recovery option leaves in the committed tables what all of its parts together do, and
   nothing else but the update stamp; a call that executes nothing leaves the tables alone.
   */
  lemma OptionAchieves(snap: Snapshot, db: Db, c: Call, chance: Chance)
    requires c.RecoveryCall?
    ensures var t, o := db.tables, OutcomeOf(snap, db, c, chance);
            if o.db.executions == db.executions then o.db.tables == t
            else
              && c.optionId in db.recoveries
              && StampMoves(t, o.db.tables, chance.stamp)
              && var r := db.recoveries[c.optionId];
                 Carries(t, o.db.tables.(stamp := t.stamp), c.eventId, r.changes, r.affected, chance.rowId)
  {
    hide ApplyChanges, Carries, Guard, Authorized, PlanVersion, Find;
    if c.optionId in db.recoveries {
      var t, r := db.tables, db.recoveries[c.optionId];
      var applied := ApplyChanges(t, c.eventId, r.changes, r.affected, chance.rowId);
      if applied.Ok? {
        OptionCarries(t, c.eventId, r.changes, r.affected, chance.rowId);
        CarriesKeepsStamp(t, applied.value, c.eventId, r.changes, r.affected, chance.rowId);
        StampedMoves(t, applied.value, chance.stamp);
      }
    }
    hide Stamped, StampMoves;
  }

  lemma CarriesKeepsStamp(t: Tables, u: Tables, eventId: string, c: Changes, affected: seq<string>, newId: string)
    requires Carries(t, u, eventId, c, affected, newId)
    ensures u.stamp == t.stamp
  {
  }
}
