/**
 Idempotency records (apps/api/app/core/idempotency.py): one record per key, moving between
 PROCESSING, COMPLETED and FAILED until it expires.

 First the service as a class, one call at a time, and what a whole history of calls promises.
 Then check_or_start split at its commit, with any number of callers interleaved.
 */
module Idempotency {
  import opened Common

  datatype Status = PROCESSING | COMPLETED | FAILED

  datatype Response = Response(code: int, body: string)

  /** A row; `response` is what complete stored last, if anything. */
  datatype Record = Record(
    endpoint: string, verb: string, hash: string, status: Status, createdAt: int, expiresAt: int,
    response: Option<Response>)

  /** Granted: the caller executes. Replayed: the stored response. Conflict: an exception. */
  datatype Outcome =
    | Granted
    | Replayed(response: Option<Response>)
    | PayloadMismatch
    | InProgress

  /** The arguments of check_or_start; `hash` is the canonical hash of the payload. */
  datatype Request = Request(key: string, endpoint: string, verb: string, hash: string, ttl: int)

  type Table = map<string, Record>

  // ---------------------------------------------------------------------------
  // One call at a time
  // ---------------------------------------------------------------------------

  predicate Expired(record: Record, now: int) {
    record.expiresAt < now
  }

  function Fresh(request: Request, now: int): Record {
    Record(request.endpoint, request.verb, request.hash, PROCESSING, now, now + request.ttl, None)
  }

  /** What check_or_start answers, and the table it leaves. */
  function Checked(table: Table, request: Request, now: int): (Outcome, Table) {
    if request.key !in table || Expired(table[request.key], now) then
      (Granted, table[request.key := Fresh(request, now)])
    else
      var record := table[request.key];
      if record.hash != request.hash then (PayloadMismatch, table)
      else
        match record.status
        case COMPLETED => (Replayed(record.response), table)
        case PROCESSING => (InProgress, table)
        case FAILED => (Granted, table[request.key := Fresh(request, now).(createdAt := record.createdAt)])
  }

  function Completed(table: Table, key: string, response: Response): Table {
    if key in table then table[key := table[key].(status := COMPLETED, response := Some(response))] else table
  }

  function Failed(table: Table, key: string): Table {
    if key in table then table[key := table[key].(status := FAILED)] else table
  }

  class IdempotencyService {
    var records: Table

    constructor ()
      ensures records == map[]
    {
      records := map[];
    }

    method CheckOrStart(request: Request, now: int) returns (outcome: Outcome)
      modifies this
      ensures (outcome, records) == Checked(old(records), request, now)
      ensures outcome == Granted ==> request.key in records && records[request.key].status == PROCESSING
                                     && records[request.key].hash == request.hash && records[request.key].response == None
      ensures outcome == Granted ==>
                && records[request.key].endpoint == request.endpoint && records[request.key].verb == request.verb
                && records[request.key].expiresAt == now + request.ttl
                && records[request.key].createdAt == if request.key in old(records) && old(records)[request.key].expiresAt >= now
                                                     then old(records)[request.key].createdAt else now
      ensures outcome != Granted ==> records == old(records)
      ensures forall key :: key != request.key ==> (key in records <==> key in old(records))
      ensures forall key :: key != request.key && key in records ==> records[key] == old(records)[key]
    {
      var existing := request.key in records;
      if existing {
        var record := records[request.key];
        if Expired(record, now) {
          records := records - {request.key};
          existing := false;
          assert records[request.key := Fresh(request, now)] == old(records)[request.key := Fresh(request, now)];
        } else {
          if record.hash != request.hash {
            return PayloadMismatch;
          }
          if record.status == COMPLETED {
            return Replayed(record.response);
          } else if record.status == PROCESSING {
            return InProgress;
          }
        }
      }
      if existing {
        records := records[request.key := records[request.key].(
          endpoint := request.endpoint, verb := request.verb, hash := request.hash, status := PROCESSING,
          expiresAt := now + request.ttl, response := None)];
      } else {
        records := records[request.key := Fresh(request, now)];
      }
      return Granted;
    }

    method Complete(key: string, response: Response)
      modifies this
      ensures records == Completed(old(records), key, response)
    {
      if key in records {
        records := records[key := records[key].(status := COMPLETED, response := Some(response))];
      }
    }

    method Fail(key: string)
      modifies this
      ensures records == Failed(old(records), key)
    {
      if key in records {
        records := records[key := records[key].(status := FAILED)];
      }
    }
  }

  // ---------------------------------------------------------------------------
  // Histories
  // ---------------------------------------------------------------------------

  datatype Call =
    | Check(request: Request, now: int)
    | Finish(key: string, response: Response)
    | GiveUp(key: string)

  function After(calls: seq<Call>): Table {
    if calls == [] then map[]
    else
      var before := After(calls[..|calls| - 1]);
      match calls[|calls| - 1]
      case Check(request, now) => Checked(before, request, now).1
      case Finish(key, response) => Completed(before, key, response)
      case GiveUp(key) => Failed(before, key)
  }

  /** What call `i` of a history answered, when it was a check. */
  function Answer(calls: seq<Call>, i: nat): Outcome
    requires i < |calls| && calls[i].Check?
  {
    Checked(After(calls[..i]), calls[i].request, calls[i].now).0
  }

  predicate IsGrant(calls: seq<Call>, i: nat, key: string) {
    i < |calls| && calls[i].Check? && calls[i].request.key == key && Answer(calls, i) == Granted
  }

  /** The last grant of a key, or -1. */
  function LastGrant(calls: seq<Call>, key: string): (g: int)
    ensures -1 <= g < |calls| && (g >= 0 ==> IsGrant(calls, g, key))
    ensures forall i :: g < i < |calls| ==> !IsGrant(calls, i, key)
  {
    if calls == [] then -1
    else
      var before := calls[..|calls| - 1];
      assert forall i :: 0 <= i < |before| ==> before[..i] == calls[..i];
      assert forall i :: 0 <= i < |before| ==> (IsGrant(before, i, key) <==> IsGrant(calls, i, key));
      if IsGrant(calls, |calls| - 1, key) then |calls| - 1 else LastGrant(before, key)
  }

  predicate Settles(call: Call, key: string) {
    (call.Finish? || call.GiveUp?) && call.key == key
  }

  /** The last complete or fail of a key after call `from`, or -1. */
  function LastSettled(calls: seq<Call>, key: string, from: int): (s: int)
    requires from >= -1
    ensures s == -1 || (from < s < |calls| && Settles(calls[s], key))
    ensures forall i :: from < i < |calls| && s < i ==> !Settles(calls[i], key)
  {
    if |calls| <= from + 1 then -1
    else if Settles(calls[|calls| - 1], key) then |calls| - 1
    else LastSettled(calls[..|calls| - 1], key, from)
  }

  /** The last complete of a key after call `from`, or -1. */
  function LastFinished(calls: seq<Call>, key: string, from: int): (s: int)
    requires from >= -1
    ensures s == -1 || (from < s < |calls| && calls[s].Finish? && calls[s].key == key)
    ensures forall i :: from < i < |calls| && s < i ==> !(calls[i].Finish? && calls[i].key == key)
  {
    if |calls| <= from + 1 then -1
    else if calls[|calls| - 1].Finish? && calls[|calls| - 1].key == key then |calls| - 1
    else LastFinished(calls[..|calls| - 1], key, from)
  }

  /**
   The record of a key, told from the history alone: it carries the endpoint, the payload and the expiry of the
   last grant, the status of the last call that settled it since, and the last response stored
   since.
   */
  ghost predicate Tells(calls: seq<Call>, key: string, table: Table) {
    var g := LastGrant(calls, key);
    if g == -1 then key !in table
    else
      var s, f := LastSettled(calls, key, g), LastFinished(calls, key, g);
      && key in table
      && table[key].hash == calls[g].request.hash
      && table[key].endpoint == calls[g].request.endpoint && table[key].verb == calls[g].request.verb
      && table[key].expiresAt == calls[g].now + calls[g].request.ttl
      && table[key].status == (if s == -1 then PROCESSING else if calls[s].Finish? then COMPLETED else FAILED)
      && table[key].response == (if f == -1 then None else Some(calls[f].response))
  }

  /** A check is the last grant if it grants the key, and settles nothing. */
  lemma LastsAfterCheck(before: seq<Call>, request: Request, now: int, key: string)
    ensures var calls := before + [Check(request, now)];
            var granted := request.key == key && Checked(After(before), request, now).0 == Granted;
            && LastGrant(calls, key) == (if granted then |before| else LastGrant(before, key))
            && forall g :: -1 <= g < |before| ==>
                 LastSettled(calls, key, g) == LastSettled(before, key, g)
                 && LastFinished(calls, key, g) == LastFinished(before, key, g)
  {
    hide After, Checked;
    var calls := before + [Check(request, now)];
    assert calls[..|before|] == before;
    assert IsGrant(calls, |before|, key) <==> request.key == key && Checked(After(before), request, now).0 == Granted;
  }

  lemma CheckTells(before: seq<Call>, request: Request, now: int, key: string)
    requires Tells(before, key, After(before))
    ensures var calls := before + [Check(request, now)];
            Tells(calls, key, After(calls))
  {
    hide LastGrant, IsGrant;
    var calls := before + [Check(request, now)];
    LastsAfterCheck(before, request, now, key);
    assert calls[..|before|] == before;
  }

  lemma SettleTells(before: seq<Call>, call: Call, key: string)
    requires Tells(before, key, After(before)) && !call.Check?
    ensures Tells(before + [call], key, After(before + [call]))
  {
    var calls := before + [call];
    assert calls[..|before|] == before;
  }

  lemma {:induction false} HistoryTellsRecord(calls: seq<Call>, key: string)
    ensures Tells(calls, key, After(calls))
  {
    hide Tells, After;
    if calls == [] {
      NothingTold(key);
    } else {
      var before, call := calls[..|calls| - 1], calls[|calls| - 1];
      assert calls == before + [call];
      HistoryTellsRecord(before, key);
      match call
      case Check(request, now) => CheckTells(before, request, now, key);
      case _ => SettleTells(before, call, key);
    }
  }

  lemma NothingTold(key: string)
    ensures Tells([], key, After([]))
  {
  }

  /** The answer of a check, told from the calls before it. */
  function Verdict(calls: seq<Call>, request: Request, now: int): Outcome {
    var g := LastGrant(calls, request.key);
    if g == -1 || calls[g].now + calls[g].request.ttl < now then Granted
    else if calls[g].request.hash != request.hash then PayloadMismatch
    else
      var s, f := LastSettled(calls, request.key, g), LastFinished(calls, request.key, g);
      if s == -1 then InProgress
      else if calls[s].Finish? then Replayed(if f == -1 then None else Some(calls[f].response))
      else Granted
  }

  /** Over every history, every check answers as the earlier calls of its key decide. */
  lemma AnswerFollowsHistory(calls: seq<Call>, i: nat)
    requires i < |calls| && calls[i].Check?
    ensures Answer(calls, i) == Verdict(calls[..i], calls[i].request, calls[i].now)
  {
    hide After, LastGrant, LastSettled, LastFinished;
    HistoryTellsRecord(calls[..i], calls[i].request.key);
  }

  lemma GrantInPrefix(calls: seq<Call>, j: nat, i: nat, key: string)
    requires i < j <= |calls|
    ensures IsGrant(calls[..j], i, key) <==> IsGrant(calls, i, key)
  {
    assert calls[..j][..i] == calls[..i];
  }

  /**
   Two grants of one key, with no grant of it between them, are separated by a fail or by the
   expiry of the first; unless it expired, they are for the same payload.
   */
  lemma GrantsAreSeparated(calls: seq<Call>, i: nat, j: nat, key: string)
    requires i < j && IsGrant(calls, i, key) && IsGrant(calls, j, key)
    requires forall k :: i < k < j ==> !IsGrant(calls, k, key)
    ensures calls[i].now + calls[i].request.ttl < calls[j].now
            || (calls[i].request.hash == calls[j].request.hash
                && exists k :: i < k < j && calls[k] == GiveUp(key))
  {
    hide After, LastSettled, LastFinished, LastGrant;
    var before := calls[..j];
    forall k | 0 <= k < j ensures IsGrant(before, k, key) <==> IsGrant(calls, k, key) {
      GrantInPrefix(calls, j, k, key);
    }
    assert LastGrant(before, key) == i;
    AnswerFollowsHistory(calls, j);
    var s := LastSettled(before, key, i);
    if s != -1 {
      assert before[s] == calls[s];
    }
  }

  /** Every replay returns exactly the response that the last complete since the grant stored. */
  lemma ReplayIsStored(calls: seq<Call>, i: nat)
    requires i < |calls| && calls[i].Check? && Answer(calls, i).Replayed?
    ensures var key := calls[i].request.key;
            var g := LastGrant(calls[..i], key);
            && g >= 0 && calls[g].request.hash == calls[i].request.hash
            && var f := LastFinished(calls[..i], key, g);
               f > g && Answer(calls, i) == Replayed(Some(calls[f].response))
  {
    hide After, LastGrant;
    AnswerFollowsHistory(calls, i);
  }

  // ---------------------------------------------------------------------------
  // Callers interleaved between read and commit
  // ---------------------------------------------------------------------------

  /** What a caller that was not answered at its read is about to commit. */
  datatype Plan =
    | Insert                    // no record was read
    | Overwrite                 // a FAILED record was read
    | Replace                   // an expired record was read, to be deleted

  datatype Caller = Caller(request: Request, readAt: int, phase: Phase)
  datatype Phase = Planned(plan: Plan) | Done(outcome: Outcome)

  /** `finishes` logs the completes, for the statements below. */
  datatype System = System(table: Table, callers: seq<Caller>, clock: int, finishes: seq<(string, Response)>)

  datatype Action =
    | Arrive(request: Request)
    | Commit(c: nat)
    | CompleteKey(key: string, response: Response)
    | FailKey(key: string)
    | Tick

  /** The query and the branches before the commit. */
  function ReadPhase(table: Table, request: Request, now: int): Phase {
    if request.key !in table then Planned(Insert)
    else if Expired(table[request.key], now) then Planned(Replace)
    else if table[request.key].hash != request.hash then Done(PayloadMismatch)
    else
      match table[request.key].status
      case COMPLETED => Done(Replayed(table[request.key].response))
      case PROCESSING => Done(InProgress)
      case FAILED => Planned(Overwrite)
  }

  /** The commit: an insert fails on an existing key; the other two do not look. */
  function CommitPhase(table: Table, caller: Caller): (Outcome, Table)
    requires caller.phase.Planned?
  {
    var key := caller.request.key;
    var record := Fresh(caller.request, caller.readAt);
    if caller.phase.plan.Insert? && key in table then
      if table[key].hash != caller.request.hash then (PayloadMismatch, table)
      else if table[key].status == COMPLETED then (Replayed(table[key].response), table)
      else (InProgress, table)
    else if caller.phase.plan.Overwrite? && key in table then
      (Granted, table[key := record.(createdAt := table[key].createdAt)])
    else (Granted, table[key := record])
  }

  function Next(sys: System, action: Action): System {
    match action
    case Arrive(request) =>
      sys.(callers := sys.callers + [Caller(request, sys.clock, ReadPhase(sys.table, request, sys.clock))])
    case Commit(c) =>
      if c < |sys.callers| && sys.callers[c].phase.Planned? then
        var (outcome, table) := CommitPhase(sys.table, sys.callers[c]);
        sys.(table := table, callers := sys.callers[c := sys.callers[c].(phase := Done(outcome))])
      else sys
    case CompleteKey(key, response) =>
      sys.(table := Completed(sys.table, key, response), finishes := sys.finishes + [(key, response)])
    case FailKey(key) => sys.(table := Failed(sys.table, key))
    case Tick => sys.(clock := sys.clock + 1)
  }

  /** A caller is answered at its read by a record that is neither expired nor failed for its payload, and otherwise has a commit before it. */
  lemma ArrivalTells(sys: System, request: Request)
    ensures var next, key := Next(sys, Arrive(request)), request.key;
            && next.table == sys.table && next.clock == sys.clock && |next.callers| == |sys.callers| + 1
            && next.callers[..|sys.callers|] == sys.callers
            && var caller := next.callers[|sys.callers|];
               && caller.request == request && caller.readAt == sys.clock
               && (caller.phase == Planned(Insert) <==> key !in sys.table)
               && (caller.phase == Planned(Replace) <==> key in sys.table && sys.table[key].expiresAt < sys.clock)
               && (key in sys.table && sys.table[key].expiresAt >= sys.clock ==>
                     && (caller.phase == Done(PayloadMismatch) <==> sys.table[key].hash != request.hash)
                     && (sys.table[key].hash == request.hash ==>
                           caller.phase == match sys.table[key].status
                                           case COMPLETED => Done(Replayed(sys.table[key].response))
                                           case PROCESSING => Done(InProgress)
                                           case FAILED => Planned(Overwrite)))
  {
  }

  /**
   An insert that finds the key taken meanwhile leaves the table alone and is answered by the record it finds;
   every other commit is granted, and puts the caller's own record in its place and no other.
   */
  lemma CommitTells(sys: System, c: nat)
    requires c < |sys.callers| && sys.callers[c].phase.Planned?
    ensures var next, caller, key := Next(sys, Commit(c)), sys.callers[c], sys.callers[c].request.key;
            && |next.callers| == |sys.callers| && next.callers[c].phase.Done? && next.clock == sys.clock
            && var outcome := next.callers[c].phase.outcome;
               if caller.phase.plan == Insert && key in sys.table then
                 && next.table == sys.table
                 && (outcome == PayloadMismatch <==> sys.table[key].hash != caller.request.hash)
                 && (sys.table[key].hash == caller.request.hash ==>
                       outcome == if sys.table[key].status == COMPLETED then Replayed(sys.table[key].response) else InProgress)
               else
                 && outcome == Granted && next.table == sys.table[key := next.table[key]]
                 && var record := next.table[key];
                    && record.endpoint == caller.request.endpoint && record.verb == caller.request.verb
                    && record.hash == caller.request.hash && record.status == PROCESSING && record.response == None
                    && record.expiresAt == caller.readAt + caller.request.ttl
                    && record.createdAt == if caller.phase.plan == Overwrite && key in sys.table then sys.table[key].createdAt
                                           else caller.readAt
  {
  }

  /** Completing and failing settle an existing record of their key alone, and only time moves the clock. */
  lemma SettlingTells(sys: System, key: string, response: Response)
    ensures var done, failed, later := Next(sys, CompleteKey(key, response)), Next(sys, FailKey(key)), Next(sys, Tick);
            && done.callers == failed.callers == later.callers == sys.callers
            && done.clock == failed.clock == sys.clock < later.clock && later.table == sys.table
            && done.table.Keys == failed.table.Keys == sys.table.Keys
            && (forall k :: k in sys.table && k != key ==> done.table[k] == failed.table[k] == sys.table[k])
            && (key in sys.table ==>
                  && done.table[key].status == COMPLETED && done.table[key].response == Some(response)
                  && done.table[key].hash == sys.table[key].hash && done.table[key].expiresAt == sys.table[key].expiresAt
                  && failed.table[key] == sys.table[key].(status := FAILED))
  {
  }

  function Run(sys: System, actions: seq<Action>): System
    decreases |actions|
  {
    if actions == [] then sys else Run(Next(sys, actions[0]), actions[1..])
  }

  /** No fail of the key, and no caller finds its record expired. */
  ghost predicate Undisturbed(sys: System, actions: seq<Action>, key: string)
    decreases |actions|
  {
    actions == [] || (
      && actions[0] != FailKey(key)
      && (actions[0].Arrive? && actions[0].request.key == key && key in sys.table ==> !Expired(sys.table[key], sys.clock))
      && Undisturbed(Next(sys, actions[0]), actions[1..], key))
  }

  predicate HoldsGrant(caller: Caller, key: string) {
    caller.request.key == key && caller.phase == Done(Granted)
  }

  predicate IsReplay(caller: Caller, key: string) {
    caller.request.key == key && caller.phase.Done? && caller.phase.outcome.Replayed?
  }

  function CountGrants(callers: seq<Caller>, key: string): nat {
    if callers == [] then 0
    else CountGrants(callers[..|callers| - 1], key) + (if HoldsGrant(callers[|callers| - 1], key) then 1 else 0)
  }

  /** A caller of the key waits to insert, holds the grant, was refused, or has a stored response. */
  ghost predicate CallerOk(sys: System, caller: Caller, key: string) {
    caller.request.key == key ==>
      match caller.phase
      case Planned(plan) => plan == Insert
      case Done(Replayed(response)) => response.Some? && (key, response.value) in sys.finishes
      case Done(_) => true
  }

  ghost predicate OneHolder(sys: System, key: string) {
    && CountGrants(sys.callers, key) == (if key in sys.table then 1 else 0)
    && (key in sys.table ==>
          && sys.table[key].status != FAILED
          && (sys.table[key].status == COMPLETED ==>
                sys.table[key].response.Some? && (key, sys.table[key].response.value) in sys.finishes))
    && forall c :: 0 <= c < |sys.callers| ==> CallerOk(sys, sys.callers[c], key)
  }

  lemma {:induction false} CountAfterDone(callers: seq<Caller>, c: nat, outcome: Outcome, key: string)
    requires c < |callers| && callers[c].phase.Planned?
    ensures CountGrants(callers[c := callers[c].(phase := Done(outcome))], key)
         == CountGrants(callers, key) + (if callers[c].request.key == key && outcome == Granted then 1 else 0)
  {
    var updated := callers[c := callers[c].(phase := Done(outcome))];
    var n := |callers| - 1;
    if c == n {
      assert updated[..n] == callers[..n];
    } else {
      assert updated[..n] == callers[..n][c := callers[c].(phase := Done(outcome))];
      CountAfterDone(callers[..n], c, outcome, key);
    }
  }

  lemma NextKeepsOneHolder(sys: System, action: Action, key: string)
    requires OneHolder(sys, key) && Undisturbed(sys, [action], key)
    ensures OneHolder(Next(sys, action), key)
  {
    hide CountGrants;
    var next := Next(sys, action);
    match action
    case Arrive(request) => ArriveKeepsCount(sys, request, key);
    case Commit(c) =>
      if c < |sys.callers| && sys.callers[c].phase.Planned? {
        CountAfterDone(sys.callers, c, CommitPhase(sys.table, sys.callers[c]).0, key);
        CommitKeepsOneHolder(sys, c, key);
      }
    case CompleteKey(_, _) =>
      assert forall f :: f in sys.finishes ==> f in next.finishes;
      assert (action.key, action.response) in next.finishes by { LastIsIn(sys.finishes, (action.key, action.response)); }
    case FailKey(_) =>
    case Tick =>
  }

  lemma LastIsIn<T>(s: seq<T>, x: T)
    ensures x in s + [x]
  {
  }

  lemma ArriveKeepsCount(sys: System, request: Request, key: string)
    ensures ReadPhase(sys.table, request, sys.clock) != Done(Granted)
    ensures CountGrants(Next(sys, Arrive(request)).callers, key) == CountGrants(sys.callers, key)
  {
    var callers := Next(sys, Arrive(request)).callers;
    assert callers[..|callers| - 1] == sys.callers;
  }

  lemma CommitKeepsOneHolder(sys: System, c: nat, key: string)
    requires OneHolder(sys, key) && c < |sys.callers| && sys.callers[c].phase.Planned?
    ensures var next := Next(sys, Commit(c));
            && (key in next.table ==>
                  && next.table[key].status != FAILED
                  && (next.table[key].status == COMPLETED ==>
                        next.table[key].response.Some? && (key, next.table[key].response.value) in next.finishes))
            && forall i :: 0 <= i < |next.callers| ==> CallerOk(next, next.callers[i], key)
    ensures var next := Next(sys, Commit(c));
            (key in next.table) == (key in sys.table || sys.callers[c].request.key == key)
    ensures sys.callers[c].request.key == key ==>
              (CommitPhase(sys.table, sys.callers[c]).0 == Granted <==> key !in sys.table)
  {
    hide CountGrants;
    assert CallerOk(sys, sys.callers[c], key);
  }

  lemma {:induction false} RunKeepsOneHolder(sys: System, actions: seq<Action>, key: string)
    requires OneHolder(sys, key) && Undisturbed(sys, actions, key)
    ensures OneHolder(Run(sys, actions), key)
    decreases |actions|
  {
    hide OneHolder, Next;
    if actions != [] {
      NextKeepsOneHolder(sys, actions[0], key);
      RunKeepsOneHolder(Next(sys, actions[0]), actions[1..], key);
    }
  }

  /**
   For a key with no record yet, under every interleaving of any number of callers: as long as
   nobody fails the key and no caller finds it expired, at most one caller is granted, and every
   other is refused or gets a response that complete has stored.
   */
  lemma AtMostOneGrant(table: Table, clock: int, actions: seq<Action>, key: string)
    requires key !in table && Undisturbed(System(table, [], clock, []), actions, key)
    ensures var sys := Run(System(table, [], clock, []), actions);
            && CountGrants(sys.callers, key) <= 1
            && (forall c :: 0 <= c < |sys.callers| && IsReplay(sys.callers[c], key) ==>
                  var response := sys.callers[c].phase.outcome.response;
                  response.Some? && (key, response.value) in sys.finishes)
  {
    RunKeepsOneHolder(System(table, [], clock, []), actions, key);
    var sys := Run(System(table, [], clock, []), actions);
    forall c | 0 <= c < |sys.callers| && IsReplay(sys.callers[c], key)
      ensures var response := sys.callers[c].phase.outcome.response;
              response.Some? && (key, response.value) in sys.finishes
    {
      assert CallerOk(sys, sys.callers[c], key);
    }
  }

  /**
   Outside that case the race is open: two callers with the same key that both read before
   either commits are both granted exactly when there is a record, and it is expired or has
   failed for the payload of both.
   */
  lemma BothGrantedIff(table: Table, clock: int, first: Request, second: Request)
    requires first.key == second.key
    ensures var sys := Run(System(table, [], clock, []), [Arrive(first), Arrive(second), Commit(0), Commit(1)]);
            && |sys.callers| == 2
            && (sys.callers[0].phase == Done(Granted) && sys.callers[1].phase == Done(Granted)
                <==> first.key in table
                     && (Expired(table[first.key], clock)
                         || (table[first.key].status == FAILED
                             && table[first.key].hash == first.hash == second.hash)))
  {
    var actions := [Arrive(first), Arrive(second), Commit(0), Commit(1)];
    var s0 := System(table, [], clock, []);
    var s1 := Next(s0, actions[0]);
    var s2 := Next(s1, actions[1]);
    var s3 := Next(s2, actions[2]);
    var s4 := Next(s3, actions[3]);
    assert actions[1..] == [Arrive(second), Commit(0), Commit(1)];
    assert actions[1..][1..] == [Commit(0), Commit(1)] && actions[1..][1..][1..] == [Commit(1)];
    assert Run(s0, actions) == Run(s1, actions[1..]) == Run(s2, actions[1..][1..]) == Run(s3, [Commit(1)]) == s4;
  }
}
