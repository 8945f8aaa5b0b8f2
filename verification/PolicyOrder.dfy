/**
 In which order the policy looks, which option it then proposes, and what it makes of an executed
 one: told from the calls on record and the options, and over whole runs.
 */
module PolicyOrder {
  import opened Common
  import opened AgentGraph
  import opened AgentRuns
  import opened MockPolicy

  // ---------------------------------------------------------------------------
  // Which option is chosen
  // ---------------------------------------------------------------------------

  predicate Eligible(option: RecoveryOption, failed: seq<string>) {
    option.feasible && forall i :: 0 <= i < |failed| ==> failed[i] != option.id
  }

  /** A strategy that brings in another vendor. */
  predicate ReplacesVendor(option: RecoveryOption) {
    option.strategy == "BACKUP" || option.strategy == "REASSIGN" || option.strategy == "REASSIGN_VENDOR"
  }

  predicate Passes(option: RecoveryOption, failed: seq<string>, backup: bool) {
    Eligible(option, failed) && (backup ==> ReplacesVendor(option))
  }

  ghost predicate IsFirstEligible(options: seq<RecoveryOption>, failed: seq<string>, backup: bool, i: nat) {
    && i < |options| && Passes(options[i], failed, backup)
    && forall k :: 0 <= k < i ==> !Passes(options[k], failed, backup)
  }

  ghost predicate NoneEligible(options: seq<RecoveryOption>, failed: seq<string>, backup: bool) {
    forall k :: 0 <= k < |options| ==> !Passes(options[k], failed, backup)
  }

  /**
   The first feasible option that has not failed and replaces the vendor; without one the first feasible
   one that has not failed; without one the first of all.
   */
  ghost predicate IsChosen(options: seq<RecoveryOption>, failed: seq<string>, chosen: Option<RecoveryOption>) {
    if !NoneEligible(options, failed, true) then exists i: nat :: IsFirstEligible(options, failed, true, i) && chosen == Some(options[i])
    else if !NoneEligible(options, failed, false)
    then exists i: nat :: IsFirstEligible(options, failed, false, i) && chosen == Some(options[i])
    else if options != [] then chosen == Some(options[0])
    else chosen == None
  }

  lemma EligibleIff(option: RecoveryOption, failed: seq<string>)
    ensures Eligible(option, failed) <==> option.feasible && option.id !in failed
  {
  }

  /** The options that the policy goes through. */
  function Filter(options: seq<RecoveryOption>, failed: seq<string>, backup: bool): seq<RecoveryOption> {
    var all := Untried(Feasible(options), failed);
    if backup then Backups(all) else all
  }

  lemma FilterStep(options: seq<RecoveryOption>, failed: seq<string>, backup: bool)
    requires options != []
    ensures Filter(options, failed, backup)
            == (if Passes(options[0], failed, backup) then [options[0]] else []) + Filter(options[1..], failed, backup)
  {
    var head, tail := options[0], options[1..];
    var all := Untried(Feasible(tail), failed);
    EligibleIff(head, failed);
    assert ([head] + Feasible(tail))[1..] == Feasible(tail) && [] + Feasible(tail) == Feasible(tail);
    assert ([head] + all)[1..] == all && [] + all == all && [] + Backups(all) == Backups(all);
    hide Eligible;
  }

  lemma {:induction false} FilterFindsFirst(options: seq<RecoveryOption>, failed: seq<string>, backup: bool)
    ensures var rest := Filter(options, failed, backup);
            && (rest == [] <==> NoneEligible(options, failed, backup))
            && (rest != [] ==> exists i: nat :: IsFirstEligible(options, failed, backup, i) && rest[0] == options[i])
  {
    if options != [] {
      var tail := options[1..];
      FilterFindsFirst(tail, failed, backup);
      FilterStep(options, failed, backup);
      hide Filter, Eligible, ReplacesVendor;
      if Passes(options[0], failed, backup) {
        assert IsFirstEligible(options, failed, backup, 0);
      } else {
        TailIsEligible(options, failed, backup);
        if !NoneEligible(tail, failed, backup) {
          var i: nat :| IsFirstEligible(tail, failed, backup, i) && Filter(tail, failed, backup)[0] == tail[i];
          assert IsFirstEligible(options, failed, backup, i + 1);
        }
      }
    }
  }

  lemma TailIsEligible(options: seq<RecoveryOption>, failed: seq<string>, backup: bool)
    requires options != [] && !Passes(options[0], failed, backup)
    ensures NoneEligible(options, failed, backup) <==> NoneEligible(options[1..], failed, backup)
    ensures forall i: nat :: IsFirstEligible(options[1..], failed, backup, i) ==> IsFirstEligible(options, failed, backup, i + 1)
  {
    var tail := options[1..];
    assert forall k :: 0 < k < |options| ==> options[k] == tail[k - 1];
    if NoneEligible(tail, failed, backup) {
      forall k | 0 <= k < |options| ensures !Passes(options[k], failed, backup) {
        if k > 0 {
          assert options[k] == tail[k - 1];
        }
      }
    }
    if NoneEligible(options, failed, backup) {
      assert forall k :: 0 <= k < |tail| ==> tail[k] == options[k + 1];
    }
  }

  lemma FirstOfFilters(options: seq<RecoveryOption>, failed: seq<string>)
    ensures var all := Untried(Feasible(options), failed);
            IsChosen(options, failed, First(Backups(all), First(all, First(options, None))))
    ensures Untried(Feasible(options), failed) == [] <==> NoneEligible(options, failed, false)
  {
    FilterFindsFirst(options, failed, true);
    FilterFindsFirst(options, failed, false);
    hide Feasible, Untried, Backups, NoneEligible, IsFirstEligible;
  }

  /** After generate_recovery_options the chosen one of all options is selected, before any has failed. */
  lemma GenerationSelects(s: State, r: Reply)
    requires s.decision.tool == "generate_recovery_options" && r.toolStatus == Success
    requires r.toolData.OptionList? && r.toolData.options != []
    ensures var t := ToolNode(s, r); t.options == r.toolData.options && IsChosen(t.options, [], t.selected) && t.selected.Some?
  {
    var options := r.toolData.options;
    FirstOfFilters(options, []);
    NoneFailed(Feasible(options));
    hide Feasible, Untried, Backups, IsChosen, Counts;
  }

  lemma {:induction false} NoneFailed(options: seq<RecoveryOption>)
    ensures Untried(options, []) == options
  {
    if options != [] {
      NoneFailed(options[1..]);
      assert options == [options[0]] + options[1..];
    }
  }

  // ---------------------------------------------------------------------------
  // One decision
  // ---------------------------------------------------------------------------

  /** A call of the tool is on record. */
  predicate OnRecord(history: seq<HistoryEntry>, tool: string) {
    exists i :: 0 <= i < |history| && history[i].tool == tool
  }

  predicate AllOnRecord(history: seq<HistoryEntry>) {
    && OnRecord(history, "get_event_state") && OnRecord(history, "get_provider_status") && OnRecord(history, "analyze_impact")
    && OnRecord(history, "assess_risk") && OnRecord(history, "generate_recovery_options")
  }

  /** The first of the five investigations that is not on record, about the event, the category, or else the incident. */
  ghost predicate Investigates(history: seq<HistoryEntry>, facts: Facts, d: Decision) {
    && d.kind == ToolCall && !d.paused && !OnRecord(history, d.tool)
    && (d.tool == "get_event_state" ==> d.arguments == map["event_id" := facts.eventId])
    && (d.tool != "get_event_state" ==> OnRecord(history, "get_event_state"))
    && (d.tool == "get_provider_status" ==> d.arguments == map["category" := facts.category])
    && (d.tool !in {"get_event_state", "get_provider_status"} ==>
          OnRecord(history, "get_provider_status") && d.arguments == map["incident_id" := facts.incidentId])
    && (d.tool !in {"get_event_state", "get_provider_status", "analyze_impact"} ==> OnRecord(history, "analyze_impact"))
    && (d.tool !in {"get_event_state", "get_provider_status", "analyze_impact", "assess_risk"} ==>
          OnRecord(history, "assess_risk") && d.tool == "generate_recovery_options")
  }

  /** It executes an approved option, and otherwise proposes it. */
  ghost predicate Offers(s: State, d: Decision) {
    && d.tool == "execute_action" && !d.paused
    && (d.kind == ToolCall <==> s.approvalId.Some? || (s.approval.Some? && s.approval.value.approved))
    && (d.kind == ProposeAction <==> d.kind != ToolCall)
    && exists chosen ::
         && IsChosen(s.options, s.failedOptions, chosen)
         && d.arguments == map["recovery_option_id" := if chosen.Some? then chosen.value.id else "rec-1"]
  }

  /** It asks for the verification of the execution, unless that is there; then it completes or fails by its status. */
  ghost predicate Concludes(s: State, facts: Facts, d: Decision)
    requires s.execution.Some?
  {
    var id := if s.execution.value.id != "" then s.execution.value.id else "exec-1";
    if s.verification.None? || s.verification.value.executionId != Some(id) then
      d == Decision(ToolCall, "verify_action", map["action_execution_id" := id], false)
    else
      && (d.kind == Complete <==> s.verification.value.status == "VERIFIED" || s.verification.value.status == "PARTIALLY_VERIFIED"
                                  || s.verification.value.status == "SUCCESS" || facts.lastSucceeded)
      && (d.kind == Fail <==> d.kind != Complete) && !d.paused
  }

  /**
   The policy looks five times in a fixed order; then it fails if every feasible option has failed, offers
   the chosen one if nothing is executed yet, and otherwise concludes from the verification.
   */
  lemma PolicyTable(s: State, facts: Facts)
    ensures var d := IncidentPolicy(s, facts);
            && (!AllOnRecord(s.history) ==> Investigates(s.history, facts, d))
            && (AllOnRecord(s.history) ==>
                  if s.failedOptions != [] && NoneEligible(s.options, s.failedOptions, false) then d.kind == Fail && !d.paused
                  else if s.execution.None? then Offers(s, d)
                  else Concludes(s, facts, d))
  {
    FirstOfFilters(s.options, s.failedOptions);
    ToolNamesDiffer();
    hide Feasible, Untried, Backups, IsChosen, NoneEligible, First;
    TableOnRecord(s);
    var d := IncidentPolicy(s, facts);
    if !AllOnRecord(s.history) {
      PolicyLooks(s, facts);
      hide Called, OnRecord;
    } else if s.execution.None? {
      ChosenTells(s);
      hide Called, OnRecord, ChosenId;
    } else {
      hide Called, OnRecord, ChosenId;
    }
  }

  lemma TableOnRecord(s: State)
    ensures forall tool :: OnRecord(s.history, tool) <==> Called(s.history, tool)
  {
  }

  lemma PolicyLooks(s: State, facts: Facts)
    requires !AllOnRecord(s.history)
    ensures Investigates(s.history, facts, IncidentPolicy(s, facts))
  {
    ToolNamesDiffer();
    TableOnRecord(s);
    hide Called, OnRecord, Candidates, ChosenId;
  }

  lemma ChosenTells(s: State)
    ensures exists chosen :: IsChosen(s.options, s.failedOptions, chosen) && ChosenId(s) == if chosen.Some? then chosen.value.id else "rec-1"
  {
    FirstOfFilters(s.options, s.failedOptions);
    hide Feasible, Untried, Backups, IsChosen;
  }

  // ---------------------------------------------------------------------------
  // Over a run
  // ---------------------------------------------------------------------------

  /** Each investigation on record comes after all that precede it in the list of five. */
  ghost predicate InOrder(history: seq<HistoryEntry>) {
    forall i, a, b :: 0 <= i < |history| && 0 <= a < b < 5 && history[i].tool == INVESTIGATIONS[b] ==>
      Called(history[..i], INVESTIGATIONS[a])
  }

  /** What is called next does not skip an investigation. */
  ghost predicate SkipsNone(history: seq<HistoryEntry>, tool: string) {
    forall a, b :: 0 <= a < b < 5 && tool == INVESTIGATIONS[b] ==> Called(history, INVESTIGATIONS[a])
  }

  ghost predicate OrderInv(m: Machine) {
    InOrder(m.state.history) && (m.node == ToolExecution ==> SkipsNone(m.state.history, m.state.decision.tool))
  }

  lemma InOrderAppend(history: seq<HistoryEntry>, entry: HistoryEntry)
    requires InOrder(history) && SkipsNone(history, entry.tool)
    ensures InOrder(history + [entry])
  {
    hide Called;
    var all := history + [entry];
    forall i, a, b | 0 <= i < |all| && 0 <= a < b < 5 && all[i].tool == INVESTIGATIONS[b] ensures Called(all[..i], INVESTIGATIONS[a]) {
      if i < |history| {
        assert all[..i] == history[..i] && all[i] == history[i];
      } else {
        assert all[..i] == history;
      }
    }
  }

  lemma OthersSkipNone(history: seq<HistoryEntry>, tool: string)
    requires !IsInvestigation(tool)
    ensures SkipsNone(history, tool)
  {
    forall b | 0 <= b < 5 ensures tool != INVESTIGATIONS[b] {
      assert INVESTIGATIONS[b] in INVESTIGATIONS;
    }
  }

  lemma PolicySkipsNone(s: State, facts: Facts)
    requires IncidentPolicy(s, facts).kind == ToolCall
    ensures SkipsNone(s.history, IncidentPolicy(s, facts).tool)
  {
    ToolNamesDiffer();
    hide Called, Candidates, ChosenId;
  }

  lemma OrderStep(m: Machine, r: Reply, facts: Facts, registry: Registry)
    requires OrderInv(m) && GatesExecution(registry)
    requires m.node == Decide && IsIncident(m.state) ==> r.llm == Some(IncidentPolicy(m.state, facts))
    requires m.node == Decide ==> IsIncident(m.state)
    ensures OrderInv(Advance(m, r, registry))
  {
    hide InOrder, SkipsNone, IncidentPolicy, IsIncident, GatesExecution, Called, ObserveNode, InterpretNode, DecideNode, ToolNode,
         ProcessResultNode, ValidateNode, ActNode, VerifyNode, WaitForApprovalNode, EndCompletedNode, EndFailedNode, EndPausedNode,
         RouteAfterDecide, ActEntry, VerifyEntry, IsInvestigation;
    var s := m.state;
    ToolNamesDiffer();
    match m.node
    case Decide =>
      DecisionSkipsNone(s, r, facts, registry);
    case ToolExecution =>
      InOrderAppend(s.history, HistoryEntry(s.decision.tool, s.decision.arguments));
    case Act =>
      ActEntryCalls(s);
      OthersSkipNone(s.history, ActEntry(s).tool);
      InOrderAppend(s.history, ActEntry(s));
    case Verify =>
      VerifyEntryCalls(s);
      OthersSkipNone(s.history, VerifyEntry(s).tool);
      InOrderAppend(s.history, VerifyEntry(s));
    case WaitNode =>
      ApprovalRequestIsOther();
      OthersSkipNone(s.history, "request_action_approval");
      InOrderAppend(s.history, HistoryEntry("request_action_approval", map[]));
      WaitAppends(s, r);
    case _ =>
  }

  lemma ActEntryCalls(s: State)
    ensures ActEntry(s).tool == EXECUTE
  {
  }

  lemma VerifyEntryCalls(s: State)
    ensures VerifyEntry(s).tool == VERIFY
  {
  }

  lemma WaitAppends(s: State, r: Reply)
    ensures WaitForApprovalNode(s, r).history == s.history + [HistoryEntry("request_action_approval", map[])]
  {
  }

  lemma DecisionSkipsNone(s: State, r: Reply, facts: Facts, registry: Registry)
    requires r.llm == Some(IncidentPolicy(s, facts))
    ensures var t := DecideNode(s, r);
            RouteAfterDecide(t, registry) == ToolExecution ==> SkipsNone(t.history, t.decision.tool)
  {
    hide SkipsNone, Called, IncidentPolicy, LoopDetected, MaxAttempts, IsInvestigation;
    ToolNamesDiffer();
    OthersSkipNone(s.history, EXECUTE);
    if IncidentPolicy(s, facts).kind == ToolCall {
      PolicySkipsNone(s, facts);
    }
  }

  lemma {:induction false} TraceOrder(m: Machine, replies: seq<Reply>, facts: seq<Facts>, registry: Registry, i: nat)
    requires OrderInv(m) && GatesExecution(registry) && FollowsPolicy(m, replies, facts, registry) && i <= |replies|
    ensures OrderInv(Trace(m, replies, registry)[i])
    decreases i
  {
    hide Advance, Trace, OrderInv, GatesExecution, IncidentPolicy, IsIncident;
    TraceStart(m, replies, registry);
    if i > 0 {
      TraceOrder(m, replies, facts, registry, i - 1);
      TraceStep(m, replies, registry, i - 1);
      OrderStep(Trace(m, replies, registry)[i - 1], replies[i - 1], facts[i - 1], registry);
    }
  }

  /**
   In every run of the policy, with or without a ticket, the investigations on record have been made in
   the order event, provider, impact, risk, options, none of them left out.
   */
  lemma {:induction false} InvestigatesInOrder(objective: string, approvalId: Option<string>, replies: seq<Reply>, facts: seq<Facts>,
                                               registry: Registry, i: nat, k: nat, b: nat, a: nat)
    requires GatesExecution(registry) && i <= |replies|
    requires FollowsPolicy(Start(objective, approvalId, MAX_AGENT_STEPS, 0), replies, facts, registry)
    requires a < b < 5
    ensures var tools := ["get_event_state", "get_provider_status", "analyze_impact", "assess_risk", "generate_recovery_options"];
            var history := Trace(Start(objective, approvalId, MAX_AGENT_STEPS, 0), replies, registry)[i].state.history;
            k < |history| && history[k].tool == tools[b] ==> exists j :: 0 <= j < k && history[j].tool == tools[a]
  {
    hide Advance, Trace, GatesExecution, FollowsPolicy;
    var m := Start(objective, approvalId, MAX_AGENT_STEPS, 0);
    TraceOrder(m, replies, facts, registry, i);
    var history := Trace(m, replies, registry)[i].state.history;
    if k < |history| && history[k].tool == INVESTIGATIONS[b] {
      var j :| 0 <= j < k && history[..k][j].tool == INVESTIGATIONS[a];
      assert history[j] == history[..k][j];
    }
  }
}
