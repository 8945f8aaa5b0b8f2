/**
 The deterministic decision policy on an incident (MockLLMProvider.decide_next_action,
 apps/api/app/agent/provider.py), and the agent loop driven by it.
 */
module MockPolicy {
  import opened Common
  import opened AgentGraph

  const GET_EVENT_STATE := "get_event_state"
  const GET_PROVIDER_STATUS := "get_provider_status"
  const ANALYZE_IMPACT := "analyze_impact"
  const ASSESS_RISK := "assess_risk"
  const GENERATE_OPTIONS := "generate_recovery_options"
  const EXECUTE := "execute_action"
  const VERIFY := "verify_action"

  /** Arguments and statuses the policy copies from its context. */
  datatype Facts = Facts(eventId: string, category: string, incidentId: string, lastSucceeded: bool)

  predicate Contains(s: string, word: string) {
    word <= s || (s != "" && Contains(s[1..], word))
  }

  const INCIDENT_WORDS := [
    "photographer", "delay", "no-show", "vendor", "caterer", "catering",
    "cancel", "cancellation", "late", "arrive", "failure", "incident",
    "recovery", "broken", "issue", "fix", "disruption", "emergency"]

  predicate MentionsIncident(objective: string) {
    exists i :: 0 <= i < |INCIDENT_WORDS| && Contains(Lower(objective), INCIDENT_WORDS[i])
  }

  predicate IsIncident(s: State) {
    s.incidents || MentionsIncident(s.objective)
  }

  predicate Called(history: seq<HistoryEntry>, tool: string) {
    exists i :: 0 <= i < |history| && history[i].tool == tool
  }

  function Untried(options: seq<RecoveryOption>, failed: seq<string>): seq<RecoveryOption> {
    if options == [] then []
    else (if options[0].id in failed then [] else [options[0]]) + Untried(options[1..], failed)
  }

  /** The options the policy still considers. */
  function Candidates(s: State): seq<RecoveryOption> {
    Untried(Feasible(s.options), s.failedOptions)
  }

  /** The option the policy proposes next. */
  function ChosenId(s: State): string {
    var candidates := Candidates(s);
    var chosen := First(Backups(candidates), First(candidates, First(s.options, None)));
    if chosen.Some? then chosen.value.id else "rec-1"
  }

  function Call(tool: string, arguments: Arguments): Decision {
    Decision(ToolCall, tool, arguments, false)
  }

  /** Steps 1 to 8 of the policy's incident scenario. */
  function IncidentPolicy(s: State, facts: Facts): Decision {
    if !Called(s.history, GET_EVENT_STATE) then Call(GET_EVENT_STATE, map["event_id" := facts.eventId])
    else if !Called(s.history, GET_PROVIDER_STATUS) then Call(GET_PROVIDER_STATUS, map["category" := facts.category])
    else if !Called(s.history, ANALYZE_IMPACT) then Call(ANALYZE_IMPACT, map["incident_id" := facts.incidentId])
    else if !Called(s.history, ASSESS_RISK) then Call(ASSESS_RISK, map["incident_id" := facts.incidentId])
    else if !Called(s.history, GENERATE_OPTIONS) then Call(GENERATE_OPTIONS, map["incident_id" := facts.incidentId])
    else if Candidates(s) == [] && s.failedOptions != [] then FAIL
    else if s.execution.None? then
      var arguments := map["recovery_option_id" := ChosenId(s)];
      if (s.approval.Some? && s.approval.value.approved) || s.approvalId.Some? then Call(EXECUTE, arguments)
      else Decision(ProposeAction, EXECUTE, arguments, false)
    else
      var executionId := FirstNonEmpty(s.execution.value.id, "exec-1");
      if s.verification.None? || s.verification.value.executionId != Some(executionId) then
        Call(VERIFY, map["action_execution_id" := executionId])
      else if s.verification.value.status in ["VERIFIED", "PARTIALLY_VERIFIED", "SUCCESS"] || facts.lastSucceeded then
        Decision(Complete, "", map[], false)
      else FAIL
  }

  /** At every decision about an incident the LLM's reply is the policy's decision. */
  ghost predicate Driven(m: Machine, replies: seq<Reply>, facts: seq<Facts>, registry: Registry) {
    |facts| == |replies| &&
    forall i :: 0 <= i < |replies| ==>
      var at := Trace(m, replies, registry)[i];
      at.node == Decide && IsIncident(at.state) ==> replies[i].llm == Some(IncidentPolicy(at.state, facts[i]))
  }

  /** At every decision the run is about an incident, by its objective or by an open incident record. */
  ghost predicate StaysIncident(m: Machine, replies: seq<Reply>, registry: Registry) {
    forall i :: 0 <= i <= |replies| ==>
      var at := Trace(m, replies, registry)[i];
      at.node == Decide ==> IsIncident(at.state)
  }

  ghost predicate FollowsPolicy(m: Machine, replies: seq<Reply>, facts: seq<Facts>, registry: Registry) {
    Driven(m, replies, facts, registry) && StaysIncident(m, replies, registry)
  }

  // ---------------------------------------------------------------------------
  // The shape of the history
  // ---------------------------------------------------------------------------

  const INVESTIGATIONS := [GET_EVENT_STATE, GET_PROVIDER_STATUS, ANALYZE_IMPACT, ASSESS_RISK, GENERATE_OPTIONS]

  predicate IsInvestigation(tool: string) {
    tool in INVESTIGATIONS
  }

  function Bit(b: bool): nat {
    if b then 1 else 0
  }

  /** How many of the five investigations have been made. */
  function Investigated(history: seq<HistoryEntry>): nat {
    Bit(Called(history, GET_EVENT_STATE)) + Bit(Called(history, GET_PROVIDER_STATUS))
    + Bit(Called(history, ANALYZE_IMPACT)) + Bit(Called(history, ASSESS_RISK)) + Bit(Called(history, GENERATE_OPTIONS))
  }

  /** Investigations once each; every execution is followed at once by its verification. */
  ghost predicate Orderly(history: seq<HistoryEntry>) {
    && (forall i, j :: 0 <= i < j < |history| && history[i].tool == history[j].tool ==> !IsInvestigation(history[i].tool))
    && (forall i :: 0 <= i < |history| ==>
          IsInvestigation(history[i].tool) || history[i].tool == EXECUTE || history[i].tool == VERIFY)
    && (forall i :: 0 <= i < |history| && history[i].tool == EXECUTE ==> i + 1 < |history| && history[i + 1].tool == VERIFY)
    && (forall i :: 0 <= i < |history| && history[i].tool == VERIFY ==> i > 0 && history[i - 1].tool == EXECUTE)
  }

  lemma OrderlyNeverLoops(history: seq<HistoryEntry>)
    requires Orderly(history)
    ensures !LoopDetected(history)
  {
    var n := |history|;
    if n >= 3 {
      var a, b, c := history[n - 3].tool, history[n - 2].tool, history[n - 1].tool;
      assert a == b ==> !IsInvestigation(a);
      assert a == EXECUTE ==> b == VERIFY;
      assert c == VERIFY ==> b == EXECUTE;
      ToolNamesDiffer();
    }
  }

  lemma ToolNamesDiffer()
    ensures EXECUTE != VERIFY && !IsInvestigation(EXECUTE) && !IsInvestigation(VERIFY)
    ensures GET_EVENT_STATE !in {GET_PROVIDER_STATUS, ANALYZE_IMPACT, ASSESS_RISK, GENERATE_OPTIONS}
    ensures GET_PROVIDER_STATUS !in {ANALYZE_IMPACT, ASSESS_RISK, GENERATE_OPTIONS}
    ensures ANALYZE_IMPACT !in {ASSESS_RISK, GENERATE_OPTIONS} && ASSESS_RISK != GENERATE_OPTIONS
  {
    assert |GET_EVENT_STATE| == 15 && |GET_PROVIDER_STATUS| == 19 && |ANALYZE_IMPACT| == 14 && |ASSESS_RISK| == 11;
    assert |GENERATE_OPTIONS| == 25 && |EXECUTE| == 14 && |VERIFY| == 13 && ANALYZE_IMPACT[0] != EXECUTE[0];
  }

  lemma CalledAppend(history: seq<HistoryEntry>, entry: HistoryEntry, tool: string)
    ensures Called(history + [entry], tool) <==> Called(history, tool) || entry.tool == tool
  {
    var all := history + [entry];
    assert all[|history|] == entry;
    if Called(history, tool) {
      var i :| 0 <= i < |history| && history[i].tool == tool;
      assert all[i].tool == tool;
    }
  }

  lemma InvestigatedAppend(history: seq<HistoryEntry>, entry: HistoryEntry)
    ensures Investigated(history + [entry])
         == Investigated(history) + (if IsInvestigation(entry.tool) && !Called(history, entry.tool) then 1 else 0)
  {
    hide Called;
    ToolNamesDiffer();
    CalledAppend(history, entry, GET_EVENT_STATE);
    CalledAppend(history, entry, GET_PROVIDER_STATUS);
    CalledAppend(history, entry, ANALYZE_IMPACT);
    CalledAppend(history, entry, ASSESS_RISK);
    CalledAppend(history, entry, GENERATE_OPTIONS);
  }

  lemma AppendInvestigation(history: seq<HistoryEntry>, entry: HistoryEntry)
    requires Orderly(history) && IsInvestigation(entry.tool) && !Called(history, entry.tool)
    ensures Orderly(history + [entry]) && Investigated(history + [entry]) == Investigated(history) + 1
  {
    hide IsInvestigation;
    ToolNamesDiffer();
    InvestigatedAppend(history, entry);
  }

  lemma AppendAttempt(history: seq<HistoryEntry>, execute: HistoryEntry, verify: HistoryEntry)
    requires Orderly(history) && execute.tool == EXECUTE && verify.tool == VERIFY
    ensures Orderly(history + [execute] + [verify])
    ensures Investigated(history + [execute] + [verify]) == Investigated(history)
  {
    hide IsInvestigation;
    ToolNamesDiffer();
    InvestigatedAppend(history, execute);
    InvestigatedAppend(history + [execute], verify);
  }

  // ---------------------------------------------------------------------------
  // The loop under the policy
  // ---------------------------------------------------------------------------

  /** The registry holds execute_action, and none of the tools the policy calls to look. */
  predicate GatesExecution(registry: Registry) {
    EXECUTE in registry && VERIFY !in registry && forall tool :: tool in INVESTIGATIONS ==> tool !in registry
  }

  /** The history has been extended by one execution that is not verified yet. */
  ghost predicate Executing(history: seq<HistoryEntry>) {
    history != [] && history[|history| - 1].tool == EXECUTE && Orderly(history[..|history| - 1])
  }

  /** What each node can rely on in a run that follows the policy. */
  ghost predicate PolicyInv(m: Machine) {
    var s := m.state;
    var spent := Investigated(s.history) + 2 * s.attempts;
    && s.maxSteps == MAX_AGENT_STEPS && MaxAttempts(s) == DEFAULT_ATTEMPTS
    && s.stepCount <= 11
    && (m.node in {Observe, Interpret, Decide, ValidateAction, Act} ==>
          s.attempts < 3 && Orderly(s.history) && s.stepCount == spent)
    && (m.node == ToolExecution ==>
          && s.attempts < 3 && Orderly(s.history) && s.stepCount == spent
          && (s.decision.tool == VERIFY || (IsInvestigation(s.decision.tool) && !Called(s.history, s.decision.tool))))
    && (m.node == ProcessResult ==>
          && s.attempts < 3
          && (s.lastTool == VERIFY
              || (IsInvestigation(s.lastTool) && Orderly(s.history) && s.stepCount == spent)))
    && (m.node == Verify ==> s.attempts < 3 && Executing(s.history) && s.stepCount == spent + 1)
    && OnceEach(s.history)
  }

  /** Each investigation occurs at most once. */
  ghost predicate OnceEach(history: seq<HistoryEntry>) {
    forall i, j :: 0 <= i < j < |history| && history[i].tool == history[j].tool ==> !IsInvestigation(history[i].tool)
  }

  lemma InvestigatedAtMostFive(history: seq<HistoryEntry>)
    ensures Investigated(history) <= 5
  {
    hide Called;
  }

  /** The policy calls only tools it has not called yet, executes, verifies, or stops. */
  lemma PolicyDecisions(s: State, facts: Facts)
    ensures var d := IncidentPolicy(s, facts);
            && d.kind in {ToolCall, ProposeAction, Complete, Fail} && !d.paused
            && (d.kind == ToolCall ==>
                  d.tool == EXECUTE || d.tool == VERIFY || (IsInvestigation(d.tool) && !Called(s.history, d.tool)))
  {
    hide Called, Candidates, ChosenId;
  }

  lemma {:induction false} DecideStep(m: Machine, r: Reply, facts: Facts, registry: Registry)
    requires PolicyInv(m) && m.node == Decide && GatesExecution(registry)
    requires r.llm == Some(IncidentPolicy(m.state, facts))
    ensures PolicyInv(Advance(m, r, registry))
  {
    hide IncidentPolicy, Called, Investigated, Orderly, MentionsIncident, OnceEach, IsInvestigation, GatesExecution, LoopDetected;
    InvestigatedAtMostFive(m.state.history);
    OrderlyNeverLoops(m.state.history);
    PolicyDecisions(m.state, facts);
    ToolNamesDiffer();
    InvestigationsNotGated(registry);
  }

  lemma InvestigationsNotGated(registry: Registry)
    requires GatesExecution(registry)
    ensures EXECUTE in registry && VERIFY !in registry && forall tool :: IsInvestigation(tool) ==> tool !in registry
  {
  }

  lemma {:induction false} ToolStep(m: Machine, r: Reply, registry: Registry)
    requires PolicyInv(m) && m.node == ToolExecution
    ensures PolicyInv(Advance(m, r, registry))
  {
    hide Called, Investigated, Orderly, MentionsIncident, IsInvestigation, ToolNode;
    var entry := HistoryEntry(m.state.decision.tool, m.state.decision.arguments);
    InvestigatedAtMostFive(m.state.history);
    ToolNamesDiffer();
    if IsInvestigation(entry.tool) {
      AppendInvestigation(m.state.history, entry);
    }
    OnceEachAppend(m.state.history, entry);
  }

  lemma OnceEachAppend(history: seq<HistoryEntry>, entry: HistoryEntry)
    requires OnceEach(history) && (IsInvestigation(entry.tool) ==> !Called(history, entry.tool))
    ensures OnceEach(history + [entry])
  {
    hide IsInvestigation;
  }

  lemma ActStep(m: Machine, r: Reply, registry: Registry)
    requires PolicyInv(m) && m.node == Act
    ensures PolicyInv(Advance(m, r, registry))
  {
    hide Called, Investigated, Orderly, MentionsIncident, IsInvestigation, ExecutedId, ActNode;
    var entry := ActEntry(m.state);
    InvestigatedAtMostFive(m.state.history);
    ToolNamesDiffer();
    InvestigatedAppend(m.state.history, entry);
    OnceEachAppend(m.state.history, entry);
    assert (m.state.history + [entry])[..|m.state.history|] == m.state.history;
  }

  lemma {:induction false} VerifyStep(m: Machine, r: Reply, registry: Registry)
    requires PolicyInv(m) && m.node == Verify
    ensures PolicyInv(Advance(m, r, registry))
  {
    hide Called, Investigated, Orderly, MentionsIncident, IsInvestigation, VerifyNode;
    var s, entry := m.state, VerifyEntry(m.state);
    var before := s.history[..|s.history| - 1];
    InvestigatedAtMostFive(before);
    ToolNamesDiffer();
    AppendAttempt(before, s.history[|s.history| - 1], entry);
    assert s.history == before + [s.history[|s.history| - 1]];
    InvestigatedAppend(before, s.history[|s.history| - 1]);
    OnceEachAppend(s.history, entry);
  }

  lemma {:induction false} OtherStep(m: Machine, r: Reply, registry: Registry)
    requires PolicyInv(m) && m.node !in {Decide, ToolExecution, Act, Verify}
    ensures PolicyInv(Advance(m, r, registry))
  {
    hide Called, Investigated, Orderly, IsInvestigation, OnceEach, Executing,
         ObserveNode, InterpretNode, ValidateNode, ProcessResultNode, WaitForApprovalNode, EndCompletedNode, EndFailedNode, EndPausedNode;
    ToolNamesDiffer();
    ProcessResultKeeps(m.state);
    WaitKeeps(m.state, r);
  }

  lemma ProcessResultKeeps(s: State)
    ensures ProcessResultNode(s).lastTool == s.lastTool && ProcessResultNode(s).lastToolStatus == s.lastToolStatus
  {
  }

  lemma WaitKeeps(s: State, r: Reply)
    requires OnceEach(s.history)
    ensures var t := WaitForApprovalNode(s, r);
            && t.maxSteps == s.maxSteps && MaxAttempts(t) == MaxAttempts(s) && t.stepCount == s.stepCount && OnceEach(t.history)
  {
    hide OnceEach;
    ApprovalRequestIsOther();
    OnceEachAppend(s.history, HistoryEntry("request_action_approval", map[]));
  }

  lemma ApprovalRequestIsOther()
    ensures !IsInvestigation("request_action_approval")
  {
    assert |"request_action_approval"| == 23;
    assert |GET_EVENT_STATE| == 15 && |GET_PROVIDER_STATUS| == 19 && |ANALYZE_IMPACT| == 14 && |ASSESS_RISK| == 11;
    assert |GENERATE_OPTIONS| == 25;
  }

  lemma {:induction false} TracePolicy(m: Machine, replies: seq<Reply>, facts: seq<Facts>, registry: Registry, i: nat)
    requires PolicyInv(m) && GatesExecution(registry) && FollowsPolicy(m, replies, facts, registry) && i <= |replies|
    ensures PolicyInv(Trace(m, replies, registry)[i])
    decreases i
  {
    hide Advance, Trace, PolicyInv, GatesExecution, IncidentPolicy, IsIncident;
    TraceStart(m, replies, registry);
    if i > 0 {
      TracePolicy(m, replies, facts, registry, i - 1);
      TraceStep(m, replies, registry, i - 1);
      var at := Trace(m, replies, registry)[i - 1];
      match at.node
      case Decide => DecideStep(at, replies[i - 1], facts[i - 1], registry);
      case ToolExecution => ToolStep(at, replies[i - 1], registry);
      case Act => ActStep(at, replies[i - 1], registry);
      case Verify => VerifyStep(at, replies[i - 1], registry);
      case _ => OtherStep(at, replies[i - 1], registry);
    }
  }

  /**
   Driven by the policy in a run that stays about an incident, for every tool outcome, approval and
   verification: at every moment at most 11 steps are counted and every investigation has been
   made at most once; and at every decision the step limit, the attempt limit and the
   repeated-call guard are all still open.
   */
  lemma {:induction false} PolicyRunsAreShort(objective: string, approvalId: Option<string>,
                           replies: seq<Reply>, facts: seq<Facts>, registry: Registry, i: nat)
    requires GatesExecution(registry) && i <= |replies|
    requires FollowsPolicy(Start(objective, approvalId, MAX_AGENT_STEPS, 0), replies, facts, registry)
    ensures var at := Trace(Start(objective, approvalId, MAX_AGENT_STEPS, 0), replies, registry)[i];
            && at.state.stepCount <= 5 + 2 * DEFAULT_ATTEMPTS == 11
            && OnceEach(at.state.history)
            && (at.node == Decide ==>
                  at.state.stepCount < at.state.maxSteps && at.state.attempts < MaxAttempts(at.state)
                  && !LoopDetected(at.state.history))
  {
    hide GatesExecution, FollowsPolicy, LoopDetected;
    var m := Start(objective, approvalId, MAX_AGENT_STEPS, 0);
    assert Investigated([]) == 0;
    TracePolicy(m, replies, facts, registry, i);
    var at := Trace(m, replies, registry)[i];
    if at.node == Decide {
      OrderlyNeverLoops(at.state.history);
    }
  }

  // ---------------------------------------------------------------------------
  // When a run stays about an incident
  // ---------------------------------------------------------------------------

  /** The given objective mentions an incident, or without one every derived objective does and no shortcut is taken. */
  ghost predicate IncidentObjective(objective: string, replies: seq<Reply>) {
    if objective != "" then MentionsIncident(objective)
    else forall k :: 0 <= k < |replies| ==> replies[k].startOperations.None? && MentionsIncident(replies[k].objective)
  }

  /** Before the objective is derived there may be none; from then on it mentions an incident. */
  ghost predicate ObjectiveInv(m: Machine) {
    m.node !in {End, Crashed} ==>
      MentionsIncident(m.state.objective) || (m.state.objective == "" && m.node in {Observe, Interpret, EndCompleted})
  }

  lemma ObjectiveStep(m: Machine, r: Reply, registry: Registry)
    requires ObjectiveInv(m)
    requires m.state.objective == "" ==> r.startOperations.None? && MentionsIncident(r.objective)
    ensures ObjectiveInv(Advance(m, r, registry))
    ensures m.state.objective != "" ==> Advance(m, r, registry).state.objective == m.state.objective
  {
    hide MentionsIncident, ObserveNode, ToolNode, ProcessResultNode, ValidateNode, ActNode, DecideNode, VerifyNode,
         EndCompletedNode, EndFailedNode, EndPausedNode, RouteAfterDecide;
    if m.state.objective == "" {
      NothingMentioned();
      ObserveKeepsObjective(m.state, r);
    }
  }

  lemma ObserveKeepsObjective(s: State, r: Reply)
    ensures ObserveNode(s, r).objective == s.objective
  {
  }

  lemma NothingMentioned()
    ensures !MentionsIncident("")
  {
    forall i | 0 <= i < |INCIDENT_WORDS| ensures !Contains(Lower(""), INCIDENT_WORDS[i]) {
      assert |INCIDENT_WORDS[i]| > 0;
    }
  }

  lemma {:induction false} TraceObjective(objective: string, approvalId: Option<string>, replies: seq<Reply>, registry: Registry, i: nat)
    requires i <= |replies| && IncidentObjective(objective, replies)
    ensures var at := Trace(Start(objective, approvalId, MAX_AGENT_STEPS, 0), replies, registry)[i];
            ObjectiveInv(at) && (objective != "" ==> at.state.objective == objective)
    decreases i
  {
    hide Advance, Trace, ObjectiveInv, MentionsIncident;
    var m := Start(objective, approvalId, MAX_AGENT_STEPS, 0);
    TraceStart(m, replies, registry);
    if i > 0 {
      TraceObjective(objective, approvalId, replies, registry, i - 1);
      TraceStep(m, replies, registry, i - 1);
      ObjectiveStep(Trace(m, replies, registry)[i - 1], replies[i - 1], registry);
    } else {
      StartHasObjective(objective, approvalId, replies);
    }
  }

  lemma StartHasObjective(objective: string, approvalId: Option<string>, replies: seq<Reply>)
    requires IncidentObjective(objective, replies)
    ensures ObjectiveInv(Start(objective, approvalId, MAX_AGENT_STEPS, 0))
  {
    hide MentionsIncident;
  }

  lemma {:induction false} ContainsAt(s: string, i: nat, word: string)
    requires i <= |s| && word <= s[i..]
    ensures Contains(s, word)
    decreases i
  {
    if i == 0 {
      assert s[0..] == s;
    } else {
      assert s[1..][i - 1..] == s[i..];
      ContainsAt(s[1..], i - 1, word);
    }
  }

  /** The objective that the interpretation derives for a disruption begins like this and mentions one, whatever follows. */
  lemma DerivedObjectiveMentions(rest: string)
    ensures MentionsIncident("Investigate disruption" + rest)
  {
    var prefix := "Investigate disruption";
    var text := Lower(prefix + rest);
    assert prefix[12] == 'd' && prefix[13] == 'i' && prefix[14] == 's' && prefix[15] == 'r' && prefix[16] == 'u';
    assert prefix[17] == 'p' && prefix[18] == 't' && prefix[19] == 'i' && prefix[20] == 'o' && prefix[21] == 'n';
    assert text[12..22] == INCIDENT_WORDS[16];
    assert INCIDENT_WORDS[16] <= text[12..];
    ContainsAt(text, 12, INCIDENT_WORDS[16]);
  }

  /** A run stays about an incident when its objective, given or derived, mentions one. */
  lemma {:induction false} IncidentObjectiveFollows(objective: string, approvalId: Option<string>,
                                 replies: seq<Reply>, facts: seq<Facts>, registry: Registry)
    requires IncidentObjective(objective, replies)
    requires Driven(Start(objective, approvalId, MAX_AGENT_STEPS, 0), replies, facts, registry)
    ensures FollowsPolicy(Start(objective, approvalId, MAX_AGENT_STEPS, 0), replies, facts, registry)
  {
    hide Trace, MentionsIncident, IncidentObjective, Driven;
    var m := Start(objective, approvalId, MAX_AGENT_STEPS, 0);
    forall i | 0 <= i <= |replies| && Trace(m, replies, registry)[i].node == Decide
      ensures IsIncident(Trace(m, replies, registry)[i].state)
    {
      TraceObjective(objective, approvalId, replies, registry, i);
    }
  }

  /** The default registry gates execution as the policy expects. */
  lemma DefaultRegistryGates()
    ensures GatesExecution(DEFAULT_REGISTRY)
  {
    assert |"execute_action"| == 14 && |"modify_event_plan"| == 17 && |"execute_recovery"| == 16;
    assert |"pause_event"| == 11 && |"resume_event"| == 12;
    assert |GET_EVENT_STATE| == 15 && |GET_PROVIDER_STATUS| == 19 && |ANALYZE_IMPACT| == 14 && |ASSESS_RISK| == 11;
    assert |GENERATE_OPTIONS| == 25 && |VERIFY| == 13;
    assert ANALYZE_IMPACT[0] == 'a' && ASSESS_RISK[0] == 'a' && "pause_event"[0] == 'p' && EXECUTE[0] == 'e';
  }
}
