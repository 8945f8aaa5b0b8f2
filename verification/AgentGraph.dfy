/**
 The bounded agent loop (apps/api/app/agent/graph.py): twelve nodes, the routes between them,
 and the guards on steps, attempts, repeated calls, pause and approval.

 Everything a node learns from outside (database, tools, the LLM, the verification service) is
 one arbitrary Reply; a run is driven by an arbitrary sequence of replies.
 */
module AgentGraph {
  import opened Common

  // ---------------------------------------------------------------------------
  // State
  // ---------------------------------------------------------------------------

  type Arguments = map<string, string>

  /** `paused` stands for the reason code EVENT_EXECUTION_PAUSED; an absent tool name is "". */
  datatype DecisionType = ToolCall | ProposeAction | RequestApproval | Wait | Complete | Fail
  datatype Decision = Decision(kind: DecisionType, tool: string, arguments: Arguments, paused: bool)

  datatype RecoveryOption = RecoveryOption(id: string, feasible: bool, strategy: string)
  datatype Approval = Approval(id: string, approved: bool, recoveryOptionId: string)
  datatype Execution = Execution(id: string, recoveryOptionId: string)
  datatype Verification = Verification(status: string, executionId: Option<string>)
  datatype Authorization = Authorization(allowed: bool, requiresApproval: bool)

  datatype ToolStatus = Success | Failure | RequiresApproval | VerificationFailed | Unsupported | Unknown
  datatype ToolData =
    | NoData
    | OptionList(options: seq<RecoveryOption>)
    | ExecutionData(execution: Execution)
    | VerificationData(verification: Verification)
    | OtherData

  datatype HistoryEntry = HistoryEntry(tool: string, arguments: Arguments)

  datatype Status =
    | Initialized | Observing | Interpreting | Deciding | ExecutingTool | ReEvaluating | NeedsApproval | Authorized
    | PendingApproval | Executed | Verified | RecoveryFailed | Completed | Failed | Paused | StepLimitReached
    | WaitingForUserSelection | WaitingForApproval | WaitingApproval | OtherStatus(name: string)

  /** The part of AgentState that routing and guards depend on. */
  datatype State = State(
    stepCount: nat, maxSteps: int, history: seq<HistoryEntry>,
    attempts: nat, maxAttempts: nat, failedOptions: seq<string>,
    objective: string, paused: bool, incidents: bool,
    options: seq<RecoveryOption>, selected: Option<RecoveryOption>,
    approvalId: Option<string>, approval: Option<Approval>, pendingApproval: bool, authorization: Option<Authorization>,
    execution: Option<Execution>, verification: Option<Verification>, verificationStatus: string,
    decision: Decision, lastTool: string, lastToolStatus: ToolStatus,
    status: Status, termination: Option<Status>)

  /** What one visit of a node learns from outside; `raises` is an exception of a service. */
  datatype Reply = Reply(
    raises: bool,
    paused: bool, incidents: bool, approval: Option<Approval>, approvedOption: Option<RecoveryOption>,
    existing: Option<Execution>,
    startOperations: Option<Status>, modifyPlan: bool, objective: string,
    llm: Option<Decision>,
    toolStatus: ToolStatus, toolData: ToolData,
    authorization: Authorization,
    ticket: string,
    executionId: string,
    verification: Verification)

  datatype Node =
    | Observe | Interpret | Decide | ToolExecution | ProcessResult | ValidateAction | WaitNode | Act | Verify
    | EndCompleted | EndFailed | EndPaused
    | End        // the graph returned
    | Crashed    // a node raised

  datatype Machine = Machine(node: Node, state: State)

  /** The tools registered as WRITE tools that require approval. */
  type Registry = set<string>

  const DEFAULT_REGISTRY: Registry :=
    {"execute_action", "modify_event_plan", "execute_recovery", "pause_event", "resume_event"}

  const MAX_AGENT_STEPS := 12
  const DEFAULT_ATTEMPTS: nat := 3

  /** state.get("max_recovery_attempts") or 3 */
  function MaxAttempts(s: State): nat {
    if s.maxAttempts == 0 then DEFAULT_ATTEMPTS else s.maxAttempts
  }

  // ---------------------------------------------------------------------------
  // Nodes
  // ---------------------------------------------------------------------------

  /** `t` differs from `s` by the calls appended to the history, one step each, and the attempts. */
  predicate Counts(s: State, t: State, calls: seq<HistoryEntry>, attempts: nat) {
    && t.stepCount == s.stepCount + |calls| && t.history == s.history + calls
    && (calls == [] ==> t.history == s.history)
    && t.attempts == s.attempts + attempts
    && t.maxSteps == s.maxSteps && MaxAttempts(t) == MaxAttempts(s) && t.approvalId == s.approvalId
    && (s.objective != "" ==> t.objective == s.objective)
  }

  function ObserveNode(s: State, r: Reply): (t: State)
    ensures Counts(s, t, [], 0)
  {
    var approval := if s.approvalId.Some? then r.approval else None;
    var granted := approval.Some? && approval.value.approved;
    var selected := if approval.Some? && approval.value.recoveryOptionId != "" && r.approvedOption.Some?
                    then r.approvedOption else s.selected;
    var execution := if s.approvalId.Some? && s.execution.None? then r.existing else s.execution;
    s.(paused := r.paused, incidents := r.incidents, selected := selected, approval := approval,
       execution := execution, pendingApproval := if s.approvalId.Some? then !granted else s.pendingApproval,
       maxAttempts := MaxAttempts(s), status := Observing)
  }

  function InterpretNode(s: State, r: Reply): (t: State)
    ensures Counts(s, t, [], 0)
  {
    if r.startOperations.Some? then
      s.(status := r.startOperations.value, termination := r.startOperations)
    else if !s.incidents && r.modifyPlan then
      s.(status := Completed, termination := Some(Completed))
    else
      s.(objective := if s.objective == "" then r.objective else s.objective, status := Interpreting)
  }

  /** Three identical calls in a row. */
  predicate LoopDetected(history: seq<HistoryEntry>) {
    |history| >= 3 && history[|history| - 3] == history[|history| - 2] == history[|history| - 1]
  }

  const FAIL := Decision(Fail, "", map[], false)

  datatype Verdict = Verdict(decision: Decision, status: Status, termination: Option<Status>)

  /** The guards in their order, then the LLM. */
  function Decided(s: State, r: Reply): Verdict {
    if s.stepCount >= s.maxSteps then Verdict(FAIL, Failed, Some(StepLimitReached))
    else if s.attempts >= MaxAttempts(s) then Verdict(FAIL, RecoveryFailed, Some(RecoveryFailed))
    else if LoopDetected(s.history) then Verdict(FAIL, Failed, Some(Failed))
    else if s.approval.Some? && s.approval.value.approved && s.execution.None? then
      var arguments := map["recovery_option_id" := s.approval.value.recoveryOptionId,
                           "approval_request_id" := s.approval.value.id];
      Verdict(Decision(ToolCall, "execute_action", arguments, false), Deciding, s.termination)
    else if s.paused then Verdict(Decision(Wait, "", map[], true), Paused, Some(Paused))
    else Verdict(if r.llm.Some? then r.llm.value else FAIL, Deciding, s.termination)
  }

  function DecideNode(s: State, r: Reply): (t: State)
    ensures Counts(s, t, [], 0)
  {
    var v := Decided(s, r);
    s.(decision := v.decision, status := v.status, termination := v.termination)
  }

  function RouteAfterDecide(s: State, registry: Registry): Node {
    if s.decision.paused || s.termination == Some(Paused) || s.status == Paused then EndPaused
    else
      match s.decision.kind
      case ToolCall => if s.decision.tool in registry then ValidateAction else ToolExecution
      case ProposeAction => ValidateAction
      case RequestApproval => WaitNode
      case Wait => WaitNode
      case Complete => EndCompleted
      case Fail => EndFailed
  }

  predicate IsBackup(option: RecoveryOption) {
    option.strategy in ["BACKUP", "REASSIGN", "REASSIGN_VENDOR"]
  }

  function Feasible(options: seq<RecoveryOption>): seq<RecoveryOption> {
    if options == [] then []
    else (if options[0].feasible then [options[0]] else []) + Feasible(options[1..])
  }

  function Backups(options: seq<RecoveryOption>): seq<RecoveryOption> {
    if options == [] then []
    else (if IsBackup(options[0]) then [options[0]] else []) + Backups(options[1..])
  }

  function First<T>(s: seq<T>, otherwise: Option<T>): Option<T> {
    if s == [] then otherwise else Some(s[0])
  }

  function ToolNode(s: State, r: Reply): (t: State)
    ensures Counts(s, t, [HistoryEntry(s.decision.tool, s.decision.arguments)], 0)
    ensures t.lastTool == s.decision.tool && t.lastToolStatus == r.toolStatus
  {
    var tool := s.decision.tool;
    var called := s.(stepCount := s.stepCount + 1, lastTool := tool, lastToolStatus := r.toolStatus,
                     history := s.history + [HistoryEntry(tool, s.decision.arguments)], status := ExecutingTool);
    if r.toolStatus != Success || r.toolData == NoData then called
    else if tool == "generate_recovery_options" then
      if r.toolData.OptionList? && r.toolData.options != [] then
        var options := r.toolData.options;
        called.(options := options,
                selected := First(Backups(Feasible(options)), First(Feasible(options), Some(options[0]))))
      else called
    else if tool == "start_autonomous_operations" then
      called.(status := WaitingForUserSelection, termination := Some(WaitingForUserSelection))
    else if tool == "execute_action" then
      if r.toolData.ExecutionData? then called.(execution := Some(r.toolData.execution)) else called
    else if tool == "verify_action" then
      if r.toolData.VerificationData? then
        called.(verification := Some(r.toolData.verification), verificationStatus := r.toolData.verification.status)
      else called
    else called
  }

  function ProcessResultNode(s: State): (t: State)
    ensures Counts(s, t, [], 0)
  {
    if s.lastToolStatus == RequiresApproval then s.(pendingApproval := true, status := NeedsApproval)
    else s.(status := ReEvaluating)
  }

  function RouteAfterProcessResult(s: State): Node {
    if s.lastToolStatus == RequiresApproval then WaitNode
    else if s.lastTool == "start_autonomous_operations" then EndCompleted
    else if s.lastTool == "execute_action" && s.lastToolStatus == Success then Verify
    else if s.lastTool == "verify_action" then if s.lastToolStatus == Success then EndCompleted else EndFailed
    else Decide
  }

  /** The option that is put before the authorization service: the selected, or a fallback. */
  function ValidatedOption(s: State): Option<RecoveryOption> {
    if s.selected.Some? then s.selected else First(Feasible(s.options), First(s.options, None))
  }

  function ValidateNode(s: State, r: Reply): (t: State)
    ensures Counts(s, t, [], 0)
  {
    var approval := if s.approvalId.Some? then r.approval else None;
    var approved := approval.Some? && approval.value.approved;
    var needs := r.authorization.requiresApproval && !approved;
    s.(authorization := Some(r.authorization), approval := approval, pendingApproval := needs,
       status := if needs then NeedsApproval else Authorized)
  }

  function RouteAfterValidate(s: State): Node {
    if s.authorization.None? || !s.authorization.value.allowed then EndFailed
    else if s.pendingApproval then WaitNode
    else Act
  }

  function WaitForApprovalNode(s: State, r: Reply): State {
    var requested := if ValidatedOption(s).Some? then ValidatedOption(s).value.id else "";
    s.(approvalId := Some(r.ticket), approval := Some(Approval(r.ticket, false, requested)),
       pendingApproval := true, history := s.history + [HistoryEntry("request_action_approval", map[])],
       status := PendingApproval, termination := Some(WaitingForApproval))
  }

  function Argument(d: Decision, name: string): string {
    if name in d.arguments then d.arguments[name] else ""
  }

  /** Where the executed option's id comes from when no option with an id is selected. */
  function FallbackId(s: State): string {
    FirstNonEmpty(if s.approval.Some? then s.approval.value.recoveryOptionId else "",
                  Argument(s.decision, "recovery_option_id"))
  }

  function ExecutedId(s: State): string {
    FirstNonEmpty(if s.selected.Some? then s.selected.value.id else "", FallbackId(s))
  }

  function ActEntry(s: State): HistoryEntry {
    var approvalId := if s.approvalId.Some? then s.approvalId.value
                      else if s.approval.Some? then s.approval.value.id else "";
    HistoryEntry("execute_action", map["recovery_option_id" := ExecutedId(s), "approval_id" := approvalId])
  }

  function ActNode(s: State, r: Reply): (t: State)
    ensures Counts(s, t, [ActEntry(s)], 0)
  {
    s.(execution := Some(Execution(r.executionId, "")), stepCount := s.stepCount + 1,
       history := s.history + [ActEntry(s)], status := Executed)
  }

  function VerifyEntry(s: State): HistoryEntry {
    var executionId := if s.execution.Some? then s.execution.value.id else "";
    HistoryEntry("verify_action", map["action_execution_id" := executionId])
  }

  function VerifyNode(s: State, r: Reply): (t: State)
    ensures Counts(s, t, [VerifyEntry(s)], 1)
    ensures t.verificationStatus == r.verification.status
    ensures t.status == if r.verification.status == "VERIFIED" then Verified else RecoveryFailed
  {
    var attempts := s.attempts + 1;
    var verified := r.verification.status == "VERIFIED";
    var failedOption := FirstNonEmpty(if s.selected.Some? then s.selected.value.id else "",
                                      if s.execution.Some? then s.execution.value.recoveryOptionId else "");
    var updated := s.(
      verification := Some(r.verification), verificationStatus := r.verification.status,
      stepCount := s.stepCount + 1,
      history := s.history + [VerifyEntry(s)],
      failedOptions := if verified then s.failedOptions else s.failedOptions + [failedOption],
      attempts := attempts, maxAttempts := MaxAttempts(s),
      status := if verified then Verified else RecoveryFailed);
    if verified then updated
    else if attempts < MaxAttempts(s) then updated.(execution := None, selected := None)
    else updated.(termination := Some(RecoveryFailed))
  }

  function RouteAfterVerify(s: State): Node {
    if s.status == Verified || s.verificationStatus == "VERIFIED" then EndCompleted
    else if s.attempts < MaxAttempts(s) then Observe
    else EndFailed
  }

  function EndCompletedNode(s: State): (t: State)
    ensures Counts(s, t, [], 0)
  {
    var target := if s.status == WaitingForUserSelection || s.status == WaitingApproval then s.status else Completed;
    s.(status := target, termination := if s.termination.Some? then s.termination else Some(target))
  }

  function EndFailedNode(s: State): (t: State)
    ensures Counts(s, t, [], 0)
  {
    var status := if s.status == RecoveryFailed || s.termination == Some(RecoveryFailed) then RecoveryFailed else Failed;
    s.(status := status, termination := if s.termination.Some? then s.termination else Some(Failed))
  }

  function EndPausedNode(s: State): (t: State)
    ensures Counts(s, t, [], 0)
  {
    s.(status := Paused, termination := Some(Paused))
  }

  // ---------------------------------------------------------------------------
  // The graph
  // ---------------------------------------------------------------------------

  /** Nodes that call a service which may raise. */
  predicate CanRaise(node: Node) {
    node in {Observe, Interpret, ToolExecution, ValidateAction, WaitNode, Act, Verify, EndCompleted}
  }

  /** One visit: run the node, then follow its edge. */
  function Advance(m: Machine, r: Reply, registry: Registry): Machine {
    var s := m.state;
    if CanRaise(m.node) && r.raises then Machine(Crashed, s)
    else
      match m.node
      case Observe => Machine(Interpret, ObserveNode(s, r))
      case Interpret =>
        var t := InterpretNode(s, r);
        Machine(if t.status == Completed || t.status == WaitingForUserSelection then EndCompleted else Decide, t)
      case Decide => var t := DecideNode(s, r); Machine(RouteAfterDecide(t, registry), t)
      case ToolExecution => Machine(ProcessResult, ToolNode(s, r))
      case ProcessResult => var t := ProcessResultNode(s); Machine(RouteAfterProcessResult(t), t)
      case ValidateAction => var t := ValidateNode(s, r); Machine(RouteAfterValidate(t), t)
      case WaitNode => Machine(End, WaitForApprovalNode(s, r))
      case Act => Machine(Verify, ActNode(s, r))
      case Verify => var t := VerifyNode(s, r); Machine(RouteAfterVerify(t), t)
      case EndCompleted => Machine(End, EndCompletedNode(s))
      case EndFailed => Machine(End, EndFailedNode(s))
      case EndPaused => Machine(End, EndPausedNode(s))
      case End => m
      case Crashed => m
  }

  /** The machines a run goes through: `replies[i]` leads from trace[i] to trace[i + 1]. */
  function Trace(m: Machine, replies: seq<Reply>, registry: Registry): (trace: seq<Machine>)
    ensures |trace| == |replies| + 1
  {
    if replies == [] then [m]
    else
      var before := Trace(m, replies[..|replies| - 1], registry);
      before + [Advance(before[|before| - 1], replies[|replies| - 1], registry)]
  }

  function Final(m: Machine, replies: seq<Reply>, registry: Registry): Machine {
    Trace(m, replies, registry)[|replies|]
  }

  /** The initial state of a run. */
  function StartState(objective: string, approvalId: Option<string>, maxSteps: int, maxAttempts: nat): State {
    State(0, maxSteps, [], 0, maxAttempts, [], objective, false, false, [], None, approvalId, None, false, None,
          None, None, "", FAIL, "", Unknown, Initialized, None)
  }

  function Start(objective: string, approvalId: Option<string>, maxSteps: int, maxAttempts: nat): Machine {
    Machine(Observe, StartState(objective, approvalId, maxSteps, maxAttempts))
  }

  lemma TraceStep(m: Machine, replies: seq<Reply>, registry: Registry, i: nat)
    requires i < |replies|
    ensures Trace(m, replies, registry)[0] == m
    ensures Trace(m, replies, registry)[i + 1] == Advance(Trace(m, replies, registry)[i], replies[i], registry)
    decreases |replies|
  {
    hide Advance;
    if i < |replies| - 1 {
      TraceStep(m, replies[..|replies| - 1], registry, i);
    } else if i > 0 {
      TraceStep(m, replies[..|replies| - 1], registry, i - 1);
    }
  }

  lemma TraceStart(m: Machine, replies: seq<Reply>, registry: Registry)
    ensures Trace(m, replies, registry)[0] == m
  {
    if replies != [] {
      TraceStep(m, replies, registry, 0);
    }
  }
}
