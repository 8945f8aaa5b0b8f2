/**
 What the visits of the agent loop's nodes do to one field of the state at a time, which node may
 change it and to what; and what follows for runs: what is executed, verified, awaited and reported.
 */
module AgentVisits {
  import opened Common
  import opened AgentGraph
  import opened AgentRuns

  /** The node runs to its end. */
  predicate Visits(m: Machine, r: Reply) {
    !(CanRaise(m.node) && r.raises)
  }

  // ---------------------------------------------------------------------------
  // Field by field
  // ---------------------------------------------------------------------------

  predicate SameTicket(s: State, t: State) {
    t.approvalId == s.approvalId && t.approval == s.approval
  }

  predicate SameKnowledge(s: State, t: State) {
    t.incidents == s.incidents && t.objective == s.objective
  }

  predicate SameLast(s: State, t: State) {
    t.decision == s.decision && t.lastTool == s.lastTool && t.lastToolStatus == s.lastToolStatus
  }

  /** The nodes that leave the ticket, what is known of the event, and the last decision and tool alone. */
  lemma KeepsAll(s: State, r: Reply)
    ensures SameTicket(s, ProcessResultNode(s)) && SameKnowledge(s, ProcessResultNode(s)) && SameLast(s, ProcessResultNode(s))
    ensures SameTicket(s, ActNode(s, r)) && SameKnowledge(s, ActNode(s, r)) && SameLast(s, ActNode(s, r))
  {
    hide Counts, ActEntry;
  }

  lemma VerifyKeepsAll(s: State, r: Reply)
    ensures SameTicket(s, VerifyNode(s, r)) && SameKnowledge(s, VerifyNode(s, r)) && SameLast(s, VerifyNode(s, r))
  {
    hide Counts, VerifyEntry, FirstNonEmpty;
  }

  lemma EndsKeepAll(s: State)
    ensures SameTicket(s, EndCompletedNode(s)) && SameKnowledge(s, EndCompletedNode(s)) && SameLast(s, EndCompletedNode(s))
    ensures SameTicket(s, EndFailedNode(s)) && SameKnowledge(s, EndFailedNode(s)) && SameLast(s, EndFailedNode(s))
    ensures SameTicket(s, EndPausedNode(s)) && SameKnowledge(s, EndPausedNode(s)) && SameLast(s, EndPausedNode(s))
  {
    hide Counts;
  }

  lemma KeepsSome(s: State, r: Reply)
    ensures SameLast(s, ObserveNode(s, r)) && ObserveNode(s, r).objective == s.objective && ObserveNode(s, r).approvalId == s.approvalId
    ensures SameLast(s, InterpretNode(s, r)) && SameTicket(s, InterpretNode(s, r)) && InterpretNode(s, r).incidents == s.incidents
    ensures SameTicket(s, DecideNode(s, r)) && SameKnowledge(s, DecideNode(s, r))
    ensures DecideNode(s, r).lastTool == s.lastTool && DecideNode(s, r).lastToolStatus == s.lastToolStatus
    ensures SameLast(s, ValidateNode(s, r)) && SameKnowledge(s, ValidateNode(s, r)) && ValidateNode(s, r).approvalId == s.approvalId
    ensures SameLast(s, WaitForApprovalNode(s, r)) && SameKnowledge(s, WaitForApprovalNode(s, r))
  {
    hide Counts, ValidatedOption, Decided;
  }

  /** What these nodes read or ask. */
  lemma ReadsAndAsks(s: State, r: Reply)
    ensures ObserveNode(s, r).approval == (if s.approvalId.Some? then r.approval else None) == ValidateNode(s, r).approval
    ensures ObserveNode(s, r).incidents == r.incidents
    ensures var w := WaitForApprovalNode(s, r); w.approvalId == Some(r.ticket) && w.approval == Some(Approval(r.ticket, false, ValidatedId(s)))
    ensures InterpretNode(s, r).objective == if s.objective == "" && r.startOperations.None? && (s.incidents || !r.modifyPlan)
                                             then r.objective else s.objective
  {
    hide Counts, ValidatedOption;
  }

  /** The ticket is set only by asking for approval; the approval is read with the run's ticket, or is the one just asked for. */
  lemma ApprovalAfter(m: Machine, r: Reply, registry: Registry)
    ensures var s, t := m.state, Advance(m, r, registry).state;
            if Visits(m, r) && m.node in {Observe, ValidateAction} then
              t.approvalId == s.approvalId && t.approval == if s.approvalId.Some? then r.approval else None
            else if Visits(m, r) && m.node == WaitNode then
              t.approvalId == Some(r.ticket) && t.approval == Some(Approval(r.ticket, false, ValidatedId(s)))
            else t.approvalId == s.approvalId && t.approval == s.approval
  {
    KeepsAll(m.state, r);
    VerifyKeepsAll(m.state, r);
    EndsKeepAll(m.state);
    KeepsSome(m.state, r);
    ReadsAndAsks(m.state, r);
    ToolKnows(m.state, r);
    ToolIsLast(m.state, r);
    hide ObserveNode, InterpretNode, DecideNode, ToolNode, ProcessResultNode, ValidateNode, ActNode, VerifyNode, WaitForApprovalNode,
         EndCompletedNode, EndFailedNode, EndPausedNode, RouteAfterDecide, RouteAfterVerify, RouteAfterValidate,
         RouteAfterProcessResult, Counts, ValidatedId;
  }

  /** An execution is known by observing the ticket's, by acting or by the tool, and forgotten when its verification fails with attempts left. */
  lemma ExecutionAfter(m: Machine, r: Reply, registry: Registry)
    ensures var s, t := m.state, Advance(m, r, registry).state;
            t.execution ==
              if !Visits(m, r) then s.execution
              else
                match m.node
                case Observe => if s.approvalId.Some? && s.execution.None? then r.existing else s.execution
                case Act => Some(Execution(r.executionId, ""))
                case ToolExecution =>
                  if s.decision.tool == "execute_action" && r.toolStatus == Success && r.toolData.ExecutionData?
                  then Some(r.toolData.execution) else s.execution
                case Verify => if r.verification.status != "VERIFIED" && s.attempts + 1 < MaxAttempts(s) then None else s.execution
                case _ => s.execution
  {
    hide Counts, Feasible, Backups, LoopDetected, ActEntry, VerifyEntry, RouteAfterDecide, RouteAfterVerify, ValidatedOption;
    ToolExecutes(m.state, r);
    hide ToolNode;
  }

  lemma ToolExecutes(s: State, r: Reply)
    ensures var t := ToolNode(s, r);
            && t.execution == (if s.decision.tool == "execute_action" && r.toolStatus == Success && r.toolData.ExecutionData?
                               then Some(r.toolData.execution) else s.execution)
            && (if s.decision.tool == "verify_action" && r.toolStatus == Success && r.toolData.VerificationData? then
                  t.verification == Some(r.toolData.verification) && t.verificationStatus == r.toolData.verification.status
                else t.verification == s.verification && t.verificationStatus == s.verificationStatus)
            && t.pendingApproval == s.pendingApproval && t.failedOptions == s.failedOptions && t.attempts == s.attempts
            && t.decision == s.decision
            && (if s.decision.tool == "start_autonomous_operations" && r.toolStatus == Success && r.toolData != NoData then
                  t.status == WaitingForUserSelection && t.termination == Some(WaitingForUserSelection)
                else t.status == ExecutingTool && t.termination == s.termination)
  {
    hide Counts, Feasible, Backups, First;
    assert "execute_action"[0] == 'e' && "verify_action"[0] == 'v' && "generate_recovery_options"[0] == 'g';
    assert "start_autonomous_operations"[0] == 's';
  }

  /** An approval is pending after a tool or a validation that needs one, after asking for one, and while the ticket's is not granted. */
  lemma PendingAfter(m: Machine, r: Reply, registry: Registry)
    ensures var s, t := m.state, Advance(m, r, registry).state;
            t.pendingApproval ==
              if !Visits(m, r) then s.pendingApproval
              else
                match m.node
                case Observe => if s.approvalId.Some? then !ReadAsApproved(s, r) else s.pendingApproval
                case ProcessResult => s.lastToolStatus == RequiresApproval || s.pendingApproval
                case ValidateAction => r.authorization.requiresApproval && !ReadAsApproved(s, r)
                case WaitNode => true
                case _ => s.pendingApproval
  {
    hide Counts, Feasible, Backups, LoopDetected, ActEntry, VerifyEntry, RouteAfterDecide, RouteAfterVerify, ValidatedOption;
    ToolExecutes(m.state, r);
    hide ToolNode;
  }

  /** The nodes that verify nothing leave the verification and the failures alone. */
  lemma KeepsRecords(s: State, r: Reply)
    ensures SameRecords(s, ObserveNode(s, r)) && SameRecords(s, InterpretNode(s, r)) && SameRecords(s, DecideNode(s, r))
    ensures SameRecords(s, ProcessResultNode(s)) && SameRecords(s, ValidateNode(s, r)) && SameRecords(s, ActNode(s, r))
    ensures SameRecords(s, WaitForApprovalNode(s, r)) && SameRecords(s, EndCompletedNode(s)) && SameRecords(s, EndFailedNode(s))
    ensures SameRecords(s, EndPausedNode(s))
  {
    hide Counts, ValidatedOption, ActEntry, LoopDetected;
  }

  predicate SameRecords(s: State, t: State) {
    && t.verification == s.verification && t.verificationStatus == s.verificationStatus
    && t.failedOptions == s.failedOptions && t.attempts == s.attempts
  }

  /** Only verifications are recorded as such, by the verify node or by the tool. */
  lemma VerificationAfter(m: Machine, r: Reply, registry: Registry)
    ensures var s, t := m.state, Advance(m, r, registry).state;
            if Visits(m, r) && m.node == Verify then
              t.verification == Some(r.verification) && t.verificationStatus == r.verification.status
            else if Visits(m, r) && m.node == ToolExecution && s.decision.tool == "verify_action" && r.toolStatus == Success
                    && r.toolData.VerificationData? then
              t.verification == Some(r.toolData.verification) && t.verificationStatus == r.toolData.verification.status
            else t.verification == s.verification && t.verificationStatus == s.verificationStatus
  {
    KeepsRecords(m.state, r);
    ToolExecutes(m.state, r);
    VerifyRecords(m.state, r);
    hide ObserveNode, InterpretNode, DecideNode, ToolNode, ProcessResultNode, ValidateNode, ActNode, VerifyNode, WaitForApprovalNode,
         EndCompletedNode, EndFailedNode, EndPausedNode, Counts, VerifyEntry, RouteAfterDecide, RouteAfterVerify, RouteAfterValidate,
         RouteAfterProcessResult;
  }

  lemma VerifyRecords(s: State, r: Reply)
    ensures var t := VerifyNode(s, r);
            && t.verification == Some(r.verification) && t.verificationStatus == r.verification.status
            && t.attempts == s.attempts + 1
            && if r.verification.status == "VERIFIED" then t.failedOptions == s.failedOptions
               else
                 var id := if s.selected.Some? && s.selected.value.id != "" then s.selected.value.id
                           else if s.execution.Some? then s.execution.value.recoveryOptionId else "";
                 t.failedOptions == s.failedOptions + [id]
  {
    hide Counts, VerifyEntry;
  }

  /** Attempts are counted by the verify node alone, and those that failed recorded with the option selected or executed. */
  lemma FailuresAfter(m: Machine, r: Reply, registry: Registry)
    ensures var s, t := m.state, Advance(m, r, registry).state;
            if Visits(m, r) && m.node == Verify then
              && t.attempts == s.attempts + 1
              && if r.verification.status == "VERIFIED" then t.failedOptions == s.failedOptions
                 else
                   var id := if s.selected.Some? && s.selected.value.id != "" then s.selected.value.id
                             else if s.execution.Some? then s.execution.value.recoveryOptionId else "";
                   t.failedOptions == s.failedOptions + [id]
            else t.attempts == s.attempts && t.failedOptions == s.failedOptions
  {
    KeepsRecords(m.state, r);
    ToolExecutes(m.state, r);
    VerifyRecords(m.state, r);
    hide ObserveNode, InterpretNode, DecideNode, ToolNode, ProcessResultNode, ValidateNode, ActNode, VerifyNode, WaitForApprovalNode,
         EndCompletedNode, EndFailedNode, EndPausedNode, Counts, VerifyEntry, RouteAfterDecide, RouteAfterVerify, RouteAfterValidate,
         RouteAfterProcessResult;
  }

  /** The status that a visit leaves. */
  lemma StatusAfter(m: Machine, r: Reply, registry: Registry)
    ensures var s, t := m.state, Advance(m, r, registry).state;
            if !Visits(m, r) then t.status == s.status
            else
              match m.node
              case Observe => t.status == Observing
              case Interpret =>
                t.status == if r.startOperations.Some? then r.startOperations.value
                            else if !s.incidents && r.modifyPlan then Completed else Interpreting
              case ToolExecution =>
                t.status == if s.decision.tool == "start_autonomous_operations" && r.toolStatus == Success && r.toolData != NoData
                            then WaitingForUserSelection else ExecutingTool
              case ProcessResult => t.status == if s.lastToolStatus == RequiresApproval then NeedsApproval else ReEvaluating
              case ValidateAction =>
                t.status == if r.authorization.requiresApproval && !ReadAsApproved(s, r) then NeedsApproval else Authorized
              case WaitNode => t.status == PendingApproval
              case Act => t.status == Executed
              case Verify => t.status == if r.verification.status == "VERIFIED" then Verified else RecoveryFailed
              case EndCompleted =>
                t.status == if s.status == WaitingForUserSelection || s.status == WaitingApproval then s.status else Completed
              case EndFailed =>
                t.status == if s.status == RecoveryFailed || s.termination == Some(RecoveryFailed) then RecoveryFailed else Failed
              case EndPaused => t.status == Paused
              case Decide => t.status in {Deciding, Failed, RecoveryFailed, Paused}
              case End => t.status == s.status
              case Crashed => t.status == s.status
  {
    hide Counts, Feasible, Backups, LoopDetected, ActEntry, VerifyEntry, RouteAfterDecide, RouteAfterVerify, ValidatedOption;
    ToolExecutes(m.state, r);
    hide ToolNode;
  }

  /** The termination status is set by shortcuts, guards, waiting and the last failed attempt, and an end keeps what is set. */
  lemma TerminationAfter(m: Machine, r: Reply, registry: Registry)
    requires m.node != Decide
    ensures var s, t := m.state, Advance(m, r, registry).state;
            t.termination ==
              if !Visits(m, r) then s.termination
              else
                match m.node
                case Interpret =>
                  if r.startOperations.Some? then r.startOperations
                  else if !s.incidents && r.modifyPlan then Some(Completed) else s.termination
                case ToolExecution =>
                  if s.decision.tool == "start_autonomous_operations" && r.toolStatus == Success && r.toolData != NoData
                  then Some(WaitingForUserSelection) else s.termination
                case WaitNode => Some(WaitingForApproval)
                case Verify =>
                  if r.verification.status != "VERIFIED" && s.attempts + 1 >= MaxAttempts(s) then Some(RecoveryFailed) else s.termination
                case EndCompleted =>
                  if s.termination.Some? then s.termination
                  else if s.status == WaitingForUserSelection || s.status == WaitingApproval then Some(s.status) else Some(Completed)
                case EndFailed => if s.termination.Some? then s.termination else Some(Failed)
                case EndPaused => Some(Paused)
                case _ => s.termination
  {
    hide Counts, Feasible, Backups, LoopDetected, ActEntry, VerifyEntry, RouteAfterDecide, RouteAfterVerify, ValidatedOption;
    ToolExecutes(m.state, r);
    hide ToolNode;
  }

  /** Incidents are known from observing, the objective from interpreting when none was given. */
  lemma KnowledgeAfter(m: Machine, r: Reply, registry: Registry)
    ensures var s, t := m.state, Advance(m, r, registry).state;
            && t.incidents == (if Visits(m, r) && m.node == Observe then r.incidents else s.incidents)
            && t.objective == (if Visits(m, r) && m.node == Interpret && s.objective == "" && r.startOperations.None?
                                  && (s.incidents || !r.modifyPlan) then r.objective else s.objective)
  {
    KeepsAll(m.state, r);
    VerifyKeepsAll(m.state, r);
    EndsKeepAll(m.state);
    KeepsSome(m.state, r);
    ReadsAndAsks(m.state, r);
    ToolKnows(m.state, r);
    ToolIsLast(m.state, r);
    hide ObserveNode, InterpretNode, DecideNode, ToolNode, ProcessResultNode, ValidateNode, ActNode, VerifyNode, WaitForApprovalNode,
         EndCompletedNode, EndFailedNode, EndPausedNode, RouteAfterDecide, RouteAfterVerify, RouteAfterValidate,
         RouteAfterProcessResult, Counts, ValidatedId;
  }

  /** A decision comes only from deciding, and what the last tool was and how it ended only from running it. */
  lemma LastToolAfter(m: Machine, r: Reply, registry: Registry)
    ensures var s, t := m.state, Advance(m, r, registry).state;
            && (m.node != Decide ==> t.decision == s.decision)
            && (Visits(m, r) && m.node == ToolExecution ==> t.lastTool == s.decision.tool && t.lastToolStatus == r.toolStatus)
            && (!Visits(m, r) || m.node != ToolExecution ==> t.lastTool == s.lastTool && t.lastToolStatus == s.lastToolStatus)
  {
    KeepsAll(m.state, r);
    VerifyKeepsAll(m.state, r);
    EndsKeepAll(m.state);
    KeepsSome(m.state, r);
    ReadsAndAsks(m.state, r);
    ToolKnows(m.state, r);
    ToolIsLast(m.state, r);
    hide ObserveNode, InterpretNode, DecideNode, ToolNode, ProcessResultNode, ValidateNode, ActNode, VerifyNode, WaitForApprovalNode,
         EndCompletedNode, EndFailedNode, EndPausedNode, RouteAfterDecide, RouteAfterVerify, RouteAfterValidate,
         RouteAfterProcessResult, Counts, ValidatedId;
  }

  lemma ToolKnows(s: State, r: Reply)
    ensures SameTicket(s, ToolNode(s, r)) && SameKnowledge(s, ToolNode(s, r))
  {
    hide Counts, Feasible, Backups, First;
  }

  lemma ToolIsLast(s: State, r: Reply)
    ensures var t := ToolNode(s, r); t.decision == s.decision && t.lastTool == s.decision.tool && t.lastToolStatus == r.toolStatus
  {
    hide Counts, Feasible, Backups, First;
  }

  /** The option's id that an action is made for: of the selected option, else of the approval, else of the decision. */
  function ActsFor(s: State): string {
    if s.selected.Some? && s.selected.value.id != "" then s.selected.value.id
    else if s.approval.Some? && s.approval.value.recoveryOptionId != "" then s.approval.value.recoveryOptionId
    else if "recovery_option_id" in s.decision.arguments then s.decision.arguments["recovery_option_id"]
    else ""
  }

  /** Every call is put on record with its arguments, and nothing else is. */
  lemma HistoryAfter(m: Machine, r: Reply, registry: Registry)
    ensures var s, t := m.state, Advance(m, r, registry).state;
            t.history == s.history +
              if !Visits(m, r) then []
              else
                match m.node
                case ToolExecution => [HistoryEntry(s.decision.tool, s.decision.arguments)]
                case WaitNode => [HistoryEntry("request_action_approval", map[])]
                case Act =>
                  var ticket := if s.approvalId.Some? then s.approvalId.value else if s.approval.Some? then s.approval.value.id else "";
                  [HistoryEntry("execute_action", map["recovery_option_id" := ActsFor(s), "approval_id" := ticket])]
                case Verify =>
                  [HistoryEntry("verify_action", map["action_execution_id" := if s.execution.Some? then s.execution.value.id else ""])]
                case _ => []
  {
    hide ObserveNode, InterpretNode, DecideNode, ToolNode, ProcessResultNode, ValidateNode, ActNode, VerifyNode, EndCompletedNode,
         EndFailedNode, EndPausedNode, RouteAfterDecide, RouteAfterVerify, RouteAfterValidate, RouteAfterProcessResult;
    assert m.state.history + [] == m.state.history;
  }

  /** The option put before the authorization service: the selected one, else the first feasible, else the first. */
  lemma ValidatedIs(s: State)
    ensures s.selected.Some? ==> ValidatedOption(s) == s.selected
    ensures s.selected.None? ==>
              if exists i :: 0 <= i < |s.options| && s.options[i].feasible then
                exists i :: 0 <= i < |s.options| && s.options[i].feasible && ValidatedOption(s) == Some(s.options[i])
                  && forall k :: 0 <= k < i ==> !s.options[k].feasible
              else ValidatedOption(s) == if s.options != [] then Some(s.options[0]) else None
  {
    FirstFeasible(s.options);
    hide Feasible;
  }

  lemma {:induction false} FirstFeasible(options: seq<RecoveryOption>)
    ensures Feasible(options) == [] <==> forall i :: 0 <= i < |options| ==> !options[i].feasible
    ensures Feasible(options) != [] ==>
              exists i :: 0 <= i < |options| && options[i].feasible && Feasible(options)[0] == options[i]
                && forall k :: 0 <= k < i ==> !options[k].feasible
  {
    if options != [] {
      FirstFeasible(options[1..]);
      assert forall i :: 0 < i < |options| ==> options[i] == options[1..][i - 1];
      if !options[0].feasible && Feasible(options) != [] {
        var i :| 0 <= i < |options| - 1 && options[1..][i].feasible && Feasible(options[1..])[0] == options[1..][i]
                 && forall k :: 0 <= k < i ==> !options[1..][k].feasible;
        assert options[i + 1] == options[1..][i];
      }
    }
  }

  /** Options come from generating them alone; one is selected there or by an approval that names it, and dropped by a failure. */
  lemma SelectionAfter(m: Machine, r: Reply, registry: Registry)
    ensures var s, t := m.state, Advance(m, r, registry).state;
            if Visits(m, r) && m.node == ToolExecution then
              if s.decision.tool == "generate_recovery_options" && r.toolStatus == Success && r.toolData.OptionList?
                 && r.toolData.options != []
              then t.options == r.toolData.options && t.selected.Some? && t.selected.value in t.options
              else t.options == s.options && t.selected == s.selected
            else
              && t.options == s.options
              && t.selected ==
                   if Visits(m, r) && m.node == Observe && s.approvalId.Some? && r.approval.Some?
                      && r.approval.value.recoveryOptionId != "" && r.approvedOption.Some? then r.approvedOption
                   else if Visits(m, r) && m.node == Verify && r.verification.status != "VERIFIED" && s.attempts + 1 < MaxAttempts(s)
                   then None
                   else s.selected
  {
    KeepsOptions(m.state, r);
    OthersKeepOptions(m.state, r);
    ToolSelects(m.state, r);
    hide ObserveNode, InterpretNode, DecideNode, ToolNode, ProcessResultNode, ValidateNode, ActNode, VerifyNode, WaitForApprovalNode,
         EndCompletedNode, EndFailedNode, EndPausedNode, RouteAfterDecide, RouteAfterVerify, RouteAfterValidate,
         RouteAfterProcessResult, Counts;
  }

  predicate SameOptions(s: State, t: State) {
    t.options == s.options && t.selected == s.selected
  }

  lemma KeepsOptions(s: State, r: Reply)
    ensures SameOptions(s, InterpretNode(s, r)) && SameOptions(s, DecideNode(s, r)) && SameOptions(s, ProcessResultNode(s))
    ensures SameOptions(s, ValidateNode(s, r)) && SameOptions(s, ActNode(s, r)) && SameOptions(s, WaitForApprovalNode(s, r))
    ensures SameOptions(s, EndCompletedNode(s)) && SameOptions(s, EndFailedNode(s)) && SameOptions(s, EndPausedNode(s))
  {
    hide Counts, ValidatedOption, ActEntry, Decided;
  }

  lemma OthersKeepOptions(s: State, r: Reply)
    ensures var t := ObserveNode(s, r);
            && t.options == s.options
            && t.selected == if s.approvalId.Some? && r.approval.Some? && r.approval.value.recoveryOptionId != "" && r.approvedOption.Some?
                             then r.approvedOption else s.selected
    ensures var t := VerifyNode(s, r);
            && t.options == s.options
            && t.selected == if r.verification.status != "VERIFIED" && s.attempts + 1 < MaxAttempts(s) then None else s.selected
  {
    hide Counts, VerifyEntry, FirstNonEmpty;
  }

  lemma ToolSelects(s: State, r: Reply)
    ensures var t := ToolNode(s, r);
            if s.decision.tool == "generate_recovery_options" && r.toolStatus == Success && r.toolData.OptionList?
               && r.toolData.options != []
            then t.options == r.toolData.options && t.selected.Some? && t.selected.value in t.options
            else t.options == s.options && t.selected == s.selected
  {
    if r.toolData.OptionList? && r.toolData.options != [] {
      PreferredIsOption(r.toolData.options);
    }
    hide Counts, Feasible, Backups, First;
  }

  lemma PreferredIsOption(options: seq<RecoveryOption>)
    requires options != []
    ensures var preferred := First(Backups(Feasible(options)), First(Feasible(options), Some(options[0])));
            preferred.Some? && preferred.value in options
  {
    FeasibleAreOptions(options);
    BackupsAreOptions(Feasible(options));
    hide Feasible, Backups;
  }

  lemma {:induction false} FeasibleAreOptions(options: seq<RecoveryOption>)
    ensures forall option :: option in Feasible(options) ==> option in options
  {
    if options != [] {
      FeasibleAreOptions(options[1..]);
    }
  }

  lemma {:induction false} BackupsAreOptions(options: seq<RecoveryOption>)
    ensures forall option :: option in Backups(options) ==> option in options
  {
    if options != [] {
      BackupsAreOptions(options[1..]);
    }
  }

  // ---------------------------------------------------------------------------
  // What follows for runs
  // ---------------------------------------------------------------------------

  /** The node that a visit leads to, for the nodes whose edge depends on nothing but the state they leave. */
  lemma LeadsTo(m: Machine, r: Reply, registry: Registry)
    requires Visits(m, r)
    ensures var n := Advance(m, r, registry);
            && (m.node == Observe ==> n.node == Interpret)
            && (m.node == Interpret ==>
                  n.node == if n.state.status == Completed || n.state.status == WaitingForUserSelection then EndCompleted else Decide)
            && (m.node == ToolExecution ==> n.node == ProcessResult)
            && (m.node == Act ==> n.node == Verify)
            && (m.node in {WaitNode, EndCompleted, EndFailed, EndPaused} ==> n.node == End)
            && (m.node == Verify ==>
                  n.node == if r.verification.status == "VERIFIED" then EndCompleted
                            else if m.state.attempts + 1 < MaxAttempts(m.state) then Observe else EndFailed)
            && (n.node == Interpret ==> m.node == Observe)
  {
    hide Counts, Feasible, Backups, LoopDetected, ActEntry, VerifyEntry, ValidatedOption, ToolNode;
  }

  /** After a tool: an approval is asked for, the operations end the run, an execution is verified, a verification ends it, the rest is decided. */
  lemma ToolThen(m: Machine, r: Reply, next: Reply, registry: Registry)
    requires m.node == ToolExecution && !r.raises
    ensures var tool, n := m.state.decision.tool, Advance(Advance(m, r, registry), next, registry);
            && (r.toolStatus == RequiresApproval ==> n.node == WaitNode)
            && (r.toolStatus != RequiresApproval && tool == "start_autonomous_operations" ==> n.node == EndCompleted)
            && (r.toolStatus == Success && tool == "execute_action" ==> n.node == Verify)
            && (r.toolStatus == Success && tool == "verify_action" ==> n.node == EndCompleted)
            && (r.toolStatus !in {Success, RequiresApproval} && tool == "verify_action" ==> n.node == EndFailed)
            && (r.toolStatus !in {Success, RequiresApproval} && tool == "execute_action" ==> n.node == Decide)
            && (r.toolStatus != RequiresApproval && tool !in {"start_autonomous_operations", "execute_action", "verify_action"} ==>
                  n.node == Decide)
  {
    assert "execute_action"[0] == 'e' && "verify_action"[0] == 'v' && "start_autonomous_operations"[0] == 's';
    hide ToolNode, Counts;
  }

  /** Over every run, the visit after a tool and the processing of its result is the one that the tool and its outcome call for. */
  lemma {:induction false} ToolOutcomeDecides(m: Machine, replies: seq<Reply>, registry: Registry, i: nat)
    requires i + 3 <= |replies|
    ensures var trace := Trace(m, replies, registry);
            var tool, status := trace[i].state.decision.tool, replies[i].toolStatus;
            trace[i].node == ToolExecution && !replies[i].raises ==>
              && (status == RequiresApproval ==>
                    && trace[i + 2].node == WaitNode
                    && (!replies[i + 2].raises ==> trace[i + 3].node == End && trace[i + 3].state.status == PendingApproval
                                                   && trace[i + 3].state.termination == Some(WaitingForApproval)))
              && (status == Success && tool == "execute_action" ==> trace[i + 2].node == Verify)
              && (status != RequiresApproval && tool == "verify_action" ==>
                    trace[i + 2].node == if status == Success then EndCompleted else EndFailed)
              && (status != RequiresApproval && tool == "start_autonomous_operations" ==> trace[i + 2].node == EndCompleted)
              && (status == Success && replies[i].toolData != NoData && tool == "start_autonomous_operations" && !replies[i + 2].raises ==>
                    trace[i + 3].node == End && trace[i + 3].state.status == Completed
                    && trace[i + 3].state.termination == Some(WaitingForUserSelection))
  {
    hide Advance, Trace;
    TraceStep(m, replies, registry, i);
    TraceStep(m, replies, registry, i + 1);
    TraceStep(m, replies, registry, i + 2);
    var trace := Trace(m, replies, registry);
    if trace[i].node == ToolExecution && !replies[i].raises {
      ToolThen(trace[i], replies[i], replies[i + 1], registry);
      LeadsTo(trace[i], replies[i], registry);
      TerminationAfter(trace[i], replies[i], registry);
      TerminationAfter(trace[i + 1], replies[i + 1], registry);
      StatusAfter(trace[i + 1], replies[i + 1], registry);
      if Visits(trace[i + 2], replies[i + 2]) && trace[i + 2].node in {WaitNode, EndCompleted} {
        LeadsTo(trace[i + 2], replies[i + 2], registry);
        StatusAfter(trace[i + 2], replies[i + 2], registry);
        TerminationAfter(trace[i + 2], replies[i + 2], registry);
      }
    }
  }

  /** A run started without a ticket has none until it asks for one, which ends it. */
  lemma {:induction false} NoTicketWhileRunning(objective: string, maxSteps: int, maxAttempts: nat, replies: seq<Reply>, registry: Registry,
                                                i: nat)
    requires i <= |replies|
    ensures var at := Trace(Start(objective, None, maxSteps, maxAttempts), replies, registry)[i];
            at.node != End && at.node != Crashed ==> at.state.approvalId == None
    decreases i
  {
    hide Advance, Trace;
    var m := Start(objective, None, maxSteps, maxAttempts);
    TraceStart(m, replies, registry);
    if i > 0 {
      NoTicketWhileRunning(objective, maxSteps, maxAttempts, replies, registry, i - 1);
      TraceStep(m, replies, registry, i - 1);
      var at := Trace(m, replies, registry)[i - 1];
      ApprovalAfter(at, replies[i - 1], registry);
      OverIsOver(at, replies[i - 1], registry);
      if at.node == WaitNode && Visits(at, replies[i - 1]) {
        LeadsTo(at, replies[i - 1], registry);
      }
    }
  }

  lemma OverIsOver(m: Machine, r: Reply, registry: Registry)
    ensures m.node == End || m.node == Crashed ==> Advance(m, r, registry) == m
  {
  }

  /** A run started without a ticket never acts where an approval is required: it cannot approve itself. */
  lemma {:induction false} TicketlessNeedsNoApproval(objective: string, maxSteps: int, maxAttempts: nat, replies: seq<Reply>,
                                                     registry: Registry, i: nat)
    requires i <= |replies| && Trace(Start(objective, None, maxSteps, maxAttempts), replies, registry)[i].node == Act
    ensures i > 0 && replies[i - 1].authorization.allowed && !replies[i - 1].authorization.requiresApproval
  {
    hide Trace;
    ActIsAuthorized(objective, None, maxSteps, maxAttempts, replies, registry, i);
    NoTicketWhileRunning(objective, maxSteps, maxAttempts, replies, registry, i - 1);
  }

  /**
   Over every run, the decision after an observation resumes an approved action exactly when the run has a
   ticket that is read as approved there, and neither the run nor the database knows an execution for it.
   So what was executed for a ticket is not executed for it again.
   */
  lemma {:induction false} ResumesOnlyOnce(m: Machine, replies: seq<Reply>, registry: Registry, j: nat)
    requires j + 2 <= |replies|
    ensures var trace := Trace(m, replies, registry);
            trace[j].node == Observe && trace[j + 2].node == Decide ==>
              var s, r, t := trace[j].state, replies[j], trace[j + 2].state;
              t.approval.Some? && t.approval.value.approved && t.execution.None?
              <==> ReadAsApproved(s, r) && s.execution.None? && r.existing.None?
  {
    hide Advance, Trace;
    TraceStep(m, replies, registry, j);
    TraceStep(m, replies, registry, j + 1);
    var trace := Trace(m, replies, registry);
    if trace[j].node == Observe && trace[j + 2].node == Decide {
      CrashIsFinal(trace[j], replies[j], replies[j + 1], registry);
      LeadsTo(trace[j], replies[j], registry);
      ApprovalAfter(trace[j], replies[j], registry);
      ApprovalAfter(trace[j + 1], replies[j + 1], registry);
      ExecutionAfter(trace[j], replies[j], registry);
      ExecutionAfter(trace[j + 1], replies[j + 1], registry);
    }
  }

  lemma CrashIsFinal(m: Machine, r: Reply, next: Reply, registry: Registry)
    ensures !Visits(m, r) ==> Advance(Advance(m, r, registry), next, registry).node == Crashed
  {
    hide ObserveNode;
  }

  /** Over every run, the verification after an execution is asked for with the id that this very execution returned. */
  lemma {:induction false} VerifiesWhatItExecuted(m: Machine, replies: seq<Reply>, registry: Registry, i: nat)
    requires i + 3 <= |replies| && !replies[i].raises && !replies[i + 1].raises && !replies[i + 2].raises
    ensures var trace, r := Trace(m, replies, registry), replies[i];
            && (trace[i].node == Act ==>
                  trace[i + 2].state.history == trace[i + 1].state.history
                                                + [HistoryEntry("verify_action", map["action_execution_id" := r.executionId])])
            && (trace[i].node == ToolExecution && trace[i].state.decision.tool == "execute_action" && r.toolStatus == Success
                && r.toolData.ExecutionData? ==>
                  trace[i + 3].state.history == trace[i + 2].state.history
                                                + [HistoryEntry("verify_action", map["action_execution_id" := r.toolData.execution.id])])
  {
    hide Advance, Trace;
    TraceStep(m, replies, registry, i);
    TraceStep(m, replies, registry, i + 1);
    TraceStep(m, replies, registry, i + 2);
    var trace := Trace(m, replies, registry);
    if trace[i].node == Act {
      LeadsTo(trace[i], replies[i], registry);
      ExecutionAfter(trace[i], replies[i], registry);
      HistoryAfter(trace[i + 1], replies[i + 1], registry);
    } else if trace[i].node == ToolExecution && trace[i].state.decision.tool == "execute_action" && replies[i].toolStatus == Success {
      ToolThen(trace[i], replies[i], replies[i + 1], registry);
      LeadsTo(trace[i], replies[i], registry);
      ExecutionAfter(trace[i], replies[i], registry);
      ExecutionAfter(trace[i + 1], replies[i + 1], registry);
      HistoryAfter(trace[i + 2], replies[i + 2], registry);
    }
  }

  /** Over every run: how it ends when it waits, when an attempt is verified, and when the last one is not. */
  lemma {:induction false} EndsAsReported(m: Machine, replies: seq<Reply>, registry: Registry, i: nat)
    requires i + 2 <= |replies| && !replies[i].raises && !replies[i + 1].raises
    ensures var trace, r := Trace(m, replies, registry), replies[i];
            var s, t, end := trace[i].state, trace[i + 1].state, trace[i + 2].state;
            && (trace[i].node == WaitNode ==>
                  && trace[i + 1].node == End && t.status == PendingApproval && t.termination == Some(WaitingForApproval)
                  && t.approvalId == Some(r.ticket) && t.approval == Some(Approval(r.ticket, false, ValidatedId(s))) && t.pendingApproval)
            && (trace[i].node == Verify && r.verification.status == "VERIFIED" ==>
                  && trace[i + 2].node == End && end.status == Completed
                  && end.termination == if s.termination.Some? then s.termination else Some(Completed))
            && (trace[i].node == Verify && r.verification.status != "VERIFIED" && s.attempts + 1 >= MaxAttempts(s) ==>
                  trace[i + 2].node == End && end.status == RecoveryFailed && end.termination == Some(RecoveryFailed))
            && (trace[i].node == Verify && r.verification.status != "VERIFIED" && s.attempts + 1 < MaxAttempts(s) ==>
                  trace[i + 1].node == Observe && t.execution == None && t.selected == None)
  {
    hide Advance, Trace;
    TraceStep(m, replies, registry, i);
    TraceStep(m, replies, registry, i + 1);
    var trace := Trace(m, replies, registry);
    if trace[i].node in {WaitNode, Verify} {
      LeadsTo(trace[i], replies[i], registry);
      StatusAfter(trace[i], replies[i], registry);
      TerminationAfter(trace[i], replies[i], registry);
      ApprovalAfter(trace[i], replies[i], registry);
      PendingAfter(trace[i], replies[i], registry);
      ExecutionAfter(trace[i], replies[i], registry);
      SelectionAfter(trace[i], replies[i], registry);
      if trace[i + 1].node in {EndCompleted, EndFailed} {
        LeadsTo(trace[i + 1], replies[i + 1], registry);
        StatusAfter(trace[i + 1], replies[i + 1], registry);
        TerminationAfter(trace[i + 1], replies[i + 1], registry);
      }
    }
  }

  /**
   Over every run, an operator's message that starts operations or modifies the plan ends the run without a
   decision, with the status that the operations report or as completed; an open incident keeps a plan
   from being modified.
   */
  lemma {:induction false} ShortcutsEnd(m: Machine, replies: seq<Reply>, registry: Registry, i: nat)
    requires i + 2 <= |replies| && !replies[i].raises && !replies[i + 1].raises
    ensures var trace, r := Trace(m, replies, registry), replies[i];
            trace[i].node == Interpret ==>
              && (r.startOperations in {Some(Completed), Some(WaitingForUserSelection)} ==>
                    trace[i + 2].node == End && trace[i + 2].state.status == r.startOperations.value
                    && trace[i + 2].state.termination == r.startOperations)
              && (r.startOperations.None? && !trace[i].state.incidents && r.modifyPlan ==>
                    trace[i + 2].node == End && trace[i + 2].state.status == Completed && trace[i + 2].state.termination == Some(Completed))
              && (r.startOperations.None? && (trace[i].state.incidents || !r.modifyPlan) ==>
                    trace[i + 1].node == Decide && trace[i + 1].state.termination == trace[i].state.termination)
              && (r.startOperations.Some? && r.startOperations.value !in {Completed, WaitingForUserSelection} ==>
                    trace[i + 1].node == Decide && trace[i + 1].state.termination == r.startOperations)
  {
    hide Advance, Trace;
    TraceStep(m, replies, registry, i);
    TraceStep(m, replies, registry, i + 1);
    var trace := Trace(m, replies, registry);
    if trace[i].node == Interpret {
      LeadsTo(trace[i], replies[i], registry);
      StatusAfter(trace[i], replies[i], registry);
      TerminationAfter(trace[i], replies[i], registry);
      if trace[i + 1].node == EndCompleted {
        LeadsTo(trace[i + 1], replies[i + 1], registry);
        StatusAfter(trace[i + 1], replies[i + 1], registry);
        TerminationAfter(trace[i + 1], replies[i + 1], registry);
      }
    }
  }
}
