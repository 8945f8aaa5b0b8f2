/** Properties of every run of the agent loop, for every LLM, tool and service. */
module AgentRuns {
  import opened Common
  import opened AgentGraph

  // ---------------------------------------------------------------------------
  // Halting
  // ---------------------------------------------------------------------------

  function Limit(s: State): nat {
    if s.maxSteps < 0 then 0 else s.maxSteps
  }

  /** Steps that the run may still count: the limit may be passed by one, by a verification. */
  function StepsLeft(s: State): int {
    Limit(s) + 1 - s.stepCount
  }

  /** An upper bound on the node visits that remain. */
  function Rank(m: Machine): int {
    match m.node
    case Observe => 3 * StepsLeft(m.state) + 4
    case Interpret => 3 * StepsLeft(m.state) + 3
    case Decide => 3 * StepsLeft(m.state) + 2
    case ToolExecution => 3 * StepsLeft(m.state) + 1
    case ProcessResult => 3 * StepsLeft(m.state) + 3
    case ValidateAction => 3 * StepsLeft(m.state) + 1
    case Act => 3 * StepsLeft(m.state)
    case Verify => 3 * StepsLeft(m.state) + 2
    case WaitNode => 1
    case EndCompleted => 1
    case EndFailed => 1
    case EndPaused => 1
    case End => 0
    case Crashed => 0
  }

  predicate Halted(m: Machine) {
    m.node == End || m.node == Crashed
  }

  /** How many steps each node can rely on. */
  predicate WithinLimit(m: Machine) {
    && StepsLeft(m.state) >= 0
    && (m.node in {ToolExecution, ValidateAction, Act} ==> StepsLeft(m.state) >= 2)
    && (m.node in {ProcessResult, Verify} ==> StepsLeft(m.state) >= 1)
  }

  lemma {:induction false} AdvanceLowersRank(m: Machine, r: Reply, registry: Registry)
    requires WithinLimit(m)
    ensures WithinLimit(Advance(m, r, registry)) && Advance(m, r, registry).state.maxSteps == m.state.maxSteps
    ensures Rank(m) >= 0 && (!Halted(m) ==> Rank(Advance(m, r, registry)) < Rank(m))
    ensures Halted(m) <==> Rank(m) == 0
    ensures Halted(m) ==> Advance(m, r, registry) == m
  {
    hide ObserveNode, InterpretNode, ToolNode, ProcessResultNode, ValidateNode, ActNode, VerifyNode,
         EndCompletedNode, EndFailedNode, EndPausedNode, DecideNode, RouteAfterDecide;
    if m.node == Decide {
      DecideNeedsStep(m.state, r, registry);
    }
  }

  /** Only with steps left does a decision lead on. */
  lemma DecideNeedsStep(s: State, r: Reply, registry: Registry)
    ensures var t := DecideNode(s, r);
            RouteAfterDecide(t, registry) in {ToolExecution, ValidateAction} ==> s.stepCount < s.maxSteps
    ensures RouteAfterDecide(DecideNode(s, r), registry)
            in {ToolExecution, ValidateAction, WaitNode, EndCompleted, EndFailed, EndPaused}
  {
  }

  lemma {:induction false} TraceWithinLimit(m: Machine, replies: seq<Reply>, registry: Registry)
    requires WithinLimit(m)
    ensures var last := Final(m, replies, registry);
            && WithinLimit(last) && last.state.maxSteps == m.state.maxSteps
            && (Halted(last) || Rank(last) + |replies| <= Rank(m))
    decreases |replies|
  {
    hide Advance, Rank, WithinLimit, Halted;
    if replies != [] {
      TraceWithinLimit(m, replies[..|replies| - 1], registry);
      AdvanceLowersRank(Final(m, replies[..|replies| - 1], registry), replies[|replies| - 1], registry);
      TraceStep(m, replies, registry, |replies| - 1);
    }
  }

  /** For every LLM, every tool outcome and every step limit: at most 3 * max_steps + 7 node visits. */
  lemma {:induction false} RunHalts(objective: string, approvalId: Option<string>, maxSteps: int, maxAttempts: nat,
                 replies: seq<Reply>, registry: Registry)
    requires |replies| >= 3 * (if maxSteps < 0 then 0 else maxSteps) + 7
    ensures Halted(Final(Start(objective, approvalId, maxSteps, maxAttempts), replies, registry))
  {
    var m := Start(objective, approvalId, maxSteps, maxAttempts);
    TraceWithinLimit(m, replies, registry);
    var last := Final(m, replies, registry);
    if !Halted(last) {
      AdvanceLowersRank(last, replies[0], registry);
    }
  }

  /** At every moment of every run the step count is at most one past the limit. */
  lemma StepCountBounded(objective: string, approvalId: Option<string>, maxSteps: int, maxAttempts: nat,
                         replies: seq<Reply>, registry: Registry)
    ensures Final(Start(objective, approvalId, maxSteps, maxAttempts), replies, registry).state.stepCount
            <= (if maxSteps < 0 then 0 else maxSteps) + 1
  {
    hide Advance;
    TraceWithinLimit(Start(objective, approvalId, maxSteps, maxAttempts), replies, registry);
  }

  // ---------------------------------------------------------------------------
  // Mutations
  // ---------------------------------------------------------------------------

  /** This visit executes a recovery option: in the act node, or by the execute_action tool. */
  predicate Mutates(m: Machine, r: Reply) {
    !r.raises &&
    match m.node
    case Act => true
    case ToolExecution => m.state.decision.tool == "execute_action" && r.toolStatus == Success
    case _ => false
  }

  /** The node whose result is a mutation that has not been verified yet. */
  predicate AwaitsVerify(m: Machine) {
    m.node == Verify || (m.node == ProcessResult && m.state.lastTool == "execute_action" && m.state.lastToolStatus == Success)
  }

  lemma MutationAwaitsVerify(m: Machine, r: Reply, next: Reply, registry: Registry)
    requires Mutates(m, r)
    ensures var n := Advance(m, r, registry);
            AwaitsVerify(n) && (n.node == Verify || Advance(n, next, registry).node == Verify)
  {
    hide ToolNode, ActNode;
  }

  lemma AwaitsAfterMutation(m: Machine, r: Reply, registry: Registry)
    requires AwaitsVerify(Advance(m, r, registry))
    ensures Mutates(m, r) || (AwaitsVerify(m) && m.node == ProcessResult && Advance(m, r, registry).node == Verify)
  {
    hide ObserveNode, InterpretNode, ToolNode, ValidateNode, ActNode, VerifyNode,
         EndCompletedNode, EndFailedNode, EndPausedNode, DecideNode, Counts;
  }

  /**
   Over every run, every mutation is verified before anything else: the verify node follows the act
   node, and follows the tool after the node that processes its result.
   */
  lemma {:induction false} MutationIsVerifiedNext(m: Machine, replies: seq<Reply>, registry: Registry, i: nat)
    requires i < |replies|
    ensures var trace := Trace(m, replies, registry);
            Mutates(trace[i], replies[i]) ==>
              || trace[i + 1].node == Verify
              || (trace[i + 1].node == ProcessResult && (i + 1 < |replies| ==> trace[i + 2].node == Verify))
  {
    hide Advance, Trace;
    TraceStep(m, replies, registry, i);
    var trace := Trace(m, replies, registry);
    if Mutates(trace[i], replies[i]) {
      var next := if i + 1 < |replies| then replies[i + 1] else replies[i];
      MutationAwaitsVerify(trace[i], replies[i], next, registry);
      if i + 1 < |replies| {
        TraceStep(m, replies, registry, i + 1);
      }
    }
  }

  /** Over every run, the verify node is entered only right after a mutation. */
  lemma {:induction false} OnlyMutationsAreVerified(m: Machine, replies: seq<Reply>, registry: Registry, i: nat)
    requires i <= |replies| && !AwaitsVerify(m)
    ensures var trace := Trace(m, replies, registry);
            trace[i].node == Verify ==>
              && i > 0
              && (Mutates(trace[i - 1], replies[i - 1])
                  || (i > 1 && trace[i - 1].node == ProcessResult && Mutates(trace[i - 2], replies[i - 2])))
  {
    hide Advance, Trace, Mutates;
    TraceStart(m, replies, registry);
    var trace := Trace(m, replies, registry);
    if trace[i].node == Verify {
      TraceStep(m, replies, registry, i - 1);
      AwaitsAfterMutation(trace[i - 1], replies[i - 1], registry);
      if !Mutates(trace[i - 1], replies[i - 1]) {
        TraceStep(m, replies, registry, i - 2);
        AwaitsAfterMutation(trace[i - 2], replies[i - 2], registry);
      }
    }
  }

  function CountMutations(m: Machine, replies: seq<Reply>, registry: Registry): nat
    decreases |replies|
  {
    if replies == [] then 0
    else
      var before := replies[..|replies| - 1];
      CountMutations(m, before, registry) + (if Mutates(Final(m, before, registry), replies[|replies| - 1]) then 1 else 0)
  }

  /** Attempts are behind the mutations only while one waits for its verification. */
  predicate AttemptsInv(m: Machine, mutations: nat) {
    var max := MaxAttempts(m.state);
    && m.state.attempts <= max
    && (m.node != Crashed ==> mutations == m.state.attempts + (if AwaitsVerify(m) then 1 else 0))
    && mutations <= max
    && (m.node in {Observe, Interpret, Decide, ToolExecution, ValidateAction, Act} || AwaitsVerify(m)
        ==> m.state.attempts < max)
    && (m.node == ProcessResult ==> m.state.attempts < max)
    && (m.node in {EndFailed, End} && m.state.attempts == max && m.state.verificationStatus != "VERIFIED"
        ==> m.state.status == RecoveryFailed)
    && (m.state.attempts == max && m.state.verificationStatus != "VERIFIED" ==> m.node in {EndFailed, End})
    && (m.state.attempts == max && m.state.verificationStatus == "VERIFIED" ==> m.node in {EndCompleted, End, Crashed})
  }

  lemma AttemptsAdvance(m: Machine, r: Reply, registry: Registry, mutations: nat)
    requires AttemptsInv(m, mutations)
    ensures AttemptsInv(Advance(m, r, registry), mutations + (if Mutates(m, r) then 1 else 0))
  {
    hide ObserveNode, InterpretNode, ToolNode, ValidateNode, ActNode, DecideNode, VerifyNode, RouteAfterDecide;
    if m.node == Decide {
      DecideNeedsStep(m.state, r, registry);
    } else if m.node == Verify {
      AttemptsAtVerify(m, r, registry, mutations);
    }
  }

  lemma AttemptsAtVerify(m: Machine, r: Reply, registry: Registry, mutations: nat)
    requires AttemptsInv(m, mutations) && m.node == Verify
    ensures AttemptsInv(Advance(m, r, registry), mutations + (if Mutates(m, r) then 1 else 0))
  {
    hide ObserveNode, InterpretNode, ToolNode, ValidateNode, ActNode, DecideNode, VerifyNode, RouteAfterDecide, ProcessResultNode,
         EndCompletedNode, EndFailedNode, EndPausedNode;
  }

  lemma {:induction false} TraceAttempts(m: Machine, replies: seq<Reply>, registry: Registry)
    requires AttemptsInv(m, 0)
    ensures AttemptsInv(Final(m, replies, registry), CountMutations(m, replies, registry))
    ensures MaxAttempts(Final(m, replies, registry).state) == MaxAttempts(m.state)
    decreases |replies|
  {
    hide Advance, AttemptsInv, Mutates, MaxAttempts;
    if replies != [] {
      var before := replies[..|replies| - 1];
      var last, r := Final(m, before, registry), replies[|replies| - 1];
      TraceAttempts(m, before, registry);
      AttemptsAdvance(last, r, registry, CountMutations(m, before, registry));
      MaxAttemptsFixed(last, r, registry);
    }
  }

  lemma MaxAttemptsFixed(m: Machine, r: Reply, registry: Registry)
    ensures MaxAttempts(Advance(m, r, registry).state) == MaxAttempts(m.state)
  {
    hide ObserveNode, InterpretNode, ToolNode, ValidateNode, ActNode, DecideNode, ProcessResultNode, VerifyNode,
         EndCompletedNode, EndFailedNode, EndPausedNode, RouteAfterDecide;
  }

  /**
   Over every run there are at most max_recovery_attempts mutations; as many verifications as
   mutations, but for the one that comes next; and when the attempts are used up without a
   verified recovery, the run is at its failed end with RECOVERY_FAILED.
   */
  lemma {:induction false} MutationsBounded(objective: string, approvalId: Option<string>, maxSteps: int, maxAttempts: nat,
                         replies: seq<Reply>, registry: Registry)
    ensures var m := Start(objective, approvalId, maxSteps, maxAttempts);
            var max := if maxAttempts == 0 then DEFAULT_ATTEMPTS else maxAttempts;
            var last, mutations := Final(m, replies, registry), CountMutations(m, replies, registry);
            && mutations <= max
            && (last.node != Crashed ==> mutations == last.state.attempts + (if AwaitsVerify(last) then 1 else 0))
            && (last.state.attempts == max && last.state.verificationStatus != "VERIFIED" ==>
                  last.node in {EndFailed, End} && last.state.status == RecoveryFailed)
  {
    hide Advance;
    TraceAttempts(Start(objective, approvalId, maxSteps, maxAttempts), replies, registry);
  }

  // ---------------------------------------------------------------------------
  // Authorization and approval
  // ---------------------------------------------------------------------------

  /** The approval of the run was read from the database as approved. */
  predicate ReadAsApproved(s: State, r: Reply) {
    s.approvalId.Some? && r.approval.Some? && r.approval.value.approved
  }

  /**
   The act node is entered only from validation, in the very reply of which the action was
   allowed, and either needs no approval or the run's approval was read as approved there.
   */
  lemma ActIsAuthorized(objective: string, approvalId: Option<string>, maxSteps: int, maxAttempts: nat,
                        replies: seq<Reply>, registry: Registry, i: nat)
    requires i <= |replies|
    requires Trace(Start(objective, approvalId, maxSteps, maxAttempts), replies, registry)[i].node == Act
    ensures var trace := Trace(Start(objective, approvalId, maxSteps, maxAttempts), replies, registry);
            && i > 0 && trace[i - 1].node == ValidateAction
            && !replies[i - 1].raises && replies[i - 1].authorization.allowed
            && (replies[i - 1].authorization.requiresApproval ==> ReadAsApproved(trace[i - 1].state, replies[i - 1]))
  {
    var m := Start(objective, approvalId, maxSteps, maxAttempts);
    TraceStart(m, replies, registry);
    assert i > 0;
    TraceStep(m, replies, registry, i - 1);
    EnterAct(Trace(m, replies, registry)[i - 1], replies[i - 1], registry);
  }

  lemma EnterAct(m: Machine, r: Reply, registry: Registry)
    requires Advance(m, r, registry).node == Act
    ensures m.node == ValidateAction && !r.raises && r.authorization.allowed
    ensures r.authorization.requiresApproval ==> ReadAsApproved(m.state, r)
  {
    hide ObserveNode, InterpretNode, ToolNode, ActNode, DecideNode, VerifyNode,
         EndCompletedNode, EndFailedNode, EndPausedNode, Counts;
  }

  lemma EnterTool(m: Machine, r: Reply, registry: Registry)
    requires Advance(m, r, registry).node == ToolExecution
    ensures m.node == Decide && Advance(m, r, registry).state.decision.tool !in registry
  {
    hide ObserveNode, InterpretNode, ToolNode, ValidateNode, ActNode, DecideNode, VerifyNode,
         EndCompletedNode, EndFailedNode, EndPausedNode, Counts;
  }

  /** Over every run, no registered consequential tool is run by the tool node, whatever the LLM decides. */
  lemma {:induction false} ConsequentialToolsAreValidated(m: Machine, replies: seq<Reply>, registry: Registry, i: nat)
    requires i <= |replies| && m.node == Observe
    ensures var at := Trace(m, replies, registry)[i]; at.node == ToolExecution ==> at.state.decision.tool !in registry
  {
    hide Advance, Trace;
    TraceStart(m, replies, registry);
    if Trace(m, replies, registry)[i].node == ToolExecution {
      TraceStep(m, replies, registry, i - 1);
      EnterTool(Trace(m, replies, registry)[i - 1], replies[i - 1], registry);
    }
  }

  // ---------------------------------------------------------------------------
  // Which option is executed
  // ---------------------------------------------------------------------------

  function ValidatedId(s: State): string {
    if ValidatedOption(s).Some? then ValidatedOption(s).value.id else ""
  }

  /** This visit selects an option: options were generated, or an approval that names a known option was read. */
  predicate Selects(m: Machine, r: Reply) {
    !r.raises &&
    match m.node
    case ToolExecution =>
      m.state.decision.tool == "generate_recovery_options" && r.toolStatus == Success && r.toolData.OptionList? && r.toolData.options != []
    case Observe =>
      m.state.approvalId.Some? && r.approval.Some? && r.approval.value.recoveryOptionId != "" && r.approvedOption.Some?
    case _ => false
  }

  /** This visit clears the selection: a verification failed and another attempt is left. */
  predicate Clears(m: Machine, r: Reply) {
    && m.node == Verify && !r.raises
    && r.verification.status != "VERIFIED" && m.state.attempts + 1 < MaxAttempts(m.state)
  }

  /** Before visit i an option was selected, and no failed verification has cleared the selection since. */
  ghost predicate SelectedSince(trace: seq<Machine>, replies: seq<Reply>, i: nat)
    requires i <= |replies| < |trace|
  {
    exists j :: 0 <= j < i && Selects(trace[j], replies[j]) && forall k :: j < k < i ==> !Clears(trace[k], replies[k])
  }

  lemma SelectionStep(m: Machine, r: Reply, registry: Registry)
    ensures Advance(m, r, registry).state.selected.Some?
            <==> Selects(m, r) || (m.state.selected.Some? && !Clears(m, r))
  {
    hide ObserveNode, InterpretNode, DecideNode, ToolNode, ValidateNode, ActNode, ProcessResultNode, VerifyNode,
         EndCompletedNode, EndFailedNode, EndPausedNode, WaitForApprovalNode, Counts, RouteAfterDecide, Selects, Clears;
    KeepsSelection(m.state, r);
    EndKeepsSelection(m.state, r);
    ChangesSelection(m, r);
  }

  /** The three nodes that may change it. */
  lemma ChangesSelection(m: Machine, r: Reply)
    ensures m.node !in {Observe, ToolExecution} || r.raises ==> !Selects(m, r)
    ensures m.node != Verify || r.raises ==> !Clears(m, r)
    ensures m.node == Observe && !r.raises ==> (ObserveNode(m.state, r).selected.Some? <==> Selects(m, r) || m.state.selected.Some?)
    ensures m.node == ToolExecution && !r.raises ==> (ToolNode(m.state, r).selected.Some? <==> Selects(m, r) || m.state.selected.Some?)
    ensures m.node == Verify && !r.raises ==> (VerifyNode(m.state, r).selected.Some? <==> m.state.selected.Some? && !Clears(m, r))
  {
    hide Counts, Feasible, Backups, LoopDetected;
  }

  lemma EndKeepsSelection(s: State, r: Reply)
    ensures EndCompletedNode(s).selected == s.selected && EndFailedNode(s).selected == s.selected
    ensures EndPausedNode(s).selected == s.selected && WaitForApprovalNode(s, r).selected == s.selected
  {
  }

  /** The nodes that leave the selection alone. */
  lemma KeepsSelection(s: State, r: Reply)
    ensures InterpretNode(s, r).selected == s.selected && DecideNode(s, r).selected == s.selected
    ensures ValidateNode(s, r).selected == s.selected && ActNode(s, r).selected == s.selected
    ensures ProcessResultNode(s).selected == s.selected
  {
  }

  lemma SelectedSinceStep(trace: seq<Machine>, replies: seq<Reply>, i: nat)
    requires i < |replies| < |trace|
    ensures SelectedSince(trace, replies, i + 1)
            <==> Selects(trace[i], replies[i]) || (SelectedSince(trace, replies, i) && !Clears(trace[i], replies[i]))
  {
    hide Selects, Clears;
    if SelectedSince(trace, replies, i + 1) {
      var j :| 0 <= j < i + 1 && Selects(trace[j], replies[j]) && forall k :: j < k < i + 1 ==> !Clears(trace[k], replies[k]);
      assert j == i || (j < i && !Clears(trace[i], replies[i]));
    }
  }

  /** At every visit of a run an option is selected exactly when one was selected since the last failed verification. */
  lemma {:induction false} SelectedIff(m: Machine, replies: seq<Reply>, registry: Registry, i: nat)
    requires i <= |replies| && m.state.selected.None?
    ensures var trace := Trace(m, replies, registry);
            trace[i].state.selected.Some? <==> SelectedSince(trace, replies, i)
    decreases i
  {
    hide Advance, Trace, Selects, Clears;
    TraceStart(m, replies, registry);
    if i > 0 {
      var trace := Trace(m, replies, registry);
      SelectedIff(m, replies, registry, i - 1);
      TraceStep(m, replies, registry, i - 1);
      SelectionStep(trace[i - 1], replies[i - 1], registry);
      SelectedSinceStep(trace, replies, i - 1);
      hide SelectedSince;
    }
  }

  lemma ExecutedAfterValidation(s: State, r: Reply)
    ensures var t := ValidateNode(s, r);
            && t.selected == s.selected
            && (s.selected.Some? && s.selected.value.id != "" ==> ExecutedId(t) == s.selected.value.id == ValidatedId(s))
            && (s.selected.None? ==> ExecutedId(t) == FallbackId(t))
            && (ExecutedId(t) == ValidatedId(s)
                <==> (s.selected.Some? && s.selected.value.id != "") || FallbackId(t) == ValidatedId(s))
  {
  }

  /**
   Whenever a run acts, an option is selected exactly when one was generated or approved since the last
   failed verification; then the option executed is the one just put before the authorization service,
   unless it has no id. Otherwise the executed id comes from approval and decision, and is that of the
   authorized option only by coincidence.
   */
  lemma {:induction false} ExecutedIsValidatedIff(m: Machine, replies: seq<Reply>, registry: Registry, i: nat)
    requires i <= |replies| && m.node == Observe && m.state.selected.None?
    ensures var trace := Trace(m, replies, registry);
            trace[i].node == Act ==>
              && i > 0 && trace[i - 1].node == ValidateAction
              && var s, t := trace[i - 1].state, trace[i].state;
                 && s.selected == t.selected
                 && (s.selected.Some? <==> SelectedSince(trace, replies, i))
                 && (SelectedSince(trace, replies, i) && s.selected.value.id != "" ==>
                       ExecutedId(t) == ValidatedId(s) == s.selected.value.id)
                 && (!SelectedSince(trace, replies, i) ==> ExecutedId(t) == FallbackId(t))
                 && (ExecutedId(t) == ValidatedId(s) <==>
                     (SelectedSince(trace, replies, i) && s.selected.value.id != "") || FallbackId(t) == ValidatedId(s))
  {
    hide Trace, ValidateNode, ExecutedId, ValidatedId, FallbackId, SelectedSince;
    TraceStart(m, replies, registry);
    var trace := Trace(m, replies, registry);
    if trace[i].node == Act {
      TraceStep(m, replies, registry, i - 1);
      EnterAct(trace[i - 1], replies[i - 1], registry);
      ExecutedAfterValidation(trace[i - 1].state, replies[i - 1]);
      SelectedIff(m, replies, registry, i);
    }
  }

  // ---------------------------------------------------------------------------
  // What COMPLETED means
  // ---------------------------------------------------------------------------

  /** The ways into the completed end. */
  predicate CompletesVerified(m: Machine, r: Reply) {
    m.node == Verify && r.verification.status == "VERIFIED"
  }

  predicate CompletesByTool(m: Machine) {
    m.node == ProcessResult && m.state.lastTool == "verify_action" && m.state.lastToolStatus == Success
  }

  predicate CompletesByOperations(m: Machine, r: Reply) {
    || (m.node == ProcessResult && m.state.lastTool == "start_autonomous_operations")
    || (m.node == Interpret && (r.startOperations.Some? || r.modifyPlan))
  }

  predicate CompletesByDecision(m: Machine, r: Reply) {
    m.node == Decide && r.llm.Some? && r.llm.value.kind == Complete
  }

  lemma EnterCompleted(m: Machine, r: Reply, registry: Registry)
    requires Advance(m, r, registry).node == EndCompleted
    ensures Completes(m, r) && m.node != EndCompleted
  {
    hide ObserveNode, ToolNode, ValidateNode, ActNode, EndCompletedNode, EndFailedNode, EndPausedNode, Counts,
         InterpretNode, DecideNode, VerifyNode, RouteAfterDecide;
    match m.node
    case Interpret => InterpretCompletes(m.state, r);
    case Decide => DecideCompletes(m.state, r, registry);
    case _ =>
  }

  lemma DecideCompletes(s: State, r: Reply, registry: Registry)
    requires RouteAfterDecide(DecideNode(s, r), registry) == EndCompleted
    ensures r.llm.Some? && r.llm.value.kind == Complete
  {
    hide Counts, LoopDetected, MaxAttempts;
  }

  lemma InterpretCompletes(s: State, r: Reply)
    requires InterpretNode(s, r).status == Completed || InterpretNode(s, r).status == WaitingForUserSelection
    ensures r.startOperations.Some? || r.modifyPlan
  {
  }

  lemma {:induction false} EndKeepsStatus(m: Machine, r: Reply, registry: Registry)
    requires Advance(m, r, registry).node == End && Advance(m, r, registry).state.status == Completed
    ensures m.node in {EndCompleted, End} && (m.node == End ==> m.state.status == Completed)
  {
    hide ObserveNode, InterpretNode, ToolNode, ValidateNode, ActNode, DecideNode, VerifyNode, Counts;
  }

  predicate Completes(m: Machine, r: Reply) {
    CompletesVerified(m, r) || CompletesByTool(m) || CompletesByOperations(m, r) || CompletesByDecision(m, r)
  }

  /** This visit is a verify_action call that came back VERIFIED. */
  predicate VerifiesByTool(m: Machine, r: Reply) {
    && m.node == ToolExecution && !r.raises && m.state.decision.tool == "verify_action"
    && r.toolStatus == Success && r.toolData.VerificationData? && r.toolData.verification.status == "VERIFIED"
  }

  /** While a run goes on its last verification is not VERIFIED, except on its way from a verify_action call to the end. */
  predicate Unverified(m: Machine) {
    && (m.node in {Observe, Interpret, Decide, ToolExecution, ValidateAction, Act, Verify, WaitNode} ==>
          m.state.verificationStatus != "VERIFIED")
    && (m.node == ProcessResult && m.state.verificationStatus == "VERIFIED" ==>
          m.state.lastTool == "verify_action" && m.state.lastToolStatus == Success)
  }

  lemma UnverifiedStep(m: Machine, r: Reply, registry: Registry)
    requires Unverified(m)
    ensures Unverified(Advance(m, r, registry))
    ensures var n := Advance(m, r, registry);
            && (m.node != EndCompleted && n.node == EndCompleted ==>
                  (n.state.verificationStatus == "VERIFIED" <==>
                   CompletesVerified(m, r) || (m.node == ProcessResult && m.state.verificationStatus == "VERIFIED")))
            && (n.node == ProcessResult ==> (n.state.verificationStatus == "VERIFIED" <==> VerifiesByTool(m, r)))
            && (m.node in {EndCompleted, End} ==> n.state.verificationStatus == m.state.verificationStatus)
  {
    hide ObserveNode, InterpretNode, ToolNode, ValidateNode, ActNode, DecideNode, VerifyNode, EndCompletedNode, EndFailedNode,
         EndPausedNode, WaitForApprovalNode, ProcessResultNode, RouteAfterDecide, Counts, VerifiesByTool;
    KeepsVerification(m.state, r);
    DecideLeadsTo(m.state, r, registry);
    ToolVerifies(m, r);
  }

  lemma ToolVerifies(m: Machine, r: Reply)
    requires m.node == ToolExecution ==> m.state.verificationStatus != "VERIFIED"
    ensures m.node == ToolExecution && !r.raises ==>
              var t := ToolNode(m.state, r);
              && (t.verificationStatus == "VERIFIED" <==> VerifiesByTool(m, r))
              && (t.verificationStatus == "VERIFIED" ==> t.lastTool == "verify_action" && t.lastToolStatus == Success)
    ensures VerifiesByTool(m, r) ==> m.node == ToolExecution && !r.raises
  {
    hide Counts, Feasible, Backups;
  }

  lemma DecideLeadsTo(s: State, r: Reply, registry: Registry)
    ensures RouteAfterDecide(DecideNode(s, r), registry) !in {ProcessResult, Verify, Act, Observe, Interpret, Decide, End, Crashed}
  {
    hide Decided, Counts;
  }

  /** The nodes that leave the last verification alone. */
  lemma KeepsVerification(s: State, r: Reply)
    ensures ObserveNode(s, r).verificationStatus == s.verificationStatus
    ensures InterpretNode(s, r).verificationStatus == s.verificationStatus
    ensures DecideNode(s, r).verificationStatus == s.verificationStatus
    ensures ValidateNode(s, r).verificationStatus == s.verificationStatus
    ensures ActNode(s, r).verificationStatus == s.verificationStatus
    ensures ProcessResultNode(s).verificationStatus == s.verificationStatus
    ensures ProcessResultNode(s).lastTool == s.lastTool && ProcessResultNode(s).lastToolStatus == s.lastToolStatus
    ensures EndCompletedNode(s).verificationStatus == s.verificationStatus
  {
    hide Counts;
  }

  lemma {:induction false} TraceUnverified(m: Machine, replies: seq<Reply>, registry: Registry, i: nat)
    requires i <= |replies| && Unverified(m)
    ensures Unverified(Trace(m, replies, registry)[i])
    decreases i
  {
    hide Advance, Unverified, Trace;
    TraceStart(m, replies, registry);
    if i > 0 {
      TraceUnverified(m, replies, registry, i - 1);
      TraceStep(m, replies, registry, i - 1);
      UnverifiedStep(Trace(m, replies, registry)[i - 1], replies[i - 1], registry);
    }
  }

  /** Entering the completed end: verified exactly through a verification, or through a tool call that verified. */
  lemma EndIsVerifiedIff(m: Machine, replies: seq<Reply>, registry: Registry, i: nat)
    requires i < |replies| && Unverified(m) && m.node == Observe
    requires var trace := Trace(m, replies, registry); trace[i].node != EndCompleted && trace[i + 1].node == EndCompleted
    ensures var trace := Trace(m, replies, registry);
            trace[i + 1].state.verificationStatus == "VERIFIED" <==>
            CompletesVerified(trace[i], replies[i]) || (i > 0 && VerifiesByTool(trace[i - 1], replies[i - 1]))
  {
    hide Advance, Trace, Unverified, CompletesVerified, VerifiesByTool;
    var trace := Trace(m, replies, registry);
    TraceStart(m, replies, registry);
    TraceUnverified(m, replies, registry, i);
    TraceStep(m, replies, registry, i);
    UnverifiedStep(trace[i], replies[i], registry);
    if i > 0 {
      TraceUnverified(m, replies, registry, i - 1);
      TraceStep(m, replies, registry, i - 1);
      UnverifiedStep(trace[i - 1], replies[i - 1], registry);
      AfterTool(trace[i - 1], replies[i - 1], registry);
    }
  }

  lemma AfterTool(m: Machine, r: Reply, registry: Registry)
    ensures VerifiesByTool(m, r) ==>
              Advance(m, r, registry).node == ProcessResult && Advance(m, r, registry).state.lastTool == "verify_action"
  {
  }

  /** A verification is neither a decision nor a shortcut. */
  lemma VerifiedOtherwise(m: Machine, r: Reply)
    requires CompletesByDecision(m, r) || CompletesByOperations(m, r)
    ensures !CompletesVerified(m, r) && !(m.node == ProcessResult && m.state.lastTool == "verify_action")
  {
    assert "verify_action"[0] != "start_autonomous_operations"[0];
  }

  lemma TracePrefix(m: Machine, replies: seq<Reply>, registry: Registry)
    requires replies != []
    ensures Trace(m, replies, registry)[..|replies|] == Trace(m, replies[..|replies| - 1], registry)
  {
    hide Advance;
  }

  lemma StartIsUnverified(objective: string, approvalId: Option<string>, maxSteps: int, maxAttempts: nat)
    ensures Unverified(Start(objective, approvalId, maxSteps, maxAttempts))
  {
  }

  /**
   A run ends COMPLETED only after a verified mutation, a successful verify_action call, an
   operations shortcut, or because the LLM said so: visit `i` is that moment. The run is verified
   exactly when visit `i` is a verification that came back VERIFIED, or the visit before it a
   verify_action call that did; one completed by the LLM's word or a shortcut never is.
   */
  lemma {:induction false} CompletedHasOrigin(objective: string, approvalId: Option<string>, maxSteps: int, maxAttempts: nat,
                                              replies: seq<Reply>, registry: Registry) returns (i: nat)
    requires var last := Final(Start(objective, approvalId, maxSteps, maxAttempts), replies, registry);
             last.node == End && last.state.status == Completed
    ensures var trace := Trace(Start(objective, approvalId, maxSteps, maxAttempts), replies, registry);
            && i < |replies| && trace[i + 1].node == EndCompleted && Completes(trace[i], replies[i])
            && (trace[|replies|].state.verificationStatus == "VERIFIED" <==>
                CompletesVerified(trace[i], replies[i]) || (i > 0 && VerifiesByTool(trace[i - 1], replies[i - 1])))
            && (CompletesByDecision(trace[i], replies[i]) || CompletesByOperations(trace[i], replies[i]) ==>
                  trace[|replies|].state.verificationStatus != "VERIFIED")
    decreases |replies|
  {
    hide Advance, Completes, CompletesVerified, VerifiesByTool, CompletesByDecision, CompletesByOperations, Unverified, Trace;
    var m := Start(objective, approvalId, maxSteps, maxAttempts);
    var n := |replies|;
    TraceStart(m, replies, registry);
    assert Unverified(m) by { StartIsUnverified(objective, approvalId, maxSteps, maxAttempts); }
    assert n > 0;
    TraceStep(m, replies, registry, n - 1);
    var trace := Trace(m, replies, registry);
    EndKeepsStatus(trace[n - 1], replies[n - 1], registry);
    TraceUnverified(m, replies, registry, n - 1);
    UnverifiedStep(trace[n - 1], replies[n - 1], registry);
    if trace[n - 1].node == End {
      TracePrefix(m, replies, registry);
      i := CompletedHasOrigin(objective, approvalId, maxSteps, maxAttempts, replies[..n - 1], registry);
    } else {
      assert n - 1 > 0;
      i := n - 2;
      TraceStep(m, replies, registry, i);
      EnterCompleted(trace[i], replies[i], registry);
      EndIsVerifiedIff(m, replies, registry, i);
      if i > 0 {
        TraceStep(m, replies, registry, i - 1);
        AfterTool(trace[i - 1], replies[i - 1], registry);
      }
      if CompletesByDecision(trace[i], replies[i]) || CompletesByOperations(trace[i], replies[i]) {
        VerifiedOtherwise(trace[i], replies[i]);
      }
    }
  }
}
