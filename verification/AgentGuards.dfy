/**
 What a decision of the agent loop leads to: the guards in their order, and then the word of the
 decision maker; and what a paused event still lets a run do.
 */
module AgentGuards {
  import opened Common
  import opened AgentGraph
  import opened AgentRuns

  // ---------------------------------------------------------------------------
  // The guards
  // ---------------------------------------------------------------------------

  /** The last three calls are one and the same. */
  predicate Repeats(history: seq<HistoryEntry>) {
    |history| >= 3 && forall i :: |history| - 3 <= i < |history| ==> history[i] == history[|history| - 1]
  }

  /** Steps and attempts are left, and the run does not repeat itself. */
  predicate MayGoOn(s: State) {
    s.stepCount < s.maxSteps && s.attempts < (if s.maxAttempts == 0 then 3 else s.maxAttempts) && !Repeats(s.history)
  }

  /** An approved action waits for its execution. */
  predicate Resumes(s: State) {
    s.approval.Some? && s.approval.value.approved && s.execution.None?
  }

  /** The visit after the i-th is of this terminal node, and with it the run is over. */
  ghost predicate EndsAs(trace: seq<Machine>, i: nat, node: Node, status: Status, termination: Status)
    requires i + 2 < |trace|
  {
    && trace[i + 1].node == node && trace[i + 2].node == End
    && trace[i + 2].state.status == status && trace[i + 2].state.termination == Some(termination)
  }

  /** The run goes where the decision maker says: to validation with all that changes things, to a tool with the rest. */
  ghost predicate FollowsWord(llm: Option<Decision>, n: Machine, registry: Registry) {
    match llm
    case None => n.node == EndFailed
    case Some(d) =>
      && n.state.decision == d
      && if d.paused then n.node == EndPaused
         else
           && (n.node == ValidateAction <==> d.kind == ProposeAction || (d.kind == ToolCall && d.tool in registry))
           && (n.node == ToolExecution <==> d.kind == ToolCall && d.tool !in registry)
           && (n.node == WaitNode <==> d.kind in {RequestApproval, Wait})
           && (n.node == EndCompleted <==> d.kind == Complete)
           && (n.node == EndFailed <==> d.kind == Fail)
  }

  lemma GuardsStop(s: State, r: Reply, registry: Registry)
    ensures var n := Advance(Machine(Decide, s), r, registry);
            && (s.stepCount >= s.maxSteps ==>
                  n.node == EndFailed && n.state.status == Failed && n.state.termination == Some(StepLimitReached))
            && (s.stepCount < s.maxSteps && s.attempts >= MaxAttempts(s) ==>
                  n.node == EndFailed && n.state.status == RecoveryFailed && n.state.termination == Some(RecoveryFailed))
            && (s.stepCount < s.maxSteps && s.attempts < MaxAttempts(s) && Repeats(s.history) ==>
                  n.node == EndFailed && n.state.status == Failed && n.state.termination == Some(Failed))
            && (MayGoOn(s) && s.paused && !Resumes(s) ==> n.node == EndPaused)
  {
  }

  lemma GuardsOpen(s: State, r: Reply, registry: Registry)
    requires MayGoOn(s) && s.termination != Some(Paused)
    ensures var n := Advance(Machine(Decide, s), r, registry);
            && (Resumes(s) ==>
                  && n.node == (if "execute_action" in registry then ValidateAction else ToolExecution)
                  && n.state.decision.tool == "execute_action"
                  && n.state.decision.arguments == map["recovery_option_id" := s.approval.value.recoveryOptionId,
                                                       "approval_request_id" := s.approval.value.id])
            && (!Resumes(s) && !s.paused ==> FollowsWord(r.llm, n, registry))
  {
  }

  lemma EndsNext(m: Machine, r: Reply, registry: Registry)
    requires m.node in {EndFailed, EndPaused}
    ensures var n := Advance(m, r, registry);
            && n.node == End
            && (m.node == EndPaused ==> n.state.status == Paused && n.state.termination == Some(Paused))
            && (m.node == EndFailed && m.state.termination.Some? ==>
                  && n.state.termination == m.state.termination
                  && n.state.status == if m.state.status == RecoveryFailed || m.state.termination == Some(RecoveryFailed)
                                       then RecoveryFailed else Failed)
  {
  }

  /**
   Over every run, a decision without steps left, without attempts left, or after three equal calls ends
   the run as failed, in this order and whatever the decision maker says; then an approved action is
   resumed with its two arguments; then a paused event ends the run as paused; only then the word of the
   decision maker counts.
   */
  lemma {:induction false} DecisionLeadsTo(m: Machine, replies: seq<Reply>, registry: Registry, i: nat)
    requires i + 2 <= |replies|
    ensures var trace := Trace(m, replies, registry);
            var s := trace[i].state;
            trace[i].node == Decide ==>
              && (s.stepCount >= s.maxSteps ==> EndsAs(trace, i, EndFailed, Failed, StepLimitReached))
              && (s.stepCount < s.maxSteps && s.attempts >= MaxAttempts(s) ==>
                    EndsAs(trace, i, EndFailed, RecoveryFailed, RecoveryFailed))
              && (s.stepCount < s.maxSteps && s.attempts < MaxAttempts(s) && Repeats(s.history) ==>
                    EndsAs(trace, i, EndFailed, Failed, Failed))
              && (MayGoOn(s) && Resumes(s) && s.termination != Some(Paused) ==>
                    && trace[i + 1].node == (if "execute_action" in registry then ValidateAction else ToolExecution)
                    && trace[i + 1].state.decision.tool == "execute_action"
                    && trace[i + 1].state.decision.arguments
                       == map["recovery_option_id" := s.approval.value.recoveryOptionId, "approval_request_id" := s.approval.value.id])
              && (MayGoOn(s) && !Resumes(s) && s.paused ==> EndsAs(trace, i, EndPaused, Paused, Paused))
              && (MayGoOn(s) && !Resumes(s) && !s.paused && s.termination != Some(Paused) ==>
                    FollowsWord(replies[i].llm, trace[i + 1], registry))
  {
    hide Advance, Trace, MaxAttempts, Repeats, FollowsWord;
    TraceStep(m, replies, registry, i);
    TraceStep(m, replies, registry, i + 1);
    var trace := Trace(m, replies, registry);
    var s, n := trace[i].state, trace[i + 1];
    if trace[i].node == Decide {
      assert trace[i] == Machine(Decide, s);
      GuardsStop(s, replies[i], registry);
      if MayGoOn(s) && s.termination != Some(Paused) {
        GuardsOpen(s, replies[i], registry);
      }
      if n.node in {EndFailed, EndPaused} {
        EndsNext(n, replies[i + 1], registry);
      }
    }
  }

  // ---------------------------------------------------------------------------
  // A paused event
  // ---------------------------------------------------------------------------

  /** The run is over, or about to be. */
  predicate Ending(m: Machine) {
    m.node in {EndCompleted, EndFailed, EndPaused, WaitNode, End, Crashed}
  }

  lemma EndingGoesOn(m: Machine, r: Reply, registry: Registry)
    requires Ending(m)
    ensures Ending(Advance(m, r, registry)) && !Mutates(m, r)
  {
  }

  lemma {:induction false} EndingMutatesNoMore(m: Machine, replies: seq<Reply>, registry: Registry, i: nat, k: nat)
    requires i <= k < |replies| && Ending(Trace(m, replies, registry)[i])
    ensures Ending(Trace(m, replies, registry)[k]) && !Mutates(Trace(m, replies, registry)[k], replies[k])
    decreases k
  {
    hide Advance, Trace, Ending, Mutates;
    if k > i {
      EndingMutatesNoMore(m, replies, registry, i, k - 1);
      EndingGoesOn(Trace(m, replies, registry)[k - 1], replies[k - 1], registry);
      TraceStep(m, replies, registry, k - 1);
    }
    EndingGoesOn(Trace(m, replies, registry)[k], replies[k], registry);
  }

  /** From a decision about a paused event on, unless an approved action is resumed there, no run mutates anything. */
  lemma PausedRunMutatesNoMore(m: Machine, replies: seq<Reply>, registry: Registry, i: nat, k: nat)
    requires i + 2 <= |replies| && i <= k < |replies|
    requires var at := Trace(m, replies, registry)[i];
             at.node == Decide && at.state.paused && !Resumes(at.state)
    ensures !Mutates(Trace(m, replies, registry)[k], replies[k])
  {
    hide Advance, Trace, MaxAttempts, Repeats, FollowsWord;
    var trace := Trace(m, replies, registry);
    DecisionLeadsTo(m, replies, registry, i);
    MaxAttemptsByDefault(trace[i].state);
    assert Ending(trace[i + 1]);
    if k > i {
      EndingMutatesNoMore(m, replies, registry, i + 1, k);
    }
  }

  lemma MaxAttemptsByDefault(s: State)
    ensures MaxAttempts(s) == if s.maxAttempts == 0 then 3 else s.maxAttempts
  {
  }

  /** The nodes that leave alone whether the event is known as paused. */
  lemma KeepsPaused(s: State, r: Reply)
    ensures InterpretNode(s, r).paused == s.paused && DecideNode(s, r).paused == s.paused && ProcessResultNode(s).paused == s.paused
    ensures ValidateNode(s, r).paused == s.paused && ActNode(s, r).paused == s.paused && VerifyNode(s, r).paused == s.paused
    ensures WaitForApprovalNode(s, r).paused == s.paused
    ensures EndCompletedNode(s).paused == s.paused && EndFailedNode(s).paused == s.paused && EndPausedNode(s).paused == s.paused
  {
    hide Counts, ValidatedOption, VerifyEntry, ActEntry, LoopDetected;
  }

  lemma ToolKeepsPaused(s: State, r: Reply)
    ensures ToolNode(s, r).paused == s.paused
  {
    hide Counts, Feasible, Backups, First;
  }

  lemma PausedStep(m: Machine, r: Reply, registry: Registry)
    ensures Advance(m, r, registry).state.paused == if m.node == Observe && !r.raises then r.paused else m.state.paused
  {
    hide InterpretNode, DecideNode, ToolNode, ProcessResultNode, ValidateNode, ActNode, VerifyNode, WaitForApprovalNode,
         EndCompletedNode, EndFailedNode, EndPausedNode, RouteAfterDecide, Counts;
    KeepsPaused(m.state, r);
    ToolKeepsPaused(m.state, r);
  }

  /** Visit j was the last observation before visit i. */
  ghost predicate LastObserved(trace: seq<Machine>, j: nat, i: nat)
    requires i < |trace|
  {
    j < i && trace[j].node == Observe && forall k :: j < k < i ==> trace[k].node != Observe
  }

  /** A run knows the event as paused exactly if its last observation read it as paused. */
  lemma {:induction false} PausedAsObserved(m: Machine, replies: seq<Reply>, registry: Registry, j: nat, i: nat)
    requires i <= |replies| && LastObserved(Trace(m, replies, registry), j, i) && !replies[j].raises
    ensures Trace(m, replies, registry)[i].state.paused == replies[j].paused
    decreases i
  {
    hide Advance, Trace;
    TraceStep(m, replies, registry, i - 1);
    PausedStep(Trace(m, replies, registry)[i - 1], replies[i - 1], registry);
    if j < i - 1 {
      PausedAsObserved(m, replies, registry, j, i - 1);
    }
  }

  /** Where a mutation was decided: two visits before the act node, one before the tool node. */
  function DecidedAt(m: Machine, i: nat): nat {
    if m.node == Act then (if i >= 2 then i - 2 else 0) else (if i >= 1 then i - 1 else 0)
  }

  lemma EnterValidate(m: Machine, r: Reply, registry: Registry)
    requires Advance(m, r, registry).node in {ValidateAction, ToolExecution}
    ensures m.node == Decide && MayGoOn(m.state) && (m.state.paused ==> Resumes(m.state))
  {
    hide ObserveNode, InterpretNode, ToolNode, ValidateNode, ActNode, VerifyNode, EndCompletedNode, EndFailedNode, EndPausedNode,
         Counts, MayGoOn, Resumes, DecideNode, Repeats, RouteAfterDecide;
    if m.node == Decide {
      GuardsStop(m.state, r, registry);
      OrGoesOn(m.state);
    }
  }

  lemma OrGoesOn(s: State)
    ensures MayGoOn(s) <==> s.stepCount < s.maxSteps && s.attempts < MaxAttempts(s) && !Repeats(s.history)
  {
  }

  /**
   Over every run, whatever changes things was decided with steps and attempts left and no repetition; and
   if the last observation before that decision read the event as paused, an approved action was resumed.
   */
  lemma {:induction false} MutationIsUnpaused(m: Machine, replies: seq<Reply>, registry: Registry, i: nat)
    requires i < |replies| && m.node == Observe
    ensures var trace := Trace(m, replies, registry);
            Mutates(trace[i], replies[i]) ==>
              var d := DecidedAt(trace[i], i);
              && d < i && trace[d].node == Decide && MayGoOn(trace[d].state)
              && (trace[d].state.paused ==> Resumes(trace[d].state))
              && forall j :: 0 <= j < d && LastObserved(trace, j, d) && !replies[j].raises && replies[j].paused ==>
                   Resumes(trace[d].state)
  {
    hide Advance, Trace, MayGoOn, Resumes, LastObserved;
    TraceStart(m, replies, registry);
    var trace := Trace(m, replies, registry);
    if Mutates(trace[i], replies[i]) {
      TraceStep(m, replies, registry, i - 1);
      var d := DecidedAt(trace[i], i);
      if trace[i].node == Act {
        EnterAct(trace[i - 1], replies[i - 1], registry);
        TraceStep(m, replies, registry, i - 2);
      }
      EnterValidate(trace[d], replies[d], registry);
      forall j | 0 <= j < d && LastObserved(trace, j, d) && !replies[j].raises && replies[j].paused
        ensures Resumes(trace[d].state)
      {
        PausedAsObserved(m, replies, registry, j, d);
      }
    }
  }
}
