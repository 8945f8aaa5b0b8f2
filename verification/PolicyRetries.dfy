/**
 What the policy proposes after a failed attempt, over every run without an approval ticket: the first
 failure is recorded under its option and another one is proposed; the second is recorded under no
 option, and the option that just failed is proposed again.
 */
module PolicyRetries {
  import opened Common
  import opened AgentGraph
  import opened AgentRuns
  import opened MockPolicy

  // ---------------------------------------------------------------------------
  // Alternatives after a failure
  // ---------------------------------------------------------------------------

  /** The id that a failed verification records for its attempt. */
  function RecordedId(s: State): string {
    FirstNonEmpty(if s.selected.Some? then s.selected.value.id else "",
                  if s.execution.Some? then s.execution.value.recoveryOptionId else "")
  }

  lemma {:induction false} UntriedMembers(options: seq<RecoveryOption>, failed: seq<string>)
    ensures forall o :: o in Untried(options, failed) <==> o in options && o.id !in failed
  {
    if options != [] {
      UntriedMembers(options[1..], failed);
      assert options == [options[0]] + options[1..];
    }
  }

  /** With one more failure on record an option leaves the candidates exactly when the failure is recorded under its id. */
  lemma RetryExcludesRecordedOnly(s: State, t: State, id: string, option: RecoveryOption)
    requires t.options == s.options && t.failedOptions == s.failedOptions + [id] && option in Candidates(s)
    ensures option in Candidates(t) <==> option.id != id
  {
    hide Feasible;
    UntriedMembers(Feasible(s.options), s.failedOptions);
    UntriedMembers(Feasible(s.options), s.failedOptions + [id]);
  }

  // ---------------------------------------------------------------------------
  // Runs without an approval ticket
  // ---------------------------------------------------------------------------

  predicate Running(node: Node) {
    node in {Observe, Interpret, Decide, ToolExecution, ProcessResult, ValidateAction, Act, Verify}
  }

  predicate AllCalled(history: seq<HistoryEntry>) {
    && Called(history, GET_EVENT_STATE) && Called(history, GET_PROVIDER_STATUS) && Called(history, ANALYZE_IMPACT)
    && Called(history, ASSESS_RISK) && Called(history, GENERATE_OPTIONS)
  }

  /** The option that generate_recovery_options selects. */
  function Preferred(options: seq<RecoveryOption>): Option<RecoveryOption> {
    First(Backups(Feasible(options)), First(Feasible(options), First(options, None)))
  }

  function Proposal(id: string): Decision {
    Decision(ProposeAction, EXECUTE, map["recovery_option_id" := id], false)
  }

  /** The policy's proposal is under way. */
  predicate Proposes(s: State) {
    && s.decision == Proposal(ChosenId(s))
    && AllCalled(s.history)
    && (s.failedOptions != [] ==> Candidates(s) != [])
  }

  ghost predicate RetryInv(m: Machine) {
    var s := m.state;
    Running(m.node) ==>
      && s.approvalId == None && s.approval == None
      && (m.node != Verify ==> s.execution == None)
      && (s.execution.Some? ==> s.execution.value.recoveryOptionId == "")
      && (m.node in {ValidateAction, Act, Verify} ==> Proposes(s))
      && (s.attempts >= 1 ==> s.selected == None && AllCalled(s.history) && s.failedOptions != [])
      && (s.attempts == 0 ==> s.failedOptions == [])
      && (s.selected.Some? ==> s.selected == Preferred(s.options))
      && (m.node == ToolExecution ==> IsInvestigation(s.decision.tool) && !Called(s.history, s.decision.tool))
      && (m.node == ProcessResult ==> IsInvestigation(s.lastTool))
  }

  lemma AllCalledAppend(history: seq<HistoryEntry>, entry: HistoryEntry)
    requires AllCalled(history)
    ensures AllCalled(history + [entry])
  {
    hide Called;
    CalledAppend(history, entry, GET_EVENT_STATE);
    CalledAppend(history, entry, GET_PROVIDER_STATUS);
    CalledAppend(history, entry, ANALYZE_IMPACT);
    CalledAppend(history, entry, ASSESS_RISK);
    CalledAppend(history, entry, GENERATE_OPTIONS);
  }

  /** Without a ticket and an execution, the policy looks, proposes or fails. */
  lemma PolicyWithoutTicket(s: State, facts: Facts)
    requires s.approvalId == None && s.approval == None && s.execution == None
    ensures var d := IncidentPolicy(s, facts);
            if !AllCalled(s.history) then
              d.kind == ToolCall && !d.paused && IsInvestigation(d.tool) && !Called(s.history, d.tool)
            else if Candidates(s) == [] && s.failedOptions != [] then d == FAIL
            else d == Proposal(ChosenId(s))
  {
    hide Called, Candidates, ChosenId;
  }

  lemma SameChoice(s: State, t: State)
    requires t.options == s.options && t.failedOptions == s.failedOptions
    ensures ChosenId(t) == ChosenId(s) && Candidates(t) == Candidates(s)
  {
  }

  lemma RetryAtDecide(m: Machine, r: Reply, facts: Facts, registry: Registry)
    requires PolicyInv(m) && RetryInv(m) && m.node == Decide && GatesExecution(registry)
    requires r.llm == Some(IncidentPolicy(m.state, facts))
    ensures RetryInv(Advance(m, r, registry))
  {
    hide IncidentPolicy, Called, Investigated, Orderly, OnceEach, IsInvestigation, GatesExecution, LoopDetected, AllCalled,
         Candidates, ChosenId, Preferred, Executing;
    PolicyWithoutTicket(m.state, facts);
    InvestigationsNotGated(registry);
    SameChoice(m.state, DecideNode(m.state, r));
  }

  lemma RetryAtTool(m: Machine, r: Reply, registry: Registry)
    requires RetryInv(m) && m.node == ToolExecution
    ensures RetryInv(Advance(m, r, registry))
  {
    hide Called, AllCalled, Proposes, IsInvestigation, Counts, ToolNode, Preferred;
    ToolNamesDiffer();
    AllCalledTools(m.state.history);
    ToolKeepsAttempt(m.state, r);
  }

  lemma ToolKeepsAttempt(s: State, r: Reply)
    requires s.decision.tool != EXECUTE
    ensures var t := ToolNode(s, r);
            && t.approvalId == s.approvalId && t.approval == s.approval && t.execution == s.execution
            && t.failedOptions == s.failedOptions && t.attempts == s.attempts && t.lastTool == s.decision.tool
    ensures var t := ToolNode(s, r);
            && (s.decision.tool != GENERATE_OPTIONS ==> t.options == s.options && t.selected == s.selected)
            && ((t.options == s.options && t.selected == s.selected) || t.selected == Preferred(t.options))
  {
    hide Feasible, Backups, Counts, First;
    if s.decision.tool == GENERATE_OPTIONS {
      ToolSelectsPreferred(s, r);
    }
    hide Preferred;
  }

  lemma ToolSelectsPreferred(s: State, r: Reply)
    requires s.decision.tool == GENERATE_OPTIONS
    ensures var t := ToolNode(s, r); (t.options == s.options && t.selected == s.selected) || t.selected == Preferred(t.options)
  {
    hide Feasible, Backups, Counts;
  }

  lemma AllCalledTools(history: seq<HistoryEntry>)
    ensures AllCalled(history) ==> forall tool :: IsInvestigation(tool) ==> Called(history, tool)
  {
    hide Called;
  }

  lemma RetryAtVerify(m: Machine, r: Reply, registry: Registry)
    requires RetryInv(m) && m.node == Verify
    ensures RetryInv(Advance(m, r, registry))
  {
    hide Called, AllCalled, Candidates, ChosenId, Preferred, IsInvestigation, VerifyEntry;
    AllCalledAppend(m.state.history, VerifyEntry(m.state));
  }

  lemma RetryAtAct(m: Machine, r: Reply, registry: Registry)
    requires RetryInv(m) && m.node == Act
    ensures RetryInv(Advance(m, r, registry))
  {
    hide Called, AllCalled, Preferred, IsInvestigation, ActEntry, Feasible, Backups, Untried;
    AllCalledAppend(m.state.history, ActEntry(m.state));
  }

  /** What the four nodes that call no tool and decide nothing leave alone, when there is no ticket. */
  predicate SameAttempt(s: State, t: State) {
    && t.approvalId == None && t.approval == None && t.execution == s.execution && t.options == s.options
    && t.failedOptions == s.failedOptions && t.attempts == s.attempts && t.selected == s.selected && t.history == s.history
    && t.decision == s.decision && t.lastTool == s.lastTool
  }

  lemma KeepsAttempt(s: State, r: Reply)
    requires s.approvalId == None && s.approval == None
    ensures SameAttempt(s, ObserveNode(s, r)) && SameAttempt(s, InterpretNode(s, r))
    ensures SameAttempt(s, ProcessResultNode(s)) && SameAttempt(s, ValidateNode(s, r))
  {
  }

  lemma AttemptGoesOn(m: Machine, n: Machine)
    requires RetryInv(m) && Running(m.node) && m.node != Verify && SameAttempt(m.state, n.state)
    requires n.node == Act ==> m.node == ValidateAction
    requires n.node !in {ToolExecution, ProcessResult, ValidateAction, Verify}
    ensures RetryInv(n)
  {
    hide Called, AllCalled, Preferred, IsInvestigation, Candidates, ChosenId;
    SameChoice(m.state, n.state);
  }

  lemma RetryElsewhere(m: Machine, r: Reply, registry: Registry)
    requires RetryInv(m) && m.node !in {Decide, ToolExecution, Verify, Act}
    ensures RetryInv(Advance(m, r, registry))
  {
    hide ObserveNode, InterpretNode, ValidateNode, EndCompletedNode, EndFailedNode, EndPausedNode, WaitForApprovalNode, Counts,
         Proposes, AllCalled, Preferred, IsInvestigation;
    var n := Advance(m, r, registry);
    if Running(n.node) {
      assert Running(m.node);
      KeepsAttempt(m.state, r);
      ToolNamesDiffer();
      hide SameAttempt;
      AttemptGoesOn(m, n);
    }
  }

  lemma {:induction false} TraceRetries(m: Machine, replies: seq<Reply>, facts: seq<Facts>, registry: Registry, i: nat)
    requires PolicyInv(m) && RetryInv(m) && GatesExecution(registry) && FollowsPolicy(m, replies, facts, registry) && i <= |replies|
    ensures RetryInv(Trace(m, replies, registry)[i])
    decreases i
  {
    hide Advance, Trace, PolicyInv, RetryInv, GatesExecution, IncidentPolicy, IsIncident;
    TraceStart(m, replies, registry);
    if i > 0 {
      TraceRetries(m, replies, facts, registry, i - 1);
      TracePolicy(m, replies, facts, registry, i - 1);
      TraceStep(m, replies, registry, i - 1);
      var at := Trace(m, replies, registry)[i - 1];
      match at.node
      case Decide => RetryAtDecide(at, replies[i - 1], facts[i - 1], registry);
      case ToolExecution => RetryAtTool(at, replies[i - 1], registry);
      case Act => RetryAtAct(at, replies[i - 1], registry);
      case Verify => RetryAtVerify(at, replies[i - 1], registry);
      case _ => RetryElsewhere(at, replies[i - 1], registry);
    }
  }

  // ---------------------------------------------------------------------------
  // What is recorded, and what is proposed next
  // ---------------------------------------------------------------------------

  lemma StartRetries(objective: string)
    ensures PolicyInv(Start(objective, None, MAX_AGENT_STEPS, 0)) && RetryInv(Start(objective, None, MAX_AGENT_STEPS, 0))
  {
    assert Investigated([]) == 0;
  }

  /** While an attempt is verified, its option is the policy's choice, and is recorded only if it is selected. */
  lemma AttemptExecutesChoice(m: Machine)
    requires RetryInv(m) && m.node in {Act, Verify}
    ensures ExecutedId(m.state) == ChosenId(m.state)
    ensures m.node == Verify ==> RecordedId(m.state) == if m.state.selected.Some? then ExecutedId(m.state) else ""
  {
    hide AllCalled, Feasible, Backups;
    if m.state.selected.Some? {
      NothingFailedYet(Feasible(m.state.options));
    }
  }

  lemma {:induction false} NothingFailedYet(options: seq<RecoveryOption>)
    ensures Untried(options, []) == options
  {
    if options != [] {
      NothingFailedYet(options[1..]);
      assert options == [options[0]] + options[1..];
    }
  }

  lemma EnterVerify(m: Machine, r: Reply, registry: Registry)
    requires RetryInv(m)
    ensures Advance(m, r, registry).node == Verify ==>
              m.node == Act && ExecutedId(Advance(m, r, registry).state) == ExecutedId(m.state)
  {
    hide ObserveNode, InterpretNode, ToolNode, ValidateNode, DecideNode, VerifyNode, EndCompletedNode, EndFailedNode, EndPausedNode,
         Counts, Called, AllCalled, Preferred, Proposes, IsInvestigation, RouteAfterDecide, ActEntry;
    ToolNamesDiffer();
    DecideLeadsTo(m.state, r, registry);
  }

  /**
   In every run of the policy without a ticket: the option executed is the one proposed; the first
   failure is recorded under it if options had been generated; and from the second attempt on nothing
   is selected, so a failure is recorded under no id.
   */
  lemma {:induction false} OnlyFirstFailureIsRecorded(objective: string, replies: seq<Reply>, facts: seq<Facts>, registry: Registry, i: nat)
    requires GatesExecution(registry) && i <= |replies|
    requires FollowsPolicy(Start(objective, None, MAX_AGENT_STEPS, 0), replies, facts, registry)
    ensures var trace := Trace(Start(objective, None, MAX_AGENT_STEPS, 0), replies, registry);
            trace[i].node == Verify ==>
              && i > 0 && trace[i - 1].node == Act
              && var id := ExecutedId(trace[i - 1].state);
                 && id == ChosenId(trace[i - 1].state)
                 && (trace[i].state.attempts == 0 ==> RecordedId(trace[i].state) == if trace[i].state.selected.Some? then id else "")
                 && (trace[i].state.attempts >= 1 ==> trace[i].state.selected == None && RecordedId(trace[i].state) == "")
  {
    hide Advance, Trace, PolicyInv, GatesExecution, FollowsPolicy, ExecutedId, ChosenId, RecordedId;
    var m := Start(objective, None, MAX_AGENT_STEPS, 0);
    var trace := Trace(m, replies, registry);
    StartRetries(objective);
    TraceStart(m, replies, registry);
    if trace[i].node == Verify {
      TraceStep(m, replies, registry, i - 1);
      TraceRetries(m, replies, facts, registry, i - 1);
      TraceRetries(m, replies, facts, registry, i);
      EnterVerify(trace[i - 1], replies[i - 1], registry);
      AttemptExecutesChoice(trace[i - 1]);
      AttemptExecutesChoice(trace[i]);
    }
  }

  function Without(options: seq<RecoveryOption>, id: string): seq<RecoveryOption> {
    if options == [] then []
    else (if options[0].id == id then [] else [options[0]]) + Without(options[1..], id)
  }

  lemma {:induction false} OneMoreFailed(options: seq<RecoveryOption>, failed: seq<string>, id: string)
    ensures Untried(options, failed + [id]) == Without(Untried(options, failed), id)
  {
    if options != [] {
      OneMoreFailed(options[1..], failed, id);
      var rest := Untried(options[1..], failed);
      assert ([options[0]] + rest)[1..] == rest;
      assert [] + rest == rest;
    }
  }

  lemma {:induction false} BackupsWithout(options: seq<RecoveryOption>, id: string)
    ensures Backups(Without(options, id)) == Without(Backups(options), id)
  {
    if options != [] {
      BackupsWithout(options[1..], id);
      var rest, backups := Without(options[1..], id), Backups(options[1..]);
      assert ([options[0]] + rest)[1..] == rest && ([options[0]] + backups)[1..] == backups;
      assert [] + rest == rest && [] + backups == backups;
    }
  }

  /** Dropping the options without id changes no choice that has one. */
  lemma ChoiceStays(s: State, t: State)
    requires t.options == s.options && t.failedOptions == s.failedOptions + [""]
    requires Candidates(s) != [] && ChosenId(s) != ""
    ensures Candidates(t) != [] && ChosenId(t) == ChosenId(s)
  {
    hide Feasible;
    OneMoreFailed(Feasible(s.options), s.failedOptions, "");
    BackupsWithout(Candidates(s), "");
    WithoutKeepsHead(Candidates(s), "");
    WithoutKeepsHead(Backups(Candidates(s)), "");
    assert Candidates(t) == [] ==> Backups(Candidates(t)) == [];
    hide Backups, Untried, Without;
  }

  lemma WithoutKeepsHead(options: seq<RecoveryOption>, id: string)
    ensures options != [] && options[0].id != id ==> Without(options, id) != [] && Without(options, id)[0] == options[0]
    ensures options == [] ==> Without(options, id) == []
  {
  }

  /** An option recorded as failed is no candidate, so it is not chosen while a candidate is left. */
  lemma ChoiceChanges(t: State, id: string)
    requires id in t.failedOptions && Candidates(t) != []
    ensures ChosenId(t) != id
  {
    hide Feasible;
    UntriedMembers(Feasible(t.options), t.failedOptions);
    BackupsAreMembers(Candidates(t));
    hide Backups;
    assert Candidates(t)[0] in Candidates(t);
  }

  lemma {:induction false} BackupsAreMembers(options: seq<RecoveryOption>)
    ensures forall o :: o in Backups(options) ==> o in options
    ensures Backups(options) != [] ==> Backups(options)[0] in options
  {
    if options != [] {
      BackupsAreMembers(options[1..]);
      assert options == [options[0]] + options[1..];
    }
  }

  /** The state in which the policy decides after a failed attempt. */
  lemma {:induction false} NextDecision(m: Machine, replies: seq<Reply>, registry: Registry, i: nat)
    requires i + 3 <= |replies|
    ensures var trace := Trace(m, replies, registry);
            var s, d := trace[i].state, trace[i + 3].state;
            RetryInv(trace[i]) && trace[i].node == Verify && trace[i + 1].node == Observe && trace[i + 3].node == Decide ==>
              && d.options == s.options && d.failedOptions == s.failedOptions + [RecordedId(s)]
              && d.approvalId == None && d.approval == None && d.execution == None && AllCalled(d.history)
  {
    hide Trace, RetryInv, RecordedId, AllCalled, Advance;
    var trace := Trace(m, replies, registry);
    TraceStep(m, replies, registry, i);
    TraceStep(m, replies, registry, i + 1);
    TraceStep(m, replies, registry, i + 2);
    if RetryInv(trace[i]) && trace[i].node == Verify && trace[i + 1].node == Observe {
      FailsOpen(trace[i], replies[i], registry);
      ObservesNext(trace[i + 1], replies[i + 1], registry);
      InterpretsNext(trace[i + 2], replies[i + 2], registry);
    }
  }

  lemma FailsOpen(m: Machine, r: Reply, registry: Registry)
    requires RetryInv(m) && m.node == Verify
    ensures var t := Advance(m, r, registry).state;
            Advance(m, r, registry).node == Observe ==>
              && t.options == m.state.options && t.failedOptions == m.state.failedOptions + [RecordedId(m.state)]
              && t.approvalId == None && t.approval == None && t.execution == None && AllCalled(t.history)
  {
    hide AllCalled, Candidates, ChosenId, Preferred, IsInvestigation, VerifyEntry;
    AllCalledAppend(m.state.history, VerifyEntry(m.state));
  }

  lemma ObservesNext(m: Machine, r: Reply, registry: Registry)
    requires m.node == Observe && m.state.approvalId == None && m.state.approval == None
    ensures var n := Advance(m, r, registry);
            n.node != Crashed ==> n.node == Interpret && SameAttempt(m.state, n.state)
    ensures Advance(m, r, registry).node in {Interpret, Crashed}
    ensures Advance(m, r, registry).state.approvalId == None && Advance(m, r, registry).state.approval == None
  {
    hide ObserveNode;
    KeepsAttempt(m.state, r);
  }

  lemma InterpretsNext(m: Machine, r: Reply, registry: Registry)
    requires m.node in {Interpret, Crashed} && m.state.approvalId == None && m.state.approval == None
    ensures Advance(m, r, registry).node == Decide ==> m.node == Interpret && SameAttempt(m.state, Advance(m, r, registry).state)
  {
    hide InterpretNode;
    KeepsAttempt(m.state, r);
  }

  /**
   In every run of the policy without a ticket, at the decision after a failed attempt: exactly the
   options with the recorded id have left the candidates. If the failed option was still selected, it is
   not proposed again; but from the second attempt on nothing is, and then the policy proposes the very
   option that just failed.
   */
  lemma {:induction false} FailedOptionIsProposedAgain(objective: string, replies: seq<Reply>, facts: seq<Facts>, registry: Registry,
                                                       i: nat, now: Facts)
    requires GatesExecution(registry) && 0 < i && i + 3 <= |replies|
    requires FollowsPolicy(Start(objective, None, MAX_AGENT_STEPS, 0), replies, facts, registry)
    ensures var trace := Trace(Start(objective, None, MAX_AGENT_STEPS, 0), replies, registry);
            var executed, next := ExecutedId(trace[i - 1].state), IncidentPolicy(trace[i + 3].state, now);
            trace[i].node == Verify && trace[i + 1].node == Observe && trace[i + 3].node == Decide ==>
              && (forall option :: option in Candidates(trace[i].state) ==>
                    (option in Candidates(trace[i + 3].state) <==> option.id != RecordedId(trace[i].state)))
              && (trace[i].state.attempts >= 1 && executed != "" ==> next == Proposal(executed))
              && (trace[i].state.selected.Some? ==> next == FAIL || (next == Proposal(ChosenId(trace[i + 3].state))
                                                                     && ChosenId(trace[i + 3].state) != executed))
  {
    hide Advance, Trace, PolicyInv, GatesExecution, FollowsPolicy, ExecutedId, ChosenId, RecordedId, IncidentPolicy, Candidates, AllCalled;
    var m := Start(objective, None, MAX_AGENT_STEPS, 0);
    var trace := Trace(m, replies, registry);
    StartRetries(objective);
    if trace[i].node == Verify && trace[i + 1].node == Observe && trace[i + 3].node == Decide {
      TraceRetries(m, replies, facts, registry, i);
      OnlyFirstFailureIsRecorded(objective, replies, facts, registry, i);
      TraceStep(m, replies, registry, i - 1);
      TraceRetries(m, replies, facts, registry, i - 1);
      EnterVerify(trace[i - 1], replies[i - 1], registry);
      AttemptExecutesChoice(trace[i]);
      NextDecision(m, replies, registry, i);
      var s, d := trace[i].state, trace[i + 3].state;
      forall option | option in Candidates(s) {
        RetryExcludesRecordedOnly(s, d, RecordedId(s), option);
      }
      PolicyWithoutTicket(d, now);
      assert d.failedOptions[|s.failedOptions|] == RecordedId(s);
      if s.attempts >= 1 && ExecutedId(s) != "" {
        ChoiceStays(s, d);
      }
      if s.selected.Some? && Candidates(d) != [] {
        assert RecordedId(s) in d.failedOptions;
        ChoiceChanges(d, RecordedId(s));
      }
    }
  }
}
