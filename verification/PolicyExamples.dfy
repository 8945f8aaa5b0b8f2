/** A run of the policy that proposes the option that just failed, and never the third one. */
module PolicyExamples {
  import opened Common
  import opened AgentGraph
  import opened MockPolicy
  import opened PolicyRetries

  const QUIET := Reply(false, false, true, None, None, None, None, false, "fix", None, Success, OptionList(OPTIONS),
                       Authorization(true, false), "t1", "x1", Verification("FAILED", None))
  const OPTION_A := RecoveryOption("a", true, "BACKUP")
  const OPTION_B := RecoveryOption("b", true, "BACKUP")
  const OPTION_C := RecoveryOption("c", true, "BACKUP")
  const OPTIONS := [OPTION_A, OPTION_B, OPTION_C]
  const FACTS := Facts("e1", "catering", "i1", false)
  const START := Start("fix", None, MAX_AGENT_STEPS, 0)

  /** Some run of the default agent that follows the policy, without an approval ticket, gets there. */
  ghost predicate Reachable(m: Machine) {
    exists replies, facts ::
      FollowsPolicy(START, replies, facts, DEFAULT_REGISTRY) && m == Final(START, replies, DEFAULT_REGISTRY)
  }

  /** The reply that says what the policy decides. */
  function Answer(m: Machine): Reply {
    QUIET.(llm := Some(IncidentPolicy(m.state, FACTS)))
  }

  lemma FollowsOneMore(replies: seq<Reply>, facts: seq<Facts>, r: Reply)
    requires FollowsPolicy(START, replies, facts, DEFAULT_REGISTRY)
    ensures var m := Final(START, replies, DEFAULT_REGISTRY);
            (m.node == Decide ==> r.llm == Some(IncidentPolicy(m.state, FACTS)))
            && (Advance(m, r, DEFAULT_REGISTRY).node == Decide ==> IsIncident(Advance(m, r, DEFAULT_REGISTRY).state))
            ==> FollowsPolicy(START, replies + [r], facts + [FACTS], DEFAULT_REGISTRY)
    ensures Final(START, replies + [r], DEFAULT_REGISTRY) == Advance(Final(START, replies, DEFAULT_REGISTRY), r, DEFAULT_REGISTRY)
  {
    hide Advance, IncidentPolicy, IsIncident, Trace;
    TraceOneMore(replies, r);
  }

  lemma TraceOneMore(replies: seq<Reply>, r: Reply)
    ensures var trace := Trace(START, replies, DEFAULT_REGISTRY);
            Trace(START, replies + [r], DEFAULT_REGISTRY) == trace + [Advance(trace[|replies|], r, DEFAULT_REGISTRY)]
  {
    hide Advance;
    var more := replies + [r];
    assert more[..|more| - 1] == replies;
  }

  lemma Visit(m: Machine) returns (next: Machine)
    ensures next == Advance(m, Answer(m), DEFAULT_REGISTRY)
    ensures Reachable(m) && next.state.incidents ==> Reachable(next)
  {
    hide Advance, FollowsPolicy, IncidentPolicy;
    next := Advance(m, Answer(m), DEFAULT_REGISTRY);
    if Reachable(m) {
      var replies, facts :| FollowsPolicy(START, replies, facts, DEFAULT_REGISTRY) && m == Final(START, replies, DEFAULT_REGISTRY);
      FollowsOneMore(replies, facts, Answer(m));
    }
  }

  /** What every such machine is known to satisfy. */
  lemma ReachableIsOrderly(m: Machine)
    ensures Reachable(m) ==> PolicyInv(m) && RetryInv(m)
  {
    hide FollowsPolicy, Advance, PolicyInv, RetryInv, Trace;
    if Reachable(m) {
      var replies, facts :| FollowsPolicy(START, replies, facts, DEFAULT_REGISTRY) && m == Final(START, replies, DEFAULT_REGISTRY);
      DefaultRegistryGates();
      StartRetries("fix");
      TracePolicy(START, replies, facts, DEFAULT_REGISTRY, |replies|);
      TraceRetries(START, replies, facts, DEFAULT_REGISTRY, |replies|);
    }
  }

  /** A decision node with open guards, whose options are known once they have been generated. */
  ghost predicate Ready(m: Machine, attempts: nat) {
    && Reachable(m) && m.node == Decide && m.state.attempts == attempts
    && m.state.incidents && !m.state.paused && m.state.termination == None
    && (Called(m.state.history, GENERATE_OPTIONS) ==> m.state.options == OPTIONS)
    && (Called(m.state.history, GENERATE_OPTIONS) && attempts == 0 ==> m.state.selected == Some(OPTION_A))
  }

  lemma FirstDecision() returns (m: Machine)
    ensures Ready(m, 0)
  {
    hide Counts;
    assert Reachable(START) by {
      assert FollowsPolicy(START, [], [], DEFAULT_REGISTRY) && START == Final(START, [], DEFAULT_REGISTRY);
    }
    hide Reachable, IncidentPolicy, Called;
    m := Visit(START);
    m := Visit(m);
    assert !Called([], GENERATE_OPTIONS) by { NothingCalled(); }
  }

  lemma NothingCalled()
    ensures !Called([], GENERATE_OPTIONS)
  {
  }

  /** The guards that precede the policy are open. */
  lemma PolicyDecides(m: Machine, attempts: nat, r: Reply)
    requires Ready(m, attempts) && r.llm.Some?
    ensures Decided(m.state, r) == Verdict(r.llm.value, Deciding, None)
    ensures RetryInv(m)
  {
    hide Reachable, IncidentPolicy, Called, Orderly, OnceEach, Executing, IsInvestigation, LoopDetected, Investigated, AllCalled;
    ReachableIsOrderly(m);
    InvestigatedAtMostFive(m.state.history);
    OrderlyNeverLoops(m.state.history);
  }

  /** One more investigation. */
  lemma Investigate(m: Machine) returns (next: Machine)
    requires Ready(m, 0) && !AllCalled(m.state.history)
    ensures Ready(next, 0) && Investigated(next.state.history) == Investigated(m.state.history) + 1
  {
    hide Reachable, IncidentPolicy, Called, Investigated, AllCalled, Counts, IsInvestigation, Proposes, Preferred, Candidates, ChosenId;
    PolicyDecides(m, 0, Answer(m));
    PolicyWithoutTicket(m.state, FACTS);
    DefaultRegistryGates();
    InvestigationsNotGated(DEFAULT_REGISTRY);
    var d := IncidentPolicy(m.state, FACTS);
    var tool := Visit(m);
    assert tool.node == ToolExecution && tool.state == m.state.(decision := d, status := Deciding);
    var result := Visit(tool);
    assert result.node == ProcessResult;
    InvestigationResult(tool.state);
    next := Visit(result);
    InvestigatedAppend(m.state.history, HistoryEntry(d.tool, d.arguments));
    CalledAppend(m.state.history, HistoryEntry(d.tool, d.arguments), GENERATE_OPTIONS);
  }

  /** What the tool node makes of the reply, and the next node of its result. */
  lemma InvestigationResult(s: State)
    requires IsInvestigation(s.decision.tool)
    ensures var t := ToolNode(s, QUIET);
            && t.history == s.history + [HistoryEntry(s.decision.tool, s.decision.arguments)]
            && t.lastTool == s.decision.tool && t.lastToolStatus == Success
            && t.attempts == s.attempts && t.incidents == s.incidents && t.paused == s.paused && t.termination == s.termination
            && (if s.decision.tool == GENERATE_OPTIONS then t.options == OPTIONS && t.selected == Some(OPTION_A)
                else t.options == s.options && t.selected == s.selected)
    ensures s.decision.tool != EXECUTE && s.decision.tool != VERIFY && s.decision.tool != "start_autonomous_operations"
  {
    ToolNamesDiffer();
    FirstIsPreferred();
    assert |"start_autonomous_operations"| == 27;
    assert |GET_EVENT_STATE| == 15 && |GET_PROVIDER_STATUS| == 19 && |ANALYZE_IMPACT| == 14 && |ASSESS_RISK| == 11;
    assert |GENERATE_OPTIONS| == 25;
    hide Feasible, Backups;
  }

  lemma FirstIsPreferred()
    ensures Feasible(OPTIONS) == OPTIONS && Backups(OPTIONS) == OPTIONS
  {
    assert OPTIONS[1..] == [OPTION_B, OPTION_C] && [OPTION_B, OPTION_C][1..] == [OPTION_C] && [OPTION_C][1..] == [];
    assert Feasible([OPTION_C]) == [OPTION_C] && Backups([OPTION_C]) == [OPTION_C];
    assert Feasible([OPTION_B, OPTION_C]) == [OPTION_B, OPTION_C] && Backups([OPTION_B, OPTION_C]) == [OPTION_B, OPTION_C];
  }

  lemma {:induction false} InvestigateAll(m: Machine) returns (next: Machine)
    requires Ready(m, 0)
    ensures Ready(next, 0) && AllCalled(next.state.history)
    decreases 5 - Investigated(m.state.history)
  {
    hide Ready, Called, AllCalled, Investigated;
    if AllCalled(m.state.history) {
      next := m;
    } else {
      next := Investigate(m);
      InvestigatedAtMostFive(next.state.history);
      next := InvestigateAll(next);
    }
  }

  /** The act node of an attempt that may fail. */
  ghost predicate Acting(act: Machine, attempts: nat) {
    && Reachable(act) && act.node == Act && act.state.attempts == attempts && act.state.options == OPTIONS
    && act.state.incidents && !act.state.paused && act.state.termination == None
    && (attempts == 0 ==> act.state.selected == Some(OPTION_A))
  }

  /** Proposal and authorization. */
  lemma ProposeAttempt(m: Machine, attempts: nat) returns (validate: Machine, act: Machine)
    requires Ready(m, attempts) && AllCalled(m.state.history) && Candidates(m.state) != []
    ensures Reachable(validate) && validate.node == ValidateAction && validate.state.options == OPTIONS
    ensures attempts >= 1 ==> validate.state.selected == None
    ensures Acting(act, attempts) && ExecutedId(act.state) == ChosenId(m.state) && act.state.failedOptions == m.state.failedOptions
  {
    hide Reachable, IncidentPolicy, Called, Investigated, AllCalled, Counts, IsInvestigation, Preferred, Candidates, ChosenId;
    PolicyDecides(m, attempts, Answer(m));
    PolicyWithoutTicket(m.state, FACTS);
    assert Called(m.state.history, GENERATE_OPTIONS) by { AllCalledTools(m.state.history); GenerateIsInvestigation(); }
    validate := Visit(m);
    assert validate.node == ValidateAction && validate.state == m.state.(decision := Proposal(ChosenId(m.state)), status := Deciding);
    act := Visit(validate);
    ReachableIsOrderly(act);
    AttemptExecutesChoice(act);
    SameChoice(m.state, act.state);
  }

  /** Execution and failed verification. */
  lemma FailVerification(act: Machine, attempts: nat) returns (observe: Machine)
    ensures Acting(act, attempts) && attempts <= 1 ==>
              && Reachable(observe) && observe.node == Observe && observe.state.attempts == attempts + 1
              && observe.state.incidents && !observe.state.paused && observe.state.termination == None
              && observe.state.approvalId == None && observe.state.verificationStatus == "FAILED" && AllCalled(observe.state.history) && observe.state.options == OPTIONS
              && observe.state.failedOptions == act.state.failedOptions + [if attempts == 0 then "a" else ""]
  {
    if !Acting(act, attempts) || attempts > 1 {
      return act;
    }
    hide Reachable, Advance, Answer, AllCalled, RetryInv, PolicyInv, RecordedId, MaxAttempts;
    var verify := Visit(act);
    ActLeadsToVerify(act);
    ReachableIsOrderly(verify);
    RecordsFirstOnly(verify);
    FailsOpen(verify, Answer(verify), DEFAULT_REGISTRY);
    VerifyLeadsToObserve(verify);
    observe := Visit(verify);
  }

  lemma ActLeadsToVerify(act: Machine)
    requires act.node == Act
    ensures var n := Advance(act, Answer(act), DEFAULT_REGISTRY);
            && n.node == Verify && n.state.attempts == act.state.attempts && n.state.selected == act.state.selected
            && n.state.options == act.state.options && n.state.failedOptions == act.state.failedOptions
            && n.state.incidents == act.state.incidents && n.state.paused == act.state.paused
            && n.state.termination == act.state.termination
  {
    hide Counts, ActEntry, IncidentPolicy;
  }

  lemma VerifyLeadsToObserve(verify: Machine)
    requires verify.node == Verify && verify.state.attempts + 1 < MaxAttempts(verify.state)
    ensures var n := Advance(verify, Answer(verify), DEFAULT_REGISTRY);
            && n.node == Observe && n.state.attempts == verify.state.attempts + 1
            && n.state.incidents == verify.state.incidents && n.state.paused == verify.state.paused
            && n.state.termination == verify.state.termination && n.state.verificationStatus == "FAILED"
  {
    hide Counts, VerifyEntry, IncidentPolicy;
  }

  lemma RecordsFirstOnly(m: Machine)
    requires PolicyInv(m) && RetryInv(m) && m.node == Verify
    ensures MaxAttempts(m.state) == 3
    ensures m.state.attempts >= 1 ==> RecordedId(m.state) == ""
    ensures m.state.selected == Some(OPTION_A) ==> RecordedId(m.state) == "a"
  {
    hide AllCalled, Called, Investigated, Orderly, OnceEach, Executing, Proposes, Preferred;
  }

  /** One attempt that fails while another is left, up to the next decision. */
  lemma FailAttempt(act: Machine, attempts: nat) returns (next: Machine)
    ensures Acting(act, attempts) && attempts <= 1 ==>
              && Ready(next, attempts + 1) && AllCalled(next.state.history) && next.state.options == OPTIONS
              && next.state.verificationStatus == "FAILED"
              && next.state.failedOptions == act.state.failedOptions + [if attempts == 0 then "a" else ""]
  {
    if !Acting(act, attempts) || attempts > 1 {
      return act;
    }
    hide Acting, Reachable, IncidentPolicy, Called, AllCalled, Counts;
    var observe := FailVerification(act, attempts);
    var interpret := Visit(observe);
    next := Visit(interpret);
  }

  lemma GenerateIsInvestigation()
    ensures IsInvestigation(GENERATE_OPTIONS)
  {
    assert INVESTIGATIONS[4] == GENERATE_OPTIONS;
  }

  /** "a" fails and is recorded: the decision before the second attempt. */
  lemma FirstOptionFails() returns (first: Machine, m: Machine)
    ensures Acting(first, 0) && ExecutedId(first.state) == "a"
    ensures Ready(m, 1) && AllCalled(m.state.history) && m.state.options == OPTIONS
    ensures m.state.failedOptions == ["a"] && m.state.verificationStatus == "FAILED"
  {
    hide Reachable, IncidentPolicy, Called, AllCalled, Candidates, ChosenId;
    m := FirstDecision();
    m := InvestigateAll(m);
    assert Called(m.state.history, GENERATE_OPTIONS) by { AllCalledTools(m.state.history); GenerateIsInvestigation(); }
    PolicyDecides(m, 0, Answer(m));
    Choices(m.state);
    var validate;
    validate, first := ProposeAttempt(m, 0);
    m := FailAttempt(first, 0);
  }

  /**
   Three options; "a" fails and is recorded, "b" fails and is not: the third proposal is "b" again,
   and "c" has not been tried.
   */
  lemma ThirdProposalRepeatsSecond() returns (first: Machine, second: Machine, third: Machine)
    ensures Reachable(first) && first.node == Act && first.state.attempts == 0 && ExecutedId(first.state) == "a"
    ensures Reachable(second) && second.node == Act && second.state.attempts == 1 && ExecutedId(second.state) == "b"
    ensures Reachable(third) && third.node == Decide && third.state.attempts == 2
    ensures IncidentPolicy(third.state, FACTS) == Proposal("b") && OPTION_C in Candidates(third.state)
  {
    hide Reachable, IncidentPolicy, Called, AllCalled, Candidates, ChosenId;
    var m, validate;
    first, m := FirstOptionFails();
    Choices(m.state);
    validate, second := ProposeAttempt(m, 1);
    third := FailAttempt(second, 1);
    Choices(third.state);
    PolicyDecides(third, 2, Answer(third));
    PolicyWithoutTicket(third.state, FACTS);
  }

  lemma Choices(s: State)
    requires s.options == OPTIONS
    ensures s.failedOptions == [] ==> Candidates(s) != [] && ChosenId(s) == "a"
    ensures s.failedOptions == ["a"] ==> Candidates(s) != [] && ChosenId(s) == "b"
    ensures s.failedOptions == ["a", ""] ==> Candidates(s) != [] && ChosenId(s) == "b" && OPTION_C in Candidates(s)
  {
    FirstIsPreferred();
    assert OPTIONS[1..] == [OPTION_B, OPTION_C] && [OPTION_B, OPTION_C][1..] == [OPTION_C] && [OPTION_C][1..] == [];
    var failed := s.failedOptions;
    if failed == [] {
      NothingFailedYet(OPTIONS);
    } else if failed == ["a"] || failed == ["a", ""] {
      assert "b" !in failed && "c" !in failed && "a" in failed;
      assert Untried([OPTION_C], failed) == [OPTION_C];
      assert Untried([OPTION_B, OPTION_C], failed) == [OPTION_B, OPTION_C];
      assert Untried(OPTIONS, failed) == [OPTION_B, OPTION_C];
      assert Backups([OPTION_C]) == [OPTION_C];
      assert Backups([OPTION_B, OPTION_C]) == [OPTION_B, OPTION_C];
    }
  }
}
