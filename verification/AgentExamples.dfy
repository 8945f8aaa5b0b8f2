/** Two runs that show what the agent loop does not promise. */
module AgentExamples {
  import opened Common
  import opened AgentGraph
  import opened AgentRuns
  import opened PolicyExamples

  /** Some run of the default agent, without an approval ticket, gets there. */
  ghost predicate Occurs(m: Machine) {
    exists replies :: m == Final(START, replies, DEFAULT_REGISTRY)
  }

  lemma Continue(m: Machine, r: Reply) returns (next: Machine)
    requires Occurs(m)
    ensures next == Advance(m, r, DEFAULT_REGISTRY) && Occurs(next)
  {
    hide Advance, Trace;
    var replies :| m == Final(START, replies, DEFAULT_REGISTRY);
    next := Advance(m, r, DEFAULT_REGISTRY);
    TraceOneMore(replies, r);
    assert next == Final(START, replies + [r], DEFAULT_REGISTRY);
  }

  /** COMPLETED without recovery: after a failed verification the LLM may simply declare success. */
  lemma {:induction false} CompletedAfterFailedVerification() returns (m: Machine)
    ensures Occurs(m) && m.node == End && m.state.status == Completed
    ensures m.state.attempts == 1 && m.state.verificationStatus == "FAILED"
  {
    hide Occurs, Advance, Decided;
    var first, decide := FirstOptionFails();
    var done := QUIET.(llm := Some(Decision(Complete, "", map[], false)));
    assert Occurs(decide) by { PolicyRunOccurs(decide); }
    PolicyDecides(decide, 1, done);
    WordCompletes(decide, done);
    hide Ready;
    var end := Continue(decide, done);
    m := Continue(end, QUIET);
  }

  lemma WordCompletes(m: Machine, r: Reply)
    requires m.node == Decide && Decided(m.state, r) == Verdict(Decision(Complete, "", map[], false), Deciding, None)
    ensures var end := Advance(m, r, DEFAULT_REGISTRY);
            var last := Advance(end, QUIET, DEFAULT_REGISTRY);
            && last.node == End && last.state.status == Completed && last.state.attempts == m.state.attempts
            && last.state.verificationStatus == m.state.verificationStatus
  {
    hide Counts, Decided;
  }

  lemma PolicyRunOccurs(m: Machine)
    requires Reachable(m)
    ensures Occurs(m)
  {
  }

  /**
   After a failed attempt nothing is selected: validation puts the first option before the
   authorization service, and the act node executes the one the policy proposed.
   */
  lemma {:induction false} ExecutesAnotherOption() returns (validate: Machine, act: Machine)
    ensures Reachable(validate) && Reachable(act) && validate.node == ValidateAction && act.node == Act
    ensures ValidatedId(validate.state) == "a" && ExecutedId(act.state) == "b"
  {
    hide Reachable, Counts, ExecutedId;
    var first, m := FirstOptionFails();
    Choices(m.state);
    validate, act := ProposeAttempt(m, 1);
    FirstIsPreferred();
  }
}
