/** The browser's store fed by one connection of the streaming endpoint. */
module StreamedStore {
  import opened Common
  import opened RunCursor
  import opened RunStream
  import opened RunStore

  /** The store takes increasing events of its run one and all. */
  lemma {:induction false} TakesAll(s: State, evs: seq<Envelope>)
    requires s.run.Some? && Increasing(evs, s.lastSequence)
    requires forall i :: 0 <= i < |evs| ==> evs[i].runId == s.run.value.runId
    ensures AppliedAll(s, evs) == s.(events := s.events + evs, lastSequence := LastSequence(evs, s.lastSequence))
  {
    if evs == [] {
      assert s.events + evs == s.events;
    } else {
      var n := |evs| - 1;
      TakesAll(s, evs[..n]);
      assert s.events + evs[..n] + [evs[n]] == s.events + evs;
    }
  }

  /** Appending to a prefix of a log gives a prefix exactly when what is appended is what comes next. */
  lemma PrefixIffNext(s: State, evs: seq<Envelope>, log: seq<Envelope>, runId: string)
    requires s.run.Some? && s.run.value.runId == runId && IsLogOf(log, runId) && IsPrefixOf(s, log)
    requires Increasing(evs, s.lastSequence) && forall i :: 0 <= i < |evs| ==> evs[i] in log
    ensures IsPrefixOf(AppliedAll(s, evs), log) <==> evs <= log[s.lastSequence..]
  {
    assert forall i :: 0 <= i < |evs| ==> evs[i].runId == runId;
    TakesAll(s, evs);
    hide AppliedAll, Increasing;
    JoinsIff(log, s.lastSequence, evs);
    assert s.events + evs == log[..s.lastSequence] + evs;
  }

  lemma JoinsIff(log: seq<Envelope>, c: nat, evs: seq<Envelope>)
    requires c <= |log| && forall i :: 0 <= i < |log| ==> log[i].sequence == i + 1
    ensures var last := LastSequence(evs, c); (last <= |log| && log[..c] + evs == log[..last]) <==> evs <= log[c..]
  {
    var n, last := |evs|, LastSequence(evs, c);
    if evs <= log[c..] {
      assert n > 0 ==> evs[n - 1] == log[c + n - 1];
      assert log[..c + n] == log[..c] + log[c..][..n];
    }
    if last <= |log| && log[..c] + evs == log[..last] {
      assert |log[..c] + evs| == c + n == last;
      assert evs == (log[..c] + evs)[c..] == log[..last][c..] == log[c..][..n];
    }
  }

  lemma EnvelopesInLog(rows: seq<Row>, runId: string, from: nat, upTo: nat)
    requires from <= upTo <= |RunLog(rows, runId)|
    ensures Envelopes(RunLog(rows, runId)[from..upTo]) == Log(rows, runId)[from..upTo]
  {
  }

  /**
   A store that is a prefix of the log, fed by a connection opened at its lastSequence over an in-order
   broker, stays a prefix if and only if the replay of at most 1000 reaches the first queued event or a
   terminal one, or nothing is queued.
   */
  lemma {:induction false} StreamKeepsPrefixIff(s: State, rows: seq<Row>, final: seq<Row>, runId: string, lo: nat, hi: nat)
    requires WellNumbered(rows) && WellNumbered(final) && rows <= final
    requires s.run.Some? && s.run.value.runId == runId && IsPrefixOf(s, Log(rows, runId))
    requires lo <= hi <= |RunLog(final, runId)| && Min(s.lastSequence + REPLAY_LIMIT, |RunLog(rows, runId)|) <= hi
    ensures var log, end := RunLog(final, runId), Min(s.lastSequence + REPLAY_LIMIT, |RunLog(rows, runId)|);
            && s.lastSequence <= end <= |log|
            && (IsPrefixOf(AppliedAll(s, Sent(rows, runId, s.lastSequence, false, Messages(log, runId, lo, hi))), Log(final, runId))
                <==> lo <= end || lo == hi || HasTerminal(Envelopes(log[s.lastSequence..end])))
  {
    hide ListRunEvents, IsTerminal, HasTerminal, ToEnvelope, WellNumbered, UpToTerminal, Sent, Increasing, RunLog, IsLogOf, Messages,
         AppliedAll;
    var c, log, envelopes := s.lastSequence, RunLog(final, runId), Log(final, runId);
    var end := Min(c + REPLAY_LIMIT, |RunLog(rows, runId)|);
    var sent := Sent(rows, runId, c, false, Messages(log, runId, lo, hi));
    PrefixOfLog(rows, final, runId);
    LogIsNumbered(final, runId);
    SentInOrder(rows, final, runId, c, lo, hi);
    SentIncreases(rows, runId, c, false, Messages(log, runId, lo, hi));
    EnvelopesInLog(final, runId, c, end);
    EnvelopesInLog(final, runId, if lo < end then end else lo, hi);
    StillPrefix(s, rows, final, runId);
    SentAsSlices(envelopes, c, end, lo, hi, sent);
    hide IsPrefixOf;
    PrefixIffNext(s, sent, envelopes, runId);
  }

  lemma StillPrefix(s: State, rows: seq<Row>, final: seq<Row>, runId: string)
    requires IsPrefixOf(s, Log(rows, runId)) && RunLog(rows, runId) <= RunLog(final, runId)
    ensures IsPrefixOf(s, Log(final, runId))
  {
    hide RunLog;
    assert Log(rows, runId) <= Log(final, runId);
  }

  /** What is sent, as slices of the log, and when they join. */
  lemma SentAsSlices(log: seq<Envelope>, c: nat, end: nat, lo: nat, hi: nat, sent: seq<Envelope>)
    requires c <= end <= hi <= |log| && lo <= hi && forall i :: 0 <= i < |log| ==> log[i].sequence == i + 1
    requires sent == UpToTerminal(log[c..end]) +
                     (if HasTerminal(log[c..end]) then [] else UpToTerminal(log[if lo < end then end else lo..hi]))
    ensures forall i :: 0 <= i < |sent| ==> sent[i] in log
    ensures sent <= log[c..] <==> lo <= end || lo == hi || HasTerminal(log[c..end])
  {
    hide IsTerminal, HasTerminal, UpToTerminal;
    var from := if lo < end then end else lo;
    UpToTerminalIsPrefix(log[c..end]);
    UpToTerminalIsPrefix(log[from..hi]);
    if HasTerminal(log[c..end]) {
      assert sent == UpToTerminal(log[c..end]);
    } else {
      NoTerminalKeepsAll(log[c..end]);
      var tail := UpToTerminal(log[from..hi]);
      assert sent == log[c..end] + tail;
      SomethingUpToTerminal(log[from..hi]);
      SlicesJoin(log, c, end, from, hi, tail);
    }
  }

  /** A first part of a later slice continues an earlier one exactly when it begins where that ends, or is empty. */
  lemma SlicesJoin(log: seq<Envelope>, c: nat, end: nat, from: nat, hi: nat, tail: seq<Envelope>)
    requires c <= end <= from <= hi <= |log| && forall i :: 0 <= i < |log| ==> log[i].sequence == i + 1
    requires tail <= log[from..hi] && (from < hi ==> tail != [])
    ensures log[c..end] + tail <= log[c..] <==> from == end || from == hi
  {
    if from == end {
      assert log[c..] == log[c..end] + log[end..];
      assert tail <= log[end..];
    } else if from < hi {
      assert (log[c..end] + tail)[end - c] == tail[0] == log[from] && log[c..][end - c] == log[end];
    } else {
      assert tail == [];
      assert log[c..end] + tail == log[c..][..end - c];
    }
  }

  lemma SomethingUpToTerminal(envelopes: seq<Envelope>)
    ensures envelopes != [] ==> UpToTerminal(envelopes) != [] && UpToTerminal(envelopes)[0] == envelopes[0]
  {
  }
}
