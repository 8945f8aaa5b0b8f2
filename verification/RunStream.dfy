/**
 The server's event stream of one run (apps/api/app/api/routes/agent.py): it subscribes to the
 live broker, replays the stored events after the client's cursor, then forwards live events it
 has not sent yet.
 */
module RunStream {
  import opened Common
  import opened RunCursor

  const REPLAY_LIMIT: nat := 1000

  /** A message of the live broker: a run event, or anything else published for the event. */
  datatype Message = RunEvent(runId: string, envelope: Envelope) | Other

  /** Events after which a run emits nothing more. */
  predicate IsTerminal(kind: string) {
    kind in ["agent.run_completed", "agent.run_failed", "agent.run_cancelled", "agent.run_paused"]
  }

  /** Up to and including the first terminal event. */
  function UpToTerminal(envelopes: seq<Envelope>): seq<Envelope> {
    if envelopes == [] then []
    else if IsTerminal(envelopes[0].kind) then [envelopes[0]]
    else [envelopes[0]] + UpToTerminal(envelopes[1..])
  }

  predicate HasTerminal(envelopes: seq<Envelope>) {
    exists i :: 0 <= i < |envelopes| && IsTerminal(envelopes[i].kind)
  }

  /** What is forwarded from the queue when everything up to `lastSent` has been sent. */
  function Forwarded(runId: string, lastSent: nat, queue: seq<Message>): seq<Envelope>
    decreases |queue|
  {
    if queue == [] then []
    else if !queue[0].RunEvent? || queue[0].runId != runId || queue[0].envelope.sequence <= lastSent then
      Forwarded(runId, lastSent, queue[1..])
    else if IsTerminal(queue[0].envelope.kind) then [queue[0].envelope]
    else [queue[0].envelope] + Forwarded(runId, queue[0].envelope.sequence, queue[1..])
  }

  function LastSequence(envelopes: seq<Envelope>, default: nat): nat {
    if envelopes == [] then default else envelopes[|envelopes| - 1].sequence
  }

  /** All frames of one connection. */
  function Sent(rows: seq<Row>, runId: string, cursor: nat, runIsTerminal: bool, queue: seq<Message>): seq<Envelope> {
    var replay := ListRunEvents(rows, runId, cursor, REPLAY_LIMIT);
    UpToTerminal(replay) +
    (if HasTerminal(replay) || runIsTerminal then [] else Forwarded(runId, LastSequence(replay, cursor), queue))
  }

  lemma {:induction false} UpToTerminalStep(envelopes: seq<Envelope>, i: nat)
    requires i < |envelopes| && !HasTerminal(envelopes[..i])
    ensures IsTerminal(envelopes[i].kind) ==> UpToTerminal(envelopes) == envelopes[..i + 1]
    ensures !IsTerminal(envelopes[i].kind) ==> !HasTerminal(envelopes[..i + 1])
  {
    hide IsTerminal;
    forall k | 0 <= k < i ensures !IsTerminal(envelopes[k].kind) {
      assert envelopes[..i][k] == envelopes[k];
    }
    if i > 0 {
      UpToTerminalStep(envelopes[1..], i - 1);
    }
  }

  lemma {:induction false} NoTerminalKeepsAll(envelopes: seq<Envelope>)
    requires !HasTerminal(envelopes)
    ensures UpToTerminal(envelopes) == envelopes
  {
    if envelopes != [] {
      assert !IsTerminal(envelopes[0].kind);
      assert forall k :: 0 <= k < |envelopes[1..]| ==> envelopes[1..][k] == envelopes[k + 1];
      NoTerminalKeepsAll(envelopes[1..]);
    }
  }

  /** event_generator: replay, then the live loop, for the messages that arrive while connected. */
  method StreamRunEvents(rows: seq<Row>, runId: string, cursor: nat, runIsTerminal: bool, queue: seq<Message>)
    returns (frames: seq<Envelope>)
    ensures frames == Sent(rows, runId, cursor, runIsTerminal, queue)
  {
    hide ListRunEvents, IsTerminal;
    var replay := ListRunEvents(rows, runId, cursor, REPLAY_LIMIT);
    var lastSent := cursor;
    frames := [];
    for i := 0 to |replay|
      invariant frames == replay[..i] && !HasTerminal(replay[..i])
      invariant lastSent == LastSequence(replay[..i], cursor)
    {
      UpToTerminalStep(replay, i);
      frames := frames + [replay[i]];
      lastSent := replay[i].sequence;
      if IsTerminal(replay[i].kind) {
        return;
      }
    }
    assert replay[..|replay|] == replay;
    NoTerminalKeepsAll(replay);
    if runIsTerminal {
      return;
    }
    for i := 0 to |queue|
      invariant frames + Forwarded(runId, lastSent, queue[i..])
             == replay + Forwarded(runId, LastSequence(replay, cursor), queue)
    {
      assert queue[i..][1..] == queue[i + 1..];
      var message := queue[i];
      if !message.RunEvent? || message.runId != runId {
        continue;
      }
      if message.envelope.sequence <= lastSent {
        continue;
      }
      frames := frames + [message.envelope];
      lastSent := message.envelope.sequence;
      if IsTerminal(message.envelope.kind) {
        return;
      }
    }
  }

  // ---------------------------------------------------------------------------
  // What a client receives
  // ---------------------------------------------------------------------------

  ghost predicate Increasing(envelopes: seq<Envelope>, above: nat) {
    && (forall i :: 0 <= i < |envelopes| ==> envelopes[i].sequence > above)
    && (forall i, j :: 0 <= i < j < |envelopes| ==> envelopes[i].sequence < envelopes[j].sequence)
  }

  lemma {:induction false} ForwardedIncreases(runId: string, lastSent: nat, queue: seq<Message>)
    ensures Increasing(Forwarded(runId, lastSent, queue), lastSent)
    decreases |queue|
  {
    if queue != [] {
      if !queue[0].RunEvent? || queue[0].runId != runId || queue[0].envelope.sequence <= lastSent {
        ForwardedIncreases(runId, lastSent, queue[1..]);
      } else {
        ForwardedIncreases(runId, queue[0].envelope.sequence, queue[1..]);
      }
    }
  }

  lemma {:induction false} UpToTerminalIsPrefix(envelopes: seq<Envelope>)
    ensures UpToTerminal(envelopes) <= envelopes
  {
    if envelopes != [] {
      UpToTerminalIsPrefix(envelopes[1..]);
    }
  }

  /** Whatever the broker delivers, no sequence is sent twice and none at or before the cursor. */
  lemma SentIncreases(rows: seq<Row>, runId: string, cursor: nat, runIsTerminal: bool, queue: seq<Message>)
    requires WellNumbered(rows)
    ensures Increasing(Sent(rows, runId, cursor, runIsTerminal, queue), cursor)
  {
    hide RunLog, ListRunEvents, HasTerminal, Increasing, Forwarded, UpToTerminal;
    var replay := ListRunEvents(rows, runId, cursor, REPLAY_LIMIT);
    ReplayNumbers(rows, runId, cursor);
    if HasTerminal(replay) || runIsTerminal {
      UpToTerminalIsPrefix(replay);
      IncreasingPrefix(UpToTerminal(replay), replay, cursor);
      assert UpToTerminal(replay) + [] == UpToTerminal(replay);
    } else {
      NoTerminalKeepsAll(replay);
      ForwardedIncreases(runId, LastSequence(replay, cursor), queue);
      IncreasingConcat(replay, Forwarded(runId, LastSequence(replay, cursor), queue), cursor);
    }
  }

  lemma IncreasingPrefix(a: seq<Envelope>, b: seq<Envelope>, above: nat)
    requires a <= b && Increasing(b, above)
    ensures Increasing(a, above)
  {
  }

  lemma IncreasingConcat(a: seq<Envelope>, b: seq<Envelope>, above: nat)
    requires Increasing(a, above) && Increasing(b, LastSequence(a, above))
    ensures Increasing(a + b, above)
  {
  }

  lemma ReplayNumbers(rows: seq<Row>, runId: string, cursor: nat)
    requires WellNumbered(rows)
    ensures var replay := ListRunEvents(rows, runId, cursor, REPLAY_LIMIT);
            && Increasing(replay, cursor)
            && LastSequence(replay, cursor)
               == (if cursor < |RunLog(rows, runId)| then Min(cursor + REPLAY_LIMIT, |RunLog(rows, runId)|) else cursor)
  {
    PageIsRange(rows, runId, cursor, REPLAY_LIMIT);
    NumberedAt(rows, runId);
  }

  /** The messages the broker carries for the rows `lo` to `hi` of a run. */
  function Messages(log: seq<Row>, runId: string, lo: nat, hi: nat): seq<Message>
    requires lo <= hi <= |log|
  {
    seq(hi - lo, i requires 0 <= i < hi - lo => RunEvent(runId, ToEnvelope(log[lo + i])))
  }

  function Max(a: nat, b: nat): nat {
    if a < b then b else a
  }

  lemma {:induction false} ForwardedInOrder(log: seq<Row>, runId: string, lastSent: nat, lo: nat, hi: nat)
    requires lo <= hi <= |log| && lastSent <= |log|
    requires forall i :: 0 <= i < |log| ==> log[i].sequence == i + 1
    ensures Forwarded(runId, lastSent, Messages(log, runId, lo, hi))
         == if Max(lo, lastSent) < hi then UpToTerminal(Envelopes(log[Max(lo, lastSent)..hi])) else []
    decreases hi - lo
  {
    hide IsTerminal;
    if lo < hi {
      var queue := Messages(log, runId, lo, hi);
      assert queue[1..] == Messages(log, runId, lo + 1, hi);
      assert queue[0] == RunEvent(runId, ToEnvelope(log[lo]));
      if lo >= lastSent {
        var live := Envelopes(log[lo..hi]);
        assert live[0] == ToEnvelope(log[lo]) && live[1..] == Envelopes(log[lo + 1..hi]);
        NothingUpToTerminal();
        ForwardedInOrder(log, runId, lo + 1, lo + 1, hi);
      } else {
        ForwardedInOrder(log, runId, lastSent, lo + 1, hi);
      }
    }
  }

  lemma HasTerminalHead(a: seq<Envelope>)
    requires a != []
    ensures HasTerminal(a) <==> IsTerminal(a[0].kind) || HasTerminal(a[1..])
  {
    hide IsTerminal;
    if HasTerminal(a[1..]) {
      var k :| 0 <= k < |a[1..]| && IsTerminal(a[1..][k].kind);
      assert IsTerminal(a[k + 1].kind);
    }
    if HasTerminal(a) && !IsTerminal(a[0].kind) {
      var k :| 0 <= k < |a| && IsTerminal(a[k].kind);
      assert IsTerminal(a[1..][k - 1].kind);
    }
  }

  lemma {:induction false} UpToTerminalConcat(a: seq<Envelope>, b: seq<Envelope>)
    ensures UpToTerminal(a + b) == UpToTerminal(a) + (if HasTerminal(a) then [] else UpToTerminal(b))
  {
    if a == [] {
      assert a + b == b;
    } else {
      hide IsTerminal, HasTerminal;
      assert (a + b)[1..] == a[1..] + b && (a + b)[0] == a[0];
      UpToTerminalConcat(a[1..], b);
      HasTerminalHead(a);
    }
  }

  /** A connection with an in-order broker: the replay, then the queue from where both reach. */
  lemma {:induction false} SentInOrder(rows: seq<Row>, final: seq<Row>, runId: string, cursor: nat, lo: nat, hi: nat)
    requires WellNumbered(rows) && WellNumbered(final) && rows <= final && cursor <= |RunLog(rows, runId)|
    requires lo <= hi <= |RunLog(final, runId)| && Min(cursor + REPLAY_LIMIT, |RunLog(rows, runId)|) <= hi
    ensures var log, end := RunLog(final, runId), Min(cursor + REPLAY_LIMIT, |RunLog(rows, runId)|);
            && end <= |log|
            && Sent(rows, runId, cursor, false, Messages(log, runId, lo, hi))
               == UpToTerminal(Envelopes(log[cursor..end])) +
                  (if HasTerminal(Envelopes(log[cursor..end])) then []
                   else UpToTerminal(Envelopes(log[Max(lo, end)..hi])))
  {
    hide RunLog, ListRunEvents, IsTerminal, HasTerminal, ToEnvelope, WellNumbered, UpToTerminal;
    var log := RunLog(final, runId);
    var end := Min(cursor + REPLAY_LIMIT, |RunLog(rows, runId)|);
    PrefixOfLog(rows, final, runId);
    PageIsRange(rows, runId, cursor, REPLAY_LIMIT);
    ReplayNumbers(rows, runId, cursor);
    NumberedAt(final, runId);
    assert RunLog(rows, runId)[cursor..end] == log[cursor..end];
    ForwardedInOrder(log, runId, end, lo, hi);
    NothingUpToTerminal();
  }

  lemma NothingUpToTerminal()
    ensures UpToTerminal([]) == [] && Envelopes([]) == []
  {
  }

  /**
   Subscribing before replaying loses nothing and repeats nothing: when the broker delivers, in
   order, the events from index `lo` on, the client gets every event after its cursor exactly
   once, in order, up to the first terminal one, exactly when the replay has reached `lo` (or
   a terminal event). A replay cut at its limit of 1000 rows does not always reach it.
   */
  lemma {:induction false} GapFreeIffReplayReachesQueue(rows: seq<Row>, final: seq<Row>, runId: string, cursor: nat, lo: nat, hi: nat)
    requires WellNumbered(rows) && WellNumbered(final) && rows <= final && cursor <= |RunLog(rows, runId)|
    requires lo <= hi <= |RunLog(final, runId)| && Min(cursor + REPLAY_LIMIT, |RunLog(rows, runId)|) <= hi
    ensures var log, end := RunLog(final, runId), Min(cursor + REPLAY_LIMIT, |RunLog(rows, runId)|);
            end <= |log| &&
            (Sent(rows, runId, cursor, false, Messages(log, runId, lo, hi)) == UpToTerminal(Envelopes(log[cursor..hi]))
             <==> lo <= end || HasTerminal(Envelopes(log[cursor..end])))
  {
    hide RunLog, ListRunEvents, IsTerminal, HasTerminal, ToEnvelope, WellNumbered, UpToTerminal, Sent;
    var log, end := RunLog(final, runId), Min(cursor + REPLAY_LIMIT, |RunLog(rows, runId)|);
    SentInOrder(rows, final, runId, cursor, lo, hi);
    UpToTerminalConcat(Envelopes(log[cursor..end]), Envelopes(log[end..hi]));
    assert Envelopes(log[cursor..hi]) == Envelopes(log[cursor..end]) + Envelopes(log[end..hi]);
    if lo > end && !HasTerminal(Envelopes(log[cursor..end])) {
      NumberedAt(final, runId);
      FirstOfTail(log, end, hi);
      if lo < hi {
        FirstOfTail(log, lo, hi);
      } else {
        NothingUpToTerminal();
      }
      TailsDiffer(UpToTerminal(Envelopes(log[cursor..end])), UpToTerminal(Envelopes(log[lo..hi])),
                  UpToTerminal(Envelopes(log[end..hi])));
    }
  }

  lemma FirstOfTail(log: seq<Row>, lo: nat, hi: nat)
    requires lo < hi <= |log|
    ensures UpToTerminal(Envelopes(log[lo..hi])) != []
    ensures UpToTerminal(Envelopes(log[lo..hi]))[0].sequence == log[lo].sequence
  {
  }

  lemma TailsDiffer(head: seq<Envelope>, a: seq<Envelope>, b: seq<Envelope>)
    requires b != [] && (a != [] ==> a[0] != b[0])
    ensures head + a != head + b
  {
    assert (head + b)[|head|] == b[0];
    if a != [] {
      assert (head + a)[|head|] == a[0];
    } else {
      assert |head + a| < |head + b|;
    }
  }

  // ---------------------------------------------------------------------------
  // Any queue
  // ---------------------------------------------------------------------------

  predicate OfRun(message: Message, runId: string) {
    message.RunEvent? && message.runId == runId
  }

  /** The k-th message is an event of the run, newer than everything sent and than every earlier event of the run. */
  predicate IsFresh(runId: string, lastSent: nat, queue: seq<Message>, k: nat) {
    && k < |queue| && OfRun(queue[k], runId) && queue[k].envelope.sequence > lastSent
    && forall j :: 0 <= j < k && OfRun(queue[j], runId) ==> queue[j].envelope.sequence < queue[k].envelope.sequence
  }

  predicate EndsRun(runId: string, lastSent: nat, queue: seq<Message>, k: nat) {
    IsFresh(runId, lastSent, queue, k) && IsTerminal(queue[k].envelope.kind)
  }

  /** The k-th message is forwarded. */
  predicate IsForwarded(runId: string, lastSent: nat, queue: seq<Message>, k: nat) {
    IsFresh(runId, lastSent, queue, k) && forall j :: 0 <= j < k ==> !EndsRun(runId, lastSent, queue, j)
  }

  /** The forwarded ones among the first n messages. */
  function Picked(runId: string, lastSent: nat, queue: seq<Message>, n: nat): seq<Envelope>
    requires n <= |queue|
  {
    if n == 0 then []
    else Picked(runId, lastSent, queue, n - 1) +
         if IsForwarded(runId, lastSent, queue, n - 1) then [queue[n - 1].envelope] else []
  }

  lemma {:induction false} ForwardedSnoc(runId: string, lastSent: nat, queue: seq<Message>, message: Message)
    ensures var sent := Forwarded(runId, lastSent, queue);
            Forwarded(runId, lastSent, queue + [message])
            == sent + (if OfRun(message, runId) && !HasTerminal(sent) && message.envelope.sequence > LastSequence(sent, lastSent)
                       then [message.envelope] else [])
    decreases |queue|
  {
    hide IsTerminal, HasTerminal;
    var all := queue + [message];
    if queue == [] {
      assert all[1..] == [];
      NothingIsTerminal();
    } else {
      assert all[1..] == queue[1..] + [message] && all[0] == queue[0];
      if !OfRun(queue[0], runId) || queue[0].envelope.sequence <= lastSent {
        ForwardedSnoc(runId, lastSent, queue[1..], message);
      } else {
        var first := queue[0].envelope;
        HasTerminalHead(Forwarded(runId, lastSent, queue));
        if !IsTerminal(first.kind) {
          ForwardedSnoc(runId, first.sequence, queue[1..], message);
          var rest := Forwarded(runId, first.sequence, queue[1..]);
          assert ([first] + rest)[1..] == rest;
        }
      }
    }
  }

  lemma NothingIsTerminal()
    ensures !HasTerminal([])
  {
  }

  /** As long as nothing ended the run, the last sequence sent is the greatest seen. */
  lemma {:induction false} LastIsGreatest(runId: string, lastSent: nat, queue: seq<Message>, sequence: nat)
    requires !HasTerminal(Forwarded(runId, lastSent, queue))
    ensures LastSequence(Forwarded(runId, lastSent, queue), lastSent) < sequence
            <==> lastSent < sequence && forall j :: 0 <= j < |queue| && OfRun(queue[j], runId) ==> queue[j].envelope.sequence < sequence
    decreases |queue|
  {
    hide IsTerminal, HasTerminal;
    if queue != [] {
      var first, tail := queue[0], queue[1..];
      assert forall j :: 0 < j < |queue| ==> queue[j] == tail[j - 1];
      var next := if OfRun(first, runId) && first.envelope.sequence > lastSent then first.envelope.sequence else lastSent;
      if next != lastSent {
        HasTerminalHead(Forwarded(runId, lastSent, queue));
        var rest := Forwarded(runId, next, tail);
        assert ([first.envelope] + rest)[1..] == rest;
      }
      LastIsGreatest(runId, next, tail, sequence);
    }
  }

  lemma HasTerminalAppend(a: seq<Envelope>, e: Envelope)
    ensures HasTerminal(a + [e]) <==> HasTerminal(a) || IsTerminal(e.kind)
  {
    hide IsTerminal;
    if HasTerminal(a) {
      var k :| 0 <= k < |a| && IsTerminal(a[k].kind);
      assert IsTerminal((a + [e])[k].kind);
    }
    assert (a + [e])[|a|] == e;
  }

  lemma OneMoreEnds(runId: string, lastSent: nat, queue: seq<Message>, n: nat)
    requires 0 < n <= |queue|
    ensures (exists j :: 0 <= j < n && EndsRun(runId, lastSent, queue, j))
            <==> EndsRun(runId, lastSent, queue, n - 1) || exists j :: 0 <= j < n - 1 && EndsRun(runId, lastSent, queue, j)
  {
    hide EndsRun;
  }

  lemma FreshByPrefix(runId: string, lastSent: nat, queue: seq<Message>, k: nat)
    requires k < |queue| && OfRun(queue[k], runId)
    ensures var before, sequence := queue[..k], queue[k].envelope.sequence;
            IsFresh(runId, lastSent, queue, k)
            <==> lastSent < sequence && forall j :: 0 <= j < |before| && OfRun(before[j], runId) ==> before[j].envelope.sequence < sequence
  {
    var before := queue[..k];
    assert forall j :: 0 <= j < k ==> before[j] == queue[j];
    if forall j :: 0 <= j < |before| && OfRun(before[j], runId) ==> before[j].envelope.sequence < queue[k].envelope.sequence {
      forall j | 0 <= j < k && OfRun(queue[j], runId) ensures queue[j].envelope.sequence < queue[k].envelope.sequence {
        assert OfRun(before[j], runId);
      }
    }
  }

  lemma {:induction false} PrefixIsPicked(runId: string, lastSent: nat, queue: seq<Message>, n: nat)
    requires n <= |queue|
    ensures Forwarded(runId, lastSent, queue[..n]) == Picked(runId, lastSent, queue, n)
    ensures HasTerminal(Picked(runId, lastSent, queue, n)) <==> exists j :: 0 <= j < n && EndsRun(runId, lastSent, queue, j)
  {
    hide IsTerminal, HasTerminal;
    if n == 0 {
      NothingIsTerminal();
    } else {
      var before, message := queue[..n - 1], queue[n - 1];
      PrefixIsPicked(runId, lastSent, queue, n - 1);
      assert queue[..n] == before + [message];
      ForwardedSnoc(runId, lastSent, before, message);
      hide Forwarded;
      var sent := Forwarded(runId, lastSent, before);
      OneMoreEnds(runId, lastSent, queue, n);
      if !HasTerminal(sent) && OfRun(message, runId) {
        LastIsGreatest(runId, lastSent, before, message.envelope.sequence);
        HasTerminalAppend(sent, message.envelope);
        FreshByPrefix(runId, lastSent, queue, n - 1);
      }
      assert sent + [] == sent;
      hide IsFresh, LastSequence;
    }
  }

  /**
   For every queue, in whatever order the broker delivers: exactly the messages are forwarded that are
   events of the run, newer than everything sent before the queue and than every earlier event of the run
   in it, with no terminal such event before them.
   */
  lemma ForwardedExactly(runId: string, lastSent: nat, queue: seq<Message>)
    ensures Forwarded(runId, lastSent, queue) == Picked(runId, lastSent, queue, |queue|)
  {
    hide Forwarded, Picked;
    PrefixIsPicked(runId, lastSent, queue, |queue|);
    assert queue[..|queue|] == queue;
  }

  /** So a whole connection sends the replay and then exactly those messages, unless the replay or the run is at its end. */
  lemma SentExactly(rows: seq<Row>, runId: string, cursor: nat, runIsTerminal: bool, queue: seq<Message>)
    ensures var replay := ListRunEvents(rows, runId, cursor, REPLAY_LIMIT);
            Sent(rows, runId, cursor, runIsTerminal, queue) ==
            if HasTerminal(replay) || runIsTerminal then UpToTerminal(replay)
            else replay + Picked(runId, LastSequence(replay, cursor), queue, |queue|)
  {
    hide ListRunEvents, HasTerminal, Forwarded, Picked, UpToTerminal;
    var replay := ListRunEvents(rows, runId, cursor, REPLAY_LIMIT);
    ForwardedExactly(runId, LastSequence(replay, cursor), queue);
    if !HasTerminal(replay) {
      NoTerminalKeepsAll(replay);
    }
    assert UpToTerminal(replay) + [] == UpToTerminal(replay);
  }

  /** All events of the run in the queue that the client does not have yet. */
  function Above(runId: string, lastSent: nat, queue: seq<Message>): seq<Envelope> {
    if queue == [] then []
    else (if OfRun(queue[0], runId) && queue[0].envelope.sequence > lastSent then [queue[0].envelope] else [])
         + Above(runId, lastSent, queue[1..])
  }

  lemma {:induction false} AboveMore(runId: string, lastSent: nat, sequence: nat, queue: seq<Message>)
    requires lastSent <= sequence
    requires forall i :: 0 <= i < |Above(runId, lastSent, queue)| ==> Above(runId, lastSent, queue)[i].sequence > sequence
    ensures Above(runId, sequence, queue) == Above(runId, lastSent, queue)
  {
    if queue != [] {
      var all, tail := Above(runId, lastSent, queue), Above(runId, lastSent, queue[1..]);
      assert forall i :: 0 <= i < |tail| ==> tail[i] == all[i + |all| - |tail|];
      assert |all| > |tail| ==> all[0].sequence > sequence;
      AboveMore(runId, lastSent, sequence, queue[1..]);
    }
  }

  /** No event but the last is terminal. */
  ghost predicate TerminalLast(envelopes: seq<Envelope>) {
    forall i :: 0 <= i < |envelopes| - 1 ==> !IsTerminal(envelopes[i].kind)
  }

  /** What is forwarded ends at its first terminal event. */
  lemma {:induction false} ForwardedEndsAtTerminal(runId: string, lastSent: nat, queue: seq<Message>)
    ensures TerminalLast(Forwarded(runId, lastSent, queue))
    decreases |queue|
  {
    hide IsTerminal;
    if queue != [] {
      if !OfRun(queue[0], runId) || queue[0].envelope.sequence <= lastSent {
        ForwardedEndsAtTerminal(runId, lastSent, queue[1..]);
      } else {
        ForwardedEndsAtTerminal(runId, queue[0].envelope.sequence, queue[1..]);
        var sent, rest := Forwarded(runId, lastSent, queue), Forwarded(runId, queue[0].envelope.sequence, queue[1..]);
        forall i | 0 <= i < |sent| - 1 ensures !IsTerminal(sent[i].kind) {
          if i > 0 {
            assert sent[i] == rest[i - 1];
          }
        }
      }
    }
  }

  lemma RestInOrder(all: seq<Envelope>, above: nat)
    requires all != [] && Increasing(all, above) && TerminalLast(all)
    ensures Increasing(all[1..], all[0].sequence) && TerminalLast(all[1..])
    ensures forall i :: 0 <= i < |all[1..]| ==> all[1..][i].sequence > all[0].sequence
    ensures IsTerminal(all[0].kind) ==> all[1..] == []
  {
    hide IsTerminal;
    assert forall i :: 0 <= i < |all[1..]| ==> all[1..][i] == all[i + 1];
  }

  lemma {:induction false} InOrderIsForwarded(runId: string, lastSent: nat, queue: seq<Message>)
    requires Increasing(Above(runId, lastSent, queue), lastSent) && TerminalLast(Above(runId, lastSent, queue))
    ensures Forwarded(runId, lastSent, queue) == Above(runId, lastSent, queue)
    decreases |queue|
  {
    hide IsTerminal, Increasing, TerminalLast;
    if queue != [] {
      var first, all, tail := queue[0], Above(runId, lastSent, queue), Above(runId, lastSent, queue[1..]);
      if !OfRun(first, runId) || first.envelope.sequence <= lastSent {
        assert all == tail;
        InOrderIsForwarded(runId, lastSent, queue[1..]);
      } else {
        assert all == [first.envelope] + tail && all[1..] == tail;
        RestInOrder(all, lastSent);
        AboveMore(runId, lastSent, first.envelope.sequence, queue[1..]);
        if !IsTerminal(first.envelope.kind) {
          InOrderIsForwarded(runId, first.envelope.sequence, queue[1..]);
        }
      }
    }
  }

  /**
   For every queue: the client gets all the events of the run that it lacks if and only if their
   sequences increase along the queue and none but the last is terminal.
   */
  lemma AllForwardedIff(runId: string, lastSent: nat, queue: seq<Message>)
    ensures var all := Above(runId, lastSent, queue);
            Forwarded(runId, lastSent, queue) == all <==> Increasing(all, lastSent) && TerminalLast(all)
  {
    hide Forwarded, Above, IsTerminal, Increasing;
    ForwardedIncreases(runId, lastSent, queue);
    ForwardedEndsAtTerminal(runId, lastSent, queue);
    var all := Above(runId, lastSent, queue);
    if Increasing(all, lastSent) && TerminalLast(all) {
      InOrderIsForwarded(runId, lastSent, queue);
    }
  }

  /** The four kinds of events after which a run emits nothing more. */
  predicate EndsARun(kind: string) {
    || kind == "agent.run_completed" || kind == "agent.run_failed"
    || kind == "agent.run_cancelled" || kind == "agent.run_paused"
  }

  lemma {:induction false} ForwardedAreSent(runId: string, lastSent: nat, queue: seq<Message>, n: nat, k: nat)
    requires k < n <= |queue| && IsForwarded(runId, lastSent, queue, k)
    ensures queue[k].envelope in Picked(runId, lastSent, queue, n)
    decreases n
  {
    hide IsForwarded;
    if k < n - 1 {
      ForwardedAreSent(runId, lastSent, queue, n - 1, k);
    }
  }

  lemma {:induction false} UpToTerminalEnds(envelopes: seq<Envelope>)
    ensures TerminalLast(UpToTerminal(envelopes))
  {
    hide IsTerminal;
    if envelopes != [] && !IsTerminal(envelopes[0].kind) {
      UpToTerminalEnds(envelopes[1..]);
    }
  }

  /**
   A connection sends nothing after an event of the four kinds; and if none of the stored or queued events
   is of these kinds and the run has not ended, every newer event of the run in the queue is sent.
   */
  lemma EndsAtTheFourKinds(rows: seq<Row>, runId: string, cursor: nat, runIsTerminal: bool, queue: seq<Message>)
    ensures var replay, sent := ListRunEvents(rows, runId, cursor, REPLAY_LIMIT), Sent(rows, runId, cursor, runIsTerminal, queue);
            && (forall i :: 0 <= i < |sent| - 1 ==> !EndsARun(sent[i].kind))
            && (!runIsTerminal && (forall i :: 0 <= i < |replay| ==> !EndsARun(replay[i].kind))
                && (forall k :: 0 <= k < |queue| && OfRun(queue[k], runId) ==> !EndsARun(queue[k].envelope.kind)) ==>
                  forall k: nat :: k < |queue| && OfRun(queue[k], runId) && IsFresh(runId, LastSequence(replay, cursor), queue, k) ==>
                    queue[k].envelope in sent)
  {
    hide ListRunEvents, Forwarded, UpToTerminal, Picked, IsFresh;
    var replay, sent := ListRunEvents(rows, runId, cursor, REPLAY_LIMIT), Sent(rows, runId, cursor, runIsTerminal, queue);
    var last := LastSequence(replay, cursor);
    SentExactly(rows, runId, cursor, runIsTerminal, queue);
    UpToTerminalEnds(replay);
    ForwardedEndsAtTerminal(runId, last, queue);
    ForwardedExactly(runId, last, queue);
    forall k: nat | k < |queue| && OfRun(queue[k], runId) && IsFresh(runId, last, queue, k) && !HasTerminal(replay) && !runIsTerminal
                    && (forall j :: 0 <= j < |queue| && OfRun(queue[j], runId) ==> !EndsARun(queue[j].envelope.kind))
      ensures queue[k].envelope in sent
    {
      FreshOnesGoOn(runId, last, queue, k);
      ForwardedAreSent(runId, last, queue, |queue|, k);
    }
  }

  lemma FreshOnesGoOn(runId: string, lastSent: nat, queue: seq<Message>, k: nat)
    requires IsFresh(runId, lastSent, queue, k)
    requires forall j :: 0 <= j < |queue| && OfRun(queue[j], runId) ==> !EndsARun(queue[j].envelope.kind)
    ensures k < |queue| && IsForwarded(runId, lastSent, queue, k)
  {
  }

  /** Two live events that the broker delivers in the wrong order: the earlier one is dropped. */
  lemma LateMessageIsDropped(runId: string, lastSent: nat, first: Envelope, second: Envelope, queue: seq<Message>)
    requires lastSent < second.sequence < first.sequence
    ensures forall e :: e in Forwarded(runId, lastSent, [RunEvent(runId, first), RunEvent(runId, second)] + queue)
                        ==> e.sequence != second.sequence
  {
    var messages := [RunEvent(runId, first), RunEvent(runId, second)] + queue;
    assert messages[1..] == [RunEvent(runId, second)] + queue;
    assert messages[1..][1..] == queue;
    ForwardedIncreases(runId, first.sequence, queue);
  }
}
