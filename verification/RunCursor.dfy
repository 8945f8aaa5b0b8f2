/**
 The rows and the wire form of a run's progress log, its cursors, and the paged replay
 (apps/api/app/services/agent_run_events.py).
 */
module RunCursor {
  import opened Common

  /** A row of agent_run_events; `data` is the JSON payload, `createdAt` the clock reading. */
  datatype Row = Row(runId: string, eventId: string, sequence: nat, kind: string, data: string, createdAt: int)

  /** The envelope of a row: the SSE payload and the replay item. */
  datatype Envelope = Envelope(
    id: string, runId: string, eventId: string, sequence: nat, kind: string, timestamp: int, data: string)

  // ---------------------------------------------------------------------------
  // Cursors
  // ---------------------------------------------------------------------------

  const DIGITS := "0123456789"

  function Decimal(n: nat): string {
    if n < 10 then [DIGITS[n]] else Decimal(n / 10) + [DIGITS[n % 10]]
  }

  function ToEnvelope(row: Row): Envelope {
    Envelope(row.runId + ":" + Decimal(row.sequence), row.runId, row.eventId, row.sequence, row.kind,
             row.createdAt, row.data)
  }

  function Envelopes(rows: seq<Row>): seq<Envelope> {
    seq(|rows|, i requires 0 <= i < |rows| => ToEnvelope(rows[i]))
  }

  /** What follows the last colon: value.rsplit(":", 1)[-1]. */
  function AfterLastColon(s: string): string {
    if s == "" || s[|s| - 1] == ':' then "" else AfterLastColon(s[..|s| - 1]) + [s[|s| - 1]]
  }

  predicate IsDigit(c: char) {
    '0' <= c <= '9'
  }

  function DigitValue(c: char): (v: nat)
    requires IsDigit(c)
    ensures v < 10 && DIGITS[v] == c
  {
    var v := c as int - '0' as int;
    assert 0 <= v < 10;
    v
  }

  /** White space that int() strips, within ASCII. */
  predicate IsSpace(c: char) {
    c == ' ' || '\t' <= c <= '\r' || 0x1c as char <= c <= 0x1f as char
  }

  function Strip(s: string): string
    decreases |s|
  {
    if s == "" then ""
    else if IsSpace(s[0]) then Strip(s[1..])
    else if IsSpace(s[|s| - 1]) then Strip(s[..|s| - 1])
    else s
  }

  /** Digits, with single underscores allowed between two of them. */
  function ParseDigits(s: string): Option<nat>
    decreases |s|
  {
    if s == "" || !IsDigit(s[|s| - 1]) then None
    else
      var digit := DigitValue(s[|s| - 1]);
      var before := s[..|s| - 1];
      if before == "" then Some(digit)
      else
        var head := if before[|before| - 1] == '_' then before[..|before| - 1] else before;
        match ParseDigits(head)
        case None => None
        case Some(v) => Some(10 * v + digit)
  }

  /** int(s); None where it raises ValueError. */
  function ParseInt(s: string): Option<int> {
    var t := Strip(s);
    if t != "" && (t[0] == '-' || t[0] == '+') then
      match ParseDigits(t[1..])
      case None => None
      case Some(v) => var i: int := v; Some(if t[0] == '-' then -i else i)
    else
      match ParseDigits(t)
      case None => None
      case Some(v) => Some(v)
  }

  /** parse_cursor: accepts "RUN-XXXX:12", "12" or nothing. */
  function ParseCursor(value: Option<string>): nat {
    if value == None || value == Some("") then 0
    else
      match ParseInt(AfterLastColon(value.value))
      case None => 0
      case Some(v) => if v < 0 then 0 else v
  }

  lemma {:induction false} DecimalIsDigits(n: nat)
    ensures Decimal(n) != "" && forall c :: c in Decimal(n) ==> IsDigit(c)
  {
    if n >= 10 {
      DecimalIsDigits(n / 10);
    }
  }

  lemma {:induction false} ParseDecimal(n: nat)
    ensures ParseDigits(Decimal(n)) == Some(n)
  {
    var s := Decimal(n);
    if n >= 10 {
      ParseDecimal(n / 10);
      DecimalIsDigits(n / 10);
      var before := Decimal(n / 10);
      assert s[..|s| - 1] == before;
      assert before[|before| - 1] in before;
    }
  }

  lemma {:induction false} TailAfterColon(head: string, tail: string)
    requires ':' !in tail
    ensures AfterLastColon(head + ":" + tail) == tail
    ensures AfterLastColon(tail) == tail
    decreases |tail|
  {
    if tail == "" {
      assert head + ":" + tail == head + ":";
    } else {
      var init := tail[..|tail| - 1];
      TailAfterColon(head, init);
      var s := head + ":" + tail;
      assert s[..|s| - 1] == head + ":" + init;
      assert tail[|tail| - 1] in tail;
    }
  }

  /**
   The cursor of an envelope id is the sequence of its row, for every run id, also one with
   colons in it; a bare number is a cursor too.
   */
  lemma CursorOfEnvelope(row: Row)
    ensures ParseCursor(Some(ToEnvelope(row).id)) == row.sequence
    ensures ParseCursor(Some(Decimal(row.sequence))) == row.sequence
  {
    hide Decimal, AfterLastColon, ParseInt;
    var tail := Decimal(row.sequence);
    DecimalIsDigits(row.sequence);
    TailAfterColon(row.runId, tail);
    IntOfDecimal(row.sequence);
    assert ToEnvelope(row).id == row.runId + ":" + tail;
  }

  lemma {:induction false} IntOfDecimal(n: nat)
    ensures ParseInt(Decimal(n)) == Some(n)
  {
    hide Decimal, ParseDigits;
    var s := Decimal(n);
    DecimalIsDigits(n);
    ParseDecimal(n);
    assert s[0] in s && s[|s| - 1] in s;
  }

  // ---------------------------------------------------------------------------
  // The log of one run
  // ---------------------------------------------------------------------------

  /** The rows of a run, in commit order. */
  function RunLog(rows: seq<Row>, runId: string): seq<Row> {
    if rows == [] then []
    else
      var before := RunLog(rows[..|rows| - 1], runId);
      if rows[|rows| - 1].runId == runId then before + [rows[|rows| - 1]] else before
  }

  /** The rows of every run are numbered 1, 2, 3, ... in commit order. */
  ghost predicate WellNumbered(rows: seq<Row>) {
    forall runId: string, i :: 0 <= i < |RunLog(rows, runId)| ==> RunLog(rows, runId)[i].sequence == i + 1
  }

  lemma RunLogAppend(rows: seq<Row>, row: Row, runId: string)
    ensures RunLog(rows + [row], runId) == if row.runId == runId then RunLog(rows, runId) + [row] else RunLog(rows, runId)
  {
    assert (rows + [row])[..|rows + [row]| - 1] == rows;
  }

  lemma AppendKeepsNumbering(rows: seq<Row>, row: Row)
    requires WellNumbered(rows) && row.sequence == |RunLog(rows, row.runId)| + 1
    ensures WellNumbered(rows + [row])
  {
    forall runId: string, i | 0 <= i < |RunLog(rows + [row], runId)|
      ensures RunLog(rows + [row], runId)[i].sequence == i + 1
    {
      RunLogAppend(rows, row, runId);
    }
  }

  lemma {:induction false} RunLogConcat(a: seq<Row>, b: seq<Row>, runId: string)
    ensures RunLog(a + b, runId) == RunLog(a, runId) + RunLog(b, runId)
    decreases |b|
  {
    if b == [] {
      assert a + b == a;
    } else {
      var init := b[..|b| - 1];
      RunLogConcat(a, init, runId);
      assert a + b == (a + init) + [b[|b| - 1]];
      assert b == init + [b[|b| - 1]];
      RunLogAppend(a + init, b[|b| - 1], runId);
    }
  }

  lemma {:induction false} RunLogMembers(rows: seq<Row>, runId: string)
    ensures forall row :: row in RunLog(rows, runId) <==> row in rows && row.runId == runId
  {
    if rows != [] {
      var init := rows[..|rows| - 1];
      RunLogMembers(init, runId);
      assert rows == init + [rows[|rows| - 1]];
    }
  }

  // ---------------------------------------------------------------------------
  // Replay by cursor
  // ---------------------------------------------------------------------------

  function Filtered(rows: seq<Row>, runId: string, after: nat): seq<Row> {
    if rows == [] then []
    else
      var before := Filtered(rows[..|rows| - 1], runId, after);
      var row := rows[|rows| - 1];
      if row.runId == runId && row.sequence > after then before + [row] else before
  }

  function InsertBySequence(row: Row, sorted: seq<Row>): seq<Row> {
    if sorted == [] then [row]
    else if row.sequence <= sorted[0].sequence then [row] + sorted
    else [sorted[0]] + InsertBySequence(row, sorted[1..])
  }

  function OrderBySequence(rows: seq<Row>): seq<Row> {
    if rows == [] then [] else InsertBySequence(rows[0], OrderBySequence(rows[1..]))
  }

  function Take<T>(s: seq<T>, n: nat): seq<T> {
    if n < |s| then s[..n] else s
  }

  /** list_run_events: filter, order by sequence, limit. */
  function ListRunEvents(rows: seq<Row>, runId: string, after: nat, limit: nat): seq<Envelope> {
    Envelopes(Take(OrderBySequence(Filtered(rows, runId, after)), limit))
  }

  function Min(a: nat, b: nat): nat {
    if a < b then a else b
  }

  ghost predicate Ascending(rows: seq<Row>) {
    forall i, j :: 0 <= i < j < |rows| ==> rows[i].sequence < rows[j].sequence
  }

  lemma {:induction false} AscendingIsOrdered(rows: seq<Row>)
    requires Ascending(rows)
    ensures OrderBySequence(rows) == rows
  {
    if rows != [] {
      AscendingIsOrdered(rows[1..]);
      assert rows == [rows[0]] + rows[1..];
    }
  }

  /** In a log numbered 1..n, the rows after a cursor are a tail of the log. */
  lemma {:induction false} FilteredIsTail(rows: seq<Row>, runId: string, after: nat)
    requires forall i :: 0 <= i < |RunLog(rows, runId)| ==> RunLog(rows, runId)[i].sequence == i + 1
    ensures Filtered(rows, runId, after) == RunLog(rows, runId)[Min(after, |RunLog(rows, runId)|)..]
  {
    if rows != [] {
      var init, row := rows[..|rows| - 1], rows[|rows| - 1];
      var before, log := RunLog(init, runId), RunLog(rows, runId);
      assert forall i :: 0 <= i < |before| ==> before[i] == log[i];
      FilteredIsTail(init, runId, after);
      if row.runId == runId {
        assert log == before + [row];
        assert log[|before|].sequence == |before| + 1;
      }
    }
  }

  /** A page is the next `limit` rows of the run after the cursor, in order. */
  lemma PageIsRange(rows: seq<Row>, runId: string, after: nat, limit: nat)
    requires WellNumbered(rows)
    ensures var log := RunLog(rows, runId);
            ListRunEvents(rows, runId, after, limit)
            == Envelopes(log[Min(after, |log|)..Min(after + limit, |log|)])
  {
    hide RunLog, Filtered, OrderBySequence, Envelopes;
    var log := RunLog(rows, runId);
    FilteredIsTail(rows, runId, after);
    var tail := log[Min(after, |log|)..];
    AscendingIsOrdered(tail);
    assert Take(tail, limit) == log[Min(after, |log|)..Min(after + limit, |log|)];
  }

  /** The cursor for the next page: parse_cursor of the last id, or the old cursor. */
  function NextCursor(page: seq<Envelope>, after: nat): nat {
    if page == [] then after else ParseCursor(Some(page[|page| - 1].id))
  }

  /** The pages of a walk; `tables[k]` is the table when page k is read. */
  function Walk(tables: seq<seq<Row>>, runId: string, after: nat, limit: nat): seq<Envelope>
    decreases |tables|
  {
    if tables == [] then []
    else
      var page := ListRunEvents(tables[0], runId, after, limit);
      page + Walk(tables[1..], runId, NextCursor(page, after), limit)
  }

  function WalkCursor(tables: seq<seq<Row>>, runId: string, after: nat, limit: nat): nat
    decreases |tables|
  {
    if tables == [] then after
    else
      var page := ListRunEvents(tables[0], runId, after, limit);
      WalkCursor(tables[1..], runId, NextCursor(page, after), limit)
  }

  /** The table only grows from page to page, up to `final`, and stays well numbered. */
  ghost predicate Growing(tables: seq<seq<Row>>, final: seq<Row>) {
    && WellNumbered(final)
    && (tables == [] || (tables[0] <= final && WellNumbered(tables[0]) && Growing(tables[1..], final)))
  }

  lemma PrefixOfLog(rows: seq<Row>, final: seq<Row>, runId: string)
    requires rows <= final
    ensures RunLog(rows, runId) <= RunLog(final, runId)
  {
    assert final == rows + final[|rows|..];
    RunLogConcat(rows, final[|rows|..], runId);
  }

  lemma NumberedAt(rows: seq<Row>, runId: string)
    requires WellNumbered(rows)
    ensures forall i :: 0 <= i < |RunLog(rows, runId)| ==> RunLog(rows, runId)[i].sequence == i + 1
  {
  }

  lemma {:induction false} PageCursor(rows: seq<Row>, runId: string, after: nat, limit: nat)
    requires WellNumbered(rows)
    ensures var log := RunLog(rows, runId);
            NextCursor(ListRunEvents(rows, runId, after, limit), after)
            == if after < |log| then Min(after + limit, |log|) else after
  {
    hide RunLog, ListRunEvents, ParseCursor, ToEnvelope, WellNumbered;
    var log := RunLog(rows, runId);
    PageIsRange(rows, runId, after, limit);
    NumberedAt(rows, runId);
    var page := ListRunEvents(rows, runId, after, limit);
    if page != [] {
      assert page[|page| - 1] == ToEnvelope(log[Min(after + limit, |log|) - 1]);
      CursorOfEnvelope(log[Min(after + limit, |log|) - 1]);
    }
  }

  /**
   A walk over a growing log returns the events after its start exactly once and in order, up
   to its last cursor.
   */
  lemma {:induction false} WalkIsRange(tables: seq<seq<Row>>, final: seq<Row>, runId: string, after: nat, limit: nat)
    requires Growing(tables, final) && after <= |RunLog(final, runId)|
    ensures var log, end := RunLog(final, runId), WalkCursor(tables, runId, after, limit);
            && after <= end <= |log|
            && Walk(tables, runId, after, limit) == Envelopes(log[after..end])
    decreases |tables|
  {
    hide RunLog, ListRunEvents, NextCursor, ToEnvelope, WellNumbered;
    var log := RunLog(final, runId);
    if tables != [] {
      var now := RunLog(tables[0], runId);
      PrefixOfLog(tables[0], final, runId);
      PageIsRange(tables[0], runId, after, limit);
      PageCursor(tables[0], runId, after, limit);
      var page := ListRunEvents(tables[0], runId, after, limit);
      var next := NextCursor(page, after);
      if after < |now| {
        assert now[after..next] == log[after..next];
      } else {
        assert page == [] && next == after && log[after..next] == [];
      }
      assert page == Envelopes(log[after..next]);
      WalkIsRange(tables[1..], final, runId, next, limit);
      var end := WalkCursor(tables[1..], runId, next, limit);
      assert Envelopes(log[after..next]) + Envelopes(log[next..end]) == Envelopes(log[after..end]);
    }
  }

  /** A short page means that the walk has caught up with the log it read. */
  lemma ShortPageCaughtUp(rows: seq<Row>, runId: string, after: nat, limit: nat)
    requires WellNumbered(rows) && after <= |RunLog(rows, runId)|
    ensures var page := ListRunEvents(rows, runId, after, limit);
            |page| < limit ==> NextCursor(page, after) == |RunLog(rows, runId)|
  {
    PageIsRange(rows, runId, after, limit);
    PageCursor(rows, runId, after, limit);
  }

  /** Once the log stops growing, enough pages of any size at least one reach its end. */
  lemma {:induction false} WalkReachesEnd(rows: seq<Row>, pages: nat, runId: string, after: nat, limit: nat)
    requires WellNumbered(rows) && limit >= 1 && after <= |RunLog(rows, runId)|
    requires after + pages * limit >= |RunLog(rows, runId)|
    ensures WalkCursor(seq(pages, _ => rows), runId, after, limit) == |RunLog(rows, runId)|
    decreases pages
  {
    hide RunLog, ListRunEvents, NextCursor, WellNumbered;
    if pages > 0 {
      PageCursor(rows, runId, after, limit);
      var next := NextCursor(ListRunEvents(rows, runId, after, limit), after);
      assert pages * limit == (pages - 1) * limit + limit;
      WalkReachesEnd(rows, pages - 1, runId, next, limit);
      assert seq(pages, _ => rows)[1..] == seq(pages - 1, _ => rows);
      assert seq(pages, _ => rows)[0] == rows;
    }
  }
}
