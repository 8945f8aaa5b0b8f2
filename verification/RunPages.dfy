/**
 What pages and cursors tell beyond numbered logs: the fields of an envelope, pages of any table, and
 cursors that are not envelope ids (apps/api/app/services/agent_run_events.py).
 */
module RunPages {
  import opened Common
  import opened RunCursor

  // ---------------------------------------------------------------------------
  // Cursors that are no envelope ids
  // ---------------------------------------------------------------------------

  lemma {:induction false} OnlyDigitsParse(s: string)
    requires ParseDigits(s).Some?
    ensures forall c :: c in s ==> IsDigit(c) || c == '_'
    decreases |s|
  {
    var before := s[..|s| - 1];
    assert s == before + [s[|s| - 1]];
    if before != "" {
      var head := if before[|before| - 1] == '_' then before[..|before| - 1] else before;
      OnlyDigitsParse(head);
      assert before == head || before == head + ['_'];
    }
  }

  lemma {:induction false} StripTakesSpaces(a: string, s: string, b: string)
    requires (forall i :: 0 <= i < |a| ==> IsSpace(a[i])) && (forall i :: 0 <= i < |b| ==> IsSpace(b[i]))
    requires s != "" && !IsSpace(s[0]) && !IsSpace(s[|s| - 1])
    ensures Strip(a + s + b) == s
    decreases |a| + |b|
  {
    hide IsSpace;
    if a != "" {
      assert (a + s + b)[0] == a[0] && (a + s + b)[1..] == a[1..] + s + b;
      StripTakesSpaces(a[1..], s, b);
    } else if b != "" {
      var last := |b| - 1;
      assert (a + s + b)[0] == s[0] && (a + s + b)[|s| + last] == b[last];
      assert (a + s + b)[..|s| + last] == a + s + b[..last];
      StripTakesSpaces(a, s, b[..last]);
    } else {
      assert a + s + b == s;
    }
  }

  /** What has no number after its last colon counts as the beginning, and so does a negative number. */
  lemma OtherCursorsAreZero(text: string)
    ensures ParseCursor(None) == 0 && ParseCursor(Some("")) == 0
    ensures (exists c :: c in Strip(AfterLastColon(text)) && !IsDigit(c) && c != '_' && c != '-' && c != '+') ==> ParseCursor(Some(text)) == 0
    ensures Strip(AfterLastColon(text)) != "" && Strip(AfterLastColon(text))[0] == '-' ==> ParseCursor(Some(text)) == 0
  {
    hide Strip, AfterLastColon, ParseDigits;
    var t := Strip(AfterLastColon(text));
    if t != "" {
      assert t == [t[0]] + t[1..];
    }
    if ParseDigits(t).Some? {
      OnlyDigitsParse(t);
    }
    if t != "" && ParseDigits(t[1..]).Some? {
      OnlyDigitsParse(t[1..]);
    }
  }

  lemma DigitsOfDecimal(n: nat)
    ensures Decimal(n) != "" && IsDigit(Decimal(n)[0]) && IsDigit(Decimal(n)[|Decimal(n)| - 1]) && ':' !in Decimal(n)
  {
    DecimalIsDigits(n);
    hide Decimal;
    assert Decimal(n)[0] in Decimal(n) && Decimal(n)[|Decimal(n)| - 1] in Decimal(n);
  }

  /** A bare number is read through white space about it and a plus sign before it, and digits may be parted by an underscore. */
  lemma NumbersAreRead(a: string, n: nat, b: string, digit: char)
    requires (forall i :: 0 <= i < |a| ==> IsSpace(a[i])) && (forall i :: 0 <= i < |b| ==> IsSpace(b[i])) && IsDigit(digit)
    ensures ParseInt(a + Decimal(n) + b) == Some(n) && ParseInt(a + "+" + Decimal(n) + b) == Some(n)
    ensures var i := ParseInt(a + "-" + Decimal(n) + b); i.Some? && i.value + n == 0
    ensures ParseDigits(Decimal(n) + "_" + [digit]) == Some(10 * n + DigitValue(digit))
  {
    var d := Decimal(n);
    DigitsOfDecimal(n);
    ParseDecimal(n);
    hide Decimal, ParseDigits, Strip;
    StripTakesSpaces(a, d, b);
    StripTakesSpaces(a, "+" + d, b);
    StripTakesSpaces(a, "-" + d, b);
    assert a + ("+" + d) + b == a + "+" + d + b && a + ("-" + d) + b == a + "-" + d + b;
    assert ("+" + d)[1..] == d && ("-" + d)[1..] == d;
    PartedDigits(d, digit);
  }

  lemma PartedDigits(d: string, digit: char)
    requires ParseDigits(d).Some? && IsDigit(digit)
    ensures ParseDigits(d + "_" + [digit]) == Some(10 * ParseDigits(d).value + DigitValue(digit))
  {
    var s := d + "_" + [digit];
    assert s[..|s| - 1] == d + "_" && (d + "_")[..|d|] == d;
  }

  // ---------------------------------------------------------------------------
  // Pages of any table
  // ---------------------------------------------------------------------------

  /** The envelope tells every field of the row, and the run and number again in its id. */
  ghost predicate IsEnvelopeOf(envelope: Envelope, row: Row) {
    && envelope.id == row.runId + ":" + Decimal(row.sequence)
    && envelope.runId == row.runId && envelope.eventId == row.eventId && envelope.sequence == row.sequence
    && envelope.kind == row.kind && envelope.data == row.data && envelope.timestamp == row.createdAt
  }

  lemma EnvelopesTell(rows: seq<Row>)
    ensures |Envelopes(rows)| == |rows| && forall i :: 0 <= i < |rows| ==> IsEnvelopeOf(Envelopes(rows)[i], rows[i])
  {
    hide Decimal;
  }

  ghost predicate InOrder(rows: seq<Row>) {
    forall i, j :: 0 <= i < j < |rows| ==> rows[i].sequence <= rows[j].sequence
  }

  lemma {:induction false} InsertedMembers(row: Row, sorted: seq<Row>)
    ensures forall x :: x in InsertBySequence(row, sorted) <==> x == row || x in sorted
  {
    if sorted != [] {
      InsertedMembers(row, sorted[1..]);
      assert sorted == [sorted[0]] + sorted[1..];
    }
  }

  lemma {:induction false} InsertOrders(row: Row, sorted: seq<Row>)
    requires InOrder(sorted)
    ensures InOrder(InsertBySequence(row, sorted))
  {
    if sorted != [] && row.sequence > sorted[0].sequence {
      InsertOrders(row, sorted[1..]);
      InsertedMembers(row, sorted[1..]);
      var rest := InsertBySequence(row, sorted[1..]);
      forall i | 0 <= i < |rest| ensures sorted[0].sequence <= rest[i].sequence {
        assert rest[i] in rest;
      }
    }
  }

  lemma {:induction false} OrderOrders(rows: seq<Row>)
    ensures InOrder(OrderBySequence(rows))
    ensures forall row :: row in OrderBySequence(rows) <==> row in rows
  {
    hide InOrder;
    if rows != [] {
      OrderOrders(rows[1..]);
      InsertOrders(rows[0], OrderBySequence(rows[1..]));
      InsertedMembers(rows[0], OrderBySequence(rows[1..]));
      assert rows == [rows[0]] + rows[1..];
    } else {
      NothingInOrder();
    }
  }

  lemma NothingInOrder()
    ensures InOrder([])
  {
  }

  predicate IsAfter(row: Row, runId: string, after: nat) {
    row.runId == runId && row.sequence > after
  }

  lemma {:induction false} FilteredMembers(rows: seq<Row>, runId: string, after: nat)
    ensures forall row :: row in Filtered(rows, runId, after) <==> row in rows && IsAfter(row, runId, after)
  {
    if rows != [] {
      FilteredMembers(rows[..|rows| - 1], runId, after);
      assert rows == rows[..|rows| - 1] + [rows[|rows| - 1]];
    }
  }

  lemma RestIsLater(sorted: seq<Row>, limit: nat, row: Row)
    requires row in sorted && row !in Take(sorted, limit)
    requires InOrder(sorted)
    ensures |Take(sorted, limit)| == limit && forall i :: 0 <= i < limit ==> Take(sorted, limit)[i].sequence <= row.sequence
  {
    var k :| 0 <= k < |sorted| && sorted[k] == row;
    assert k >= limit;
  }

  /** The envelope is that of a row of the run after the cursor. */
  ghost predicate TellsRow(rows: seq<Row>, runId: string, after: nat, envelope: Envelope) {
    exists row :: row in rows && IsAfter(row, runId, after) && IsEnvelopeOf(envelope, row)
  }

  /**
   Whatever order the rows are stored in and whatever numbers they have: a page is in order of the numbers,
   its envelopes are of rows of the run after the cursor, and a row of the run after the cursor that is left
   out comes no earlier than any on the page, which then is full.
   */
  lemma PageOfAnyTable(rows: seq<Row>, runId: string, after: nat, limit: nat)
    ensures var page := ListRunEvents(rows, runId, after, limit);
            && |page| <= limit && (forall i, j :: 0 <= i < j < |page| ==> page[i].sequence <= page[j].sequence)
            && (forall i :: 0 <= i < |page| ==> TellsRow(rows, runId, after, page[i]))
            && (forall row :: row in rows && IsAfter(row, runId, after) ==>
                  (exists i :: 0 <= i < |page| && IsEnvelopeOf(page[i], row))
                  || (|page| == limit && forall i :: 0 <= i < |page| ==> page[i].sequence <= row.sequence))
  {
    hide ListRunEvents, IsAfter, IsEnvelopeOf, TellsRow;
    PageIsAscending(rows, runId, after, limit);
    var page := ListRunEvents(rows, runId, after, limit);
    forall row | row in rows && IsAfter(row, runId, after)
      ensures (exists i :: 0 <= i < |page| && IsEnvelopeOf(page[i], row))
              || (|page| == limit && forall i :: 0 <= i < |page| ==> page[i].sequence <= row.sequence)
    {
      PageMissesLater(rows, runId, after, limit, row);
    }
  }

  lemma PageIsAscending(rows: seq<Row>, runId: string, after: nat, limit: nat)
    ensures var page := ListRunEvents(rows, runId, after, limit);
            && |page| <= limit && (forall i, j :: 0 <= i < j < |page| ==> page[i].sequence <= page[j].sequence)
            && (forall i :: 0 <= i < |page| ==> TellsRow(rows, runId, after, page[i]))
  {
    var filtered := Filtered(rows, runId, after);
    var sorted := OrderBySequence(filtered);
    var taken, page := Take(sorted, limit), ListRunEvents(rows, runId, after, limit);
    FilteredMembers(rows, runId, after);
    OrderOrders(filtered);
    EnvelopesTell(taken);
    SequencesAreKept(page, taken);
    hide Filtered, OrderBySequence, ToEnvelope, Envelopes, IsEnvelopeOf, IsAfter;
    forall i | 0 <= i < |page| ensures TellsRow(rows, runId, after, page[i]) {
      var row := sorted[i];
      assert taken[i] == row && row in sorted;
      assert row in rows && IsAfter(row, runId, after) && IsEnvelopeOf(page[i], row);
    }
    hide TellsRow;
    assert forall i :: 0 <= i < |taken| ==> taken[i] == sorted[i];
  }

  lemma PageMissesLater(rows: seq<Row>, runId: string, after: nat, limit: nat, row: Row)
    requires row in rows && IsAfter(row, runId, after)
    ensures var page := ListRunEvents(rows, runId, after, limit);
            || (exists i :: 0 <= i < |page| && IsEnvelopeOf(page[i], row))
            || (|page| == limit && forall i :: 0 <= i < |page| ==> page[i].sequence <= row.sequence)
  {
    var filtered := Filtered(rows, runId, after);
    var sorted := OrderBySequence(filtered);
    var taken, page := Take(sorted, limit), ListRunEvents(rows, runId, after, limit);
    FilteredMembers(rows, runId, after);
    OrderOrders(filtered);
    EnvelopesTell(taken);
    SequencesAreKept(page, taken);
    hide Filtered, OrderBySequence, ToEnvelope, Envelopes, IsEnvelopeOf, IsAfter;
    if row in taken {
      var k :| 0 <= k < |taken| && taken[k] == row;
      assert IsEnvelopeOf(page[k], row);
    } else {
      RestIsLater(sorted, limit, row);
      assert |page| == limit && forall i :: 0 <= i < |page| ==> page[i].sequence <= row.sequence;
    }
  }

  lemma SequencesAreKept(page: seq<Envelope>, rows: seq<Row>)
    requires |page| == |rows| && forall i :: 0 <= i < |rows| ==> IsEnvelopeOf(page[i], rows[i])
    ensures forall i :: 0 <= i < |rows| ==> page[i].sequence == rows[i].sequence
  {
    hide Decimal;
  }

  /** So the i-th envelope of a page tells every field of the i-th row of the run after the cursor. */
  lemma PageTells(rows: seq<Row>, runId: string, after: nat, limit: nat)
    requires WellNumbered(rows)
    ensures var log, page := RunLog(rows, runId), ListRunEvents(rows, runId, after, limit);
            forall i :: 0 <= i < |page| ==> after + i < |log| && IsEnvelopeOf(page[i], log[after + i])
  {
    hide RunLog, ListRunEvents, Envelopes, IsEnvelopeOf, WellNumbered;
    var log := RunLog(rows, runId);
    PageIsRange(rows, runId, after, limit);
    EnvelopesTell(log[Min(after, |log|)..Min(after + limit, |log|)]);
  }
}
