/**
 Keyset paging over an event's audit trail (apps/api/app/observability/audit.py:72-119), compared
 with offset paging and with sorting the trail once.
 */
module AuditPaging {
  import opened Common

  datatype Record = Record(id: string, eventId: string, actionType: string, at: int, action: string)

  datatype Key = Key(at: int, id: string)

  datatype Query = Query(eventId: string, actionType: string)

  datatype Page = Page(items: seq<Record>, total: nat, next: Option<Key>)

  datatype Answer = Answer(items: seq<Record>, total: nat, cursor: Option<string>)

  function KeyOf(r: Record): Key {
    Key(r.at, r.id)
  }

  // ---------------------------------------------------------------------------
  // The order (created_at, id)
  // ---------------------------------------------------------------------------

  predicate TextLess(a: string, b: string) {
    b != [] && (a == [] || a[0] < b[0] || (a[0] == b[0] && TextLess(a[1..], b[1..])))
  }

  predicate Less(a: Key, b: Key) {
    a.at < b.at || (a.at == b.at && TextLess(a.id, b.id))
  }

  lemma {:induction false} TextLessIsTotal(a: string, b: string)
    ensures !(TextLess(a, b) && TextLess(b, a))
    ensures TextLess(a, b) || TextLess(b, a) <==> a != b
  {
    if a != [] && b != [] && a[0] == b[0] {
      TextLessIsTotal(a[1..], b[1..]);
      assert a == [a[0]] + a[1..] && b == [b[0]] + b[1..];
    }
  }

  lemma {:induction false} TextLessIsTransitive(a: string, b: string, c: string)
    requires TextLess(a, b) && TextLess(b, c)
    ensures TextLess(a, c)
  {
    if a != [] && a[0] == b[0] == c[0] {
      TextLessIsTransitive(a[1..], b[1..], c[1..]);
    }
  }

  /** Ties in the time are broken by the id, so two keys are either equal or ordered one way. */
  lemma LessIsTotal(a: Key, b: Key)
    ensures !(Less(a, b) && Less(b, a))
    ensures Less(a, b) || Less(b, a) <==> a != b
  {
    TextLessIsTotal(a.id, b.id);
  }

  lemma LessIsTransitive(a: Key, b: Key, c: Key)
    requires Less(a, b) && Less(b, c)
    ensures Less(a, c)
  {
    if a.at == b.at == c.at {
      TextLessIsTransitive(a.id, b.id, c.id);
    }
  }

  // ---------------------------------------------------------------------------
  // The query
  // ---------------------------------------------------------------------------

  predicate Matches(r: Record, q: Query) {
    r.eventId == q.eventId && (q.actionType == "" || r.actionType == q.actionType)
  }

  function Matching(table: seq<Record>, q: Query): (rows: seq<Record>)
    ensures forall r :: r in rows <==> r in table && Matches(r, q)
    ensures |rows| <= |table|
  {
    if table == [] then []
    else
      var n := |table| - 1;
      assert table == table[..n] + [table[n]];
      Matching(table[..n], q) + if Matches(table[n], q) then [table[n]] else []
  }

  /** The record is of the event asked for, and of the action type if one is asked for. */
  predicate IsAsked(r: Record, q: Query) {
    r.eventId == q.eventId && (q.actionType != "" ==> r.actionType == q.actionType)
  }

  function AskedAt(table: seq<Record>, q: Query): set<int> {
    set i | 0 <= i < |table| && IsAsked(table[i], q)
  }

  lemma MatchingAreAsked(table: seq<Record>, q: Query)
    ensures forall r :: r in Matching(table, q) <==> r in table && IsAsked(r, q)
  {
  }

  lemma {:induction false} MatchingAreCounted(table: seq<Record>, q: Query)
    ensures |Matching(table, q)| == |AskedAt(table, q)|
  {
    if table != [] {
      var n := |table| - 1;
      MatchingAreCounted(table[..n], q);
      if IsAsked(table[n], q) {
        assert AskedAt(table, q) == AskedAt(table[..n], q) + {n};
      } else {
        assert AskedAt(table, q) == AskedAt(table[..n], q);
      }
    }
  }

  predicate Descending(rows: seq<Record>) {
    forall i, j :: 0 <= i < j < |rows| ==> Less(KeyOf(rows[j]), KeyOf(rows[i]))
  }

  predicate Distinct(table: seq<Record>) {
    forall i, j :: 0 <= i < j < |table| ==> table[i].id != table[j].id
  }

  function Insert(rows: seq<Record>, r: Record): (s: seq<Record>)
    ensures |s| == |rows| + 1
    ensures forall x :: x in s <==> x in rows || x == r
  {
    if rows == [] || Less(KeyOf(rows[0]), KeyOf(r)) then [r] + rows
    else
      var rest := Insert(rows[1..], r);
      assert rows == [rows[0]] + rows[1..];
      [rows[0]] + rest
  }

  /** Order by created_at and id, both descending. */
  function Newest(rows: seq<Record>): (s: seq<Record>)
    ensures |s| == |rows|
    ensures forall x :: x in s <==> x in rows
  {
    if rows == [] then []
    else
      var n := |rows| - 1;
      assert rows == rows[..n] + [rows[n]];
      Insert(Newest(rows[..n]), rows[n])
  }

  function Below(rows: seq<Record>, key: Key): (s: seq<Record>)
    ensures forall x :: x in s <==> x in rows && Less(KeyOf(x), key)
  {
    if rows == [] then []
    else
      assert rows == [rows[0]] + rows[1..];
      (if Less(KeyOf(rows[0]), key) then [rows[0]] else []) + Below(rows[1..], key)
  }

  function Rest(table: seq<Record>, q: Query, from: Option<Key>, offset: nat): seq<Record> {
    var rows := Newest(Matching(table, q));
    match from
    case Some(key) => Below(rows, key)
    case None => rows[if offset < |rows| then offset else |rows|..]
  }

  function PageAt(table: seq<Record>, q: Query, limit: nat, from: Option<Key>, offset: nat): Page {
    var rest := Rest(table, q, from, offset);
    var total := |Matching(table, q)|;
    if |rest| <= limit then Page(rest, total, None)
    else Page(rest[..limit], total, Some(KeyOf(rest[if limit == 0 then 0 else limit - 1])))
  }

  // ---------------------------------------------------------------------------
  // Cursors
  // ---------------------------------------------------------------------------

  /** Writing and reading a time; what is written can be read and holds no bar. */
  datatype Clock = Clock(iso: int -> string, parse: string -> Option<int>) {
    ghost predicate Faithful() {
      forall t: int :: parse(iso(t)) == Some(t) && '|' !in iso(t)
    }
  }

  function Encode(clock: Clock, key: Key): string {
    clock.iso(key.at) + "|" + key.id
  }

  /** The part before the first bar, and the part after it. */
  function Split(text: string): (r: Option<(string, string)>)
    ensures r.None? <==> '|' !in text
    ensures r.Some? ==> '|' !in r.value.0 && text == r.value.0 + "|" + r.value.1
  {
    if text == [] then None
    else if text[0] == '|' then Some(("", text[1..]))
    else
      var r := Split(text[1..]);
      assert text == [text[0]] + text[1..];
      match r
      case None => None
      case Some(parts) => Some(([text[0]] + parts.0, parts.1))
  }

  function Decode(clock: Clock, text: string): Option<Key> {
    match Split(text)
    case None => None
    case Some(parts) =>
      match clock.parse(parts.0)
      case None => None
      case Some(at) => Some(Key(at, parts.1))
  }

  lemma {:induction false} SplitAtFirstBar(head: string, tail: string)
    requires '|' !in head
    ensures Split(head + "|" + tail) == Some((head, tail))
  {
    var text := head + "|" + tail;
    if head == [] {
      assert text[1..] == tail;
    } else {
      assert text[1..] == head[1..] + "|" + tail && text[0] == head[0];
      assert head == [head[0]] + head[1..];
      SplitAtFirstBar(head[1..], tail);
    }
  }

  /** A cursor reads back as the key it was written for, whatever the id contains. */
  lemma CursorRoundTrip(clock: Clock, key: Key)
    requires clock.Faithful()
    ensures Decode(clock, Encode(clock, key)) == Some(key) && Encode(clock, key) != ""
  {
    SplitAtFirstBar(clock.iso(key.at), key.id);
  }

  /**
   The listing: a malformed cursor is refused, a cursor wins over an offset, and one row more than
   asked for is fetched to see whether a next page exists.
   */
  method ListRecordsPaginated(clock: Clock, table: seq<Record>, q: Query, limit: nat, cursor: string, offset: Option<int>)
    returns (r: Result<Answer, string>)
    ensures r.Err? <==> cursor != "" && Decode(clock, cursor).None?
    ensures r.Ok? ==>
              var from := if cursor == "" then None else Decode(clock, cursor);
              var skip := if offset.Some? && offset.value > 0 then offset.value else 0;
              var page := PageAt(table, q, limit, from, skip);
              r.value == Answer(page.items, page.total, if page.next.Some? then Some(Encode(clock, page.next.value)) else None)
    ensures r.Ok? ==> forall x :: x in r.value.items ==> x in table && IsAsked(x, q)
    ensures r.Ok? ==> r.value.total == |AskedAt(table, q)|
  {
    MatchingAreAsked(table, q);
    MatchingAreCounted(table, q);
    hide AskedAt;
    hide Newest, Below, Matching, Decode, Encode, KeyOf;
    var rows := Matching(table, q);
    var total := |rows|;
    rows := Newest(rows);
    if cursor != "" {
      var key := Decode(clock, cursor);
      if key.None? {
        return Err("Invalid audit pagination cursor");
      }
      rows := Below(rows, key.value);
    } else if offset.Some? && offset.value > 0 {
      rows := rows[if offset.value < |rows| then offset.value else |rows|..];
    }
    var items := if |rows| <= limit + 1 then rows else rows[..limit + 1];
    var next: Option<string> := None;
    if |items| > limit {
      var last := items[if limit == 0 then |items| - 1 else limit - 1];
      next := Some(Encode(clock, KeyOf(last)));
      items := items[..limit];
    }
    return Ok(Answer(items, total, next));
  }

  // ---------------------------------------------------------------------------
  // Sorting is determined by the rows
  // ---------------------------------------------------------------------------

  lemma {:induction false} InsertKeepsOrder(rows: seq<Record>, r: Record)
    requires Descending(rows) && (forall x :: x in rows ==> x.id != r.id)
    ensures Descending(Insert(rows, r))
  {
    if rows != [] {
      LessIsTotal(KeyOf(rows[0]), KeyOf(r));
      if Less(KeyOf(rows[0]), KeyOf(r)) {
        forall i | 0 < i < |rows| ensures Less(KeyOf(rows[i]), KeyOf(r)) {
          LessIsTransitive(KeyOf(rows[i]), KeyOf(rows[0]), KeyOf(r));
        }
      } else {
        assert forall x :: x in rows[1..] ==> x in rows;
        InsertKeepsOrder(rows[1..], r);
        var s := Insert(rows[1..], r);
        forall i | 0 <= i < |s| ensures Less(KeyOf(s[i]), KeyOf(rows[0])) {
          assert s[i] in rows[1..] || s[i] == r;
        }
      }
    }
  }

  lemma {:induction false} NewestDescends(rows: seq<Record>)
    requires Distinct(rows)
    ensures Descending(Newest(rows))
  {
    if rows != [] {
      var n := |rows| - 1;
      NewestDescends(rows[..n]);
      InsertKeepsOrder(Newest(rows[..n]), rows[n]);
    }
  }

  lemma {:induction false} MatchingIsDistinct(table: seq<Record>, q: Query)
    requires Distinct(table)
    ensures Distinct(Matching(table, q))
  {
    if table != [] {
      var n := |table| - 1;
      MatchingIsDistinct(table[..n], q);
      forall r | r in Matching(table[..n], q) ensures r.id != table[n].id {
        assert r in table[..n];
      }
    }
  }

  lemma {:induction false} BelowDescends(rows: seq<Record>, key: Key)
    requires Descending(rows)
    ensures Descending(Below(rows, key))
  {
    if rows != [] {
      BelowDescends(rows[1..], key);
      var s := Below(rows[1..], key);
      forall i | 0 <= i < |s| ensures Less(KeyOf(s[i]), KeyOf(rows[0])) {
        assert s[i] in rows[1..];
      }
    }
  }

  lemma {:induction false} DescendingIsUnique(a: seq<Record>, b: seq<Record>)
    requires Descending(a) && Descending(b) && (forall x :: x in a <==> x in b)
    ensures a == b
  {
    assert a != [] ==> a[0] in b;
    assert b != [] ==> b[0] in a;
    if a != [] && b != [] {
      TailsAgree(a, b);
      DescendingIsUnique(a[1..], b[1..]);
      assert a == [a[0]] + a[1..] && b == [b[0]] + b[1..];
    }
  }

  lemma TailsAgree(a: seq<Record>, b: seq<Record>)
    requires Descending(a) && Descending(b) && a != [] && b != [] && (forall x :: x in a <==> x in b)
    ensures a[0] == b[0] && forall x :: x in a[1..] <==> x in b[1..]
  {
    GreatestFirst(a, b[0]);
    GreatestFirst(b, a[0]);
    LessIsTotal(KeyOf(a[0]), KeyOf(b[0]));
    TailIsRest(a);
    TailIsRest(b);
    hide Descending, Less, KeyOf;
  }

  lemma GreatestFirst(a: seq<Record>, x: Record)
    requires Descending(a) && x in a
    ensures x == a[0] || Less(KeyOf(x), KeyOf(a[0]))
  {
  }

  lemma TailIsRest(a: seq<Record>)
    requires Descending(a) && a != []
    ensures forall x :: x in a[1..] <==> x in a && x != a[0]
  {
    forall x | x in a[1..] ensures x != a[0] {
      LessIsTotal(KeyOf(x), KeyOf(a[0]));
    }
  }

  // ---------------------------------------------------------------------------
  // One page
  // ---------------------------------------------------------------------------

  predicate Before(r: Record, from: Option<Key>) {
    from.Some? ==> Less(KeyOf(r), from.value)
  }

  /** What is left after a cursor is in order, and is exactly the matching records below it. */
  lemma RestIsBelow(table: seq<Record>, q: Query, from: Option<Key>)
    requires Distinct(table)
    ensures var rest := Rest(table, q, from, 0);
            Descending(rest) && forall r :: r in rest <==> r in table && Matches(r, q) && Before(r, from)
  {
    MatchingIsDistinct(table, q);
    NewestDescends(Matching(table, q));
    var rows := Newest(Matching(table, q));
    if from.Some? {
      BelowDescends(rows, from.value);
    } else {
      assert rows[0..] == rows;
    }
  }

  /** In a descending sequence the rows below the i-th are those after it. */
  lemma {:induction false} BelowIsSuffix(rows: seq<Record>, i: nat)
    requires Descending(rows) && i < |rows|
    ensures Below(rows, KeyOf(rows[i])) == rows[i + 1..]
  {
    hide Less, KeyOf;
    var key := KeyOf(rows[i]);
    if i == 0 {
      LessIsTotal(key, key);
      AllBelow(rows[1..], key);
    } else {
      LessIsTotal(KeyOf(rows[0]), key);
      BelowIsSuffix(rows[1..], i - 1);
      assert rows[1..][i..] == rows[i + 1..];
    }
  }

  lemma {:induction false} AllBelow(rows: seq<Record>, key: Key)
    requires forall r :: r in rows ==> Less(KeyOf(r), key)
    ensures Below(rows, key) == rows
  {
    if rows != [] {
      assert forall r :: r in rows[1..] ==> r in rows;
      AllBelow(rows[1..], key);
      assert rows[0] in rows;
      assert rows == [rows[0]] + rows[1..];
    }
  }

  /** On an unchanging trail the page after a cursor is the page at the next offset: the fast form is the simple one. */
  lemma {:induction false} KeysetPageIsOffsetPage(table: seq<Record>, q: Query, limit: nat, offset: nat)
    requires Distinct(table) && limit >= 1
    ensures var page := PageAt(table, q, limit, None, offset);
            page.next.Some? ==> PageAt(table, q, limit, page.next, 0) == PageAt(table, q, limit, None, offset + limit)
  {
    hide Distinct, Descending, Below, Less, KeyOf, Newest, Matching;
    var rows := Newest(Matching(table, q));
    if PageAt(table, q, limit, None, offset).next.Some? {
      MatchingIsDistinct(table, q);
      NewestDescends(Matching(table, q));
      var i := offset + limit - 1;
      assert Rest(table, q, None, offset) == rows[offset..];
      assert rows[offset..][limit - 1] == rows[i];
      BelowIsSuffix(rows, i);
      assert Rest(table, q, Some(KeyOf(rows[i])), 0) == Rest(table, q, None, offset + limit);
    }
  }

  /** The cursor of a page of no rows skips the newest row left: no later page has it. */
  lemma EmptyPageSkipsRow(table: seq<Record>, q: Query, from: Option<Key>, limit: nat)
    requires Distinct(table) && Rest(table, q, from, 0) != []
    ensures var lost, page := Rest(table, q, from, 0)[0], PageAt(table, q, 0, from, 0);
            && page.items == [] && page.next == Some(KeyOf(lost))
            && lost !in Rest(table, q, page.next, 0)
            && (limit >= 1 ==> lost in PageAt(table, q, limit, from, 0).items)
  {
    RestIsBelow(table, q, from);
    var lost := Rest(table, q, from, 0)[0];
    RestIsBelow(table, q, Some(KeyOf(lost)));
    LessIsTotal(KeyOf(lost), KeyOf(lost));
  }

  // ---------------------------------------------------------------------------
  // Walking the pages while the trail grows
  // ---------------------------------------------------------------------------

  datatype Walked = Walked(items: seq<Record>, next: Option<Key>)

  /** One page from each state of the table, following the cursor until there is none. */
  function Walk(tables: seq<seq<Record>>, q: Query, limit: nat, from: Option<Key>): Walked {
    if tables == [] then Walked([], from)
    else
      var page := PageAt(tables[0], q, limit, from, 0);
      if page.next.None? then Walked(page.items, None)
      else
        var rest := Walk(tables[1..], q, limit, page.next);
        Walked(page.items + rest.items, rest.next)
  }

  /** Records are only ever appended, with ids of their own. */
  ghost predicate Growing(tables: seq<seq<Record>>) {
    && (forall i :: 0 <= i < |tables| ==> Distinct(tables[i]))
    && (forall i, j :: 0 <= i <= j < |tables| ==> tables[i] <= tables[j])
  }

  lemma DescendingConcat(a: seq<Record>, b: seq<Record>, key: Key)
    requires Descending(a) && Descending(b)
    requires a != [] && KeyOf(a[|a| - 1]) == key
    requires forall x :: x in b ==> Less(KeyOf(x), key)
    ensures Descending(a + b)
  {
    forall i, j | 0 <= i < |a| && 0 <= j < |b| ensures Less(KeyOf(b[j]), KeyOf(a[i])) {
      assert b[j] in b;
      if i < |a| - 1 {
        LessIsTransitive(KeyOf(b[j]), key, KeyOf(a[i]));
      }
    }
  }

  /** A page's items and cursor split what is left: the items come first, the rest is below the cursor. */
  lemma {:induction false} PageSplitsRest(table: seq<Record>, q: Query, limit: nat, from: Option<Key>)
    requires Distinct(table) && limit >= 1
    ensures var page := PageAt(table, q, limit, from, 0);
            && Descending(page.items)
            && (forall r :: r in page.items ==> r in table && Matches(r, q) && Before(r, from))
            && (page.next.Some? ==> |page.items| == limit && page.next == Some(KeyOf(page.items[limit - 1]))
                                    && Before(page.items[limit - 1], from))
            && (forall r :: r in table && Matches(r, q) && Before(r, from) ==>
                  r in page.items || (page.next.Some? && Before(r, page.next)))
  {
    hide Rest, Less, KeyOf, Matches, Matching;
    RestIsBelow(table, q, from);
    var rest, page := Rest(table, q, from, 0), PageAt(table, q, limit, from, 0);
    if page.next.Some? {
      assert rest == page.items + rest[limit..];
      forall r | r in rest[limit..] ensures Less(KeyOf(r), page.next.value) {
      }
    }
  }

  /** The pages of a walk, one after another, are in descending order, so no record comes twice. */
  lemma {:induction false} WalkIsOrdered(tables: seq<seq<Record>>, q: Query, limit: nat, from: Option<Key>)
    requires Growing(tables) && tables != [] && limit >= 1
    ensures var w := Walk(tables, q, limit, from);
            && Descending(w.items)
            && (forall r :: r in w.items ==> r in tables[|tables| - 1] && Matches(r, q) && Before(r, from))
            && (w.next.Some? ==> |w.items| == limit * |tables|)
  {
    hide Matches, Less, PageAt;
    var page := PageAt(tables[0], q, limit, from, 0);
    PageSplitsRest(tables[0], q, limit, from);
    var later := tables[1..];
    assert tables[0] <= tables[|tables| - 1];
    if page.next.Some? {
      if later == [] {
        assert Walk(later, q, limit, page.next) == Walked([], page.next);
      } else {
        assert later[|later| - 1] == tables[|tables| - 1];
        WalkIsOrdered(later, q, limit, page.next);
        var rest := Walk(later, q, limit, page.next);
        DescendingConcat(page.items, rest.items, page.next.value);
        forall r | r in rest.items ensures Before(r, from) {
          BelowStaysBefore(r, page.next.value, from);
        }
        assert limit * |tables| == limit + limit * |later|;
        hide Descending;
      }
    }
  }

  /** A walk leaves out no record that was there at its start, but those still below its cursor. */
  lemma {:induction false} WalkMissesNothing(tables: seq<seq<Record>>, q: Query, limit: nat, from: Option<Key>)
    requires Growing(tables) && tables != [] && limit >= 1
    ensures var w := Walk(tables, q, limit, from);
            forall r :: r in tables[0] && Matches(r, q) && Before(r, from) ==> r in w.items || (w.next.Some? && Before(r, w.next))
  {
    hide Matches, Less, PageAt, Descending;
    var page := PageAt(tables[0], q, limit, from, 0);
    PageSplitsRest(tables[0], q, limit, from);
    var later := tables[1..];
    if page.next.Some? && later != [] {
      assert tables[0] <= later[0];
      WalkMissesNothing(later, q, limit, page.next);
    }
  }

  lemma BelowStaysBefore(r: Record, key: Key, from: Option<Key>)
    requires Less(KeyOf(r), key) && (from.Some? ==> Less(key, from.value))
    ensures Before(r, from)
  {
    if from.Some? {
      LessIsTransitive(KeyOf(r), key, from.value);
    }
  }

  function Among(rows: seq<Record>, table: seq<Record>): (s: seq<Record>)
    ensures forall x :: x in s <==> x in rows && x in table
  {
    if rows == [] then []
    else
      assert rows == [rows[0]] + rows[1..];
      (if rows[0] in table then [rows[0]] else []) + Among(rows[1..], table)
  }

  lemma {:induction false} AmongDescends(rows: seq<Record>, table: seq<Record>)
    requires Descending(rows)
    ensures Descending(Among(rows, table))
  {
    if rows != [] {
      AmongDescends(rows[1..], table);
      var s := Among(rows[1..], table);
      forall i | 0 <= i < |s| ensures Less(KeyOf(s[i]), KeyOf(rows[0])) {
        assert s[i] in rows[1..];
      }
    }
  }

  /**
   A finished walk, restricted to the records that were there when it began, is those records sorted
   once: each exactly once and in order, whatever was recorded meanwhile.
   */
  lemma {:induction false} WalkIsTheSortedTrail(tables: seq<seq<Record>>, q: Query, limit: nat)
    requires Growing(tables) && tables != [] && limit >= 1
    ensures var w := Walk(tables, q, limit, None);
            w.next.None? ==> Among(w.items, tables[0]) == Newest(Matching(tables[0], q))
  {
    hide Walk, Less, KeyOf, Growing;
    var w := Walk(tables, q, limit, None);
    WalkIsOrdered(tables, q, limit, None);
    WalkMissesNothing(tables, q, limit, None);
    GrowingIsDistinct(tables);
    AmongDescends(w.items, tables[0]);
    MatchingIsDistinct(tables[0], q);
    NewestDescends(Matching(tables[0], q));
    hide Descending, Distinct;
    if w.next.None? {
      StartIsInEnd(tables);
      DescendingIsUnique(Among(w.items, tables[0]), Newest(Matching(tables[0], q)));
    }
  }

  /**
   A finished walk returns, newest first, exactly those of the records there at its start that are of the
   event and of the action type asked for, and nothing else that is not.
   */
  lemma WalkFindsTheAsked(tables: seq<seq<Record>>, q: Query, limit: nat)
    requires Growing(tables) && tables != [] && limit >= 1
    ensures var w := Walk(tables, q, limit, None);
            && (forall r :: r in w.items ==> IsAsked(r, q))
            && (w.next.None? ==> forall r :: r in tables[0] ==> (r in w.items <==> IsAsked(r, q)))
            && (forall i, j :: 0 <= i < j < |w.items| ==>
                  w.items[j].at < w.items[i].at || (w.items[j].at == w.items[i].at && TextLess(w.items[j].id, w.items[i].id)))
  {
    hide Walk, TextLess;
    WalkIsOrdered(tables, q, limit, None);
    WalkMissesNothing(tables, q, limit, None);
  }

  lemma GrowingIsDistinct(tables: seq<seq<Record>>)
    requires Growing(tables) && tables != []
    ensures Distinct(tables[0])
  {
  }

  lemma StartIsInEnd(tables: seq<seq<Record>>)
    requires Growing(tables) && tables != []
    ensures tables[0] <= tables[|tables| - 1]
  {
  }

  lemma DescendingFits(rows: seq<Record>, table: seq<Record>)
    requires Descending(rows) && forall r :: r in rows ==> r in table
    ensures |rows| <= |table|
  {
    var keys := set r | r in rows;
    assert |keys| == |rows| by {
      DescendingCounts(rows);
    }
    SetFits(keys, table);
  }

  lemma {:induction false} DescendingCounts(rows: seq<Record>)
    requires Descending(rows)
    ensures |set r | r in rows| == |rows|
  {
    if rows != [] {
      TailIsRest(rows);
      DescendingCounts(rows[1..]);
      assert (set r | r in rows) == {rows[0]} + (set r | r in rows[1..]);
      assert rows[0] !in rows[1..];
    }
  }

  lemma {:induction false} SetFits(keys: set<Record>, table: seq<Record>)
    requires forall r :: r in keys ==> r in table
    ensures |keys| <= |table|
  {
    if table != [] {
      var n := |table| - 1;
      assert table == table[..n] + [table[n]];
      SetFits(keys - {table[n]}, table[..n]);
      assert |keys| <= |keys - {table[n]}| + 1;
    } else {
      assert keys == {};
    }
  }

  /** A walk ends: its pages but the last are full, and no record is on two of them. */
  lemma {:induction false} WalkEnds(tables: seq<seq<Record>>, q: Query, limit: nat)
    requires Growing(tables) && tables != [] && limit >= 1
    requires limit * |tables| > |Matching(tables[|tables| - 1], q)|
    ensures Walk(tables, q, limit, None).next.None?
  {
    var w := Walk(tables, q, limit, None);
    WalkIsOrdered(tables, q, limit, None);
    DescendingFits(w.items, Matching(tables[|tables| - 1], q));
  }
}
