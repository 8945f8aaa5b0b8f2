/**
 The adaptive discovery loop (apps/api/app/services/agentic_discovery_controller.py:192-244, 252-460),
 with the search planner, the directory, the qualification and ranking engines and the contacted
 providers as arbitrary functions.
 */
module Discovery {
  import opened Common
  import opened Sorting

  datatype Candidate = Candidate(sourceId: string, mapsUrl: string, phone: string, name: string)

  datatype Qualification = Qualified | Uncertain | Rejected

  datatype Verdict = Verdict(qualification: Qualification, confidence: real)

  datatype Availability = Unconfirmed | Pending | Confirmed | Declined | Uncontacted

  datatype Ranked = Ranked(
    candidate: Candidate, qualification: Qualification, availability: Availability, score: int, rank: nat, confidence: real)

  /** Scores are in thousandths; a contacted provider that does not answer stays pending. */
  datatype Oracles = Oracles(
    plan: set<string> -> seq<string>,
    search: (nat, string, real) -> seq<Candidate>,
    distance: Candidate -> real,
    qualify: (Candidate, real) -> Verdict,
    score: (Candidate, real) -> int,
    answers: Candidate -> Option<bool>,
    round: real -> real)

  datatype Settings = Settings(
    maxIterations: nat, targetCount: nat, baseRadius: real, allowedExpansion: real, batchSize: nat,
    simulateOutreach: bool, trigger: string)

  datatype State = State(
    seen: set<string>, raw: seq<Candidate>, qualified: seq<Ranked>, confirmed: seq<Ranked>, rejected: seq<Ranked>,
    scraped: nat, deduped: nat, iteration: nat, radius: real, tried: set<string>)

  datatype Shortlist = Shortlist(
    top: seq<Ranked>, others: seq<Ranked>, backups: seq<Ranked>, rejected: seq<Ranked>,
    scraped: nat, unique: nat, disqualified: nat, iterations: nat, radius: real, targetMet: bool)

  // ---------------------------------------------------------------------------
  // Names and keys
  // ---------------------------------------------------------------------------

  /** What a candidate is deduplicated by. */
  function KeyOf(c: Candidate): string {
    if c.sourceId != "" then c.sourceId
    else if c.mapsUrl != "" then c.mapsUrl
    else if c.phone != "" then c.phone
    else Lower(c.name)
  }

  /** What a candidate's verdict and distance are filed under. */
  function IdOf(c: Candidate): string {
    if c.sourceId != "" then c.sourceId else c.name
  }

  function Keys(cs: seq<Candidate>): set<string> {
    set i | 0 <= i < |cs| :: KeyOf(cs[i])
  }

  ghost predicate KeysDiffer(cs: seq<Candidate>) {
    forall i, j :: 0 <= i < j < |cs| ==> KeyOf(cs[i]) != KeyOf(cs[j])
  }

  lemma KeysConcat(a: seq<Candidate>, b: seq<Candidate>)
    ensures Keys(a + b) == Keys(a) + Keys(b)
  {
    forall k ensures k in Keys(a + b) <==> k in Keys(a) + Keys(b) {
      if k in Keys(a) {
        var i :| 0 <= i < |a| && KeyOf(a[i]) == k;
        assert (a + b)[i] == a[i];
      }
      if k in Keys(b) {
        var i :| 0 <= i < |b| && KeyOf(b[i]) == k;
        assert (a + b)[|a| + i] == b[i];
      }
    }
  }

  lemma KeysOfOne(c: Candidate)
    ensures Keys([c]) == {KeyOf(c)}
  {
    assert KeyOf([c][0]) == KeyOf(c);
  }

  // ---------------------------------------------------------------------------
  // Searching and deduplicating
  // ---------------------------------------------------------------------------

  /** The queries' results one after another, until an answered query brings them to the target. */
  function SearchAll(o: Oracles, iteration: nat, queries: seq<string>, radius: real, target: nat, found: seq<Candidate>): seq<Candidate> {
    if queries == [] then found
    else
      var got := o.search(iteration, queries[0], radius);
      var more := found + got;
      if got != [] && |more| >= target then more else SearchAll(o, iteration, queries[1..], radius, target, more)
  }

  /** The candidates whose key neither was seen before nor occurs earlier in the list. */
  function Unseen(cs: seq<Candidate>, seen: set<string>): seq<Candidate> {
    if cs == [] then []
    else
      var before, c := Unseen(cs[..|cs| - 1], seen), cs[|cs| - 1];
      if KeyOf(c) in seen + Keys(before) then before else before + [c]
  }

  // ---------------------------------------------------------------------------
  // Qualifying and ranking
  // ---------------------------------------------------------------------------

  function Verdicts(o: Oracles, cs: seq<Candidate>, radius: real): map<string, Verdict> {
    if cs == [] then map[]
    else var c := cs[|cs| - 1]; Verdicts(o, cs[..|cs| - 1], radius)[IdOf(c) := o.qualify(c, radius)]
  }

  function Distances(o: Oracles, cs: seq<Candidate>): map<string, real> {
    if cs == [] then map[]
    else var c := cs[|cs| - 1]; Distances(o, cs[..|cs| - 1])[IdOf(c) := o.distance(c)]
  }

  /** Rejections go by the candidate's own verdict ... */
  function Turned(o: Oracles, cs: seq<Candidate>, radius: real): seq<Ranked> {
    if cs == [] then []
    else
      var c := cs[|cs| - 1];
      var v := o.qualify(c, radius);
      Turned(o, cs[..|cs| - 1], radius) + if v.qualification.Rejected? then [Ranked(c, Rejected, Unconfirmed, 250, 999, v.confidence)] else []
  }

  /** ... but the ranking goes by the verdict and distance filed under its id. */
  function Scored(o: Oracles, cs: seq<Candidate>, verdicts: map<string, Verdict>, distances: map<string, real>): seq<Ranked>
    requires forall c :: c in cs ==> IdOf(c) in verdicts && IdOf(c) in distances
  {
    if cs == [] then []
    else
      var c := cs[|cs| - 1];
      var v := verdicts[IdOf(c)];
      Scored(o, cs[..|cs| - 1], verdicts, distances)
      + if v.qualification.Rejected? then []
        else [Ranked(c, v.qualification, Unconfirmed, o.score(c, distances[IdOf(c)]), 0, v.confidence)]
  }

  function Score(r: Ranked): int {
    r.score
  }

  function WithRanks(rs: seq<Ranked>): (s: seq<Ranked>)
    ensures |s| == |rs| && forall i :: 0 <= i < |s| ==> s[i] == rs[i].(rank := i + 1)
  {
    seq(|rs|, i requires 0 <= i < |rs| => rs[i].(rank := i + 1))
  }

  lemma {:induction false} FiledUnderIds(o: Oracles, cs: seq<Candidate>, radius: real)
    ensures forall c :: c in cs ==> IdOf(c) in Verdicts(o, cs, radius) && IdOf(c) in Distances(o, cs)
  {
    if cs != [] {
      FiledUnderIds(o, cs[..|cs| - 1], radius);
      assert cs == cs[..|cs| - 1] + [cs[|cs| - 1]];
    }
  }

  function RankedNew(o: Oracles, cs: seq<Candidate>, radius: real): seq<Ranked> {
    FiledUnderIds(o, cs, radius);
    WithRanks(SortBy(Score, Scored(o, cs, Verdicts(o, cs, radius), Distances(o, cs))))
  }

  // ---------------------------------------------------------------------------
  // Outreach
  // ---------------------------------------------------------------------------

  function Contact(o: Oracles, c: Candidate): (a: Availability)
    ensures a != Unconfirmed
  {
    if c.phone == "" then Uncontacted
    else match o.answers(c)
         case None => Pending
         case Some(yes) => if yes then Confirmed else Declined
  }

  /** The first `batch` uncontacted candidates are contacted. */
  function Contacted(o: Oracles, rs: seq<Ranked>, batch: nat): (s: seq<Ranked>)
    ensures |s| == |rs|
  {
    if rs == [] then []
    else if rs[0].availability.Unconfirmed? && batch > 0 then
      [rs[0].(availability := Contact(o, rs[0].candidate))] + Contacted(o, rs[1..], batch - 1)
    else [rs[0]] + Contacted(o, rs[1..], batch)
  }

  function WithConfirmed(confirmed: seq<Ranked>, rs: seq<Ranked>): seq<Ranked> {
    if rs == [] then confirmed
    else
      var before, r := WithConfirmed(confirmed, rs[..|rs| - 1]), rs[|rs| - 1];
      if r.availability.Confirmed? && r !in before then before + [r] else before
  }

  // ---------------------------------------------------------------------------
  // One iteration
  // ---------------------------------------------------------------------------

  function Initial(cfg: Settings, vendors: seq<Candidate>): State {
    var local := Unseen(vendors, {});
    State(Keys(local), local, [], [], [], 0, 0, 0, cfg.baseRadius, {})
  }

  function Lowered(queries: seq<string>): set<string> {
    set q | q in queries :: Lower(q)
  }

  /** The directory is searched only while the pool is below the target. */
  function Found(cfg: Settings, o: Oracles, st: State): seq<Candidate> {
    if |st.raw| < cfg.targetCount then SearchAll(o, st.iteration + 1, o.plan(st.tried), st.radius, cfg.targetCount, []) else []
  }

  /** The first iteration also takes in the local vendors. */
  function Newcomers(cfg: Settings, o: Oracles, st: State): seq<Candidate> {
    (if st.iteration == 0 then st.raw else []) + Unseen(Found(cfg, o, st), st.seen)
  }

  /** Query, search, deduplicate, qualify and rank. */
  function Searched(cfg: Settings, o: Oracles, st: State): State {
    var found := Found(cfg, o, st);
    var unseen := Unseen(found, st.seen);
    var newcomers := Newcomers(cfg, o, st);
    st.(iteration := st.iteration + 1, tried := st.tried + Lowered(o.plan(st.tried)), scraped := st.scraped + |found|,
        seen := st.seen + Keys(unseen), raw := st.raw + unseen, deduped := st.deduped + |newcomers|,
        rejected := st.rejected + Turned(o, newcomers, st.radius), qualified := st.qualified + RankedNew(o, newcomers, st.radius))
  }

  predicate MayContact(cfg: Settings) {
    cfg.simulateOutreach && cfg.trigger != "operations"
  }

  predicate Uncontacteds(rs: seq<Ranked>) {
    exists i :: 0 <= i < |rs| && rs[i].availability.Unconfirmed?
  }

  function Reached(cfg: Settings, o: Oracles, st: State): State {
    if MayContact(cfg) && Uncontacteds(st.qualified) then
      var rs := Contacted(o, st.qualified, cfg.batchSize);
      st.(qualified := rs, confirmed := WithConfirmed(st.confirmed, rs))
    else st
  }

  function Iterate(cfg: Settings, o: Oracles, st: State): State {
    Reached(cfg, o, Searched(cfg, o, st))
  }

  function Sure(rs: seq<Ranked>): nat {
    if rs == [] then 0 else Sure(rs[1..]) + if rs[0].confidence >= 0.75 then 1 else 0
  }

  /** Enough candidates: the confident confirmed ones, or all qualified ones while none is confirmed. */
  predicate Enough(cfg: Settings, st: State) {
    (if st.confirmed != [] then Sure(st.confirmed) else |st.qualified|) >= cfg.targetCount
  }

  function MaxRadius(cfg: Settings): real {
    cfg.baseRadius + cfg.allowedExpansion
  }

  function Clamp(x: real, low: real, high: real): real {
    var capped := if x < high then x else high;
    if capped > low then capped else low
  }

  function Product(a: real, b: real): (p: real)
    ensures p == a * b
  {
    a * b
  }

  /** Too few qualified: a search problem, so widen the radius; otherwise only contact further ones. */
  function Widened(cfg: Settings, o: Oracles, st: State): State {
    if |st.qualified| < cfg.targetCount then
      var factor := Clamp(1.5 + 0.1 * (cfg.targetCount - |st.qualified|) as real, 1.2, 2.0);
      var wider := o.round(Product(st.radius, factor));
      var radius := if wider < MaxRadius(cfg) then wider else MaxRadius(cfg);
      if radius > st.radius then st.(radius := radius) else st
    else st
  }

  function Loop(cfg: Settings, o: Oracles, st: State): State
    decreases cfg.maxIterations - st.iteration
  {
    if st.iteration < cfg.maxIterations then
      var next := Iterate(cfg, o, st);
      if Enough(cfg, next) then next else Loop(cfg, o, Widened(cfg, o, next))
    else st
  }

  function Backups(rs: seq<Ranked>): (s: seq<Ranked>)
    ensures forall r :: r in s ==> r in rs && r.availability in {Unconfirmed, Pending}
  {
    if rs == [] then []
    else
      var rest := Backups(rs[1..]);
      assert forall r :: r in rs[1..] ==> r in rs;
      (if rs[0].availability in {Unconfirmed, Pending} then [rs[0]] else []) + rest
  }

  function Presented(cfg: Settings, st: State): Shortlist {
    var confirmed := WithRanks(SortBy(Score, st.confirmed));
    var shown := if confirmed != [] then confirmed else st.qualified;
    Shortlist(First(shown, 3), shown[|First(shown, 3)|..], First(Backups(st.qualified), 5), st.rejected,
              st.scraped, st.deduped, if st.deduped > |st.qualified| then st.deduped - |st.qualified| else 0,
              st.iteration, st.radius, |confirmed| >= cfg.targetCount)
  }

  // ---------------------------------------------------------------------------
  // The loop
  // ---------------------------------------------------------------------------

  /** The results of the queries, one after another. */
  function Results(o: Oracles, iteration: nat, queries: seq<string>, radius: real): seq<Candidate> {
    if queries == [] then []
    else Results(o, iteration, queries[..|queries| - 1], radius) + o.search(iteration, queries[|queries| - 1], radius)
  }

  /** The last of these queries was answered, and with it the results reach the target. */
  predicate ReachesTarget(o: Oracles, iteration: nat, queries: seq<string>, radius: real, target: nat) {
    && queries != [] && o.search(iteration, queries[|queries| - 1], radius) != []
    && |Results(o, iteration, queries, radius)| >= target
  }

  /** The results are those of the shortest list of first queries that reaches the target, or of all. */
  ghost predicate FoundByLeastPrefix(o: Oracles, iteration: nat, queries: seq<string>, radius: real, target: nat, found: seq<Candidate>) {
    exists n :: 0 <= n <= |queries| && found == Results(o, iteration, queries[..n], radius)
      && (n < |queries| ==> ReachesTarget(o, iteration, queries[..n], radius, target))
      && forall k :: 0 <= k < n ==> !ReachesTarget(o, iteration, queries[..k], radius, target)
  }

  lemma {:induction false} SearchStopsAtTarget(o: Oracles, iteration: nat, queries: seq<string>, radius: real, target: nat, n: nat)
    requires n <= |queries|
    requires forall k :: 0 <= k <= n ==> !ReachesTarget(o, iteration, queries[..k], radius, target)
    ensures FoundByLeastPrefix(o, iteration, queries, radius, target,
                               SearchAll(o, iteration, queries[n..], radius, target, Results(o, iteration, queries[..n], radius)))
    decreases |queries| - n
  {
    var found := Results(o, iteration, queries[..n], radius);
    if n == |queries| {
      assert found == Results(o, iteration, queries[..n], radius);
    } else {
      assert queries[..n + 1][..n] == queries[..n];
      var more := Results(o, iteration, queries[..n + 1], radius);
      assert more == found + o.search(iteration, queries[n], radius);
      if ReachesTarget(o, iteration, queries[..n + 1], radius, target) {
        assert more == Results(o, iteration, queries[..n + 1], radius);
      } else {
        assert queries[n..][1..] == queries[n + 1..];
        SearchStopsAtTarget(o, iteration, queries, radius, target, n + 1);
      }
    }
  }

  method Search(o: Oracles, iteration: nat, queries: seq<string>, radius: real, target: nat) returns (found: seq<Candidate>)
    ensures found == SearchAll(o, iteration, queries, radius, target, [])
    ensures FoundByLeastPrefix(o, iteration, queries, radius, target, found)
  {
    SearchStopsAtTarget(o, iteration, queries, radius, target, 0);
    assert queries[0..] == queries;
    hide FoundByLeastPrefix;
    found := [];
    var i := 0;
    while i < |queries|
      invariant 0 <= i <= |queries|
      invariant SearchAll(o, iteration, queries[i..], radius, target, found) == SearchAll(o, iteration, queries, radius, target, [])
    {
      var got := o.search(iteration, queries[i], radius);
      if got != [] {
        found := found + got;
        if |found| >= target {
          return;
        }
      } else {
        assert found + got == found;
      }
      i := i + 1;
    }
  }

  method Deduplicate(found: seq<Candidate>, seen: set<string>) returns (keys: set<string>, unseen: seq<Candidate>)
    ensures unseen == Unseen(found, seen) && keys == seen + Keys(unseen)
  {
    keys, unseen := seen, [];
    var i := 0;
    while i < |found|
      invariant 0 <= i <= |found|
      invariant unseen == Unseen(found[..i], seen) && keys == seen + Keys(unseen)
    {
      assert found[..i + 1][..i] == found[..i];
      if KeyOf(found[i]) !in keys {
        KeysConcat(unseen, [found[i]]);
        KeysOfOne(found[i]);
        keys := keys + {KeyOf(found[i])};
        unseen := unseen + [found[i]];
      }
      i := i + 1;
    }
    assert found[..|found|] == found;
  }

  method Qualify(o: Oracles, cs: seq<Candidate>, radius: real)
    returns (verdicts: map<string, Verdict>, distances: map<string, real>, rejected: seq<Ranked>)
    ensures verdicts == Verdicts(o, cs, radius) && distances == Distances(o, cs) && rejected == Turned(o, cs, radius)
  {
    verdicts, distances, rejected := map[], map[], [];
    var i := 0;
    while i < |cs|
      invariant 0 <= i <= |cs|
      invariant verdicts == Verdicts(o, cs[..i], radius) && distances == Distances(o, cs[..i]) && rejected == Turned(o, cs[..i], radius)
    {
      assert cs[..i + 1][..i] == cs[..i];
      distances := distances[IdOf(cs[i]) := o.distance(cs[i])];
      var v := o.qualify(cs[i], radius);
      verdicts := verdicts[IdOf(cs[i]) := v];
      if v.qualification.Rejected? {
        rejected := rejected + [Ranked(cs[i], Rejected, Unconfirmed, 250, 999, v.confidence)];
      }
      i := i + 1;
    }
    assert cs[..|cs|] == cs;
  }

  method Rank(o: Oracles, cs: seq<Candidate>, verdicts: map<string, Verdict>, distances: map<string, real>) returns (ranked: seq<Ranked>)
    requires forall c :: c in cs ==> IdOf(c) in verdicts && IdOf(c) in distances
    ensures ranked == WithRanks(SortBy(Score, Scored(o, cs, verdicts, distances)))
  {
    ranked := [];
    var i := 0;
    while i < |cs|
      invariant 0 <= i <= |cs|
      invariant ranked == Scored(o, cs[..i], verdicts, distances)
    {
      assert cs[..i + 1][..i] == cs[..i];
      assert cs[i] in cs;
      var v := verdicts[IdOf(cs[i])];
      if !v.qualification.Rejected? {
        ranked := ranked + [Ranked(cs[i], v.qualification, Unconfirmed, o.score(cs[i], distances[IdOf(cs[i])]), 0, v.confidence)];
      }
      i := i + 1;
    }
    assert cs[..|cs|] == cs;
    ranked := SortBy(Score, ranked);
    ranked := WithRanks(ranked);
  }

  function CountUncontacted(rs: seq<Ranked>): nat {
    if rs == [] then 0 else CountUncontacted(rs[1..]) + if rs[0].availability.Unconfirmed? then 1 else 0
  }

  /** Exactly the first uncontacted candidates, up to the batch size, are contacted; nothing else changes. */
  lemma {:induction false} ContactsTheFirst(o: Oracles, rs: seq<Ranked>, batch: nat, i: nat)
    requires i < |rs|
    ensures Contacted(o, rs, batch)[i] ==
            if rs[i].availability.Unconfirmed? && CountUncontacted(rs[..i]) < batch
            then rs[i].(availability := Contact(o, rs[i].candidate)) else rs[i]
  {
    if i > 0 {
      var left := if rs[0].availability.Unconfirmed? && batch > 0 then batch - 1 else batch;
      ContactsTheFirst(o, rs[1..], left, i - 1);
      assert rs[..i][1..] == rs[1..][..i - 1];
    }
  }

  lemma ContactsExactly(o: Oracles, rs: seq<Ranked>, batch: nat)
    ensures forall i :: 0 <= i < |rs| ==>
              Contacted(o, rs, batch)[i] == if rs[i].availability.Unconfirmed? && CountUncontacted(rs[..i]) < batch
                                            then rs[i].(availability := Contact(o, rs[i].candidate)) else rs[i]
  {
    hide Contacted, CountUncontacted, Contact;
    forall i | 0 <= i < |rs| {
      ContactsTheFirst(o, rs, batch, i);
    }
  }

  lemma ContactedStep(o: Oracles, rs: seq<Ranked>, batch: nat)
    requires rs != []
    ensures Contacted(o, rs, batch) ==
            if rs[0].availability.Unconfirmed? && batch > 0
            then [rs[0].(availability := Contact(o, rs[0].candidate))] + Contacted(o, rs[1..], batch - 1)
            else [rs[0]] + Contacted(o, rs[1..], batch)
  {
  }

  method ContactBatch(o: Oracles, rs: seq<Ranked>, batch: nat) returns (items: seq<Ranked>)
    ensures items == Contacted(o, rs, batch) && |items| == |rs|
    ensures forall i :: 0 <= i < |rs| ==>
              if rs[i].availability.Unconfirmed? && CountUncontacted(rs[..i]) < batch
              then IsContacted(o, rs[i], items[i]) else items[i] == rs[i]
  {
    hide Contacted, Contact, CountUncontacted;
    items := [];
    var i, left := 0, batch;
    assert rs[0..] == rs && [] + Contacted(o, rs, batch) == Contacted(o, rs, batch);
    while i < |rs|
      invariant 0 <= i <= |rs|
      invariant items + Contacted(o, rs[i..], left) == Contacted(o, rs, batch)
    {
      ContactedStep(o, rs[i..], left);
      assert rs[i..][0] == rs[i] && rs[i..][1..] == rs[i + 1..];
      var item := rs[i];
      if item.availability.Unconfirmed? && left > 0 {
        item := item.(availability := Contact(o, item.candidate));
        left := left - 1;
      }
      items := items + [item];
      i := i + 1;
    }
    assert |Contacted(o, rs[i..], left)| == 0;
    ContactsExactly(o, rs, batch);
    forall i | 0 <= i < |rs| && items[i] == rs[i].(availability := Contact(o, rs[i].candidate)) ensures IsContacted(o, rs[i], items[i]) {
      ContactTells(o, rs[i]);
    }
  }

  /**
   Without a phone a candidate is left uncontacted; otherwise its answer makes it confirmed or declined, and
   without an answer it stays pending. Nothing else about it changes.
   */
  ghost predicate IsContacted(o: Oracles, r: Ranked, now: Ranked) {
    && now.candidate == r.candidate && now.qualification == r.qualification && now.score == r.score && now.rank == r.rank
    && now.confidence == r.confidence
    && (now.availability.Uncontacted? <==> r.candidate.phone == "")
    && (now.availability.Pending? <==> r.candidate.phone != "" && o.answers(r.candidate) == None)
    && (now.availability.Confirmed? <==> r.candidate.phone != "" && o.answers(r.candidate) == Some(true))
    && (now.availability.Declined? <==> r.candidate.phone != "" && o.answers(r.candidate) == Some(false))
  }

  lemma ContactTells(o: Oracles, r: Ranked)
    ensures IsContacted(o, r, r.(availability := Contact(o, r.candidate)))
  {
  }

  method CollectConfirmed(confirmed: seq<Ranked>, rs: seq<Ranked>) returns (pool: seq<Ranked>)
    ensures pool == WithConfirmed(confirmed, rs)
  {
    pool := confirmed;
    var i := 0;
    while i < |rs|
      invariant 0 <= i <= |rs|
      invariant pool == WithConfirmed(confirmed, rs[..i])
    {
      assert rs[..i + 1][..i] == rs[..i];
      if rs[i].availability.Confirmed? && rs[i] !in pool {
        pool := pool + [rs[i]];
      }
      i := i + 1;
    }
    assert rs[..|rs|] == rs;
  }

  method SearchAndRank(cfg: Settings, o: Oracles, st: State) returns (next: State)
    ensures next == Searched(cfg, o, st)
  {
    hide Keys, Unseen, Turned, RankedNew, Lowered, SearchAll, FoundByLeastPrefix;
    next := st.(iteration := st.iteration + 1);
    var queries := o.plan(next.tried);
    next := next.(tried := next.tried + Lowered(queries));
    var found: seq<Candidate> := [];
    if |next.raw| < cfg.targetCount {
      found := Search(o, next.iteration, queries, next.radius, cfg.targetCount);
    }
    next := next.(scraped := next.scraped + |found|);
    var newcomers := if next.iteration == 1 then next.raw else [];
    var keys, unseen := Deduplicate(found, next.seen);
    newcomers := newcomers + unseen;
    next := next.(seen := keys, raw := next.raw + unseen, deduped := next.deduped + |newcomers|);
    var ranked, rejected := QualifyAndRank(o, newcomers, next.radius);
    next := next.(rejected := next.rejected + rejected, qualified := next.qualified + ranked);
  }

  method QualifyAndRank(o: Oracles, cs: seq<Candidate>, radius: real) returns (ranked: seq<Ranked>, rejected: seq<Ranked>)
    ensures ranked == RankedNew(o, cs, radius) && rejected == Turned(o, cs, radius)
  {
    FiledUnderIds(o, cs, radius);
    var verdicts, distances;
    verdicts, distances, rejected := Qualify(o, cs, radius);
    ranked := Rank(o, cs, verdicts, distances);
  }

  /** The whole run; what it returns is the presentation of the specified loop's last state. */
  method ExecuteDiscovery(cfg: Settings, o: Oracles, vendors: seq<Candidate>) returns (s: Shortlist)
    ensures s == Presented(cfg, Loop(cfg, o, Initial(cfg, vendors)))
  {
    hide Searched, Enough, Uncontacteds, Presented;
    var seen, local := Deduplicate(vendors, {});
    assert {} + Keys(local) == Keys(local);
    var st := State(seen, local, [], [], [], 0, 0, 0, cfg.baseRadius, {});
    assert st == Initial(cfg, vendors);
    while st.iteration < cfg.maxIterations
      invariant Loop(cfg, o, st) == Loop(cfg, o, Initial(cfg, vendors))
      decreases cfg.maxIterations - st.iteration
    {
      var next := SearchAndRank(cfg, o, st);
      SearchedCounts(cfg, o, st);
      if MayContact(cfg) && Uncontacteds(next.qualified) {
        var contacted := ContactBatch(o, next.qualified, cfg.batchSize);
        var confirmed := CollectConfirmed(next.confirmed, contacted);
        next := next.(qualified := contacted, confirmed := confirmed);
      }
      assert next == Iterate(cfg, o, st);
      if Enough(cfg, next) {
        s := Presented(cfg, next);
        return;
      }
      st := Widened(cfg, o, next);
    }
    s := Presented(cfg, st);
  }

  lemma SearchedCounts(cfg: Settings, o: Oracles, st: State)
    ensures Searched(cfg, o, st).iteration == st.iteration + 1
  {
  }
}
