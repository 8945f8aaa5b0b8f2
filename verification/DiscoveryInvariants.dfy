/**
 What the discovery loop keeps at every iteration, what it presents, and when its counts add up.
 */
module DiscoveryInvariants {
  import opened Common
  import opened Discovery
  import opened Sorting

  // ---------------------------------------------------------------------------
  // What every iteration keeps
  // ---------------------------------------------------------------------------

  /** As many keys seen as candidates in the pool, no key twice, and all of them counted once the loop has begun. */
  ghost predicate Counted(st: State) {
    && st.seen == Keys(st.raw) && KeysDiffer(st.raw) && |st.seen| == |st.raw|
    && st.deduped == (if st.iteration == 0 then 0 else |st.raw|)
    && (st.iteration == 0 ==> st.qualified == [])
  }

  ghost predicate CandidatesDiffer(rs: seq<Ranked>) {
    forall i, j :: 0 <= i < j < |rs| ==> rs[i].candidate != rs[j].candidate
  }

  /** The qualified pool ranks candidates of the raw pool, each once; the confirmed pool is its confirmed part. */
  ghost predicate Pooled(cfg: Settings, st: State) {
    && (forall r :: r in st.qualified ==> r.candidate in st.raw && !r.qualification.Rejected?)
    && CandidatesDiffer(st.qualified)
    && (forall r :: r in st.confirmed <==> r in st.qualified && r.availability.Confirmed?)
    && CandidatesDiffer(st.confirmed)
    && (!MayContact(cfg) ==> forall r :: r in st.qualified ==> r.availability.Unconfirmed?)
  }

  ghost predicate WithinRadius(cfg: Settings, st: State) {
    cfg.baseRadius <= st.radius && (st.radius == cfg.baseRadius || st.radius <= MaxRadius(cfg))
  }

  ghost predicate Kept(cfg: Settings, st: State) {
    Counted(st) && Pooled(cfg, st) && WithinRadius(cfg, st)
  }

  lemma KeysDifferConcat(a: seq<Candidate>, b: seq<Candidate>)
    requires KeysDiffer(a) && KeysDiffer(b) && Keys(a) !! Keys(b)
    ensures KeysDiffer(a + b)
  {
    forall i, j | 0 <= i < |a| && 0 <= j < |b| ensures KeyOf(a[i]) != KeyOf(b[j]) {
      assert KeyOf(a[i]) in Keys(a) && KeyOf(b[j]) in Keys(b);
    }
  }

  lemma {:induction false} DifferentKeysCount(cs: seq<Candidate>)
    requires KeysDiffer(cs)
    ensures |Keys(cs)| == |cs|
  {
    if cs != [] {
      var n := |cs| - 1;
      DifferentKeysCount(cs[..n]);
      KeysGrowByOne(cs);
      hide Keys, KeyOf, KeysDiffer;
    }
  }

  lemma KeysGrowByOne(cs: seq<Candidate>)
    requires KeysDiffer(cs) && cs != []
    ensures var n := |cs| - 1; Keys(cs) == Keys(cs[..n]) + {KeyOf(cs[n])} && KeyOf(cs[n]) !in Keys(cs[..n])
  {
    hide KeyOf;
    var n := |cs| - 1;
    assert KeyOf(cs[n]) !in Keys(cs[..n]);
    assert cs == cs[..n] + [cs[n]];
    KeysConcat(cs[..n], [cs[n]]);
    KeysOfOne(cs[n]);
  }

  /** Deduplication lets through one candidate of every key not seen before, and no other. */
  lemma {:induction false} UnseenIsExact(cs: seq<Candidate>, seen: set<string>)
    ensures var u := Unseen(cs, seen);
            KeysDiffer(u) && Keys(u) !! seen && seen + Keys(u) == seen + Keys(cs) && (forall c :: c in u ==> c in cs)
  {
    if cs != [] {
      var n := |cs| - 1;
      var before, c := Unseen(cs[..n], seen), cs[n];
      UnseenIsExact(cs[..n], seen);
      assert cs == cs[..n] + [c];
      KeysConcat(before, [c]);
      KeysConcat(cs[..n], [c]);
      KeysOfOne(c);
      if KeyOf(c) !in seen + Keys(before) {
        assert KeysDiffer([c]);
        KeysDifferConcat(before, [c]);
      }
      hide Keys, KeysDiffer, KeyOf;
    }
  }

  lemma InitialIsKept(cfg: Settings, vendors: seq<Candidate>)
    ensures Kept(cfg, Initial(cfg, vendors))
  {
    UnseenIsExact(vendors, {});
    DifferentKeysCount(Unseen(vendors, {}));
  }

  lemma PoolExtends(raw: seq<Candidate>, unseen: seq<Candidate>)
    requires KeysDiffer(raw) && KeysDiffer(unseen) && Keys(unseen) !! Keys(raw)
    ensures KeysDiffer(raw + unseen) && Keys(raw + unseen) == Keys(raw) + Keys(unseen) && |Keys(raw + unseen)| == |raw + unseen|
  {
    KeysConcat(raw, unseen);
    KeysDifferConcat(raw, unseen);
    DifferentKeysCount(raw + unseen);
  }

  lemma KeysOfMembers(cs: seq<Candidate>)
    ensures forall c :: c in cs ==> KeyOf(c) in Keys(cs)
  {
    forall c | c in cs ensures KeyOf(c) in Keys(cs) {
      var i :| 0 <= i < |cs| && cs[i] == c;
    }
  }

  lemma SearchedIsCounted(cfg: Settings, o: Oracles, st: State)
    requires Counted(st)
    ensures var next := Searched(cfg, o, st);
            && Counted(next) && st.raw <= next.raw && KeysDiffer(Newcomers(cfg, o, st))
            && (forall c :: c in Newcomers(cfg, o, st) ==> c in next.raw)
            && (st.iteration > 0 ==> forall c :: c in Newcomers(cfg, o, st) ==> KeyOf(c) !in st.seen)
  {
    hide Found, Unseen, Keys, KeysDiffer, KeyOf, Lowered, Turned, RankedNew;
    var unseen := Unseen(Found(cfg, o, st), st.seen);
    UnseenIsExact(Found(cfg, o, st), st.seen);
    PoolExtends(st.raw, unseen);
    KeysOfMembers(unseen);
    assert [] + unseen == unseen;
  }

  lemma {:induction false} InsertDiffers(rs: seq<Ranked>, r: Ranked)
    requires CandidatesDiffer(rs) && forall x :: x in rs ==> x.candidate != r.candidate
    ensures CandidatesDiffer(Insert(Score, rs, r))
  {
    if rs != [] && Score(rs[0]) >= Score(r) {
      var tail := rs[1..];
      InsertDiffers(tail, r);
      var s := Insert(Score, tail, r);
      forall i | 0 <= i < |s| ensures s[i].candidate != rs[0].candidate {
        InsertedFrom(Score, tail, r, i);
        assert rs[0] in rs;
      }
    }
  }

  lemma {:induction false} SortDiffers(rs: seq<Ranked>)
    requires CandidatesDiffer(rs)
    ensures CandidatesDiffer(SortBy(Score, rs))
  {
    if rs != [] {
      var n := |rs| - 1;
      SortDiffers(rs[..n]);
      SortSorts(Score, rs[..n]);
      forall x | x in SortBy(Score, rs[..n]) ensures x.candidate != rs[n].candidate {
        assert x in rs[..n];
      }
      InsertDiffers(SortBy(Score, rs[..n]), rs[n]);
    }
  }

  lemma {:induction false} ScoredAreCandidates(o: Oracles, cs: seq<Candidate>, verdicts: map<string, Verdict>, distances: map<string, real>)
    requires KeysDiffer(cs) && forall c :: c in cs ==> IdOf(c) in verdicts && IdOf(c) in distances
    ensures var rs := Scored(o, cs, verdicts, distances);
            && CandidatesDiffer(rs)
            && forall r :: r in rs ==> r.candidate in cs && !r.qualification.Rejected? && r.availability.Unconfirmed?
  {
    if cs != [] {
      var n := |cs| - 1;
      ScoredAreCandidates(o, cs[..n], verdicts, distances);
      var before := Scored(o, cs[..n], verdicts, distances);
      forall i | 0 <= i < |before| ensures before[i].candidate != cs[n] {
        assert before[i] in before;
      }
    }
  }

  lemma RankedNewAreCandidates(o: Oracles, cs: seq<Candidate>, radius: real)
    requires KeysDiffer(cs)
    ensures var rs := RankedNew(o, cs, radius);
            && CandidatesDiffer(rs)
            && forall r :: r in rs ==> r.candidate in cs && !r.qualification.Rejected? && r.availability.Unconfirmed?
  {
    hide KeysDiffer, KeyOf, Verdicts, Distances, Scored, SortBy;
    FiledUnderIds(o, cs, radius);
    var scored := Scored(o, cs, Verdicts(o, cs, radius), Distances(o, cs));
    ScoredAreCandidates(o, cs, Verdicts(o, cs, radius), Distances(o, cs));
    SortDiffers(scored);
    SortSorts(Score, scored);
    var sorted := SortBy(Score, scored);
    assert forall i :: 0 <= i < |sorted| ==> sorted[i] in scored;
    assert RankedNew(o, cs, radius) == WithRanks(sorted);
    hide WithRanks;
  }

  lemma {:induction false} SearchedIsPooled(cfg: Settings, o: Oracles, st: State)
    requires Counted(st) && Pooled(cfg, st)
    ensures Pooled(cfg, Searched(cfg, o, st))
  {
    SearchedIsCounted(cfg, o, st);
    var cs := Newcomers(cfg, o, st);
    RankedNewAreCandidates(o, cs, st.radius);
    hide RankedNew, Turned, Found, Unseen, Lowered, Newcomers, KeysDiffer, Pooled;
    NewcomersAreNew(cfg, st, cs);
    hide Keys, KeyOf, CandidatesDiffer;
    PoolsExtend(cfg, st, Searched(cfg, o, st), RankedNew(o, cs, st.radius));
  }

  lemma PoolsExtend(cfg: Settings, st: State, next: State, rs: seq<Ranked>)
    requires Pooled(cfg, st) && next.qualified == st.qualified + rs && next.confirmed == st.confirmed && st.raw <= next.raw
    requires CandidatesDiffer(rs)
    requires forall r :: r in rs ==> r.candidate in next.raw && !r.qualification.Rejected? && r.availability.Unconfirmed?
    requires forall r, x :: r in st.qualified && x in rs ==> r.candidate != x.candidate
    ensures Pooled(cfg, next)
  {
    forall i, j | 0 <= i < |st.qualified| && 0 <= j < |rs| ensures st.qualified[i].candidate != rs[j].candidate {
      assert st.qualified[i] in st.qualified && rs[j] in rs;
    }
  }

  lemma NewcomersAreNew(cfg: Settings, st: State, cs: seq<Candidate>)
    requires Counted(st) && Pooled(cfg, st)
    requires st.iteration > 0 ==> forall c :: c in cs ==> KeyOf(c) !in st.seen
    ensures forall r, c :: r in st.qualified && c in cs ==> r.candidate != c
  {
    forall r, c | r in st.qualified && c in cs ensures r.candidate != c {
      var i :| 0 <= i < |st.raw| && st.raw[i] == r.candidate;
      assert KeyOf(st.raw[i]) in Keys(st.raw);
    }
  }

  /** Contacting changes availabilities only, and only those of uncontacted candidates. */
  lemma {:induction false} ContactedChanges(o: Oracles, rs: seq<Ranked>, batch: nat)
    ensures var s := Contacted(o, rs, batch);
            forall i :: 0 <= i < |rs| ==> s[i] == rs[i] || (rs[i].availability.Unconfirmed? && s[i] == rs[i].(availability := Contact(o, rs[i].candidate)))
  {
    if rs != [] {
      ContactedChanges(o, rs[1..], if rs[0].availability.Unconfirmed? && batch > 0 then batch - 1 else batch);
    }
  }

  lemma {:induction false} WithConfirmedMembers(confirmed: seq<Ranked>, rs: seq<Ranked>)
    ensures var s := WithConfirmed(confirmed, rs);
            confirmed <= s && forall r :: r in s <==> r in confirmed || (r in rs && r.availability.Confirmed?)
  {
    if rs != [] {
      var n := |rs| - 1;
      assert rs == rs[..n] + [rs[n]];
      WithConfirmedMembers(confirmed, rs[..n]);
    }
  }

  lemma WithConfirmedDiffers(confirmed: seq<Ranked>, rs: seq<Ranked>)
    requires CandidatesDiffer(rs) && CandidatesDiffer(confirmed)
    requires forall r :: r in confirmed ==> r in rs
    ensures CandidatesDiffer(WithConfirmed(confirmed, rs))
  {
    hide CandidatesDiffer;
    SameCandidateSameEntry(rs);
    WithConfirmedPrefixDiffers(confirmed, rs, rs);
  }

  lemma {:induction false} WithConfirmedPrefixDiffers(confirmed: seq<Ranked>, prefix: seq<Ranked>, rs: seq<Ranked>)
    requires CandidatesDiffer(confirmed) && prefix <= rs && forall r :: r in confirmed ==> r in rs
    requires forall r, x :: r in rs && x in rs && r.candidate == x.candidate ==> r == x
    ensures CandidatesDiffer(WithConfirmed(confirmed, prefix))
  {
    if prefix != [] {
      var n := |prefix| - 1;
      var before, r := WithConfirmed(confirmed, prefix[..n]), prefix[n];
      WithConfirmedPrefixDiffers(confirmed, prefix[..n], rs);
      WithConfirmedMembers(confirmed, prefix[..n]);
      assert forall x :: x in prefix[..n] ==> x in rs;
      assert r == rs[n] && r in rs;
      hide WithConfirmed;
      if r !in before {
        forall i | 0 <= i < |before| ensures before[i].candidate != r.candidate {
          assert before[i] in before;
        }
      }
    }
  }

  lemma ReachedIsPooled(cfg: Settings, o: Oracles, st: State)
    requires Pooled(cfg, st)
    ensures var next := Reached(cfg, o, st);
            Pooled(cfg, next) && st.confirmed <= next.confirmed && next == st.(qualified := next.qualified, confirmed := next.confirmed)
    ensures |Reached(cfg, o, st).qualified| == |st.qualified|
  {
    if MayContact(cfg) && Uncontacteds(st.qualified) {
      var rs := Contacted(o, st.qualified, cfg.batchSize);
      ContactedIsPooled(cfg, o, st, rs);
      WithConfirmedMembers(st.confirmed, rs);
      WithConfirmedDiffers(st.confirmed, rs);
      hide WithConfirmed, CandidatesDiffer, Contacted;
    }
  }

  lemma ContactedIsPooled(cfg: Settings, o: Oracles, st: State, rs: seq<Ranked>)
    requires Pooled(cfg, st) && rs == Contacted(o, st.qualified, cfg.batchSize)
    ensures |rs| == |st.qualified| && CandidatesDiffer(rs)
    ensures forall r :: r in rs ==> r.candidate in st.raw && !r.qualification.Rejected?
    ensures forall r :: r in st.confirmed ==> r in rs && r.availability.Confirmed?
  {
    ContactedChanges(o, st.qualified, cfg.batchSize);
    hide Contacted;
    forall r | r in rs ensures r.candidate in st.raw && !r.qualification.Rejected? {
      var i :| 0 <= i < |rs| && rs[i] == r;
      assert st.qualified[i] in st.qualified;
    }
    forall r | r in st.confirmed ensures r in rs {
      var i :| 0 <= i < |st.qualified| && st.qualified[i] == r;
      assert rs[i] == r;
    }
  }

  lemma SameCandidateSameEntry(rs: seq<Ranked>)
    requires CandidatesDiffer(rs)
    ensures forall r, x :: r in rs && x in rs && r.candidate == x.candidate ==> r == x
  {
    forall r, x | r in rs && x in rs && r.candidate == x.candidate ensures r == x {
      var i :| 0 <= i < |rs| && rs[i] == r;
      var j :| 0 <= j < |rs| && rs[j] == x;
      assert !(i < j) && !(j < i);
    }
  }

  /** A later state: the pools have only grown, and the radius has not shrunk. */
  ghost predicate Extends(st: State, next: State) {
    && st.raw <= next.raw && st.seen <= next.seen && st.confirmed <= next.confirmed && st.rejected <= next.rejected
    && |st.qualified| <= |next.qualified| && st.radius <= next.radius && st.tried <= next.tried
    && st.scraped <= next.scraped && st.deduped <= next.deduped && st.iteration <= next.iteration
  }

  lemma {:induction false} IterateKeeps(cfg: Settings, o: Oracles, st: State)
    requires Kept(cfg, st)
    ensures Kept(cfg, Iterate(cfg, o, st)) && Extends(st, Iterate(cfg, o, st))
    ensures Iterate(cfg, o, st).iteration == st.iteration + 1
  {
    hide Reached, Searched, Pooled, Keys, KeysDiffer, Newcomers, KeyOf;
    var mid := Searched(cfg, o, st);
    SearchedIsCounted(cfg, o, st);
    SearchedIsPooled(cfg, o, st);
    SearchedExtends(cfg, o, st);
    ReachedIsPooled(cfg, o, mid);
    assert Iterate(cfg, o, st) == Reached(cfg, o, mid);
  }

  lemma SearchedExtends(cfg: Settings, o: Oracles, st: State)
    ensures Extends(st, Searched(cfg, o, st)) && Searched(cfg, o, st).radius == st.radius
    ensures Searched(cfg, o, st).iteration == st.iteration + 1
  {
    hide Found, Unseen, Newcomers, Turned, RankedNew, Keys, Lowered;
  }

  lemma WidenedKeeps(cfg: Settings, o: Oracles, st: State)
    requires Kept(cfg, st)
    ensures Kept(cfg, Widened(cfg, o, st)) && Extends(st, Widened(cfg, o, st))
    ensures Widened(cfg, o, st) == st.(radius := Widened(cfg, o, st).radius)
  {
    hide Keys, KeysDiffer, CandidatesDiffer, Clamp;
  }

  /** The state in which iteration n + 1 starts, were the loop never to stop early. */
  function After(cfg: Settings, o: Oracles, vendors: seq<Candidate>, n: nat): State {
    if n == 0 then Initial(cfg, vendors) else Widened(cfg, o, Iterate(cfg, o, After(cfg, o, vendors, n - 1)))
  }

  lemma ExtendsTransitive(a: State, b: State, c: State)
    requires Extends(a, b) && Extends(b, c)
    ensures Extends(a, c)
  {
  }

  /**
   At every iteration: keys, pool and count agree, no key is taken in twice, the pools are sound, and
   the radius lies between the base and the allowed expansion; later states only extend earlier ones.
   */
  lemma {:induction false} EveryIterationKeeps(cfg: Settings, o: Oracles, vendors: seq<Candidate>, m: nat, n: nat)
    requires m <= n
    ensures var st := After(cfg, o, vendors, n);
            && Kept(cfg, st) && st.iteration == n && Kept(cfg, Iterate(cfg, o, st))
            && Extends(After(cfg, o, vendors, m), st)
    decreases n
  {
    hide Kept, Extends, Iterate, Widened, Initial;
    if n == 0 {
      InitialIsKept(cfg, vendors);
      assert Initial(cfg, vendors).iteration == 0 by {
        InitialStartsAtZero(cfg, vendors);
      }
      ExtendsItself(Initial(cfg, vendors));
    } else {
      var before := After(cfg, o, vendors, n - 1);
      var next := Iterate(cfg, o, before);
      EveryIterationKeeps(cfg, o, vendors, if m < n then m else n - 1, n - 1);
      IterateKeeps(cfg, o, before);
      WidenedKeeps(cfg, o, next);
      ExtendsTransitive(before, next, Widened(cfg, o, next));
      if m < n {
        ExtendsTransitive(After(cfg, o, vendors, m), before, Widened(cfg, o, next));
      } else {
        ExtendsItself(Widened(cfg, o, next));
      }
    }
    IterateKeeps(cfg, o, After(cfg, o, vendors, n));
  }

  lemma InitialStartsAtZero(cfg: Settings, vendors: seq<Candidate>)
    ensures Initial(cfg, vendors).iteration == 0
  {
  }

  lemma ExtendsItself(st: State)
    ensures Extends(st, st)
  {
  }

  /** The loop keeps the invariant, runs no more than the allowed iterations, and stops early only with enough candidates. */
  lemma {:induction false} LoopKeeps(cfg: Settings, o: Oracles, st: State)
    requires Kept(cfg, st) && st.iteration <= cfg.maxIterations
    ensures var end := Loop(cfg, o, st);
            && Kept(cfg, end) && Extends(st, end) && end.iteration <= cfg.maxIterations
            && (end.iteration < cfg.maxIterations ==> Enough(cfg, end))
    decreases cfg.maxIterations - st.iteration
  {
    hide Kept, Extends, Iterate, Widened, Enough;
    if st.iteration < cfg.maxIterations {
      var next := Iterate(cfg, o, st);
      IterateKeeps(cfg, o, st);
      if !Enough(cfg, next) {
        WidenedKeeps(cfg, o, next);
        LoopKeeps(cfg, o, Widened(cfg, o, next));
        ExtendsTransitive(st, next, Widened(cfg, o, next));
        ExtendsTransitive(st, Widened(cfg, o, next), Loop(cfg, o, st));
      }
    } else {
      ExtendsItself(st);
    }
  }

  // ---------------------------------------------------------------------------
  // What is presented
  // ---------------------------------------------------------------------------

  function Discovered(cfg: Settings, o: Oracles, vendors: seq<Candidate>): State {
    Loop(cfg, o, Initial(cfg, vendors))
  }

  /**
   The two tiers are the confirmed pool sorted by score and numbered, or the qualified pool when none
   is confirmed; a backup is a qualified candidate that is in no confirmed tier.
   */
  lemma {:induction false} TiersAreTheSortedPool(cfg: Settings, o: Oracles, vendors: seq<Candidate>)
    ensures var st := Discovered(cfg, o, vendors);
            var s := Presented(cfg, st);
            var confirmed := SortBy(Score, st.confirmed);
            && s.top + s.others == (if st.confirmed == [] then st.qualified else WithRanks(confirmed))
            && |s.top| <= 3 && (s.others != [] ==> |s.top| == 3)
            && multiset(confirmed) == multiset(st.confirmed) && Descending(Score, confirmed)
            && (forall r :: r in st.confirmed <==> r in st.qualified && r.availability.Confirmed?)
            && CandidatesDiffer(st.qualified) && CandidatesDiffer(st.confirmed)
            && |s.backups| <= 5 && (forall r :: r in s.backups ==> r in st.qualified && r !in st.confirmed)
            && (s.targetMet <==> |st.confirmed| >= cfg.targetCount)
            && s.unique == (if cfg.maxIterations == 0 then 0 else |st.raw|)
            && cfg.baseRadius <= s.radius && (s.radius == cfg.baseRadius || s.radius <= MaxRadius(cfg))
  {
    hide Loop, Initial, Presented, Pooled, WithinRadius, Counted, SortBy, WithRanks, Keys, KeysDiffer, CandidatesDiffer;
    DiscoveredIsKept(cfg, o, vendors);
    TiersOf(cfg, Discovered(cfg, o, vendors));
    PoolsOf(cfg, Discovered(cfg, o, vendors));
  }

  lemma DiscoveredIsKept(cfg: Settings, o: Oracles, vendors: seq<Candidate>)
    ensures var st := Discovered(cfg, o, vendors); Kept(cfg, st) && (st.iteration == 0 <==> cfg.maxIterations == 0)
  {
    hide Loop, Initial, Kept;
    InitialIsKept(cfg, vendors);
    InitialStartsAtZero(cfg, vendors);
    LoopKeeps(cfg, o, Initial(cfg, vendors));
    LoopRuns(cfg, o, Initial(cfg, vendors));
  }

  lemma TiersOf(cfg: Settings, st: State)
    ensures var s := Presented(cfg, st);
            var confirmed := SortBy(Score, st.confirmed);
            && s.top + s.others == (if st.confirmed == [] then st.qualified else WithRanks(confirmed))
            && |s.top| <= 3 && (s.others != [] ==> |s.top| == 3)
            && multiset(confirmed) == multiset(st.confirmed) && Descending(Score, confirmed)
            && (s.targetMet <==> |st.confirmed| >= cfg.targetCount)
            && s.unique == st.deduped && s.radius == st.radius && s.backups == First(Backups(st.qualified), 5)
  {
    hide SortBy, Backups;
    SortSorts(Score, st.confirmed);
    SortKeepsRows(Score, st.confirmed);
  }

  lemma PoolsOf(cfg: Settings, st: State)
    requires Kept(cfg, st)
    ensures (forall r :: r in st.confirmed <==> r in st.qualified && r.availability.Confirmed?)
    ensures CandidatesDiffer(st.qualified) && CandidatesDiffer(st.confirmed)
    ensures var backups := First(Backups(st.qualified), 5);
            |backups| <= 5 && forall r :: r in backups ==> r in st.qualified && r !in st.confirmed
    ensures st.deduped == if st.iteration == 0 then 0 else |st.raw|
    ensures cfg.baseRadius <= st.radius && (st.radius == cfg.baseRadius || st.radius <= MaxRadius(cfg))
    ensures !MayContact(cfg) ==> st.confirmed == [] && forall r :: r in st.qualified ==> r.availability.Unconfirmed?
  {
    hide Keys, KeysDiffer, CandidatesDiffer;
    var backups := First(Backups(st.qualified), 5);
    assert forall r :: r in backups ==> r in Backups(st.qualified);
    if st.confirmed != [] {
      assert st.confirmed[0] in st.confirmed;
    }
  }

  lemma LoopRuns(cfg: Settings, o: Oracles, st: State)
    requires Kept(cfg, st)
    ensures st.iteration < cfg.maxIterations ==> Loop(cfg, o, st).iteration > st.iteration
    ensures st.iteration >= cfg.maxIterations ==> Loop(cfg, o, st) == st
  {
    if st.iteration < cfg.maxIterations {
      var next := Iterate(cfg, o, st);
      IterateKeeps(cfg, o, st);
      WidenedKeeps(cfg, o, next);
      if !Enough(cfg, next) {
        LoopKeeps(cfg, o, Widened(cfg, o, next));
      }
      hide Kept, Iterate, Widened, Enough;
    }
  }

  /** During autonomous operations nobody is contacted: no candidate is confirmed, and the tiers hold unconfirmed ones. */
  lemma {:induction false} OperationsConfirmNobody(cfg: Settings, o: Oracles, vendors: seq<Candidate>)
    requires cfg.trigger == "operations" || !cfg.simulateOutreach
    ensures var s := Presented(cfg, Discovered(cfg, o, vendors));
            && (forall r :: r in s.top + s.others ==> r.availability.Unconfirmed?)
            && (s.targetMet <==> cfg.targetCount == 0)
  {
    hide Loop, Initial, Presented, Pooled, WithinRadius, Counted, SortBy, WithRanks, Keys, KeysDiffer, CandidatesDiffer;
    DiscoveredIsKept(cfg, o, vendors);
    TiersOf(cfg, Discovered(cfg, o, vendors));
    PoolsOf(cfg, Discovered(cfg, o, vendors));
  }

  // ---------------------------------------------------------------------------
  // Does the funnel add up
  // ---------------------------------------------------------------------------

  ghost predicate IdsDiffer(cs: seq<Candidate>) {
    forall i, j :: 0 <= i < j < |cs| ==> IdOf(cs[i]) != IdOf(cs[j])
  }

  predicate Ranks(rs: seq<Ranked>, c: Candidate) {
    exists i :: 0 <= i < |rs| && rs[i].candidate == c
  }

  lemma RanksConcat(a: seq<Ranked>, b: seq<Ranked>, c: Candidate)
    ensures Ranks(a + b, c) <==> Ranks(a, c) || Ranks(b, c)
  {
    if Ranks(a, c) {
      var i :| 0 <= i < |a| && a[i].candidate == c;
      assert (a + b)[i].candidate == c;
    }
    if Ranks(b, c) {
      var i :| 0 <= i < |b| && b[i].candidate == c;
      assert (a + b)[|a| + i].candidate == c;
    }
  }

  lemma RanksOne(r: Ranked, c: Candidate)
    ensures Ranks([r], c) <==> r.candidate == c
  {
    assert [r][0] == r;
  }

  lemma {:induction false} TurnedIffOwnVerdict(o: Oracles, cs: seq<Candidate>, radius: real, c: Candidate)
    ensures Ranks(Turned(o, cs, radius), c) <==> c in cs && o.qualify(c, radius).qualification.Rejected?
  {
    if cs != [] {
      var n := |cs| - 1;
      assert cs == cs[..n] + [cs[n]];
      TurnedIffOwnVerdict(o, cs[..n], radius, c);
      var v := o.qualify(cs[n], radius);
      var r := Ranked(cs[n], Rejected, Unconfirmed, 250, 999, v.confidence);
      RanksOne(r, c);
      RanksConcat(Turned(o, cs[..n], radius), if v.qualification.Rejected? then [r] else [], c);
      hide Ranks;
      assert Ranks([], c) == false by {
        RanksNone(c);
      }
    }
  }

  lemma RanksNone(c: Candidate)
    ensures !Ranks([], c)
  {
  }

  lemma {:induction false} ScoredIffFiledVerdict(o: Oracles, cs: seq<Candidate>, verdicts: map<string, Verdict>,
                                                 distances: map<string, real>, c: Candidate)
    requires forall x :: x in cs ==> IdOf(x) in verdicts && IdOf(x) in distances
    ensures Ranks(Scored(o, cs, verdicts, distances), c) <==> c in cs && !verdicts[IdOf(c)].qualification.Rejected?
  {
    if cs != [] {
      var n := |cs| - 1;
      assert cs == cs[..n] + [cs[n]];
      ScoredIffFiledVerdict(o, cs[..n], verdicts, distances, c);
      var v := verdicts[IdOf(cs[n])];
      var r := Ranked(cs[n], v.qualification, Unconfirmed, o.score(cs[n], distances[IdOf(cs[n])]), 0, v.confidence);
      RanksOne(r, c);
      RanksNone(c);
      RanksConcat(Scored(o, cs[..n], verdicts, distances), if v.qualification.Rejected? then [] else [r], c);
      hide Ranks;
    }
  }

  lemma RankedNewIff(o: Oracles, cs: seq<Candidate>, radius: real, c: Candidate)
    ensures Ranks(RankedNew(o, cs, radius), c) <==>
            c in cs && IdOf(c) in Verdicts(o, cs, radius) && !Verdicts(o, cs, radius)[IdOf(c)].qualification.Rejected?
  {
    FiledUnderIds(o, cs, radius);
    var scored := Scored(o, cs, Verdicts(o, cs, radius), Distances(o, cs));
    ScoredIffFiledVerdict(o, cs, Verdicts(o, cs, radius), Distances(o, cs), c);
    hide Verdicts, Distances, Scored, SortBy;
    SortSorts(Score, scored);
    var sorted := SortBy(Score, scored);
    assert RankedNew(o, cs, radius) == WithRanks(sorted);
    if Ranks(scored, c) {
      var i :| 0 <= i < |scored| && scored[i].candidate == c;
      assert scored[i] in sorted;
      var j :| 0 <= j < |sorted| && sorted[j] == scored[i];
      assert WithRanks(sorted)[j].candidate == c;
    }
    if Ranks(WithRanks(sorted), c) {
      var i :| 0 <= i < |sorted| && WithRanks(sorted)[i].candidate == c;
      assert sorted[i] in scored;
      var j :| 0 <= j < |scored| && scored[j] == sorted[i];
    }
  }

  /**
   Every newcomer ends in exactly one of the qualified and rejected pools if and only if, for each,
   its own verdict and the one filed under its id (the last namesake's) agree on rejection.
   */
  lemma BatchSplitsIff(o: Oracles, cs: seq<Candidate>, radius: real)
    ensures (forall c :: c in cs ==> IdOf(c) in Verdicts(o, cs, radius))
    ensures (forall c :: c in cs ==> (Ranks(RankedNew(o, cs, radius), c) <==> !Ranks(Turned(o, cs, radius), c))) <==>
            (forall c :: c in cs ==>
               (o.qualify(c, radius).qualification.Rejected? <==> Verdicts(o, cs, radius)[IdOf(c)].qualification.Rejected?))
  {
    FiledUnderIds(o, cs, radius);
    hide Ranks, Verdicts, Turned, RankedNew;
    forall c | c in cs
      ensures (Ranks(RankedNew(o, cs, radius), c) <==> !Ranks(Turned(o, cs, radius), c)) <==>
              (o.qualify(c, radius).qualification.Rejected? <==> Verdicts(o, cs, radius)[IdOf(c)].qualification.Rejected?)
    {
      RankedNewIff(o, cs, radius, c);
      TurnedIffOwnVerdict(o, cs, radius, c);
    }
  }

  lemma {:induction false} OwnVerdictIsFiled(o: Oracles, cs: seq<Candidate>, radius: real)
    requires IdsDiffer(cs)
    ensures forall c :: c in cs ==> IdOf(c) in Verdicts(o, cs, radius) && Verdicts(o, cs, radius)[IdOf(c)] == o.qualify(c, radius)
  {
    if cs != [] {
      var n := |cs| - 1;
      assert cs == cs[..n] + [cs[n]];
      OwnVerdictIsFiled(o, cs[..n], radius);
      forall c | c in cs[..n] ensures IdOf(c) != IdOf(cs[n]) {
        var i :| 0 <= i < n && cs[..n][i] == c;
        assert cs[i] == c;
      }
    }
  }

  lemma {:induction false} SplitCounts(o: Oracles, cs: seq<Candidate>, radius: real, verdicts: map<string, Verdict>, distances: map<string, real>)
    requires forall c :: c in cs ==> IdOf(c) in verdicts && IdOf(c) in distances && verdicts[IdOf(c)] == o.qualify(c, radius)
    ensures |Scored(o, cs, verdicts, distances)| + |Turned(o, cs, radius)| == |cs|
  {
    if cs != [] {
      var n := |cs| - 1;
      assert cs == cs[..n] + [cs[n]];
      SplitCounts(o, cs[..n], radius, verdicts, distances);
    }
  }

  /** Every candidate counted as unique has been either qualified or rejected. */
  ghost predicate AddsUp(st: State) {
    |st.qualified| + |st.rejected| == st.deduped
  }

  lemma IterateAddsUp(cfg: Settings, o: Oracles, st: State)
    requires Kept(cfg, st) && AddsUp(st) && IdsDiffer(Iterate(cfg, o, st).raw)
    ensures AddsUp(Iterate(cfg, o, st))
  {
    var cs := Newcomers(cfg, o, st);
    NewcomersAreDistinct(cfg, o, st);
    OwnVerdictIsFiled(o, cs, st.radius);
    FiledUnderIds(o, cs, st.radius);
    var scored := Scored(o, cs, Verdicts(o, cs, st.radius), Distances(o, cs));
    SplitCounts(o, cs, st.radius, Verdicts(o, cs, st.radius), Distances(o, cs));
    SortKeepsRows(Score, scored);
    assert |RankedNew(o, cs, st.radius)| == |scored|;
    SearchedIsPooled(cfg, o, st);
    ReachedIsPooled(cfg, o, Searched(cfg, o, st));
    hide RankedNew, Turned, Newcomers, Unseen, Found, Keys, Lowered, Reached, Pooled, Counted, Scored, Verdicts, Distances;
  }

  lemma NewcomersAreDistinct(cfg: Settings, o: Oracles, st: State)
    requires Kept(cfg, st) && IdsDiffer(Iterate(cfg, o, st).raw)
    ensures IdsDiffer(Newcomers(cfg, o, st))
  {
    hide Unseen, Found, Keys, RankedNew, Turned, Lowered;
    SearchedIsPooled(cfg, o, st);
    ReachedIsPooled(cfg, o, Searched(cfg, o, st));
    var next, unseen := Iterate(cfg, o, st), Unseen(Found(cfg, o, st), st.seen);
    assert next.raw == st.raw + unseen;
    forall i, j | 0 <= i < j < |unseen| ensures IdOf(unseen[i]) != IdOf(unseen[j]) {
      assert next.raw[|st.raw| + i] == unseen[i] && next.raw[|st.raw| + j] == unseen[j];
    }
    hide Reached, Searched, Pooled, Counted;
    if st.iteration == 0 {
      assert Newcomers(cfg, o, st) == next.raw;
    } else {
      assert Newcomers(cfg, o, st) == unseen;
    }
  }

  lemma {:induction false} LoopAddsUp(cfg: Settings, o: Oracles, st: State)
    requires Kept(cfg, st) && AddsUp(st) && st.iteration <= cfg.maxIterations
    ensures IdsDiffer(Loop(cfg, o, st).raw) ==> AddsUp(Loop(cfg, o, st))
    decreases cfg.maxIterations - st.iteration
  {
    hide Kept, Iterate, Widened, Enough;
    if st.iteration < cfg.maxIterations && IdsDiffer(Loop(cfg, o, st).raw) {
      var next := Iterate(cfg, o, st);
      IterateKeeps(cfg, o, st);
      if Enough(cfg, next) {
        IterateAddsUp(cfg, o, st);
      } else {
        var wide := Widened(cfg, o, next);
        WidenedKeeps(cfg, o, next);
        LoopKeeps(cfg, o, wide);
        assert wide.raw <= Loop(cfg, o, st).raw && next.raw == wide.raw;
        assert IdsDiffer(next.raw);
        IterateAddsUp(cfg, o, st);
        LoopAddsUp(cfg, o, wide);
      }
    }
  }

  /** With an id of its own for every candidate, the reported disqualified ones are exactly the rejected ones. */
  lemma FunnelAddsUp(cfg: Settings, o: Oracles, vendors: seq<Candidate>)
    requires cfg.maxIterations > 0 && IdsDiffer(Discovered(cfg, o, vendors).raw)
    ensures var st, s := Discovered(cfg, o, vendors), Presented(cfg, Discovered(cfg, o, vendors));
            s.unique == |st.qualified| + |s.rejected| && s.disqualified == |s.rejected|
  {
    InitialIsKept(cfg, vendors);
    InitialStartsAtZero(cfg, vendors);
    assert AddsUp(Initial(cfg, vendors));
    LoopAddsUp(cfg, o, Initial(cfg, vendors));
    hide Loop, Initial, SortBy, WithRanks, Backups;
  }

  /**
   Two candidates filed under one id, only the second acceptable: both are ranked, and the first is
   rejected too. Their keys may well differ, as two phones under one name do.
   */
  lemma NamesakesCountTwice(o: Oracles, first: Candidate, second: Candidate, radius: real)
    requires IdOf(first) == IdOf(second)
    requires o.qualify(first, radius).qualification.Rejected? && !o.qualify(second, radius).qualification.Rejected?
    ensures |RankedNew(o, [first, second], radius)| == 2 && |Turned(o, [first, second], radius)| == 1
  {
    hide IdOf;
    var cs := [first, second];
    assert cs[..1] == [first] && [first][..0] == [];
    assert |Turned(o, [first], radius)| == 1;
    FiledUnderIds(o, cs, radius);
    var verdicts, distances := Verdicts(o, cs, radius), Distances(o, cs);
    assert verdicts[IdOf(first)] == o.qualify(second, radius);
    hide Verdicts, Distances;
    assert |Scored(o, [first], verdicts, distances)| == 1;
    assert |Scored(o, cs, verdicts, distances)| == 2;
    SortKeepsRows(Score, Scored(o, cs, verdicts, distances));
    hide Scored, SortBy;
  }

  /** So the counts need not add up: one candidate too many is kept, though no key occurs twice. */
  lemma FunnelMayNotAddUp()
    ensures exists o: Oracles, cs: seq<Candidate>, radius: real ::
              KeysDiffer(cs) && |RankedNew(o, cs, radius)| + |Turned(o, cs, radius)| == |cs| + 1
  {
    var a, b := Candidate("", "", "1", "Hall"), Candidate("", "", "2", "Hall");
    assert KeyOf(a)[0] != KeyOf(b)[0];
    var qualify := (c: Candidate, r: real) => Verdict(if c.phone == "1" then Rejected else Qualified, 1.0);
    var o := Oracles(tried => [], (i, q, r) => [], c => 1.0, qualify, (c, d) => 1, c => None, x => x);
    assert o.qualify(b, 1.0).qualification == Qualified by {
      assert b.phone[0] != "1"[0];
    }
    NamesakesCountTwice(o, a, b, 1.0);
    assert KeysDiffer([a, b]);
  }
}
