/**
 What an iteration of a discovery run finds, ranks, rejects and confirms, and what the shortlist
 tells, stated on candidates and counters.
 */
module DiscoveryResults {
  import opened Common
  import opened Discovery
  import opened DiscoveryInvariants
  import opened Sorting

  // ---------------------------------------------------------------------------
  // Keys and ids
  // ---------------------------------------------------------------------------

  /** The text is the first of these that is not empty, or the last. */
  ghost predicate IsFirstPresent(text: string, texts: seq<string>) {
    exists i :: 0 <= i < |texts| && texts[i] == text && (text != "" || i == |texts| - 1) && forall j :: 0 <= j < i ==> texts[j] == ""
  }

  /** A candidate is taken in once per source id, else map link, else phone, else name; it is filed under source id, else name. */
  lemma KeysArePresent(c: Candidate)
    ensures IsFirstPresent(KeyOf(c), [c.sourceId, c.mapsUrl, c.phone, Lower(c.name)])
    ensures IsFirstPresent(IdOf(c), [c.sourceId, c.name])
  {
    hide Lower;
    var keys, ids := [c.sourceId, c.mapsUrl, c.phone, Lower(c.name)], [c.sourceId, c.name];
    assert keys[0] == c.sourceId && keys[1] == c.mapsUrl && keys[2] == c.phone && keys[3] == Lower(c.name);
    assert ids[0] == c.sourceId && ids[1] == c.name;
  }

  /** No earlier candidate has the key of the k-th. */
  ghost predicate FirstOfKey(cs: seq<Candidate>, k: nat) {
    k < |cs| && forall j :: 0 <= j < k ==> KeyOf(cs[j]) != KeyOf(cs[k])
  }

  /** Of every key that is new the first candidate passes, and only those pass. */
  lemma {:induction false} UnseenAreFirst(cs: seq<Candidate>, seen: set<string>)
    ensures var u := Unseen(cs, seen);
            && (forall k: nat :: k < |cs| && FirstOfKey(cs, k) && KeyOf(cs[k]) !in seen ==> cs[k] in u)
            && (forall c :: c in u ==> exists k: nat :: k < |cs| && FirstOfKey(cs, k) && cs[k] == c && KeyOf(c) !in seen)
  {
    if cs != [] {
      var n := |cs| - 1;
      var before, u := Unseen(cs[..n], seen), Unseen(cs, seen);
      UnseenAreFirst(cs[..n], seen);
      UnseenIsExact(cs[..n], seen);
      KnownKeyIsNotFirst(cs, seen);
      forall k: nat | k < |cs| && FirstOfKey(cs, k) && KeyOf(cs[k]) !in seen ensures cs[k] in u {
        if k < n {
          assert cs[..n][k] == cs[k] && FirstOfKey(cs[..n], k);
        }
      }
      forall c | c in u ensures exists k: nat :: k < |cs| && FirstOfKey(cs, k) && cs[k] == c && KeyOf(c) !in seen {
        if c in before {
          var k: nat :| k < n && FirstOfKey(cs[..n], k) && cs[..n][k] == c && KeyOf(c) !in seen;
          assert FirstOfKey(cs, k) by {
            assert forall j :: 0 <= j <= k ==> cs[j] == cs[..n][j];
          }
        } else {
          NewOneIsFirst(cs, seen);
        }
      }
    }
  }

  lemma KnownKeyIsNotFirst(cs: seq<Candidate>, seen: set<string>)
    requires cs != []
    ensures var n := |cs| - 1; KeyOf(cs[n]) in Keys(Unseen(cs[..n], seen)) ==> KeyOf(cs[n]) in seen || !FirstOfKey(cs, n)
  {
    var n := |cs| - 1;
    UnseenIsExact(cs[..n], seen);
    if KeyOf(cs[n]) in Keys(cs[..n]) {
      var j :| 0 <= j < n && KeyOf(cs[..n][j]) == KeyOf(cs[n]);
      assert cs[j] == cs[..n][j];
    }
  }

  lemma NewOneIsFirst(cs: seq<Candidate>, seen: set<string>)
    requires cs != [] && KeyOf(cs[|cs| - 1]) !in seen + Keys(Unseen(cs[..|cs| - 1], seen))
    ensures FirstOfKey(cs, |cs| - 1)
  {
    var n := |cs| - 1;
    UnseenIsExact(cs[..n], seen);
    forall j | 0 <= j < n ensures KeyOf(cs[j]) != KeyOf(cs[n]) {
      assert cs[..n][j] == cs[j];
      assert KeyOf(cs[j]) in Keys(cs[..n]);
    }
  }

  // ---------------------------------------------------------------------------
  // Ranking and rejecting
  // ---------------------------------------------------------------------------

  /** The k-th candidate is the last of those filed under the id. */
  ghost predicate LastOfId(cs: seq<Candidate>, id: string, k: nat) {
    k < |cs| && IdOf(cs[k]) == id && forall j :: k < j < |cs| ==> IdOf(cs[j]) != id
  }

  lemma {:induction false} FiledIsLast(o: Oracles, cs: seq<Candidate>, radius: real, id: string, k: nat)
    requires LastOfId(cs, id, k)
    ensures id in Verdicts(o, cs, radius) && Verdicts(o, cs, radius)[id] == o.qualify(cs[k], radius)
    ensures id in Distances(o, cs) && Distances(o, cs)[id] == o.distance(cs[k])
  {
    var n := |cs| - 1;
    if k < n {
      assert LastOfId(cs[..n], id, k);
      FiledIsLast(o, cs[..n], radius, id, k);
    }
  }

  lemma {:induction false} HasLast(cs: seq<Candidate>, c: Candidate)
    requires c in cs
    ensures exists k: nat :: k < |cs| && LastOfId(cs, IdOf(c), k)
  {
    var n := |cs| - 1;
    if IdOf(cs[n]) == IdOf(c) {
      assert LastOfId(cs, IdOf(c), n);
    } else {
      assert cs == cs[..n] + [cs[n]];
      HasLast(cs[..n], c);
      var k: nat :| k < n && LastOfId(cs[..n], IdOf(c), k);
      assert LastOfId(cs, IdOf(c), k) by {
        assert forall j :: 0 <= j < n ==> cs[j] == cs[..n][j];
      }
    }
  }

  /** The entry carries the verdict and the distance of the last candidate filed under the same id, and its own score for it. */
  ghost predicate IsRanked(o: Oracles, cs: seq<Candidate>, radius: real, r: Ranked) {
    r.candidate in cs && r.availability.Unconfirmed? && !r.qualification.Rejected? &&
    exists k: nat :: k < |cs| && LastOfId(cs, IdOf(r.candidate), k)
      && r.qualification == o.qualify(cs[k], radius).qualification && r.confidence == o.qualify(cs[k], radius).confidence
      && r.score == o.score(r.candidate, o.distance(cs[k]))
  }

  lemma {:induction false} ScoredAreRanked(o: Oracles, all: seq<Candidate>, cs: seq<Candidate>, radius: real,
                                           verdicts: map<string, Verdict>, distances: map<string, real>)
    requires verdicts == Verdicts(o, all, radius) && distances == Distances(o, all)
    requires forall c :: c in cs ==> c in all && IdOf(c) in verdicts && IdOf(c) in distances
    ensures forall r :: r in Scored(o, cs, verdicts, distances) ==> IsRanked(o, all, radius, r)
  {
    hide Verdicts, Distances, IdOf, LastOfId;
    if cs != [] {
      var n := |cs| - 1;
      var c := cs[n];
      assert cs == cs[..n] + [c];
      ScoredAreRanked(o, all, cs[..n], radius, verdicts, distances);
      HasLast(all, c);
      var k: nat :| k < |all| && LastOfId(all, IdOf(c), k);
      FiledIsLast(o, all, radius, IdOf(c), k);
    }
  }

  /**
   The newcomers ranked are those whose filed verdict is no rejection, each with that verdict and its
   score, best first and numbered from one.
   */
  lemma RankedExactly(o: Oracles, cs: seq<Candidate>, radius: real)
    ensures var rs := RankedNew(o, cs, radius);
            && (forall i :: 0 <= i < |rs| ==> IsRanked(o, cs, radius, rs[i].(rank := 0)) && rs[i].rank == i + 1)
            && (forall i, j :: 0 <= i < j < |rs| ==> rs[i].score >= rs[j].score)
            && (forall c, k: nat :: c in cs && k < |cs| && LastOfId(cs, IdOf(c), k) ==>
                  ((exists i :: 0 <= i < |rs| && rs[i].candidate == c) <==> !o.qualify(cs[k], radius).qualification.Rejected?))
  {
    FiledUnderIds(o, cs, radius);
    var scored := Scored(o, cs, Verdicts(o, cs, radius), Distances(o, cs));
    ScoredAreRanked(o, cs, cs, radius, Verdicts(o, cs, radius), Distances(o, cs));
    SortSorts(Score, scored);
    ScoredHaveNoRank(o, cs, Verdicts(o, cs, radius), Distances(o, cs));
    var rs, sorted := RankedNew(o, cs, radius), SortBy(Score, scored);
    assert rs == WithRanks(sorted);
    forall i | 0 <= i < |rs| ensures IsRanked(o, cs, radius, rs[i].(rank := 0)) && rs[i].rank == i + 1 {
      assert sorted[i] in scored;
      assert rs[i].(rank := 0) == sorted[i];
    }
    forall c, k: nat | c in cs && k < |cs| && LastOfId(cs, IdOf(c), k)
      ensures (exists i :: 0 <= i < |rs| && rs[i].candidate == c) <==> !o.qualify(cs[k], radius).qualification.Rejected?
    {
      RankedNewIff(o, cs, radius, c);
      FiledIsLast(o, cs, radius, IdOf(c), k);
    }
    hide SortBy, Scored, Verdicts, Distances, IdOf, LastOfId, IsRanked, RankedNew;
  }

  lemma {:induction false} ScoredHaveNoRank(o: Oracles, cs: seq<Candidate>, verdicts: map<string, Verdict>, distances: map<string, real>)
    requires forall c :: c in cs ==> IdOf(c) in verdicts && IdOf(c) in distances
    ensures forall r :: r in Scored(o, cs, verdicts, distances) ==> r.rank == 0
  {
    if cs != [] {
      ScoredHaveNoRank(o, cs[..|cs| - 1], verdicts, distances);
    }
  }

  /** Rejected newcomers are filed with their own verdict's confidence, at a score of 0.25 and the last rank. */
  lemma {:induction false} RejectedExactly(o: Oracles, cs: seq<Candidate>, radius: real)
    ensures var rs := Turned(o, cs, radius);
            && (forall r :: r in rs ==>
                  && r.candidate in cs && o.qualify(r.candidate, radius).qualification.Rejected?
                  && r == Ranked(r.candidate, Rejected, Unconfirmed, 250, 999, o.qualify(r.candidate, radius).confidence))
            && (forall c :: c in cs && o.qualify(c, radius).qualification.Rejected? ==> exists r :: r in rs && r.candidate == c)
  {
    if cs != [] {
      var n := |cs| - 1;
      assert cs == cs[..n] + [cs[n]];
      RejectedExactly(o, cs[..n], radius);
      var before, rs := Turned(o, cs[..n], radius), Turned(o, cs, radius);
      forall c | c in cs && o.qualify(c, radius).qualification.Rejected? ensures exists r :: r in rs && r.candidate == c {
        if c in cs[..n] {
          var r :| r in before && r.candidate == c;
          assert r in rs;
        } else {
          assert rs[|rs| - 1].candidate == c;
        }
      }
    }
  }

  // ---------------------------------------------------------------------------
  // One iteration
  // ---------------------------------------------------------------------------

  /** Whoever is newly in: in the first iteration the local vendors, and always the candidates found whose key is new. */
  function Arrivals(st: State, found: seq<Candidate>): seq<Candidate> {
    (if st.iteration == 0 then st.raw else []) + Unseen(found, st.seen)
  }

  /**
   While the pool is below the target the directory is searched with the queries planned, at the present
   radius, until an answer brings the results to the target. The arrivals are counted, ranked and rejected.
   */
  ghost predicate SearchDone(cfg: Settings, o: Oracles, st: State, next: State, found: seq<Candidate>) {
    && (if |st.raw| < cfg.targetCount
        then FoundByLeastPrefix(o, st.iteration + 1, o.plan(st.tried), st.radius, cfg.targetCount, found)
        else found == [])
    && next.iteration == st.iteration + 1 && next.radius == st.radius && next.scraped == st.scraped + |found|
    && (forall q :: q in o.plan(st.tried) ==> Lower(q) in next.tried)
    && (forall q :: q in next.tried ==> q in st.tried || exists p :: p in o.plan(st.tried) && q == Lower(p))
    && next.raw == st.raw + Unseen(found, st.seen) && next.seen == st.seen + Keys(Unseen(found, st.seen))
    && next.deduped == st.deduped + |Arrivals(st, found)|
    && next.rejected == st.rejected + Turned(o, Arrivals(st, found), st.radius)
    && |next.qualified| == |st.qualified| + |RankedNew(o, Arrivals(st, found), st.radius)|
  }

  /**
   Outreach contacts the first uncontacted candidates of the pool up to the batch size, if there are any;
   whoever is confirmed then joins the confirmed pool. Otherwise nobody is contacted.
   */
  ghost predicate OutreachDone(cfg: Settings, o: Oracles, pool: seq<Ranked>, confirmed: seq<Ranked>, next: State) {
    if cfg.simulateOutreach && cfg.trigger != "operations" && exists i :: 0 <= i < |pool| && pool[i].availability.Unconfirmed? then
      && |next.qualified| == |pool|
      && (forall i :: 0 <= i < |pool| ==>
            if pool[i].availability.Unconfirmed? && CountUncontacted(pool[..i]) < cfg.batchSize
            then IsContacted(o, pool[i], next.qualified[i]) else next.qualified[i] == pool[i])
      && confirmed <= next.confirmed
      && (forall r :: r in next.confirmed <==> r in confirmed || (r in next.qualified && r.availability.Confirmed?))
    else next.qualified == pool && next.confirmed == confirmed
  }

  lemma SearchedTells(cfg: Settings, o: Oracles, st: State)
    ensures SearchDone(cfg, o, st, Searched(cfg, o, st), Found(cfg, o, st))
    ensures Searched(cfg, o, st).confirmed == st.confirmed
    ensures Searched(cfg, o, st).qualified == st.qualified + RankedNew(o, Arrivals(st, Found(cfg, o, st)), st.radius)
  {
    var queries := o.plan(st.tried);
    assert Results(o, st.iteration + 1, queries[..0], st.radius) == [];
    SearchStopsAtTarget(o, st.iteration + 1, queries, st.radius, cfg.targetCount, 0);
    assert queries[0..] == queries;
    hide FoundByLeastPrefix, SearchAll, Unseen, Keys, Turned, RankedNew, Lower;
    assert Newcomers(cfg, o, st) == Arrivals(st, Found(cfg, o, st));
    hide Newcomers, Arrivals, Found;
  }

  lemma ReachedTells(cfg: Settings, o: Oracles, st: State)
    ensures OutreachDone(cfg, o, st.qualified, st.confirmed, Reached(cfg, o, st))
    ensures Reached(cfg, o, st) == st.(qualified := Reached(cfg, o, st).qualified, confirmed := Reached(cfg, o, st).confirmed)
  {
    var rs := Contacted(o, st.qualified, cfg.batchSize);
    ContactsExactly(o, st.qualified, cfg.batchSize);
    WithConfirmedMembers(st.confirmed, rs);
    forall r: Ranked ensures IsContacted(o, r, r.(availability := Contact(o, r.candidate))) {
      ContactTells(o, r);
    }
    hide Contacted, WithConfirmed, Contact, CountUncontacted, IsContacted;
  }

  /** What a whole iteration does: the search step, and then the outreach to the pool it leaves. */
  lemma IterationTells(cfg: Settings, o: Oracles, st: State)
    ensures var next := Iterate(cfg, o, st);
            exists found ::
              && SearchDone(cfg, o, st, next, found)
              && OutreachDone(cfg, o, st.qualified + RankedNew(o, Arrivals(st, found), st.radius), st.confirmed, next)
  {
    var mid, found := Searched(cfg, o, st), Found(cfg, o, st);
    SearchedTells(cfg, o, st);
    ReachedTells(cfg, o, mid);
    ReachedKeepsLength(cfg, o, mid);
    hide Searched, Reached, Found, RankedNew, Turned, Unseen, Keys, Arrivals, FoundByLeastPrefix, OutreachDone;
    assert SearchDone(cfg, o, st, Iterate(cfg, o, st), found);
  }

  lemma ReachedKeepsLength(cfg: Settings, o: Oracles, st: State)
    ensures |Reached(cfg, o, st).qualified| == |st.qualified|
  {
    hide Contacted, WithConfirmed;
  }

  // ---------------------------------------------------------------------------
  // The shortlist
  // ---------------------------------------------------------------------------

  /** A candidate that has not been contacted, or has not answered, may still be a backup. */
  predicate Waits(r: Ranked) {
    r.availability.Unconfirmed? || r.availability.Pending?
  }

  function CountWaiting(rs: seq<Ranked>): nat {
    if rs == [] then 0
    else CountWaiting(rs[1..]) + if Waits(rs[0]) then 1 else 0
  }

  lemma {:induction false} BackupsInOrder(rs: seq<Ranked>, i: nat)
    requires i < |rs|
    ensures |Backups(rs)| == CountWaiting(rs)
    ensures Waits(rs[i]) ==>
              CountWaiting(rs[..i]) < |Backups(rs)| && Backups(rs)[CountWaiting(rs[..i])] == rs[i]
  {
    if i > 0 {
      BackupsInOrder(rs[1..], i - 1);
      assert rs[..i][1..] == rs[1..][..i - 1];
    } else {
      BackupsAreCounted(rs);
    }
  }

  lemma {:induction false} BackupsAreCounted(rs: seq<Ranked>)
    ensures |Backups(rs)| == CountWaiting(rs)
  {
    if rs != [] {
      BackupsAreCounted(rs[1..]);
    }
  }

  /**
   The shortlist tells the counters, the radius and the rejected candidates of the last state, and its
   backups are the first five waiting candidates in the order of the pool.
   */
  lemma ShortlistTells(cfg: Settings, st: State)
    ensures var s := Presented(cfg, st);
            && s.rejected == st.rejected && s.scraped == st.scraped && s.unique == st.deduped
            && s.iterations == st.iteration && s.radius == st.radius
            && s.disqualified == (if st.deduped >= |st.qualified| then st.deduped - |st.qualified| else 0)
            && |s.backups| == (if CountWaiting(st.qualified) <= 5 then CountWaiting(st.qualified) else 5)
            && (forall i :: 0 <= i < |st.qualified| && Waits(st.qualified[i]) && CountWaiting(st.qualified[..i]) < 5 ==>
                  CountWaiting(st.qualified[..i]) < |s.backups| && s.backups[CountWaiting(st.qualified[..i])] == st.qualified[i])
  {
    BackupsAreCounted(st.qualified);
    var s := Presented(cfg, st);
    forall i | 0 <= i < |st.qualified| && Waits(st.qualified[i]) && CountWaiting(st.qualified[..i]) < 5
      ensures CountWaiting(st.qualified[..i]) < |s.backups| && s.backups[CountWaiting(st.qualified[..i])] == st.qualified[i]
    {
      BackupsInOrder(st.qualified, i);
    }
    hide CountWaiting, Backups, SortBy, WithRanks;
  }

  /** A run begins with the local vendors of different keys as its pool, at the base radius, with nothing counted. */
  lemma StartsWithVendors(cfg: Settings, vendors: seq<Candidate>)
    ensures var st := Initial(cfg, vendors);
            && st.raw == Unseen(vendors, {}) && st.seen == Keys(st.raw) && st.radius == cfg.baseRadius && st.tried == {}
            && st.qualified == [] && st.confirmed == [] && st.rejected == []
            && st.scraped == 0 && st.deduped == 0 && st.iteration == 0
  {
  }
}
