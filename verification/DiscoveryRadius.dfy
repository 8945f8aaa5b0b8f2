/**
 When a discovery run stops, and how its search radius grows while candidates are missing.
 */
module DiscoveryRadius {
  import opened Common
  import opened Discovery
  import opened DiscoveryInvariants

  // ---------------------------------------------------------------------------
  // One widening
  // ---------------------------------------------------------------------------

  function Missing(cfg: Settings, st: State): int {
    cfg.targetCount - |st.qualified|
  }

  function Limit(cfg: Settings): real {
    cfg.baseRadius + cfg.allowedExpansion
  }

  /** Between 1.6 and 2, the more candidates are missing the greater. */
  function Factor(missing: int): real
    requires missing > 0
  {
    if missing >= 5 then 2.0 else 1.5 + missing as real / 10.0
  }

  /**
   Nothing but the radius changes. It stays unless candidates are missing; then it becomes the rounded
   product with the factor, but no more than the limit, and never less than it was. So it grows exactly
   when candidates are missing, the product is greater and the limit is not reached.
   */
  lemma NextRadius(cfg: Settings, o: Oracles, st: State)
    ensures var next := Widened(cfg, o, st);
            && next == st.(radius := next.radius)
            && (Missing(cfg, st) <= 0 ==> next.radius == st.radius)
            && (Missing(cfg, st) > 0 ==>
                  var wider := o.round(Product(st.radius, Factor(Missing(cfg, st))));
                  && (wider <= Limit(cfg) && wider >= st.radius ==> next.radius == wider)
                  && (wider >= Limit(cfg) && Limit(cfg) >= st.radius ==> next.radius == Limit(cfg))
                  && (wider <= st.radius || Limit(cfg) <= st.radius ==> next.radius == st.radius)
                  && (next.radius > st.radius <==> wider > st.radius && st.radius < Limit(cfg)))
  {
    if Missing(cfg, st) > 0 {
      FactorIsClamped(Missing(cfg, st));
      hide Clamp, Factor;
    }
  }

  lemma FactorIsClamped(missing: int)
    requires missing > 0
    ensures Factor(missing) == Clamp(1.5 + 0.1 * missing as real, 1.2, 2.0) && 1.6 <= Factor(missing) <= 2.0
  {
    var m := missing as real;
    assert m >= 1.0 && (missing >= 5 <==> m >= 5.0);
    assert 0.1 * m == m / 10.0;
  }

  // ---------------------------------------------------------------------------
  // When the run stops
  // ---------------------------------------------------------------------------

  /** The confirmed candidates of at least 0.75 confidence, by their positions. */
  function SureOnes(rs: seq<Ranked>): set<int> {
    set i | 0 <= i < |rs| && rs[i].confidence >= 0.75
  }

  lemma {:induction false} SureOfLast(rs: seq<Ranked>)
    requires rs != []
    ensures Sure(rs) == Sure(rs[..|rs| - 1]) + if rs[|rs| - 1].confidence >= 0.75 then 1 else 0
  {
    if |rs| > 1 {
      SureOfLast(rs[1..]);
      assert rs[1..][..|rs| - 2] == rs[..|rs| - 1][1..];
    }
  }

  lemma {:induction false} SureIsCounted(rs: seq<Ranked>)
    ensures Sure(rs) == |SureOnes(rs)|
  {
    if rs != [] {
      var n := |rs| - 1;
      SureIsCounted(rs[..n]);
      SureOfLast(rs);
      var before := SureOnes(rs[..n]);
      if rs[n].confidence >= 0.75 {
        assert SureOnes(rs) == before + {n};
      } else {
        assert SureOnes(rs) == before;
      }
    }
  }

  /** Candidates are enough: the confident ones of those confirmed, or while none is confirmed all that qualified. */
  ghost predicate TargetReached(cfg: Settings, st: State) {
    if st.confirmed != [] then |SureOnes(st.confirmed)| >= cfg.targetCount else |st.qualified| >= cfg.targetCount
  }

  /** The state at the end of the iteration after the first n. */
  function Ended(cfg: Settings, o: Oracles, vendors: seq<Candidate>, n: nat): State {
    Iterate(cfg, o, After(cfg, o, vendors, n))
  }

  lemma {:induction false} LoopFrom(cfg: Settings, o: Oracles, vendors: seq<Candidate>, n: nat)
    requires n <= cfg.maxIterations && forall k :: 0 <= k < n ==> !Enough(cfg, Ended(cfg, o, vendors, k))
    ensures Loop(cfg, o, Initial(cfg, vendors)) == Loop(cfg, o, After(cfg, o, vendors, n))
    decreases n
  {
    hide Iterate, Widened, Enough, Initial;
    if n > 0 {
      LoopFrom(cfg, o, vendors, n - 1);
      EveryIterationKeeps(cfg, o, vendors, n - 1, n - 1);
      assert !Enough(cfg, Ended(cfg, o, vendors, n - 1));
      IterateKeeps(cfg, o, After(cfg, o, vendors, n - 1));
      WidenedKeeps(cfg, o, Ended(cfg, o, vendors, n - 1));
    }
  }

  /**
   The run ends with the first iteration that reaches the target, before the radius is widened again; if
   none does it makes all its iterations.
   */
  lemma {:induction false} StopsAtFirstEnough(cfg: Settings, o: Oracles, vendors: seq<Candidate>, n: nat)
    requires n <= cfg.maxIterations && forall k :: 0 <= k < n ==> !TargetReached(cfg, Ended(cfg, o, vendors, k))
    ensures var end := Discovered(cfg, o, vendors);
            && (n == cfg.maxIterations ==> end == After(cfg, o, vendors, n) && end.iteration == n)
            && (n < cfg.maxIterations && TargetReached(cfg, Ended(cfg, o, vendors, n)) ==>
                  end == Ended(cfg, o, vendors, n) && end.iteration == n + 1)
  {
    forall k | 0 <= k < n ensures !Enough(cfg, Ended(cfg, o, vendors, k)) {
      assert !TargetReached(cfg, Ended(cfg, o, vendors, k));
      SureIsCounted(Ended(cfg, o, vendors, k).confirmed);
    }
    LoopFrom(cfg, o, vendors, n);
    SureIsCounted(Ended(cfg, o, vendors, n).confirmed);
    EveryIterationKeeps(cfg, o, vendors, n, n);
    IterateKeeps(cfg, o, After(cfg, o, vendors, n));
    hide Iterate, Widened, Initial, SureOnes, Sure, Kept, Extends;
  }

  // ---------------------------------------------------------------------------
  // The radius over a run
  // ---------------------------------------------------------------------------

  /** 1.5 to the n-th. */
  function Grown(n: nat): (g: real)
    ensures g >= 1.0
  {
    if n == 0 then 1.0 else 1.5 * Grown(n - 1)
  }

  /** Rounding to one decimal. */
  ghost predicate RoundsToTenths(o: Oracles) {
    forall x: real :: x - 0.05 <= o.round(x) <= x + 0.05
  }

  lemma ProductGrows(radius: real, factor: real)
    requires radius >= 0.0 && factor >= 1.6
    ensures Product(radius, factor) >= 1.6 * radius
  {
    var more := factor - 1.6;
    assert radius * more >= 0.0;
    assert radius * factor == radius * more + 1.6 * radius;
  }

  lemma OneStepGrows(cfg: Settings, o: Oracles, st: State, low: real)
    requires RoundsToTenths(o) && Missing(cfg, st) > 0 && st.radius >= 0.5
    requires st.radius >= Limit(cfg) || st.radius >= low
    ensures var next := Widened(cfg, o, st); next.radius >= Limit(cfg) || next.radius >= 1.5 * low
  {
    NextRadius(cfg, o, st);
    FactorIsClamped(Missing(cfg, st));
    var f := Factor(Missing(cfg, st));
    hide Widened, Factor;
    var product := Product(st.radius, f);
    ProductGrows(st.radius, f);
    assert o.round(product) >= product - 0.05;
  }

  /**
   As long as candidates are missing the radius grows by at least half in every iteration, until it is at
   its limit: for every directory and all other answers, with rounding to tenths from half a kilometre on.
   */
  lemma {:induction false} RadiusGrowsToLimit(cfg: Settings, o: Oracles, vendors: seq<Candidate>, n: nat)
    requires RoundsToTenths(o) && cfg.baseRadius >= 0.5 && cfg.allowedExpansion >= 0.0
    requires n > 0 ==> Missing(cfg, Ended(cfg, o, vendors, n - 1)) > 0
    ensures var radius := After(cfg, o, vendors, n).radius;
            radius == Limit(cfg) || (radius < Limit(cfg) && radius >= cfg.baseRadius * Grown(n))
    decreases n
  {
    hide Iterate, Widened, Initial, RoundsToTenths, Counted, Pooled, Grown;
    EveryIterationKeeps(cfg, o, vendors, n, n);
    if n == 0 {
      InitialRadius(cfg, vendors);
    } else {
      var before := After(cfg, o, vendors, n - 1);
      EveryIterationKeeps(cfg, o, vendors, n - 1, n - 1);
      IterateKeepsRadius(cfg, o, before);
      if n > 1 {
        EveryIterationKeeps(cfg, o, vendors, n - 2, n - 2);
        WidenedKeeps(cfg, o, Ended(cfg, o, vendors, n - 2));
        IterateKeeps(cfg, o, before);
      }
      RadiusGrowsToLimit(cfg, o, vendors, n - 1);
      OneStepGrows(cfg, o, Ended(cfg, o, vendors, n - 1), cfg.baseRadius * Grown(n - 1));
      GrownStep(cfg.baseRadius, n);
    }
  }

  lemma GrownStep(base: real, n: nat)
    requires n > 0
    ensures 1.5 * (base * Grown(n - 1)) == base * Grown(n)
  {
  }

  lemma InitialRadius(cfg: Settings, vendors: seq<Candidate>)
    ensures Initial(cfg, vendors).radius == cfg.baseRadius && Grown(0) == 1.0
  {
  }

  lemma IterateKeepsRadius(cfg: Settings, o: Oracles, st: State)
    ensures Iterate(cfg, o, st).radius == st.radius
  {
    hide Searched;
    SearchedExtends(cfg, o, st);
  }
}
