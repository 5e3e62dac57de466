/** What visited_list, max_perf, no_imp_counter and max_theta have to do with each other,
    at every loop head and at the end of every run.
 */
module TuningTrace {
  import opened Options
  import opened Tuning

  const MARKERS := "+-*"

  predicate IsMeasuredBest(v: seq<Trace>, j: int) {
    && 0 <= j < |v| && v[j].perfMbps > 0.0
    && (forall i :: 0 <= i < |v| ==> v[i].perfMbps <= v[j].perfMbps)
    && (forall i :: 0 <= i < j ==> v[i].perfMbps < v[j].perfMbps)
  }

  // max_perf in Mb/s, max_theta, no_imp_counter and the perf_Mbps of prof_max
  datatype Summary = Summary(maxMbps: real, maxTheta: Pair, noImp: nat, saved: Option<real>)

  // What a list of measurements leaves in them, one entry after the other
  function SummaryOf(v: seq<Trace>, points: seq<Pair>): Summary
    requires |v| == |points|
  {
    if v == [] then Summary(0.0, Pair(0.0, 0.0), 0, None) else
    var n := |v| - 1;
    var b, mbps := SummaryOf(v[..n], points[..n]), v[n].perfMbps;
    if mbps > b.maxMbps then Summary(mbps, points[n], 0, Some(mbps)) else b.(noImp := b.noImp + 1)
  }

  predicate Marked(v: seq<Trace>) {
    v != [] ==> Marked(v[..|v| - 1]) && v[|v| - 1].marker == MARKERS[(|v| - 1) % 3]
  }

  predicate Consistent(s: State) {
    && |s.points| == |s.visited| == s.profNum && Marked(s.visited)
    && SummaryOf(s.visited, s.points) == Summary(s.maxPerf * 1000.0, s.maxTheta, s.noImp, s.saved)
  }

  // In terms of the list alone: no_imp_counter counts the entries after the first of the best
  // ones, or all of them if none is positive; the rest belongs to that first best entry.
  predicate Tracks(v: seq<Trace>, points: seq<Pair>, b: Summary)
    requires |v| == |points|
  {
    && b.noImp <= |v|
    && if b.noImp == |v|
       then b.maxMbps == 0.0 && b.maxTheta == Pair(0.0, 0.0) && b.saved == None
            && forall i :: 0 <= i < |v| ==> v[i].perfMbps <= 0.0
       else var j := |v| - 1 - b.noImp;
            && IsMeasuredBest(v, j) && b.maxTheta == points[j]
            && b.saved == Some(v[j].perfMbps) && b.maxMbps == v[j].perfMbps
  }

  lemma {:induction false} SummaryTracks(v: seq<Trace>, points: seq<Pair>)
    requires |v| == |points|
    ensures Tracks(v, points, SummaryOf(v, points))
  {
    if v != [] {
      var n := |v| - 1;
      SummaryTracks(v[..n], points[..n]);
    }
  }

  lemma {:induction false} MarkersCycle(v: seq<Trace>)
    requires Marked(v)
    ensures forall i :: 0 <= i < |v| ==> v[i].marker == MARKERS[i % 3]
  {
    if v != [] {
      MarkersCycle(v[..|v| - 1]);
    }
  }

  // The trace invariant as it reads at a loop head, and in the final state of a run
  lemma ConsistentMeans(s: State)
    requires Consistent(s)
    ensures Tracks(s.visited, s.points, Summary(s.maxPerf * 1000.0, s.maxTheta, s.noImp, s.saved))
    ensures forall i :: 0 <= i < |s.visited| ==> s.visited[i].marker == MARKERS[i % 3]
  {
    SummaryTracks(s.visited, s.points);
    MarkersCycle(s.visited);
  }

  lemma KeptConsistent(cfg: Config, s: State, theta: Pair, v: Pair, u: Setting, marker: char, m: Measurement)
    requires Consistent(s) && marker == MARKERS[|s.visited| % 3]
    ensures Consistent(Kept(cfg, s, theta, v, u, marker, m).s)
  {
  }

  lemma TriedConsistent(cfg: Config, s: State, theta: Pair, marker: char, m: Measurement)
    requires Consistent(s) && marker == MARKERS[|s.visited| % 3]
    ensures var r := Tried(cfg, s, theta, marker, m); Consistent(r.s) && (r.Go? ==> |r.s.visited| == |s.visited| + 1)
  {
    var v := Values(cfg, s.bufLow, s.bufHigh, theta);
    KeptConsistent(cfg, s, theta, v, SettingOf(cfg, v), marker, m);
  }

  predicate AtLoopHead(s: State) {
    Consistent(s) && |s.visited| == 3 * s.k
  }

  lemma HeadConsistent(cfg: Config, s: State)
    requires AtLoopHead(s)
    ensures AtLoopHead(Head(cfg, s).s)
  {
  }

  lemma AgainConsistent(cfg: Config, r: Step, theta: Pair, marker: char, m: Measurement)
    requires Consistent(r.s) && (r.Go? ==> marker == MARKERS[|r.s.visited| % 3])
    ensures var t := Again(cfg, r, theta, marker, m);
      Consistent(t.s) && (t.Go? ==> r.Go? && |t.s.visited| == |r.s.visited| + 1)
  {
  }

  lemma MarkersInOrder(n: nat)
    requires n % 3 == 0
    ensures MARKERS[n % 3] == '+' && MARKERS[(n + 1) % 3] == '-' && MARKERS[(n + 2) % 3] == '*'
  {
  }

  lemma ThriceConsistent(cfg: Config, s: State, plus: Pair, minus: Pair, star: Pair, i: Inputs)
    requires Consistent(s) && |s.visited| % 3 == 0
    ensures var r := Thrice(cfg, s, plus, minus, star, i);
      Consistent(r.s) && (r.Go? ==> |r.s.visited| == |s.visited| + 3)
  {
    MarkersInOrder(|s.visited|);
    TriedConsistent(cfg, s, plus, '+', i.plus);
    var r1 := Tried(cfg, s, plus, '+', i.plus);
    AgainConsistent(cfg, r1, minus, '-', i.minus);
    var r2 := Again(cfg, r1, minus, '-', i.minus);
    AgainConsistent(cfg, Moving(r2, star), star, '*', i.star);
  }

  lemma PassConsistent(cfg: Config, s: State, i: Inputs)
    requires AtLoopHead(s) && s.c != 0.0
    ensures Consistent(Pass(cfg, s, i).s)
    ensures Pass(cfg, s, i).Go? ==> AtLoopHead(Pass(cfg, s, i).s)
  {
    var t := Prepared(cfg, s, i);
    var ak, ck := s.a / i.aDen, s.c / i.cDen;
    ThriceConsistent(cfg, t, PlusPoint(t, ck, i), MinusPoint(t, ck, i), StarPoint(t, ak, ck, i), i);
    PassCounts(cfg, s, i);
  }

  lemma TurnConsistent(cfg: Config, s: State, oracle: Oracle)
    requires AtLoopHead(s) && s.c != 0.0 && cfg.cScale != 0.0
    ensures Consistent(Turn(cfg, s, oracle).s)
    ensures Turn(cfg, s, oracle).Go? ==> AtLoopHead(Turn(cfg, s, oracle).s)
  {
    HeadConsistent(cfg, s);
    HeadGain(cfg, s);
    var h := Head(cfg, s);
    if h.Go? {
      PassConsistent(cfg, h.s, oracle(s.k));
    }
  }

  // The trace invariant holds at every loop head of every run, and in the state every run ends with.
  lemma {:induction false} RunConsistent(cfg: Config, s: State, oracle: Oracle)
    requires AtLoopHead(s) && s.c != 0.0 && cfg.cScale != 0.0
    ensures forall h <- Heads(cfg, s, oracle) :: AtLoopHead(h)
    ensures Consistent(Run(cfg, s, oracle).0)
    decreases cfg.MaxProfLimit() - s.profNum
  {
    TurnConsistent(cfg, s, oracle);
    var r := Turn(cfg, s, oracle);
    if r.Go? {
      RunConsistent(cfg, r.s, oracle);
    }
  }

  lemma StartConsistent(cfg: Config, a: real, c: real, theta: Pair, rttMs: real)
    ensures AtLoopHead(Start(cfg, a, c, theta, rttMs))
  {
  }

  // ---------- Exits and budgets ----------

  // The measurements of ceil(n/3) full passes
  function RoundedUp(n: nat): nat {
    (n + 2) / 3 * 3
  }

  // At a loop head the counter is at most two above the limit, and a head is only reached below N.
  predicate Bounded(cfg: Config, s: State) {
    && AtLoopHead(s) && s.noImp <= cfg.NoImpLimit() + 2 && |s.visited| <= RoundedUp(cfg.MaxProfLimit())
  }

  // A further measurement adds at most one to the list and to the counter.
  predicate Grown(s: State, r: Step, most: nat) {
    && r.s.noImp <= s.noImp + most && |r.s.visited| <= |s.visited| + most
    && (r.Stop? ==> r.why in {RunFailed, StoreFailed, Gain})
  }

  lemma TriedGrown(cfg: Config, s: State, theta: Pair, marker: char, m: Measurement)
    ensures Grown(s, Tried(cfg, s, theta, marker, m), 1)
  {
  }

  lemma ThriceGrown(cfg: Config, s: State, plus: Pair, minus: Pair, star: Pair, i: Inputs)
    ensures Grown(s, Thrice(cfg, s, plus, minus, star, i), 3)
  {
    TriedGrown(cfg, s, plus, '+', i.plus);
    var r1 := Tried(cfg, s, plus, '+', i.plus);
    TriedGrown(cfg, r1.s, minus, '-', i.minus);
    var r2 := Again(cfg, r1, minus, '-', i.minus);
    TriedGrown(cfg, Moving(r2, star).s, star, '*', i.star);
  }

  lemma PassGrown(cfg: Config, s: State, i: Inputs)
    requires s.c != 0.0
    ensures Grown(s, Pass(cfg, s, i), 3)
  {
    var t := Prepared(cfg, s, i);
    var ak, ck := s.a / i.aDen, s.c / i.cDen;
    ThriceGrown(cfg, t, PlusPoint(t, ck, i), MinusPoint(t, ck, i), StarPoint(t, ak, ck, i), i);
  }

  lemma RoundingUp(k: nat, n: nat)
    ensures 3 * k < n ==> 3 * k + 3 <= RoundedUp(n)
    ensures 3 * k >= n && 3 * k <= RoundedUp(n) ==> 3 * k == RoundedUp(n)
  {
  }

  lemma HeadBounds(cfg: Config, s: State)
    requires Bounded(cfg, s)
    ensures var h := Head(cfg, s);
      && h.s.visited == s.visited && h.s.noImp == s.noImp && h.s.profNum == s.profNum
      && (h.Go? ==> s.noImp < cfg.NoImpLimit() && |s.visited| + 3 <= RoundedUp(cfg.MaxProfLimit()))
      && (h.Stop? && h.why.UpperBound? ==> |s.visited| == RoundedUp(cfg.MaxProfLimit()))
      && (h.Stop? && h.why.Impeded? ==> s.noImp >= cfg.NoImpLimit())
  {
  }

  lemma TurnBounded(cfg: Config, s: State, oracle: Oracle)
    requires Bounded(cfg, s) && s.c != 0.0 && cfg.cScale != 0.0
    ensures var r := Turn(cfg, s, oracle);
      && |r.s.visited| <= RoundedUp(cfg.MaxProfLimit()) && (r.Go? ==> Bounded(cfg, r.s))
      && (r.Stop? && r.why.UpperBound? ==> |r.s.visited| == RoundedUp(cfg.MaxProfLimit()))
      && (r.Stop? && r.why.Impeded? ==> cfg.NoImpLimit() <= r.s.noImp <= cfg.NoImpLimit() + 2)
  {
    TurnConsistent(cfg, s, oracle);
    HeadGain(cfg, s);
    HeadBounds(cfg, s);
    var h := Head(cfg, s);
    if h.Go? {
      PassGrown(cfg, h.s, oracle(s.k));
    }
  }

  // How many measurements each exit leaves behind.
  lemma {:induction false} ExitBudgets(cfg: Config, s: State, oracle: Oracle)
    requires Bounded(cfg, s) && s.c != 0.0 && cfg.cScale != 0.0
    ensures var (t, why) := Run(cfg, s, oracle); var full := RoundedUp(cfg.MaxProfLimit());
      && |t.visited| <= full
      && (why.UpperBound? ==> |t.visited| == full)
      && (why.Impeded? ==> cfg.NoImpLimit() <= t.noImp <= cfg.NoImpLimit() + 2)
    decreases cfg.MaxProfLimit() - s.profNum
  {
    TurnBounded(cfg, s, oracle);
    var r := Turn(cfg, s, oracle);
    if r.Go? {
      ExitBudgets(cfg, r.s, oracle);
    }
  }

  // At most ceil(N/3) passes
  lemma PassLimit(cfg: Config, s: State, oracle: Oracle)
    requires s.c != 0.0 && cfg.cScale != 0.0 && AtLoopHead(s) && s.profNum == 0
    ensures |Heads(cfg, s, oracle)| - 1 <= (cfg.MaxProfLimit() + 2) / 3
  {
    HeadCount(cfg, s, oracle);
  }

  lemma {:induction false} HeadCount(cfg: Config, s: State, oracle: Oracle)
    requires s.c != 0.0 && cfg.cScale != 0.0
    ensures var n := cfg.MaxProfLimit();
      |Heads(cfg, s, oracle)| - 1 <= if s.profNum >= n then 0 else (n - s.profNum + 2) / 3
    decreases cfg.MaxProfLimit() - s.profNum
  {
    var r := Turn(cfg, s, oracle);
    if r.Go? {
      HeadCount(cfg, r.s, oracle);
    }
  }

  // ---------- The performance gain exit ----------

  lemma TriedGain(cfg: Config, s: State, theta: Pair, marker: char, m: Measurement)
    requires !cfg.GainReached(s.maxPerf)
    ensures var r := Tried(cfg, s, theta, marker, m);
      && (r.Go? ==> !cfg.GainReached(r.s.maxPerf))
      && (r.Stop? && r.why.Gain? ==> cfg.GainReached(r.s.maxPerf) && r.s.noImp == 0 && r.s.visited != [])
  {
  }

  lemma ThriceGain(cfg: Config, s: State, plus: Pair, minus: Pair, star: Pair, i: Inputs)
    requires !cfg.GainReached(s.maxPerf)
    ensures var r := Thrice(cfg, s, plus, minus, star, i);
      && (r.Go? ==> !cfg.GainReached(r.s.maxPerf))
      && (r.Stop? && r.why.Gain? ==> cfg.GainReached(r.s.maxPerf) && r.s.noImp == 0 && r.s.visited != [])
  {
    TriedGain(cfg, s, plus, '+', i.plus);
    var r1 := Tried(cfg, s, plus, '+', i.plus);
    if r1.Go? {
      TriedGain(cfg, r1.s, minus, '-', i.minus);
    }
    var r2 := Again(cfg, r1, minus, '-', i.minus);
    if r2.Go? {
      TriedGain(cfg, r2.s.(theta := star), star, '*', i.star);
    }
  }

  lemma PassGain(cfg: Config, s: State, i: Inputs)
    requires s.c != 0.0 && !cfg.GainReached(s.maxPerf)
    ensures var r := Pass(cfg, s, i);
      && (r.Go? ==> !cfg.GainReached(r.s.maxPerf))
      && (r.Stop? && r.why.Gain? ==> cfg.GainReached(r.s.maxPerf) && r.s.noImp == 0 && r.s.visited != [])
  {
    var t := Prepared(cfg, s, i);
    var ak, ck := s.a / i.aDen, s.c / i.cDen;
    ThriceGain(cfg, t, PlusPoint(t, ck, i), MinusPoint(t, ck, i), StarPoint(t, ak, ck, i), i);
  }

  // When nothing is measured yet the gain test can only fire on a ratio of 0 and a known bandwidth.
  lemma GainAtStart(cfg: Config)
    ensures cfg.GainReached(0.0) <==> cfg.bwBps != 0.0 && cfg.pgr == 0.0
  {
  }

  // The gain test has not succeeded at any loop head, so that exit always comes right after an improvement.
  lemma {:induction false} GainOnlyAfterImprovement(cfg: Config, s: State, oracle: Oracle)
    requires s.c != 0.0 && cfg.cScale != 0.0 && !cfg.GainReached(s.maxPerf)
    ensures forall h <- Heads(cfg, s, oracle) :: !cfg.GainReached(h.maxPerf)
    ensures var (t, why) := Run(cfg, s, oracle);
      why.Gain? ==> cfg.GainReached(t.maxPerf) && t.noImp == 0 && t.visited != []
    decreases cfg.MaxProfLimit() - s.profNum
  {
    HeadGain(cfg, s);
    var h := Head(cfg, s);
    if h.Go? {
      PassGain(cfg, h.s, oracle(s.k));
      var r := Turn(cfg, s, oracle);
      if r.Go? {
        GainOnlyAfterImprovement(cfg, r.s, oracle);
      }
    }
  }

  // With an unknown (negative) bandwidth and a positive ratio that exit never happens.
  lemma NegativeBandwidth(cfg: Config, s: State, oracle: Oracle)
    requires s.c != 0.0 && cfg.cScale != 0.0 && AtLoopHead(s) && cfg.bwBps < 0.0 && cfg.GainRatio() > 0.0
    ensures !Run(cfg, s, oracle).1.Gain?
  {
    RunConsistent(cfg, s, oracle);
    var t := Run(cfg, s, oracle).0;
    assert s.maxPerf >= 0.0 by { ConsistentMeans(s); }
    assert t.maxPerf >= 0.0 by { ConsistentMeans(t); }
    NotReached(cfg, s.maxPerf);
    GainOnlyAfterImprovement(cfg, s, oracle);
    NotReached(cfg, t.maxPerf);
  }

  lemma NotReached(cfg: Config, maxPerf: real)
    requires cfg.bwBps < 0.0 && cfg.GainRatio() > 0.0 && maxPerf >= 0.0
    ensures !cfg.GainReached(maxPerf)
  {
  }

  // A performance, in Gb/s, up to which the gain test fails
  function Below(cfg: Config): (x: real)
    requires cfg.bwBps != 0.0 && cfg.pgr != 0.0
    ensures x > 0.0
  {
    if cfg.bwBps < 0.0 then 1.0 else Half(cfg.GainRatio(), cfg.bwBps / 1000000000.0)
  }

  function Half(x: real, y: real): (r: real)
    requires x > 0.0 && y > 0.0
    ensures 0.0 < r < x * y
  {
    assert x * y > 0.0;
    x * y / 2.0
  }

  lemma BelowFails(cfg: Config, maxPerf: real)
    requires cfg.bwBps != 0.0 && cfg.pgr != 0.0 && 0.0 <= maxPerf <= Below(cfg)
    ensures !cfg.GainReached(maxPerf)
  {
    if cfg.bwBps < 0.0 {
      NotReached(cfg, maxPerf);
    } else {
      QuotientBelow(maxPerf, cfg.bwBps / 1000000000.0, cfg.GainRatio());
    }
  }

  lemma QuotientBelow(x: real, d: real, r: real)
    requires d > 0.0 && x < r * d
    ensures x / d < r
  {
    var q := x / d;
    assert q * d == x;
  }
}
