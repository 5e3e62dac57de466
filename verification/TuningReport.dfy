/** Which setting a run reports. */
module TuningReport {
  import opened Options
  import opened Probes
  import opened Tuning
  import opened TuningSteps
  import opened TuningTrace

  // ---------- The reported setting ----------

  // Every setting written so far has been measured: it is that of the visited entry.
  predicate Counted(cfg: Config, s: State) {
    && |s.used| == |s.visited|
    && forall i :: 0 <= i < |s.used| ==> s.used[i] == SettingOf(cfg, Pair(s.visited[i].first, s.visited[i].second))
  }

  // All but perhaps the last, whose run or record failed, have been.
  predicate Backed(cfg: Config, s: State) {
    && |s.visited| <= |s.used|
    && forall i :: 0 <= i < |s.visited| ==> s.used[i] == SettingOf(cfg, Pair(s.visited[i].first, s.visited[i].second))
  }

  lemma TriedCounted(cfg: Config, s: State, theta: Pair, marker: char, m: Measurement)
    requires Counted(cfg, s)
    ensures var r := Tried(cfg, s, theta, marker, m); Backed(cfg, r.s) && (r.Go? || r.why.Gain? ==> Counted(cfg, r.s))
  {
  }

  lemma ThriceCounted(cfg: Config, s: State, plus: Pair, minus: Pair, star: Pair, i: Inputs)
    requires Counted(cfg, s)
    ensures var r := Thrice(cfg, s, plus, minus, star, i);
      Backed(cfg, r.s) && (r.Go? || r.why.Gain? ==> Counted(cfg, r.s))
  {
    TriedCounted(cfg, s, plus, '+', i.plus);
    var r1 := Tried(cfg, s, plus, '+', i.plus);
    if r1.Go? {
      TriedCounted(cfg, r1.s, minus, '-', i.minus);
    }
    var r2 := Again(cfg, r1, minus, '-', i.minus);
    if r2.Go? {
      TriedCounted(cfg, r2.s.(theta := star), star, '*', i.star);
    }
  }

  lemma PassCounted(cfg: Config, s: State, i: Inputs)
    requires s.c != 0.0 && Counted(cfg, s)
    ensures var r := Pass(cfg, s, i); Backed(cfg, r.s) && (r.Go? || r.why.Gain? ==> Counted(cfg, r.s))
  {
    var t := Prepared(cfg, s, i);
    var ak, ck := s.a / i.aDen, s.c / i.cDen;
    ThriceCounted(cfg, t, PlusPoint(t, ck, i), MinusPoint(t, ck, i), StarPoint(t, ak, ck, i), i);
  }

  predicate Completed(why: Why) {
    why.UpperBound? || why.Impeded? || why.Gain?
  }

  lemma {:induction false} RunCounted(cfg: Config, s: State, oracle: Oracle)
    requires Counted(cfg, s) && s.c != 0.0 && cfg.cScale != 0.0
    ensures var (t, why) := Run(cfg, s, oracle); Backed(cfg, t) && (Completed(why) ==> Counted(cfg, t))
    decreases cfg.MaxProfLimit() - s.profNum
  {
    HeadGain(cfg, s);
    var h := Head(cfg, s);
    if h.Go? {
      PassCounted(cfg, h.s, oracle(s.k));
      PassGrown(cfg, h.s, oracle(s.k));
      var r := Turn(cfg, s, oracle);
      if r.Go? {
        RunCounted(cfg, r.s, oracle);
      }
    }
  }

  // prof_max holds a pointer to the one test object, so what is printed through it is the last
  // setting written; None while nothing has been copied to prof_max.
  function Reported(s: State): Option<Setting> {
    if s.saved.None? || s.used == [] then None else Some(s.used[|s.used| - 1])
  }

  // The setting that the recorded best performance was measured with
  function BestSetting(s: State): Option<Setting> {
    var j := |s.visited| - 1 - s.noImp;
    if 0 <= j < |s.used| then Some(s.used[j]) else None
  }

  // The gain exit reports the setting of its best measurement, except that a ratio of 0 and a
  // known bandwidth end the run by that exit before anything is measured.
  lemma GainReportsBest(cfg: Config, oracle: Oracle, a: real, c: real, theta: Pair, rttMs: real, t: State, why: Why)
    requires c != 0.0 && cfg.cScale != 0.0
    requires (t, why) == Run(cfg, Start(cfg, a, c, theta, rttMs), oracle) && why.Gain?
    ensures (Reported(t).Some? && Reported(t) == BestSetting(t)) <==> !(cfg.bwBps != 0.0 && cfg.pgr == 0.0)
  {
    var z := Start(cfg, a, c, theta, rttMs);
    GainAtStart(cfg);
    if !cfg.GainReached(0.0) {
      GainOnlyAfterImprovement(cfg, z, oracle);
      StartConsistent(cfg, a, c, theta, rttMs);
      RunConsistent(cfg, z, oracle);
      ConsistentMeans(t);
      LastIsBest(cfg, oracle, z, t, why);
    }
  }

  // For every exit: the report is right if the best measurement was the last one.
  lemma LastIsBest(cfg: Config, oracle: Oracle, z: State, t: State, why: Why)
    requires cfg.cScale != 0.0 && z.c != 0.0 && AtLoopHead(z) && Counted(cfg, z)
    requires (t, why) == Run(cfg, z, oracle)
    ensures Completed(why) && t.saved.Some? ==>
      Reported(t).Some? && BestSetting(t).Some? && (t.noImp == 0 ==> Reported(t) == BestSetting(t))
  {
    RunCounted(cfg, z, oracle);
    RunConsistent(cfg, z, oracle);
    if Completed(why) && t.saved.Some? {
      LastReported(cfg, t);
    }
  }

  lemma LastReported(cfg: Config, t: State)
    requires Counted(cfg, t) && Consistent(t) && t.saved.Some?
    ensures Reported(t).Some? && BestSetting(t).Some? && (t.noImp == 0 ==> Reported(t) == BestSetting(t))
  {
    ConsistentMeans(t);
  }

  // What the two are, from the list of measurements alone: in a completed run that measured something positive
  // the first of the greatest entries has its setting at the same place, and the report is the last setting.
  lemma ReportMeans(cfg: Config, oracle: Oracle, a: real, c: real, theta: Pair, rttMs: real, t: State, why: Why)
      returns (j: nat)
    requires c != 0.0 && cfg.cScale != 0.0
    requires (t, why) == Run(cfg, Start(cfg, a, c, theta, rttMs), oracle)
    requires Completed(why) && exists x :: x in t.visited && x.perfMbps > 0.0
    ensures j < |t.visited| == |t.used| && BestSetting(t) == Some(t.used[j])
    ensures Reported(t) == Some(t.used[|t.used| - 1]) && t.saved == Some(t.visited[j].perfMbps)
    ensures forall i :: 0 <= i < |t.visited| ==> t.visited[i].perfMbps <= t.visited[j].perfMbps
    ensures forall i :: 0 <= i < j ==> t.visited[i].perfMbps < t.visited[j].perfMbps
  {
    var z := Start(cfg, a, c, theta, rttMs);
    StartConsistent(cfg, a, c, theta, rttMs);
    RunConsistent(cfg, z, oracle);
    RunCounted(cfg, z, oracle);
    j := BestAt(cfg, t);
  }

  lemma BestAt(cfg: Config, t: State) returns (j: nat)
    requires Counted(cfg, t) && Consistent(t) && exists x :: x in t.visited && x.perfMbps > 0.0
    ensures j < |t.visited| == |t.used| && BestSetting(t) == Some(t.used[j])
    ensures Reported(t) == Some(t.used[|t.used| - 1]) && t.saved == Some(t.visited[j].perfMbps)
    ensures forall i :: 0 <= i < |t.visited| ==> t.visited[i].perfMbps <= t.visited[j].perfMbps
    ensures forall i :: 0 <= i < j ==> t.visited[i].perfMbps < t.visited[j].perfMbps
  {
    SummaryTracks(t.visited, t.points);
    assert t.noImp < |t.visited|;
    j := |t.visited| - 1 - t.noImp;
  }

  // ---------- One run that misreports ----------

  const DemoConfig := Config(Tcp, 1000000, -1.0, -1.0, 30, 1, 1.0, 1.0)

  // The powers of the first pass, 2^0.602 and 2^0.101
  predicate FirstPowers(aDen: real, cDen: real) {
    1.517 <= aDen <= 1.519 && 1.072 <= cDen <= 1.073
  }

  function DemoInputs(aDen: Positive, cDen: Positive): Inputs {
    Inputs(-1.0, 0, 0, aDen, cDen, 1.0, 1.0, Measured(20000.0, true), Measured(1000.0, true), Measured(500.0, true))
  }

  lemma Share(den: real, low: real, high: real, q: real)
    requires 0.0 < low <= den <= high && q == 1.0 / den
    ensures 1.0 / high <= q <= 1.0 / low
  {
  }

  lemma Between(x: real, low: real, high: real, k: real)
    requires low <= x <= high && k > 0.0
    ensures low * k <= x * k <= high * k
  {
    assert (x - low) * k >= 0.0 && (high - x) * k >= 0.0;
  }

  // The slope of a rise of 19 Gb/s over two perturbation gains, and the step along it
  lemma DemoSlope(ck: real, d: real, g: real)
    requires 0.93 <= ck <= 0.94 && d == 2.0 * ck && g == 19.0 / d
    ensures 10.1 <= g <= 10.22
  {
    assert g * d == 19.0;
    if g < 10.1 {
      Between(g, g, 10.1, d);
    }
    if g > 10.22 {
      Between(g, 10.22, g, d);
    }
  }

  lemma Corner(x: real, y: real, p: real, q: real)
    requires 0.0 < x <= y && 0.0 < p <= q
    ensures x * p <= y * q
  {
    Between(x, x, y, p);
    Between(p, p, q, y);
  }

  lemma DemoMove(ak: real, g: real)
    requires 0.65 <= ak <= 0.66 && 10.1 <= g <= 10.22
    ensures 19.5 <= Moved(13.0, ak, g) < 20.0
  {
    Corner(0.65, ak, 10.1, g);
    Corner(ak, 0.66, g, 10.22);
  }

  lemma DemoStep(theta: Pair, ak: real, ck: real, p: Pair, m: Pair, d: real, g: real)
    requires theta == Pair(13.0, 13.0) && 0.65 <= ak <= 0.66 && 0.93 <= ck <= 0.94
    requires p.x - m.x == p.y - m.y == d == 2.0 * ck && g == 19.0 / d
    ensures var z := SecantStep(theta, ak, 19.0, p, m); 19.5 <= z.y < 20.0
  {
    DemoSlope(ck, d, g);
    SameQuotient(19.0, p.y - m.y, d);
    DemoMove(ak, g);
  }

  lemma DemoProbes(t: State, ck: real, i: Inputs)
    requires t.theta == Pair(13.0, 13.0) && 0.93 <= ck <= 0.94 && i.deltaX == i.deltaY == 1.0
    ensures PlusPoint(t, ck, i) == Pair(13.0 + ck, 13.0 + ck) && MinusPoint(t, ck, i) == Pair(13.0 - ck, 13.0 - ck)
  {
  }

  lemma DemoStar(t: State, ak: real, ck: real, i: Inputs, p: Pair, m: Pair)
    requires t.theta == Pair(13.0, 13.0) && 0.65 <= ak <= 0.66 && 0.93 <= ck <= 0.94
    requires Mbps(i.plus) / 1000.0 - Mbps(i.minus) / 1000.0 == 19.0 && i.deltaX == i.deltaY == 1.0
    requires p == PlusPoint(t, ck, i) && m == MinusPoint(t, ck, i)
    ensures 19.5 <= StarPoint(t, ak, ck, i).y < 20.0
  {
    StarIsAlong(t, ak, ck, i, p, m, 19.0);
    DemoProbes(t, ck, i);
    DemoStep(t.theta, ak, ck, p, m, 2.0 * ck, 19.0 / (2.0 * ck));
  }

  lemma DemoThrice(s: State, p: Pair, m: Pair, z: Pair, i: Inputs)
    requires s.maxPerf == 0.0 && s.used == [] && s.visited == []
    requires i.plus == Measured(20000.0, true) && i.minus == Measured(1000.0, true) && i.star == Measured(500.0, true)
    ensures var r := Thrice(DemoConfig, s, p, m, z, i);
      && r.Go? && r.s.saved == Some(20000.0) && r.s.noImp == 2 && |r.s.visited| == |r.s.used| == 3
      && r.s.profNum == s.profNum + 3 && r.s.k == s.k && r.s.c == s.c
      && r.s.used[0] == SettingAt(DemoConfig, s, p) && r.s.used[2] == SettingAt(DemoConfig, s, z)
  {
    NotReached(DemoConfig, 20.0);
    var r1 := Tried(DemoConfig, s, p, '+', i.plus);
    assert r1.Go? && r1.s.maxPerf == 20.0 && r1.s.noImp == 0;
    IdleTried(DemoConfig, r1.s, m, '-', i.minus);
    var r2 := Again(DemoConfig, r1, m, '-', i.minus);
    IdleTried(DemoConfig, r2.s.(theta := z), z, '*', i.star);
  }

  lemma DemoStreams(s: State, theta: Pair)
    ensures var u := SettingAt(DemoConfig, s, theta); u.TcpSetting? && u.streams == Round(theta.y)
  {
  }

  lemma DemoSettings(t: State, p: Pair, m: Pair, z: Pair, i: Inputs, r: Step)
    requires t.maxPerf == 0.0 && t.used == [] && t.visited == [] && r == Thrice(DemoConfig, t, p, m, z, i)
    requires i == DemoInputs(i.aDen, i.cDen) && 13.5 <= p.y < 14.5 && 19.5 <= z.y < 20.0
    ensures r.Go? && r.s.saved == Some(20000.0) && r.s.noImp == 2 && |r.s.visited| == |r.s.used| == 3
    ensures r.s.profNum == t.profNum + 3 && r.s.c == t.c
    ensures r.s.used[0].TcpSetting? && r.s.used[0].streams == 14 && r.s.used[2].TcpSetting? && r.s.used[2].streams == 20
  {
    DemoThrice(t, p, m, z, i);
    DemoStreams(t, p);
    DemoStreams(t, z);
  }

  lemma DemoPass(z: State, i: Inputs, t: State, ak: real, ck: real)
    requires z.a != 0.0 && z.c != 0.0 && z.maxPerf == 0.0 && z.used == [] && z.visited == []
    requires z.theta == Pair(13.0, 13.0)
    requires i == DemoInputs(i.aDen, i.cDen) && t == Prepared(DemoConfig, z, i)
    requires ak == z.a / i.aDen && ck == z.c / i.cDen
    requires 0.65 <= ak <= 0.66 && 0.93 <= ck <= 0.94
    ensures var r := Pass(DemoConfig, z, i);
      && r.Go? && r.s.saved == Some(20000.0) && r.s.noImp == 2 && |r.s.visited| == |r.s.used| == 3
      && r.s.profNum == z.profNum + 3 && r.s.c == z.c
      && r.s.used[0].TcpSetting? && r.s.used[0].streams == 14 && r.s.used[2].TcpSetting? && r.s.used[2].streams == 20
  {
    var p, m := PlusPoint(t, ck, i), MinusPoint(t, ck, i);
    DemoProbes(t, ck, i);
    DemoStar(t, ak, ck, i, p, m);
    DemoSettings(t, p, m, StarPoint(t, ak, ck, i), i, Pass(DemoConfig, z, i));
  }

  lemma DemoGains(z: State, i: Inputs, ak: real, ck: real)
    requires z.a == z.c == 1.0 && FirstPowers(i.aDen, i.cDen) && ak == z.a / i.aDen && ck == z.c / i.cDen
    ensures 0.65 <= ak <= 0.66 && 0.93 <= ck <= 0.94
  {
    Share(i.aDen, 1.517, 1.519, ak);
    Share(i.cDen, 1.072, 1.073, ck);
  }

  // 20 Gb/s is measured with 14 streams, and 20 streams are reported.
  lemma ReportCanBeWrong(z: State, oracle: Oracle)
    requires z == Start(DemoConfig, 1.0, 1.0, Pair(13.0, 13.0), -1.0)
    requires FirstPowers(oracle(0).aDen, oracle(0).cDen) && oracle(0) == DemoInputs(oracle(0).aDen, oracle(0).cDen)
    ensures var (t, why) := Run(DemoConfig, z, oracle);
      && why.UpperBound? && t.saved == Some(20000.0) && BestSetting(t).Some? && Reported(t).Some?
      && BestSetting(t).value.TcpSetting? && BestSetting(t).value.streams == 14
      && Reported(t).value.TcpSetting? && Reported(t).value.streams == 20
  {
    NotReached(DemoConfig, 0.0);
    var i := oracle(0);
    var ak, ck := z.a / i.aDen, z.c / i.cDen;
    DemoGains(z, i, ak, ck);
    DemoPass(z, i, Prepared(DemoConfig, z, i), ak, ck);
    DemoEnds(z, oracle, Pass(DemoConfig, z, i).s);
  }

  lemma DemoEnds(z: State, oracle: Oracle, r: State)
    requires z.c != 0.0 && Head(DemoConfig, z) == Go(z) && z.k == 0 && Pass(DemoConfig, z, oracle(0)) == Go(r)
    requires r.profNum >= 1 && r.c != 0.0
    ensures Run(DemoConfig, z, oracle) == (r, UpperBound)
  {
    assert Turn(DemoConfig, z, oracle) == Go(r);
    assert Turn(DemoConfig, r, oracle) == Stop(r, UpperBound);
  }
}
