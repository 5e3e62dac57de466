/** For which configurations the report of a run is right: a last pass that measures the best point away
    from theta ends with another setting on the test object that prof_max shares.
 */
module WrongReports {
  import opened Climbs
  import opened Options
  import opened Probes
  import opened Tuning
  import opened TuningReport
  import opened TuningSteps
  import opened TuningTrace

  // ---------- Settings that differ ----------

  // The parameter that does not depend on the buffer window: streams for TCP, block size for UDT
  function Tuned(u: Setting): int {
    if u.TcpSetting? then u.streams else u.block
  }

  function Free(cfg: Config, theta: Pair): real {
    if cfg.kind.Tcp? then theta.y else theta.x
  }

  function Unit(cfg: Config): int {
    if cfg.kind.Tcp? then 1 else cfg.kind.mss - 44
  }

  function TunedAt(cfg: Config, theta: Pair): int {
    Round(Free(cfg, theta) * Unit(cfg) as real)
  }

  lemma TunedIs(cfg: Config, s: State, theta: Pair)
    ensures Tuned(SettingAt(cfg, s, theta)) == TunedAt(cfg, theta)
  {
    assert ThetaToVal(1.0, 25.0, Free(cfg, theta)) == Free(cfg, theta);
  }

  // So far apart that the parameter differs by one or more
  predicate Apart(x: real, y: real, unit: real) {
    (x - y) * unit >= 1.0 || (y - x) * unit >= 1.0
  }

  lemma RoundsApart(cfg: Config, s: State, p: Pair, q: Pair, unit: real)
    requires unit == Unit(cfg) as real && Apart(Free(cfg, p), Free(cfg, q), unit)
    ensures Tuned(SettingAt(cfg, s, p)) != Tuned(SettingAt(cfg, s, q))
  {
    TunedIs(cfg, s, p);
    TunedIs(cfg, s, q);
    Distributes(Free(cfg, p), Free(cfg, q), unit);
  }

  lemma Distributes(x: real, y: real, u: real)
    ensures (x - y) * u == x * u - y * u && (y - x) * u == y * u - x * u
  {
  }

  // ---------- A pass that leaves its best point ----------

  // The perturbation towards the farther end of the box
  function Far(x: real): Sign {
    if x <= 13.0 then 1.0 else -1.0
  }

  lemma FarProbe(x: real, ck: real, unit: real, p: real)
    requires InBox(x) && ck > 0.0 && unit >= 1.0 && ck * unit >= 1.0 && p == Plus(x, ck, Far(x)).at
    ensures Apart(p, x, unit)
  {
    ProbesAreClamped(x, ck, Far(x));
    if x <= 13.0 {
      AtLeast(p, x, ck, unit);
    } else {
      AtLeast(x, p, ck, unit);
    }
  }

  lemma AtLeast(x: real, y: real, ck: real, u: real)
    requires u >= 1.0 && ck * u >= 1.0 && (x - y == ck || x - y >= 12.0)
    ensures (x - y) * u >= 1.0
  {
    var far := x - y;
    if far >= 12.0 {
      assert (far - 12.0) * u >= 0.0;
    }
    assert far * u >= 1.0;
  }

  // Without a rise theta(*) stays at theta.
  lemma NoRise(x: real, ak: real, ck: real, delta: Sign, g: real)
    requires InBox(x) && ck != 0.0 && g == Slope(x, ck, delta, 0.0)
    ensures Moved(x, ak, g) == x
  {
    var p, m := Plus(x, ck, delta).at, Minus(x, ck, delta).at;
    SecantSlope(x, ck, delta, 0.0, p, m);
    ZeroOver(p - m);
  }

  lemma ZeroOver(d: real)
    requires d != 0.0
    ensures 0.0 / d == 0.0
  {
  }

  lemma StarStays(t: State, ak: real, ck: real, i: Inputs)
    requires InBox(t.theta.x) && InBox(t.theta.y) && ck != 0.0 && Mbps(i.plus) == Mbps(i.minus)
    ensures StarPoint(t, ak, ck, i) == t.theta
  {
    var gx, gy := Slope(t.theta.x, ck, i.deltaX, 0.0), Slope(t.theta.y, ck, i.deltaY, 0.0);
    NoRise(t.theta.x, ak, ck, i.deltaX, gx);
    NoRise(t.theta.y, ak, ck, i.deltaY, gy);
  }

  // y(+) improves, y(-) is as good, and y(*) is 0.
  function Straying(s: State, e: real, d: Powers, k: nat): Inputs {
    var best := Height(e, 3 * k + 1);
    Quiet(d, k, Far(Clamp(s.theta.x)), Far(Clamp(s.theta.y)), best, best, 0.0)
  }

  lemma StrayingThrice(cfg: Config, t: State, p: Pair, m: Pair, z: Pair, e: real, k: nat, i: Inputs)
    requires Slow(cfg, e) && 3 * k < cfg.MaxProfLimit() && Climbed(t, e, 3 * k)
    requires i.plus == i.minus == Measured(Height(e, 3 * k + 1), true) && i.star == Measured(0.0, true)
    ensures var r := Thrice(cfg, t, p, m, z, i);
      && r.Go? && |r.s.visited| == 3 * k + 3 && r.s.noImp == 2 && r.s.saved.Some? && !cfg.GainReached(r.s.maxPerf)
      && r.s.used == t.used + [SettingAt(cfg, t, p), SettingAt(cfg, t, m), SettingAt(cfg, t, z)]
      && r.s.k == t.k && r.s.c == t.c && r.s.profNum == t.profNum + 3
  {
    TriedClimbs(cfg, t, p, '+', e, 3 * k);
    var r1 := Tried(cfg, t, p, '+', i.plus);
    ClimbFails(cfg, r1.s, e, 3 * k + 1);
    HeightGrows(e, 3 * k + 1, 3 * k + 1);
    assert Idle(r1.s, i.minus) && Idle(r1.s, i.star);
    IdleTried(cfg, r1.s, m, '-', i.minus);
    var r2 := Again(cfg, r1, m, '-', i.minus);
    IdleTried(cfg, r2.s.(theta := z), z, '*', i.star);
  }

  // What a state prints is not its best setting.
  predicate Astray(s: State) {
    && s.saved.Some? && s.noImp == 2 && |s.used| == |s.visited| >= 3
    && s.used[|s.used| - 1] != s.used[|s.used| - 3]
  }

  lemma AstrayReport(s: State)
    requires Astray(s)
    ensures Reported(s) != BestSetting(s)
  {
    assert Reported(s) == Some(s.used[|s.used| - 1]) && BestSetting(s) == Some(s.used[|s.used| - 3]);
  }

  // theta(+) is so far from theta that the setting differs.
  lemma StrayingPoints(cfg: Config, t: State, i: Inputs, ck: real, p: Pair, unit: real)
    requires InBox(t.theta.x) && InBox(t.theta.y) && i.deltaX == Far(t.theta.x) && i.deltaY == Far(t.theta.y)
    requires ck > 0.0 && p == PlusPoint(t, ck, i) && unit == Unit(cfg) as real && unit >= 1.0 && ck * unit >= 1.0
    ensures Tuned(SettingAt(cfg, t, p)) != Tuned(SettingAt(cfg, t, t.theta))
  {
    FarProbe(t.theta.x, ck, unit, p.x);
    FarProbe(t.theta.y, ck, unit, p.y);
    RoundsApart(cfg, t, p, t.theta, unit);
  }

  lemma StrayingSettings(s: State, used: seq<Setting>, p: Setting, m: Setting, z: Setting)
    requires s.used == used + [p, m, z] && p != z && |s.visited| == |used| + 3 && s.noImp == 2 && s.saved.Some?
    ensures Astray(s)
  {
  }

  lemma StrayingThree(cfg: Config, t: State, p: Pair, m: Pair, e: real, k: nat, i: Inputs, r: Step)
    requires Slow(cfg, e) && 3 * k < cfg.MaxProfLimit() && Climbed(t, e, 3 * k) && |t.used| == |t.visited|
    requires i.plus == i.minus == Measured(Height(e, 3 * k + 1), true) && i.star == Measured(0.0, true)
    requires Tuned(SettingAt(cfg, t, p)) != Tuned(SettingAt(cfg, t, t.theta)) && r == Thrice(cfg, t, p, m, t.theta, i)
    ensures r.Go? && Astray(r.s) && !cfg.GainReached(r.s.maxPerf)
    ensures r.s.k == t.k && r.s.c == t.c && r.s.profNum == t.profNum + 3
  {
    StrayingThrice(cfg, t, p, m, t.theta, e, k, i);
    StrayingSettings(r.s, t.used, SettingAt(cfg, t, p), SettingAt(cfg, t, m), SettingAt(cfg, t, t.theta));
  }

  lemma StrayingIs(cfg: Config, s: State, i: Inputs, t: State, ck: real)
    requires s.c != 0.0 && t == Prepared(cfg, s, i) && ck == s.c / i.cDen && ck != 0.0 && Mbps(i.plus) == Mbps(i.minus)
    ensures Pass(cfg, s, i) == Thrice(cfg, t, PlusPoint(t, ck, i), MinusPoint(t, ck, i), t.theta, i)
  {
    StarStays(t, s.a / i.aDen, ck, i);
  }

  lemma StrayingAt(cfg: Config, s: State, e: real, k: nat, i: Inputs, t: State, den: real, ck: real, unit: real)
    requires Slow(cfg, e) && 3 * k < cfg.MaxProfLimit() && Climbed(s, e, 3 * k) && |s.used| == |s.visited|
    requires i.plus == i.minus == Measured(Height(e, 3 * k + 1), true) && i.star == Measured(0.0, true)
    requires s.c != 0.0 && t == Prepared(cfg, s, i) && i.deltaX == Far(t.theta.x) && i.deltaY == Far(t.theta.y)
    requires i.cDen == den > 0.0 && ck == s.c / den && ck > 0.0 && ck * unit >= 1.0
    requires unit == Unit(cfg) as real && unit >= 1.0
    ensures var r := Pass(cfg, s, i);
      && r.Go? && Astray(r.s) && !cfg.GainReached(r.s.maxPerf)
      && r.s.k == s.k + 1 && r.s.c == s.c && r.s.profNum == s.profNum + 3
  {
    StrayingIs(cfg, s, i, t, ck);
    var p, m := PlusPoint(t, ck, i), MinusPoint(t, ck, i);
    StrayingPoints(cfg, t, i, ck, p, unit);
    StrayingThree(cfg, t, p, m, e, k, i, Pass(cfg, s, i));
  }

  lemma ShareAtLeast(c: real, den: real, unit: real, ck: real)
    requires c > 0.0 && den > 0.0 && den <= c * unit && ck == c / den
    ensures ck > 0.0 && ck * unit >= 1.0
  {
    assert ck * den == c;
    SameSign(ck, den, c);
    if ck * unit < 1.0 {
      Scaled(ck * unit, den);
      assert ck * unit * den == c * unit;
    }
  }

  lemma Scaled(x: real, den: real)
    requires x < 1.0 && den > 0.0
    ensures x * den < den
  {
    assert (1.0 - x) * den > 0.0;
  }

  // ---------- Exactly ----------

  // No pass is made, or the first positive measurement ends the run.
  predicate Settled(cfg: Config) {
    cfg.bwBps == 0.0 || cfg.pgr == 0.0 || cfg.MaxProfLimit() == 0 || cfg.NoImpLimit() == 0
  }

  ghost predicate ReportsBest(cfg: Config, z: State, oracle: Oracle)
    requires z.c != 0.0 && cfg.cScale != 0.0
  {
    var (t, why) := Run(cfg, z, oracle);
    Completed(why) && t.saved.Some? ==> Reported(t) == BestSetting(t)
  }

  // A run whose first loop head stops it has nothing to report.
  lemma StopsAtOnce(cfg: Config, a: real, c: real, theta: Pair, rttMs: real, oracle: Oracle)
    requires c != 0.0 && cfg.cScale != 0.0 && Settled(cfg) && cfg.bwBps != 0.0
    ensures Run(cfg, Start(cfg, a, c, theta, rttMs), oracle).0.saved.None?
  {
    var z := Start(cfg, a, c, theta, rttMs);
    GainAtStart(cfg);
    assert Head(cfg, z).Stop?;
    assert Turn(cfg, z, oracle) == Head(cfg, z);
  }

  // With bandwidth 0 a turn that goes on has found nothing positive.
  lemma ZeroTurn(cfg: Config, s: State, oracle: Oracle)
    requires s.c != 0.0 && cfg.cScale != 0.0 && cfg.bwBps == 0.0 && AtLoopHead(s) && s.saved.None?
    ensures var r := Turn(cfg, s, oracle);
      if r.Go? then AtLoopHead(r.s) && r.s.saved.None? else Completed(r.why) && r.s.saved.Some? ==> r.why.Gain?
  {
    ConsistentMeans(s);
    TurnConsistent(cfg, s, oracle);
    HeadGain(cfg, s);
    var h := Head(cfg, s);
    if h.Go? {
      PassGain(cfg, h.s, oracle(s.k));
      PassGrown(cfg, h.s, oracle(s.k));
      if Turn(cfg, s, oracle).Go? {
        ConsistentMeans(Turn(cfg, s, oracle).s);
      }
    }
  }

  // Only the gain exit leaves a positive measurement behind.
  lemma {:induction false} ZeroBandwidth(cfg: Config, s: State, oracle: Oracle)
    requires s.c != 0.0 && cfg.cScale != 0.0 && cfg.bwBps == 0.0 && AtLoopHead(s) && s.saved.None?
    ensures var (t, why) := Run(cfg, s, oracle); Completed(why) && t.saved.Some? ==> why.Gain?
    decreases cfg.MaxProfLimit() - s.profNum
  {
    ZeroTurn(cfg, s, oracle);
    if Turn(cfg, s, oracle).Go? {
      ZeroBandwidth(cfg, Turn(cfg, s, oracle).s, oracle);
    }
  }

  lemma SettledReports(cfg: Config, a: real, c: real, theta: Pair, rttMs: real, oracle: Oracle)
    requires c != 0.0 && cfg.cScale != 0.0 && Settled(cfg)
    ensures ReportsBest(cfg, Start(cfg, a, c, theta, rttMs), oracle)
  {
    if cfg.bwBps == 0.0 {
      var z := Start(cfg, a, c, theta, rttMs);
      StartConsistent(cfg, a, c, theta, rttMs);
      ZeroBandwidth(cfg, z, oracle);
      var (t, why) := Run(cfg, z, oracle);
      if why.Gain? {
        GainReportsBest(cfg, oracle, a, c, theta, rttMs, t, why);
      }
    } else {
      StopsAtOnce(cfg, a, c, theta, rttMs, oracle);
    }
  }

  // The last pass of a run that improves until then; with a limit of 1 it is the first one.
  function LastPass(cfg: Config): nat {
    if cfg.NoImpLimit() <= 1 || cfg.MaxProfLimit() == 0 then 0 else (cfg.MaxProfLimit() - 1) / 3
  }

  // The perturbation gain in the last pass, before it is divided
  function LastGain(cfg: Config, c: real): real {
    if cfg.NoImpLimit() == 1 then c * cfg.cScale else c
  }

  // In that pass the perturbation moves the streams or the block size by one or more; a limit of 1 rescales it before.
  predicate Wide(cfg: Config, c: real, d: Powers) {
    d.cDen(LastPass(cfg)) <= LastGain(cfg, c) * Unit(cfg) as real
  }

  // A loop head that a slow climb has come to, up to the last pass
  predicate Coming(cfg: Config, s: State, e: real) {
    && AtLoopHead(s) && Counted(cfg, s) && Slow(cfg, e) && cfg.NoImpLimit() > 0 && s.k <= LastPass(cfg)
    && s.noImp == 0 && Climbed(s, e, 3 * s.k) && 3 * LastPass(cfg) < cfg.MaxProfLimit()
  }

  // With a limit above 1 the gains are not rescaled while everything improves.
  lemma ComingHead(cfg: Config, s: State, e: real)
    requires Coming(cfg, s, e)
    ensures s.profNum == 3 * s.k && Head(cfg, s) == Go(Damped(cfg, s))
    ensures Damped(cfg, s) ==
            if cfg.NoImpLimit() != 1 then s
            else s.(a := s.a * cfg.aScale, c := s.c * cfg.cScale, rescaled := s.rescaled + 1)
  {
    ConsistentMeans(s);
    ClimbGoesOn(cfg, s, e);
  }

  // The next loop head ends a run that has gone astray in its last pass.
  lemma EndsAstray(cfg: Config, s: State, oracle: Oracle)
    requires s.c != 0.0 && cfg.cScale != 0.0 && Astray(s) && !cfg.GainReached(s.maxPerf)
    requires s.profNum >= cfg.MaxProfLimit() || cfg.NoImpLimit() == 1
    ensures var (t, why) := Run(cfg, s, oracle); Completed(why) && t.saved.Some? && Reported(t) != BestSetting(t)
  {
    AstrayReport(s);
    AstrayReport(Damped(cfg, s));
    assert Turn(cfg, s, oracle) == Head(cfg, s);
  }

  lemma StrayingMeets(s: State, e: real, d: Powers, k: nat)
    requires e > 0.0
    ensures var i := Straying(s, e, d, k); Rated(i.plus) && Rated(i.minus) && Rated(i.star)
  {
    HeightGrows(e, 3 * k + 1, 3 * k + 1);
  }

  // The loop head before the last pass, rescaled or not, and the perturbation gain there
  lemma LastHead(cfg: Config, s: State, e: real, d: Powers, h: State, ck: real, unit: real)
    requires Coming(cfg, s, e) && s.k == LastPass(cfg) && s.c > 0.0 && Unit(cfg) >= 1 && Wide(cfg, s.c, d)
    requires h == Damped(cfg, s) && ck == h.c / d.cDen(s.k) && unit == Unit(cfg) as real
    ensures Head(cfg, s) == Go(h) && Climbed(h, e, 3 * s.k) && |h.used| == |h.visited| && h.k == s.k
    ensures h.c > 0.0 && ck > 0.0 && ck * unit >= 1.0
    ensures h.profNum + 3 >= cfg.MaxProfLimit() || cfg.NoImpLimit() == 1
  {
    ComingHead(cfg, s, e);
    PositiveFactor(h.c, unit, d.cDen(s.k));
    ShareAtLeast(h.c, d.cDen(s.k), unit, ck);
  }

  lemma LastStrays(cfg: Config, s: State, e: real, d: Powers, rest: Oracle, h: State, ck: real, unit: real)
      returns (oracle: Oracle)
    requires s.c > 0.0 && cfg.cScale != 0.0 && Head(cfg, s) == Go(h) && Slow(cfg, e) && h.k == s.k
    requires Climbed(h, e, 3 * s.k) && |h.used| == |h.visited| && 3 * s.k < cfg.MaxProfLimit()
    requires h.c > 0.0 && ck == h.c / d.cDen(s.k) && ck > 0.0 && ck * unit >= 1.0 && Meets(rest, d)
    requires unit == Unit(cfg) as real && unit >= 1.0
    requires h.profNum + 3 >= cfg.MaxProfLimit() || cfg.NoImpLimit() == 1
    ensures Meets(oracle, d) && !ReportsBest(cfg, s, oracle)
  {
    var i := Straying(h, e, d, s.k);
    var r := Pass(cfg, h, i);
    StrayingAt(cfg, h, e, s.k, i, Prepared(cfg, h, i), d.cDen(s.k), ck, unit);
    StrayingMeets(h, e, d, s.k);
    EndsAstray(cfg, r.s, rest);
    oracle := Then(s.k, i, rest);
    RunThen(cfg, s, i, rest, r.s);
  }

  lemma PositiveFactor(x: real, unit: real, den: real)
    requires unit >= 1.0 && 0.0 < den <= x * unit
    ensures x > 0.0
  {
    SameSign(x, unit, x * unit);
  }

  lemma {:induction false} ComesToStray(cfg: Config, s: State, e: real, d: Powers, rest: Oracle)
      returns (oracle: Oracle)
    requires Coming(cfg, s, e) && s.c > 0.0 && cfg.cScale != 0.0
    requires Unit(cfg) >= 1 && Wide(cfg, s.c, d) && Meets(rest, d)
    ensures Meets(oracle, d) && !ReportsBest(cfg, s, oracle)
    decreases LastPass(cfg) - s.k
  {
    if s.k == LastPass(cfg) {
      var h := Damped(cfg, s);
      var ck, unit := h.c / d.cDen(s.k), Unit(cfg) as real;
      LastHead(cfg, s, e, d, h, ck, unit);
      oracle := LastStrays(cfg, s, e, d, rest, h, ck, unit);
    } else {
      ComingHead(cfg, s, e);
      var i := Climb(e, d, s.k);
      var r := Pass(cfg, s, i);
      ClimbingPass(cfg, s, e, d, s.k, r);
      PassConsistent(cfg, s, i);
      PassCounted(cfg, s, i);
      ClimbRated(e, d, s.k);
      var later := ComesToStray(cfg, r.s, e, d, rest);
      oracle := Then(s.k, i, later);
      RunThen(cfg, s, i, later, r.s);
    }
  }

  // The printed setting is the best one after every completed run that measured something positive, whatever
  // it can meet with the given powers, if and only if the configuration settles the run at its first positive
  // measurement or before.
  lemma ReportExactly(cfg: Config, a: real, c: real, theta: Pair, rttMs: real, d: Powers)
    requires c > 0.0 && cfg.cScale != 0.0 && (cfg.kind.Udt? ==> cfg.kind.mss > 44) && Wide(cfg, c, d)
    ensures (forall oracle: Oracle | Meets(oracle, d) :: ReportsBest(cfg, Start(cfg, a, c, theta, rttMs), oracle)) <==>
            Settled(cfg)
  {
    if Settled(cfg) {
      forall oracle: Oracle | Meets(oracle, d)
        ensures ReportsBest(cfg, Start(cfg, a, c, theta, rttMs), oracle)
      {
        SettledReports(cfg, a, c, theta, rttMs, oracle);
      }
    } else {
      var z := Start(cfg, a, c, theta, rttMs);
      var e := SlowStep(cfg);
      StartConsistent(cfg, a, c, theta, rttMs);
      ClimbingMeets(e, d);
      var oracle := ComesToStray(cfg, z, e, d, Climbing(e, d));
    }
  }

  lemma WideAsCoded(cfg: Config, c: real, d: Powers)
    requires OfCode(d) && LastGain(cfg, c) >= 1.0 && (LastPass(cfg) + 2) as real <= Pow(LastGain(cfg, c), 9)
    requires cfg.kind.Udt? ==> cfg.kind.mss > 44
    ensures Wide(cfg, c, d)
  {
    var gain, unit := LastGain(cfg, c), Unit(cfg) as real;
    GammaBelow(d, LastPass(cfg), gain);
    assert gain * (unit - 1.0) >= 0.0;
  }

  // With the exponents that the code has
  lemma ReportExactlyAsCoded(cfg: Config, a: real, c: real, theta: Pair, rttMs: real, d: Powers)
    requires c > 0.0 && cfg.cScale != 0.0 && (cfg.kind.Udt? ==> cfg.kind.mss > 44) && OfCode(d)
    requires LastGain(cfg, c) >= 1.0 && (LastPass(cfg) + 2) as real <= Pow(LastGain(cfg, c), 9)
    ensures (forall oracle: Oracle | Meets(oracle, d) :: ReportsBest(cfg, Start(cfg, a, c, theta, rttMs), oracle)) <==>
            Settled(cfg)
  {
    WideAsCoded(cfg, c, d);
    ReportExactly(cfg, a, c, theta, rttMs, d);
  }

  // With its default gain and scale, too, and any limit up to its default of 60
  lemma ReportExactlyByDefault(cfg: Config, a: real, theta: Pair, rttMs: real, d: Powers)
    requires cfg.cScale == 1.15 && cfg.MaxProfLimit() <= 60 && (cfg.kind.Udt? ==> cfg.kind.mss > 44) && OfCode(d)
    ensures (forall oracle: Oracle | Meets(oracle, d) ::
               ReportsBest(cfg, Start(cfg, a, 5.5, theta, rttMs), oracle)) <==>
            Settled(cfg)
  {
    var gain := LastGain(cfg, 5.5);
    Ninth(gain);
    ReportExactlyAsCoded(cfg, a, 5.5, theta, rttMs, d);
  }

  lemma Ninth(c: real)
    requires c >= 5.5
    ensures Pow(c, 9) >= 21.0
  {
    assert Pow(c, 1) == c * Pow(c, 0) == c && Pow(c, 2) == c * Pow(c, 1);
    PowLonger(c, 2, 7);
  }

  // ---------- Gains too small to matter ----------

  // -e 0.001 -g 0.4 -o 1 -x 1 -N 1 -y 1G -C 0.75 -L 30, with a host limit that leaves one buffer size
  const SMALL := Config(Tcp, BUF_MIN, 1000000000.0, 0.75, 30, 1, 1.0, 1.0)

  // Every point within half a stream of 13 stands for one setting.
  predicate Near(theta: Pair) {
    12.5 <= theta.y < 13.5
  }

  lemma NearSetting(s: State, theta: Pair)
    requires s.bufLow == s.bufHigh == BUF_MIN && Near(theta)
    ensures SettingAt(SMALL, s, theta) == TcpSetting(8000, 13)
  {
  }

  lemma NearPrepared(s: State, i: Inputs)
    requires s.bufLow == s.bufHigh == BUF_MIN
    ensures var t := Prepared(SMALL, s, i); t.bufLow == t.bufHigh == BUF_MIN
  {
  }

  lemma SmallShare(x: real, den: real, q: real)
    requires x > 0.0 && 1.0 <= den <= 2.0 && q == x / den
    ensures x / 2.0 <= q <= x
  {
    assert q * den == x;
  }

  lemma NearProbes(t: State, ck: real, i: Inputs)
    requires t.theta == Pair(13.0, 13.0) && 0.2 <= ck <= 0.4
    ensures Near(PlusPoint(t, ck, i)) && Near(MinusPoint(t, ck, i))
    ensures var d := PlusPoint(t, ck, i).y - MinusPoint(t, ck, i).y; d >= 0.4 || d <= -0.4
  {
    ProbesAreClamped(13.0, ck, i.deltaY);
  }

  // A rise below the gain ratio moves theta(*) by less than 0.002.
  lemma SmallMove(ak: real, rise: real, d: real, g: real)
    requires 0.0 < ak <= 0.001 && -0.8 <= rise <= 0.8 && (d >= 0.4 || d <= -0.4) && g == rise / d
    ensures -0.1 <= ak * g <= 0.1
  {
    assert g * d == rise;
    if g > 2.0 || g < -2.0 {
      SteepIsFar(g, d);
    }
    assert -2.0 * ak <= ak * g <= 2.0 * ak;
  }

  lemma SteepIsFar(g: real, d: real)
    requires (g > 2.0 || g < -2.0) && (d >= 0.4 || d <= -0.4)
    ensures g * d > 0.8 || g * d < -0.8
  {
    var x, y := if g > 0.0 then g else -g, if d > 0.0 then d else -d;
    Product(x - 2.0, y);
    assert x * y == (x - 2.0) * y + 2.0 * y;
    assert g * d == x * y || g * d == -(x * y);
  }

  lemma NearStep(theta: Pair, ak: real, rise: real, p: Pair, m: Pair, d: real, g: real)
    requires theta.y == 13.0 && 0.0 < ak <= 0.001 && -0.8 <= rise <= 0.8 && p.x != m.x
    requires d == p.y - m.y && (d >= 0.4 || d <= -0.4) && g == rise / d
    ensures Near(SecantStep(theta, ak, rise, p, m))
  {
    SmallMove(ak, rise, d, g);
  }

  lemma NearStar(t: State, ak: real, ck: real, i: Inputs, rise: real, p: Pair, m: Pair, d: real)
    requires t.theta == Pair(13.0, 13.0) && 0.2 <= ck <= 0.4 && 0.0 < ak <= 0.001 && -0.8 <= rise <= 0.8
    requires rise == Mbps(i.plus) / 1000.0 - Mbps(i.minus) / 1000.0
    requires p == PlusPoint(t, ck, i) && m == MinusPoint(t, ck, i) && d == p.y - m.y
    ensures Near(StarPoint(t, ak, ck, i))
  {
    NearProbes(t, ck, i);
    StarIsAlong(t, ak, ck, i, p, m, rise);
    NearStep(t.theta, ak, rise, p, m, d, rise / d);
  }

  // All settings written are that one.
  predicate Same(s: State) {
    forall u <- s.used :: u == TcpSetting(8000, 13)
  }

  lemma SameTried(s: State, theta: Pair, marker: char, m: Measurement)
    requires Same(s) && s.bufLow == s.bufHigh == BUF_MIN && Near(theta) && Rated(m)
    ensures var r := Tried(SMALL, s, theta, marker, m);
      && Same(r.s) && r.s.bufLow == r.s.bufHigh == BUF_MIN
      && (r.Go? ==> m.Measured?)
      && (r.Go? ==> (-0.001 <= s.maxPerf < 0.75 ==> -0.001 <= m.mbps / 1000.0 < 0.75 && r.s.maxPerf < 0.75))
  {
    NearSetting(s, theta);
  }

  lemma SameThrice(s: State, p: Pair, m: Pair, z: Pair, i: Inputs)
    requires Same(s) && s.bufLow == s.bufHigh == BUF_MIN && s.maxPerf == 0.0 && Near(p) && Near(m)
    requires Rated(i.plus) && Rated(i.minus) && Rated(i.star)
    requires -0.8 <= Mbps(i.plus) / 1000.0 - Mbps(i.minus) / 1000.0 <= 0.8 ==> Near(z)
    ensures Same(Thrice(SMALL, s, p, m, z, i).s)
  {
    SameTried(s, p, '+', i.plus);
    var r1 := Tried(SMALL, s, p, '+', i.plus);
    if r1.Go? {
      SameTried(r1.s, m, '-', i.minus);
    }
    var r2 := Again(SMALL, r1, m, '-', i.minus);
    if r2.Go? {
      SameTried(r2.s.(theta := z), z, '*', i.star);
    }
  }

  lemma SamePass(s: State, i: Inputs)
    requires s.a == 0.001 && s.c == 0.4 && s.theta == Pair(13.0, 13.0) && s.used == [] && s.maxPerf == 0.0
    requires s.bufLow == s.bufHigh == BUF_MIN && 1.0 <= i.aDen <= 2.0 && 1.0 <= i.cDen <= 2.0
    requires Rated(i.plus) && Rated(i.minus) && Rated(i.star)
    ensures Same(Pass(SMALL, s, i).s)
  {
    var t, ak, ck := Prepared(SMALL, s, i), s.a / i.aDen, s.c / i.cDen;
    NearPrepared(s, i);
    SmallShare(s.a, i.aDen, ak);
    SmallShare(s.c, i.cDen, ck);
    NearProbes(t, ck, i);
    var p, m, rise := PlusPoint(t, ck, i), MinusPoint(t, ck, i), Mbps(i.plus) / 1000.0 - Mbps(i.minus) / 1000.0;
    if -0.8 <= rise <= 0.8 {
      NearStar(t, ak, ck, i, rise, p, m, p.y - m.y);
    }
    SameThrice(t, p, m, StarPoint(t, ak, ck, i), i);
  }

  // Not settled, and yet right in every run whose powers are between 1 and 2, as those of the first pass are:
  // without a condition on the gains the equivalence does not hold.
  lemma SmallGainsReport(rttMs: real, oracle: Oracle, d: Powers)
    requires Meets(oracle, d) && 1.0 <= d.aDen(0) <= 2.0 && 1.0 <= d.cDen(0) <= 2.0
    ensures !Settled(SMALL) && ReportsBest(SMALL, Start(SMALL, 0.001, 0.4, Pair(13.0, 13.0), rttMs), oracle)
  {
    var z := Start(SMALL, 0.001, 0.4, Pair(13.0, 13.0), rttMs);
    StartConsistent(SMALL, 0.001, 0.4, Pair(13.0, 13.0), rttMs);
    var i := oracle(0);
    assert i.aDen == d.aDen(0) && i.cDen == d.cDen(0);
    SamePass(z, i);
    SameRun(z, oracle);
    var (t, why) := Run(SMALL, z, oracle);
    LastIsBest(SMALL, oracle, z, t, why);
    assert Completed(why) && t.saved.Some? ==> Reported(t).value in t.used && BestSetting(t).value in t.used;
  }

  lemma SameRun(z: State, oracle: Oracle)
    requires z.c == 0.4 && z.profNum == 0 && z.noImp == 0 && z.maxPerf == 0.0 && z.k == 0
    requires Same(Pass(SMALL, z, oracle(0)).s)
    ensures Same(Run(SMALL, z, oracle).0)
  {
    assert Head(SMALL, z) == Go(z);
    var r := Turn(SMALL, z, oracle);
    assert r == Pass(SMALL, z, oracle(0));
    if r.Go? {
      assert Turn(SMALL, r.s, oracle) == Stop(r.s, UpperBound);
    }
  }
}
