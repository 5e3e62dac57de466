/** Ranges along a run of the tuning loop: legal settings, the buffer window, the smoothed
    round-trip time, the gains, and the projected step.
 */
module TuningRange {
  import opened Numbers
  import opened Probes
  import opened Tuning

  // ---------- Legal settings ----------

  predicate Legal(cfg: Config, u: Setting) {
    match cfg.kind
    case Tcp => u.TcpSetting? && 8000 <= u.socketBuf && 2 * u.socketBuf <= cfg.BufCap() + 1 && 1 <= u.streams <= 25
    case Udt(mss) =>
      && u.UdtSetting? && mss - 44 <= u.block <= 25 * (mss - 44)
      && BUF_MIN <= u.udtBuf <= cfg.BufCap() && 8000 <= u.udpBuf && 2 * u.udpBuf <= cfg.BufCap() + 1
  }

  // What the loop needs from the host and the command line for its settings to be legal.
  predicate Sane(cfg: Config) {
    cfg.hostMaxBuf >= BUF_MIN && (cfg.kind.Udt? ==> cfg.kind.mss > 44)
  }

  predicate Ranged(cfg: Config, s: State) {
    && BUF_MIN <= s.bufLow <= cfg.BufCap() && BUF_MIN <= s.bufHigh <= cfg.BufCap()
    && forall u <- s.used :: Legal(cfg, u)
  }

  lemma Interpolated(low: real, high: real, theta: real)
    requires InBox(theta)
    ensures var v := ThetaToVal(low, high, theta); if low <= high then low <= v <= high else high <= v <= low
  {
    var w := (theta - 1.0) / 24.0;
    assert 0.0 <= w <= 1.0;
    var d := high - low;
    assert ThetaToVal(low, high, theta) == w * d + low by {
      assert (theta - 1.0) * d / 24.0 == w * d;
    }
    if d >= 0.0 {
      Fraction(w, d);
    } else {
      Fraction(w, -d);
      assert w * d == -(w * -d);
    }
  }

  lemma Fraction(w: real, d: real)
    requires 0.0 <= w <= 1.0 && d >= 0.0
    ensures 0.0 <= w * d <= d
  {
  }

  lemma Between(low: real, high: real, v: real, a: int, b: int)
    requires a as real <= low <= b as real && a as real <= high <= b as real
    requires if low <= high then low <= v <= high else high <= v <= low
    ensures a <= Round(v) <= b && a as real <= v <= b as real
  {
  }

  lemma BufferLegal(low: int, high: int, cap: int, theta: real)
    requires BUF_MIN <= low <= cap && BUF_MIN <= high <= cap <= BUF_MAX && InBox(theta)
    ensures var v := ThetaToVal(low as real, high as real, theta);
      BUF_MIN <= Round(v) <= cap && 8000 <= Round(v * 0.5) && 2 * Round(v * 0.5) <= cap + 1
  {
    Interpolated(low as real, high as real, theta);
    Between(low as real, high as real, ThetaToVal(low as real, high as real, theta), BUF_MIN, cap);
  }

  lemma StreamsLegal(theta: real)
    requires InBox(theta)
    ensures 1 <= Round(ThetaToVal(1.0, 25.0, theta)) <= 25
  {
  }

  lemma BlockLegal(unit: int, theta: real)
    requires InBox(theta) && unit > 0
    ensures unit <= Round(ThetaToVal(1.0, 25.0, theta) * unit as real) <= 25 * unit
  {
  }

  lemma SettingLegal(cfg: Config, s: State, theta: Pair)
    requires Sane(cfg) && Ranged(cfg, s) && InBox(theta.x) && InBox(theta.y)
    ensures Legal(cfg, SettingOf(cfg, Values(cfg, s.bufLow, s.bufHigh, theta)))
  {
    match cfg.kind
    case Tcp =>
      BufferLegal(s.bufLow, s.bufHigh, cfg.BufCap(), theta.x);
      StreamsLegal(theta.y);
    case Udt(mss) =>
      BlockLegal(mss - 44, theta.x);
      BufferLegal(s.bufLow, s.bufHigh, cfg.BufCap(), theta.y);
  }

  lemma PreparedRanged(cfg: Config, s: State, i: Inputs)
    requires Sane(cfg) && Ranged(cfg, s)
    ensures var t := Prepared(cfg, s, i); Ranged(cfg, t) && InBox(t.theta.x) && InBox(t.theta.y)
  {
  }

  lemma TriedRanged(cfg: Config, s: State, theta: Pair, marker: char, m: Measurement)
    requires Sane(cfg) && Ranged(cfg, s) && InBox(theta.x) && InBox(theta.y)
    ensures Ranged(cfg, Tried(cfg, s, theta, marker, m).s)
  {
    SettingLegal(cfg, s, theta);
    var u := SettingOf(cfg, Values(cfg, s.bufLow, s.bufHigh, theta));
    assert forall w <- s.used + [u] :: w in s.used || w == u;
  }

  lemma ThriceRanged(cfg: Config, s: State, plus: Pair, minus: Pair, star: Pair, i: Inputs)
    requires Sane(cfg) && Ranged(cfg, s)
    requires InBox(plus.x) && InBox(plus.y) && InBox(minus.x) && InBox(minus.y) && InBox(star.x) && InBox(star.y)
    ensures Ranged(cfg, Thrice(cfg, s, plus, minus, star, i).s)
  {
    TriedRanged(cfg, s, plus, '+', i.plus);
    var r1 := Tried(cfg, s, plus, '+', i.plus);
    TriedRanged(cfg, r1.s, minus, '-', i.minus);
    var r2 := Again(cfg, r1, minus, '-', i.minus);
    TriedRanged(cfg, Moving(r2, star).s, star, '*', i.star);
  }

  lemma PointsInBox(s: State, ck: real, i: Inputs)
    requires InBox(s.theta.x) && InBox(s.theta.y)
    ensures var p, m := PlusPoint(s, ck, i), MinusPoint(s, ck, i); InBox(p.x) && InBox(p.y) && InBox(m.x) && InBox(m.y)
  {
  }

  lemma PassRanged(cfg: Config, s: State, i: Inputs)
    requires Sane(cfg) && Ranged(cfg, s) && s.c != 0.0
    ensures Ranged(cfg, Pass(cfg, s, i).s)
  {
    var t := Prepared(cfg, s, i);
    var ak, ck := s.a / i.aDen, s.c / i.cDen;
    PreparedRanged(cfg, s, i);
    PointsInBox(t, ck, i);
    ThriceRanged(cfg, t, PlusPoint(t, ck, i), MinusPoint(t, ck, i), StarPoint(t, ak, ck, i), i);
  }

  // Every setting a run ever writes on the test object is legal, whatever the outside answers.
  lemma {:induction false} RunRanged(cfg: Config, s: State, oracle: Oracle)
    requires Sane(cfg) && Ranged(cfg, s) && s.c != 0.0 && cfg.cScale != 0.0
    ensures forall h <- Heads(cfg, s, oracle) :: Ranged(cfg, h)
    ensures Ranged(cfg, Run(cfg, s, oracle).0)
    decreases cfg.MaxProfLimit() - s.profNum
  {
    HeadGain(cfg, s);
    var h := Head(cfg, s);
    if h.Go? {
      PassRanged(cfg, h.s, oracle(s.k));
      var r := Turn(cfg, s, oracle);
      if r.Go? {
        RunRanged(cfg, r.s, oracle);
      }
    }
  }

  // The buffer window is in order at the start exactly when the host allows the smallest buffer.
  lemma StartOrdered(cfg: Config, a: real, c: real, theta: Pair, rttMs: real)
    ensures var z := Start(cfg, a, c, theta, rttMs); z.bufLow <= z.bufHigh <==> cfg.hostMaxBuf >= BUF_MIN
    ensures var z := Start(cfg, a, c, theta, rttMs); Sane(cfg) ==> Ranged(cfg, z)
  {
  }

  // It stays so when four times the delay product fits an int.
  lemma WindowOrdered(cfg: Config, s: State, i: Inputs)
    ensures s.bufLow <= s.bufHigh && Round(4.0 * Bdp(cfg.bwBps, NextRtt(cfg.bwBps, s.rttMs, i.pingMs))) <= INT_MAX ==>
      Prepared(cfg, s, i).bufLow <= Prepared(cfg, s, i).bufHigh
  {
  }

  // ---------- Round-trip time ----------

  // rtt_ms after a run of ping samples
  function Smoothed(bwBps: real, rttMs: real, pings: seq<real>): real {
    if pings == [] then rttMs
    else NextRtt(bwBps, Smoothed(bwBps, rttMs, pings[..|pings| - 1]), pings[|pings| - 1])
  }

  // Once known, the time stays within every interval that holds all successful samples, and the first
  // value if that was known.
  lemma {:induction false} RttStaysBetween(bwBps: real, rttMs: real, pings: seq<real>, low: real, high: real)
    requires rttMs >= 0.0 ==> low <= rttMs <= high
    requires forall i :: 0 <= i < |pings| && pings[i] >= 0.0 ==> low <= pings[i] <= high
    ensures var r := Smoothed(bwBps, rttMs, pings); r >= 0.0 ==> low <= r <= high
  {
    if pings != [] {
      var n := |pings| - 1;
      RttStaysBetween(bwBps, rttMs, pings[..n], low, high);
    }
  }

  function Eighths(n: nat): real {
    if n == 0 then 1.0 else Eighths(n - 1) / 8.0
  }

  // Against a constant sample the error shrinks by exactly 1/8 a sample.
  lemma {:induction false} RttConverges(bwBps: real, rttMs: real, sample: real, pings: seq<real>)
    requires bwBps >= 0.0 && rttMs >= 0.0 && sample >= 0.0 && forall i :: 0 <= i < |pings| ==> pings[i] == sample
    ensures Smoothed(bwBps, rttMs, pings) - sample == (rttMs - sample) * Eighths(|pings|)
    ensures Smoothed(bwBps, rttMs, pings) >= 0.0
  {
    if pings != [] {
      var n := |pings| - 1;
      RttConverges(bwBps, rttMs, sample, pings[..n]);
      var e := Smoothed(bwBps, rttMs, pings[..n]) - sample;
      assert Smoothed(bwBps, rttMs, pings) - sample == e / 8.0;
      assert (rttMs - sample) * (Eighths(n) / 8.0) == (rttMs - sample) * Eighths(n) / 8.0;
    }
  }

  // The samples of the first n passes
  function Pings(oracle: Oracle, n: nat): seq<real> {
    if n == 0 then [] else Pings(oracle, n - 1) + [oracle(n - 1).pingMs]
  }

  lemma ThriceKeepsRtt(cfg: Config, s: State, plus: Pair, minus: Pair, star: Pair, i: Inputs)
    ensures Thrice(cfg, s, plus, minus, star, i).s.rttMs == s.rttMs
  {
  }

  // At every loop head rtt_ms is the smoothing of the samples so far.
  lemma {:induction false} RunSmooths(cfg: Config, s: State, oracle: Oracle, rttMs: real)
    requires s.c != 0.0 && cfg.cScale != 0.0
    requires s.rttMs == Smoothed(cfg.bwBps, rttMs, Pings(oracle, s.k))
    ensures forall h <- Heads(cfg, s, oracle) :: h.rttMs == Smoothed(cfg.bwBps, rttMs, Pings(oracle, h.k))
    decreases cfg.MaxProfLimit() - s.profNum
  {
    HeadGain(cfg, s);
    var h := Head(cfg, s);
    if h.Go? {
      var i := oracle(s.k);
      var t := Prepared(cfg, h.s, i);
      var ak, ck := h.s.a / i.aDen, h.s.c / i.cDen;
      ThriceKeepsRtt(cfg, t, PlusPoint(t, ck, i), MinusPoint(t, ck, i), StarPoint(t, ak, ck, i), i);
      var r := Turn(cfg, s, oracle);
      if r.Go? {
        var ps := Pings(oracle, s.k + 1);
        assert ps[..s.k] == Pings(oracle, s.k) by { PingCount(oracle, s.k); }
        PingCount(oracle, s.k + 1);
        RunSmooths(cfg, r.s, oracle, rttMs);
      }
    }
  }

  lemma {:induction false} PingCount(oracle: Oracle, n: nat)
    ensures |Pings(oracle, n)| == n
  {
    if n > 0 {
      PingCount(oracle, n - 1);
    }
  }

  // So at every loop head of a run.
  lemma RttAtHeads(cfg: Config, oracle: Oracle, a: real, c: real, theta: Pair, rttMs: real, low: real, high: real)
    requires c != 0.0 && cfg.cScale != 0.0 && (rttMs >= 0.0 ==> low <= rttMs <= high)
    requires forall k: nat :: oracle(k).pingMs >= 0.0 ==> low <= oracle(k).pingMs <= high
    ensures forall h <- Heads(cfg, Start(cfg, a, c, theta, rttMs), oracle) :: h.rttMs >= 0.0 ==> low <= h.rttMs <= high
  {
    var z := Start(cfg, a, c, theta, rttMs);
    RunSmooths(cfg, z, oracle, rttMs);
    forall h <- Heads(cfg, z, oracle)
      ensures h.rttMs >= 0.0 ==> low <= h.rttMs <= high
    {
      PingsBetween(oracle, h.k, low, high);
      RttStaysBetween(cfg.bwBps, rttMs, Pings(oracle, h.k), low, high);
    }
  }

  lemma {:induction false} PingsBetween(oracle: Oracle, n: nat, low: real, high: real)
    requires forall k: nat :: oracle(k).pingMs >= 0.0 ==> low <= oracle(k).pingMs <= high
    ensures forall i :: 0 <= i < |Pings(oracle, n)| && Pings(oracle, n)[i] >= 0.0 ==> low <= Pings(oracle, n)[i] <= high
  {
    if n > 0 {
      PingsBetween(oracle, n - 1, low, high);
    }
  }

  // ---------- The buffer window ----------

  // Four times the delay product of the pass from s fits an int.
  predicate WindowFits(cfg: Config, s: State, i: Inputs) {
    Round(4.0 * Bdp(cfg.bwBps, NextRtt(cfg.bwBps, s.rttMs, i.pingMs))) <= INT_MAX
  }

  lemma ThriceKeepsWindow(cfg: Config, s: State, plus: Pair, minus: Pair, star: Pair, i: Inputs)
    ensures var r := Thrice(cfg, s, plus, minus, star, i).s; r.bufLow == s.bufLow && r.bufHigh == s.bufHigh
  {
  }

  lemma PassKeepsOrder(cfg: Config, s: State, i: Inputs)
    requires s.c != 0.0 && s.bufLow <= s.bufHigh && WindowFits(cfg, s, i)
    ensures Pass(cfg, s, i).s.bufLow <= Pass(cfg, s, i).s.bufHigh
  {
    var t := Prepared(cfg, s, i);
    var ak, ck := s.a / i.aDen, s.c / i.cDen;
    WindowOrdered(cfg, s, i);
    ThriceKeepsWindow(cfg, t, PlusPoint(t, ck, i), MinusPoint(t, ck, i), StarPoint(t, ak, ck, i), i);
  }

  // The window is in order throughout a run whose delay products all fit.
  lemma {:induction false} WindowStaysOrdered(cfg: Config, s: State, oracle: Oracle)
    requires s.c != 0.0 && cfg.cScale != 0.0 && s.bufLow <= s.bufHigh
    requires forall h <- Heads(cfg, s, oracle) :: WindowFits(cfg, h, oracle(h.k))
    ensures forall h <- Heads(cfg, s, oracle) :: h.bufLow <= h.bufHigh
    ensures var t := Run(cfg, s, oracle).0; t.bufLow <= t.bufHigh
    decreases cfg.MaxProfLimit() - s.profNum
  {
    HeadGain(cfg, s);
    var h := Head(cfg, s);
    if h.Go? {
      assert s in Heads(cfg, s, oracle);
      PassKeepsOrder(cfg, h.s, oracle(s.k));
      var r := Turn(cfg, s, oracle);
      if r.Go? {
        assert Heads(cfg, s, oracle) == [s] + Heads(cfg, r.s, oracle);
        WindowStaysOrdered(cfg, r.s, oracle);
      }
    }
  }

  // A bound on the samples and the bandwidth is enough for that.
  lemma WindowOrderedWhen(cfg: Config, oracle: Oracle, a: real, c: real, theta: Pair, rttMs: real, most: real)
    requires c != 0.0 && cfg.cScale != 0.0 && cfg.hostMaxBuf >= BUF_MIN
    requires rttMs <= most && (forall k: nat :: oracle(k).pingMs <= most)
    requires 0.0 <= most && (cfg.bwBps >= 0.0 ==> Round(4.0 * Bdp(cfg.bwBps, most)) <= INT_MAX)
    ensures forall h <- Heads(cfg, Start(cfg, a, c, theta, rttMs), oracle) :: h.bufLow <= h.bufHigh
    ensures var t := Run(cfg, Start(cfg, a, c, theta, rttMs), oracle).0; t.bufLow <= t.bufHigh
  {
    var z := Start(cfg, a, c, theta, rttMs);
    RttAtHeads(cfg, oracle, a, c, theta, rttMs, 0.0, most);
    forall h <- Heads(cfg, z, oracle)
      ensures WindowFits(cfg, h, oracle(h.k))
    {
      BdpGrows(cfg.bwBps, NextRtt(cfg.bwBps, h.rttMs, oracle(h.k).pingMs), most);
    }
    WindowStaysOrdered(cfg, z, oracle);
  }

  lemma BdpGrows(bwBps: real, rttMs: real, most: real)
    requires rttMs <= most && 0.0 <= most
    ensures bwBps >= 0.0 ==> Round(4.0 * Bdp(bwBps, rttMs)) <= Round(4.0 * Bdp(bwBps, most))
    ensures bwBps < 0.0 ==> Bdp(bwBps, rttMs) == -1.0
  {
    if bwBps >= 0.0 && rttMs >= 0.0 {
      assert (most - rttMs) * bwBps >= 0.0;
      assert rttMs * 0.001 * (bwBps / 8.0) <= most * 0.001 * (bwBps / 8.0);
    } else if bwBps >= 0.0 {
      assert most * bwBps >= 0.0;
      assert most * 0.001 * (bwBps / 8.0) == most * bwBps * 0.000125;
    }
  }

  // ---------- Gains ----------

  // x0 * scale^m
  function Geometric(x0: real, scale: real, m: nat): real {
    if m == 0 then x0 else Geometric(x0, scale, m - 1) * scale
  }

  // Both gains have been rescaled equally often.
  predicate Rescaled(cfg: Config, s: State, a: real, c: real) {
    s.a == Geometric(a, cfg.aScale, s.rescaled) && s.c == Geometric(c, cfg.cScale, s.rescaled)
  }

  lemma HeadRescaled(cfg: Config, s: State, a: real, c: real)
    requires Rescaled(cfg, s, a, c)
    ensures Rescaled(cfg, Head(cfg, s).s, a, c)
  {
  }

  lemma ThriceKeepsGains(cfg: Config, s: State, plus: Pair, minus: Pair, star: Pair, i: Inputs)
    ensures var r := Thrice(cfg, s, plus, minus, star, i).s; r.a == s.a && r.c == s.c && r.rescaled == s.rescaled
  {
  }

  lemma {:induction false} RunRescales(cfg: Config, s: State, oracle: Oracle, a: real, c: real)
    requires s.c != 0.0 && cfg.cScale != 0.0 && Rescaled(cfg, s, a, c)
    ensures forall h <- Heads(cfg, s, oracle) :: Rescaled(cfg, h, a, c)
    ensures Rescaled(cfg, Run(cfg, s, oracle).0, a, c)
    decreases cfg.MaxProfLimit() - s.profNum
  {
    HeadGain(cfg, s);
    HeadRescaled(cfg, s, a, c);
    var h := Head(cfg, s);
    if h.Go? {
      var i := oracle(s.k);
      var t := Prepared(cfg, h.s, i);
      var ak, ck := h.s.a / i.aDen, h.s.c / i.cDen;
      ThriceKeepsGains(cfg, t, PlusPoint(t, ck, i), MinusPoint(t, ck, i), StarPoint(t, ak, ck, i), i);
      var r := Turn(cfg, s, oracle);
      if r.Go? {
        RunRescales(cfg, r.s, oracle, a, c);
      }
    }
  }

  lemma {:induction false} GeometricPositive(x0: real, scale: real, m: nat)
    requires x0 > 0.0 && scale > 0.0
    ensures Geometric(x0, scale, m) > 0.0
  {
    if m > 0 {
      GeometricPositive(x0, scale, m - 1);
    }
  }

  // Positive gains stay positive for the whole run.
  lemma GainsStayPositive(cfg: Config, oracle: Oracle, a: real, c: real, theta: Pair, rttMs: real)
    requires a > 0.0 && c > 0.0 && cfg.aScale > 0.0 && cfg.cScale > 0.0
    ensures forall h <- Heads(cfg, Start(cfg, a, c, theta, rttMs), oracle) :: h.a > 0.0 && h.c > 0.0
  {
    var z := Start(cfg, a, c, theta, rttMs);
    RunRescales(cfg, z, oracle, a, c);
    forall h <- Heads(cfg, z, oracle)
      ensures h.a > 0.0 && h.c > 0.0
    {
      GeometricPositive(a, cfg.aScale, h.rescaled);
      GeometricPositive(c, cfg.cScale, h.rescaled);
    }
  }

  // ---------- The projected step ----------

  // In every pass of a run with positive gains, theta(*) lies in the box and does not move
  // against the rise that y(+) and y(-) measured.
  lemma EveryStepFollows(cfg: Config, oracle: Oracle, a: real, c: real, theta: Pair, rttMs: real, h: State)
    requires a > 0.0 && c > 0.0 && cfg.aScale > 0.0 && cfg.cScale > 0.0
    requires h in Heads(cfg, Start(cfg, a, c, theta, rttMs), oracle)
    ensures Head(cfg, h).Go? ==> StarFollows(cfg, Head(cfg, h).s, oracle(h.k))
  {
    GainsStayPositive(cfg, oracle, a, c, theta, rttMs);
    HeadGains(cfg, h);
    StepFollows(cfg, Head(cfg, h).s, oracle(h.k));
  }

  // Both components of theta(*) in the pass from s follow the rise, no further than ak*|ghat|.
  predicate StarFollows(cfg: Config, s: State, i: Inputs) {
    s.a > 0.0 && s.c > 0.0 &&
    var t, rise := Prepared(cfg, s, i), Mbps(i.plus) / 1000.0 - Mbps(i.minus) / 1000.0;
    var ak, ck := s.a / i.aDen, s.c / i.cDen;
    var star := StarPoint(t, ak, ck, i);
    Projected(t.theta.x, star.x, ak, ck, i.deltaX, rise) && Projected(t.theta.y, star.y, ak, ck, i.deltaY, rise)
  }

  lemma HeadGains(cfg: Config, h: State)
    requires h.a > 0.0 && h.c > 0.0 && cfg.aScale > 0.0 && cfg.cScale > 0.0
    ensures Head(cfg, h).s.a > 0.0 && Head(cfg, h).s.c > 0.0
  {
  }

  lemma StepFollows(cfg: Config, s: State, i: Inputs)
    requires s.a > 0.0 && s.c > 0.0
    ensures StarFollows(cfg, s, i)
  {
    var t, rise := Prepared(cfg, s, i), Mbps(i.plus) / 1000.0 - Mbps(i.minus) / 1000.0;
    ProjectedStep(t.theta.x, s.a / i.aDen, s.c / i.cDen, i.deltaX, rise);
    ProjectedStep(t.theta.y, s.a / i.aDen, s.c / i.cDen, i.deltaY, rise);
  }
}
