/** What one pass of the tuning loop does, told without its corrections, counters and order of assignments:
    the values that points of the box stand for, the buffer window around the delay product, the three
    points that are measured, and where the next pass starts.
 */
module TuningSteps {
  import opened Numbers
  import opened Probes
  import opened Tuning

  // The box is mapped onto the range of values, end to end and in order.
  lemma ThetaEnds(low: real, high: real)
    ensures ThetaToVal(low, high, LOW) == low && ThetaToVal(low, high, HIGH) == high
  {
    var d := high - low;
    assert 0.0 * d / 24.0 == 0.0 && 24.0 * d / 24.0 == d;
  }

  lemma ThetaOrder(low: real, high: real, x: real, y: real)
    requires low < high && x < y
    ensures ThetaToVal(low, high, x) < ThetaToVal(low, high, y)
  {
    var d := high - low;
    ProductGrows(x - 1.0, y - 1.0, d);
    assert ThetaToVal(low, high, x) == (x - 1.0) * d / 24.0 + low;
    assert ThetaToVal(low, high, y) == (y - 1.0) * d / 24.0 + low;
  }

  lemma ProductGrows(x: real, y: real, d: real)
    requires x < y && d > 0.0
    ensures x * d < y * d
  {
    Product(y - x, d);
  }

  lemma Product(x: real, y: real)
    requires x > 0.0 && y > 0.0
    ensures x * y > 0.0
  {
  }

  // f_round goes to the nearest integer, and up from the middle.
  lemma RoundNearest(x: real, n: int)
    ensures Round(x) == n <==> n as real - 0.5 <= x < n as real + 0.5
  {
  }

  // The buffer window holds the delay product whenever the safeguards do and four times it fits an int.
  lemma WindowHoldsBdp(cfg: Config, s: State, i: Inputs)
    requires var bdp := Bdp(cfg.bwBps, NextRtt(cfg.bwBps, s.rttMs, i.pingMs));
      0.0 <= bdp && BUF_MIN <= Round(bdp) <= cfg.BufCap() && Round(4.0 * bdp) <= INT_MAX
    ensures var bdp, t := Bdp(cfg.bwBps, NextRtt(cfg.bwBps, s.rttMs, i.pingMs)), Prepared(cfg, s, i);
      BUF_MIN <= t.bufLow <= Round(bdp) <= t.bufHigh <= cfg.BufCap()
  {
  }

  lemma AimClamps(theta: real, step: real, ck: real)
    requires InBox(theta)
    ensures Aim(theta, step, ck).at == Clamp(theta + step)
  {
  }

  // A cut probe stands where clamping would put it.
  lemma ProbesAreClamped(theta: real, ck: real, delta: Sign)
    requires InBox(theta)
    ensures Plus(theta, ck, delta).at == Clamp(theta + ck * delta)
    ensures Minus(theta, ck, delta).at == Clamp(theta - ck * delta)
  {
    var step := ck * delta;
    AimClamps(theta, step, ck);
    AimClamps(theta, -step, ck);
  }

  // ghat is the slope of the secant through the two probes, whatever was cut.
  lemma SecantSlope(theta: real, ck: real, delta: Sign, rise: real, p: real, m: real)
    requires InBox(theta) && ck != 0.0 && p == Plus(theta, ck, delta).at && m == Minus(theta, ck, delta).at
    ensures p != m && Slope(theta, ck, delta, rise) == rise / (p - m)
  {
    ExactSecant(theta, ck, delta);
    DenominatorDefined(theta, ck, delta);
    SameQuotient(rise, Denominator(theta, ck, delta), p - m);
  }

  lemma SameQuotient(x: real, d: real, e: real)
    requires d == e != 0.0
    ensures x / d == x / e
  {
  }

  // theta(*): along that secant in each dimension, clamped to the box
  function SecantStep(theta: Pair, ak: real, rise: real, p: Pair, m: Pair): Pair
    requires p.x != m.x && p.y != m.y
  {
    Pair(Moved(theta.x, ak, rise / (p.x - m.x)), Moved(theta.y, ak, rise / (p.y - m.y)))
  }

  // The values at three points, with markers and results
  function Entries(cfg: Config, low: int, high: int, plus: Pair, minus: Pair, star: Pair, i: Inputs): seq<Trace> {
    var p, m, z := Values(cfg, low, high, plus), Values(cfg, low, high, minus), Values(cfg, low, high, star);
    [Trace(p.x, p.y, '+', Mbps(i.plus)), Trace(m.x, m.y, '-', Mbps(i.minus)), Trace(z.x, z.y, '*', Mbps(i.star))]
  }

  lemma ThriceMeasures(cfg: Config, s: State, plus: Pair, minus: Pair, star: Pair, i: Inputs)
    ensures var r := Thrice(cfg, s, plus, minus, star, i); r.Go? ==>
      && r.s.points == s.points + [plus, minus, star] && r.s.theta == r.s.maxTheta
      && r.s.visited == s.visited + Entries(cfg, s.bufLow, s.bufHigh, plus, minus, star, i)
  {
  }

  lemma StarIsAlong(t: State, ak: real, ck: real, i: Inputs, p: Pair, m: Pair, rise: real)
    requires InBox(t.theta.x) && InBox(t.theta.y) && ck != 0.0 && p == PlusPoint(t, ck, i) && m == MinusPoint(t, ck, i)
    requires rise == Mbps(i.plus) / 1000.0 - Mbps(i.minus) / 1000.0
    ensures p.x != m.x && p.y != m.y && StarPoint(t, ak, ck, i) == SecantStep(t.theta, ak, rise, p, m)
  {
    SecantSlope(t.theta.x, ck, i.deltaX, rise, p.x, m.x);
    SecantSlope(t.theta.y, ck, i.deltaY, rise, p.y, m.y);
  }

  // A pass that goes on measures the two probes (theta + ck*delta and theta - ck*delta, clamped) and the
  // step along their secant, at one buffer window, and goes on from the best point so far.
  lemma PassMeasures(cfg: Config, s: State, i: Inputs, t: State, ck: real, p: Pair, m: Pair, rise: real)
    requires s.c != 0.0 && ck == s.c / i.cDen && t == Prepared(cfg, s, i)
    requires p == PlusPoint(t, ck, i) && m == MinusPoint(t, ck, i)
    requires rise == Mbps(i.plus) / 1000.0 - Mbps(i.minus) / 1000.0
    ensures p.x != m.x && p.y != m.y
    ensures var r, z := Pass(cfg, s, i), SecantStep(t.theta, s.a / i.aDen, rise, p, m); r.Go? ==>
      && r.s.points == s.points + [p, m, z] && r.s.theta == r.s.maxTheta
      && r.s.visited == s.visited + Entries(cfg, t.bufLow, t.bufHigh, p, m, z, i)
  {
    var ak := s.a / i.aDen;
    StarIsAlong(t, ak, ck, i, p, m, rise);
    ThriceMeasures(cfg, t, p, m, SecantStep(t.theta, ak, rise, p, m), i);
  }

  lemma ThriceRestarts(cfg: Config, s: State, plus: Pair, minus: Pair, star: Pair, i: Inputs)
    ensures var r := Thrice(cfg, s, plus, minus, star, i); r.Go? ==> r.s.theta == r.s.maxTheta && r.s.k == s.k
  {
  }

  // Every pass but the first starts from the best point so far.
  lemma {:induction false} HeadsRestart(cfg: Config, s: State, oracle: Oracle)
    requires s.c != 0.0 && cfg.cScale != 0.0 && (s.k > 0 ==> s.theta == s.maxTheta)
    ensures forall h <- Heads(cfg, s, oracle) :: h.k > 0 ==> h.theta == h.maxTheta
    decreases cfg.MaxProfLimit() - s.profNum
  {
    HeadGain(cfg, s);
    var h := Head(cfg, s);
    if h.Go? {
      var i := oracle(s.k);
      var t := Prepared(cfg, h.s, i);
      var ak, ck := h.s.a / i.aDen, h.s.c / i.cDen;
      ThriceRestarts(cfg, t, PlusPoint(t, ck, i), MinusPoint(t, ck, i), StarPoint(t, ak, ck, i), i);
      var r := Turn(cfg, s, oracle);
      if r.Go? {
        HeadsRestart(cfg, r.s, oracle);
      }
    }
  }

  // A run asks the outside only for the passes it makes.
  lemma {:induction false} RunDepends(cfg: Config, s: State, o1: Oracle, o2: Oracle)
    requires s.c != 0.0 && cfg.cScale != 0.0
    requires forall k: nat :: k >= s.k ==> o1(k) == o2(k)
    ensures Run(cfg, s, o1) == Run(cfg, s, o2)
    decreases cfg.MaxProfLimit() - s.profNum
  {
    var r := Turn(cfg, s, o1);
    assert r == Turn(cfg, s, o2) by {
      assert o1(s.k) == o2(s.k);
    }
    if r.Go? {
      RunDepends(cfg, r.s, o1, o2);
    }
  }

  // One input for pass k, and another oracle for the later ones
  function Then(k: nat, i: Inputs, rest: Oracle): Oracle {
    (n: nat) => if n == k then i else rest(n)
  }

  lemma RunThen(cfg: Config, s: State, i: Inputs, rest: Oracle, next: State)
    requires s.c != 0.0 && cfg.cScale != 0.0 && next.c != 0.0 && next.k == s.k + 1
    requires Head(cfg, s).Go? && Head(cfg, s).s.c != 0.0 && Pass(cfg, Head(cfg, s).s, i) == Go(next)
    ensures Run(cfg, s, Then(s.k, i, rest)) == Run(cfg, next, rest)
  {
    var oracle := Then(s.k, i, rest);
    assert oracle(s.k) == i;
    assert Turn(cfg, s, oracle) == Go(next);
    RunDepends(cfg, next, oracle, rest);
  }

  // A pass in which nothing improves
  predicate Idle(s: State, m: Measurement) {
    m.Measured? && m.stored && m.mbps / 1000.0 <= s.maxPerf
  }

  function SettingAt(cfg: Config, s: State, theta: Pair): Setting {
    SettingOf(cfg, Values(cfg, s.bufLow, s.bufHigh, theta))
  }

  lemma IdleTried(cfg: Config, s: State, theta: Pair, marker: char, m: Measurement)
    requires Idle(s, m)
    ensures var r := Tried(cfg, s, theta, marker, m);
      r == Go(s.(used := s.used + [SettingAt(cfg, s, theta)], profNum := s.profNum + 1, points := s.points + [theta],
                 visited := r.s.visited, noImp := s.noImp + 1)) && |r.s.visited| == |s.visited| + 1
  {
  }

  lemma IdleThrice(cfg: Config, s: State, plus: Pair, minus: Pair, star: Pair, i: Inputs)
    requires Idle(s, i.plus) && Idle(s, i.minus) && Idle(s, i.star)
    ensures var r := Thrice(cfg, s, plus, minus, star, i);
      && r.Go? && |r.s.visited| == |s.visited| + 3 && r.s.noImp == s.noImp + 3
      && r.s.used == s.used + [SettingAt(cfg, s, plus), SettingAt(cfg, s, minus), SettingAt(cfg, s, star)]
      && r.s.theta == r.s.maxTheta == s.maxTheta && r.s.maxPerf == s.maxPerf && r.s.saved == s.saved
      && r.s.a == s.a && r.s.c == s.c && r.s.k == s.k && r.s.profNum == s.profNum + 3
  {
    IdleTried(cfg, s, plus, '+', i.plus);
    var r1 := Tried(cfg, s, plus, '+', i.plus);
    IdleTried(cfg, r1.s, minus, '-', i.minus);
    var r2 := Again(cfg, r1, minus, '-', i.minus);
    IdleTried(cfg, r2.s.(theta := star), star, '*', i.star);
  }
}
