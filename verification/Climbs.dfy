/** Runs that the code can make: the two powers of a pass are not chosen but given by its number, and no
    rate is below the -1 of a failed measurement.  The runs built here improve slowly, so that the gain
    exit never comes.
 */
module Climbs {
  import opened Options
  import opened Probes
  import opened Tuning
  import opened TuningTrace

  // (A + k + 1)^alpha and (k + 1)^gamma, by the number of the pass
  datatype Powers = Powers(aDen: nat -> Positive, cDen: nat -> Positive)

  predicate Rated(m: Measurement) {
    m.Measured? ==> m.mbps >= -1.0
  }

  // What a run with these powers can meet
  ghost predicate Meets(oracle: Oracle, d: Powers) {
    forall k: nat :: var i := oracle(k);
      i.aDen == d.aDen(k) && i.cDen == d.cDen(k) && Rated(i.plus) && Rated(i.minus) && Rated(i.star)
  }

  // Pass k with failed pings
  function Quiet(d: Powers, k: nat, x: Sign, y: Sign, plus: real, minus: real, star: real): Inputs {
    Inputs(-1.0, 0, 0, d.aDen(k), d.cDen(k), x, y, Measured(plus, true), Measured(minus, true), Measured(star, true))
  }

  // ---------- The code's own powers ----------

  function Pow(x: real, n: nat): real {
    if n == 0 then 1.0 else x * Pow(x, n - 1)
  }

  // Each is the deg-th root of the num-th power of k + 1, which is 2 in the first pass.
  ghost predicate Roots(dens: nat -> Positive, num: nat, deg: nat) {
    forall k: nat :: Pow(dens(k), deg) == Pow((k + 2) as real, num)
  }

  // A = 0, alpha = 0.602 and gamma = 0.101 are fixed.
  ghost predicate OfCode(d: Powers) {
    Roots(d.aDen, 301, 500) && Roots(d.cDen, 101, 1000)
  }

  lemma Step(x: real, y: real, p: real, q: real)
    requires 0.0 < x <= y && 0.0 < p <= q
    ensures 0.0 < x * p <= y * q && (x < y ==> x * p < y * q)
  {
    assert x * p <= x * q <= y * q;
    assert x < y ==> (y - x) * q > 0.0;
  }

  lemma {:induction false} PowGrows(x: real, y: real, n: nat)
    requires 0.0 < x <= y
    ensures 0.0 < Pow(x, n) <= Pow(y, n) && (x < y && n > 0 ==> Pow(x, n) < Pow(y, n))
  {
    if n > 0 {
      PowGrows(x, y, n - 1);
      Step(x, y, Pow(x, n - 1), Pow(y, n - 1));
    }
  }

  lemma {:induction false} PowAdds(x: real, m: nat, n: nat)
    ensures Pow(x, m + n) == Pow(x, m) * Pow(x, n)
  {
    if m > 0 {
      PowAdds(x, m - 1, n);
    }
  }

  lemma {:induction false} PowTimes(x: real, m: nat, n: nat, mn: nat)
    requires mn == m * n
    ensures Pow(x, mn) == Pow(Pow(x, m), n)
  {
    if n > 0 {
      var rest: nat := m * (n - 1);
      assert mn == m + rest;
      PowTimes(x, m, n - 1, rest);
      PowAdds(x, m, rest);
    }
  }

  lemma {:induction false} PowOne(n: nat)
    ensures Pow(1.0, n) == 1.0
  {
    if n > 0 {
      PowOne(n - 1);
    }
  }

  lemma PowLonger(c: real, part: nat, rest: nat)
    requires c >= 1.0
    ensures 0.0 < Pow(c, part) <= Pow(c, part + rest)
  {
    PowAdds(c, part, rest);
    PowGrows(1.0, c, rest);
    PowOne(rest);
    PowGrows(c, c, part);
    Step(1.0, Pow(c, rest), Pow(c, part), Pow(c, part));
  }

  // The n-th power of a base up to c^share has no root of a higher degree above c.
  lemma RootBelow(root: real, base: real, c: real, share: nat, n: nat, part: nat, whole: nat)
    requires root > 0.0 && c >= 1.0 && 0.0 < base <= Pow(c, share) && part == share * n && part <= whole && whole > 0
    requires Pow(root, whole) == Pow(base, n)
    ensures root <= c
  {
    PowGrows(base, Pow(c, share), n);
    PowTimes(c, share, n, part);
    PowLonger(c, part, whole - part);
    if root > c {
      PowGrows(c, root, whole);
    }
  }

  lemma RootsBelow(dens: nat -> Positive, num: nat, deg: nat, k: nat, c: real, share: nat, part: nat)
    requires Roots(dens, num, deg) && part == share * num <= deg && deg > 0
    requires c >= 1.0 && (k + 2) as real <= Pow(c, share)
    ensures dens(k) <= c
  {
    RootBelow(dens(k), (k + 2) as real, c, share, num, part, deg);
  }

  // The perturbation gain c stays at 1 or more up to pass k if k + 2 is at most its ninth power.
  lemma GammaBelow(d: Powers, k: nat, c: real)
    requires OfCode(d) && c >= 1.0 && (k + 2) as real <= Pow(c, 9)
    ensures d.cDen(k) <= c
  {
    RootsBelow(d.cDen, 101, 1000, k, c, 9, 909);
  }

  // ---------- A slow climb ----------

  // The result after n steps of e
  function Height(e: real, n: nat): real {
    if n == 0 then 0.0 else Height(e, n - 1) + e
  }

  lemma {:induction false} HeightGrows(e: real, m: nat, n: nat)
    requires e > 0.0 && m <= n
    ensures 0.0 <= Height(e, m) <= Height(e, n)
    decreases n
  {
    if n > 0 {
      HeightGrows(e, if m == n then m - 1 else m, n - 1);
    }
  }

  lemma {:induction false} HeightIs(e: real, n: nat)
    ensures Height(e, n) == e * n as real
  {
    if n > 0 {
      HeightIs(e, n - 1);
      OneMore(e, (n - 1) as real);
    }
  }

  lemma OneMore(e: real, x: real)
    ensures e * x + e == e * (x + 1.0)
  {
  }

  // Results that improve from one measurement to the next
  function Climb(e: real, d: Powers, k: nat): Inputs {
    Quiet(d, k, 1.0, 1.0, Height(e, 3 * k + 1), Height(e, 3 * k + 2), Height(e, 3 * k + 3))
  }

  lemma ClimbRated(e: real, d: Powers, k: nat)
    requires e > 0.0
    ensures var i := Climb(e, d, k); Rated(i.plus) && Rated(i.minus) && Rated(i.star)
  {
    HeightGrows(e, 3 * k + 1, 3 * k + 1);
    HeightGrows(e, 3 * k + 2, 3 * k + 2);
    HeightGrows(e, 3 * k + 3, 3 * k + 3);
  }

  function Climbing(e: real, d: Powers): Oracle {
    (k: nat) => Climb(e, d, k)
  }

  lemma ClimbingMeets(e: real, d: Powers)
    requires e > 0.0
    ensures Meets(Climbing(e, d), d)
  {
    forall k: nat
      ensures var i := Climb(e, d, k); Rated(i.plus) && Rated(i.minus) && Rated(i.star)
    {
      ClimbRated(e, d, k);
    }
  }

  // A step so small that a whole run stays below the gain ratio
  predicate Slow(cfg: Config, e: real) {
    cfg.bwBps != 0.0 && cfg.pgr != 0.0 && e > 0.0 && Height(e, cfg.MaxProfLimit() + 3) <= Below(cfg) * 1000.0
  }

  lemma SlowStep(cfg: Config) returns (e: real)
    requires cfg.bwBps != 0.0 && cfg.pgr != 0.0
    ensures Slow(cfg, e)
  {
    var n := (cfg.MaxProfLimit() + 3) as real;
    e := Below(cfg) * 1000.0 / n;
    assert e * n == Below(cfg) * 1000.0;
    HeightIs(e, cfg.MaxProfLimit() + 3);
  }

  // After n measurements of the climb
  predicate Climbed(s: State, e: real, n: nat) {
    s.maxPerf == Height(e, n) / 1000.0 && (n > 0 ==> s.noImp == 0) && |s.visited| == n
  }

  lemma ClimbFails(cfg: Config, s: State, e: real, n: nat)
    requires Slow(cfg, e) && n <= cfg.MaxProfLimit() + 2 && Climbed(s, e, n)
    ensures !cfg.GainReached(s.maxPerf)
  {
    HeightGrows(e, n, cfg.MaxProfLimit() + 3);
    BelowFails(cfg, s.maxPerf);
  }

  lemma TriedClimbs(cfg: Config, s: State, theta: Pair, marker: char, e: real, n: nat)
    requires Slow(cfg, e) && n <= cfg.MaxProfLimit() + 2 && Climbed(s, e, n)
    ensures var r := Tried(cfg, s, theta, marker, Measured(Height(e, n + 1), true));
      r.Go? && Climbed(r.s, e, n + 1) && r.s.maxTheta == theta && r.s.saved.Some?
  {
    HeightGrows(e, n + 1, cfg.MaxProfLimit() + 3);
    BelowFails(cfg, Height(e, n + 1) / 1000.0);
    ImprovedTried(cfg, s, theta, marker, Height(e, n + 1));
  }

  // A better measurement that does not reach the gain
  lemma ImprovedTried(cfg: Config, s: State, theta: Pair, marker: char, mbps: real)
    requires mbps / 1000.0 > s.maxPerf && !cfg.GainReached(mbps / 1000.0)
    ensures var r := Tried(cfg, s, theta, marker, Measured(mbps, true));
      && r.Go? && r.s.maxPerf == mbps / 1000.0 && r.s.noImp == 0 && |r.s.visited| == |s.visited| + 1
      && r.s.maxTheta == theta && r.s.saved == Some(mbps)
  {
  }

  lemma ThriceClimbs(cfg: Config, s: State, plus: Pair, minus: Pair, star: Pair, e: real, k: nat, d: Powers)
    requires Slow(cfg, e) && 3 * k < cfg.MaxProfLimit() && Climbed(s, e, 3 * k)
    ensures var r := Thrice(cfg, s, plus, minus, star, Climb(e, d, k)); r.Go? && Climbed(r.s, e, 3 * k + 3)
  {
    var i := Climb(e, d, k);
    TriedClimbs(cfg, s, plus, '+', e, 3 * k);
    var r1 := Tried(cfg, s, plus, '+', i.plus);
    TriedClimbs(cfg, r1.s, minus, '-', e, 3 * k + 1);
    var r2 := Again(cfg, r1, minus, '-', i.minus);
    TriedClimbs(cfg, r2.s.(theta := star), star, '*', e, 3 * k + 2);
  }

  // At a loop head that the climb has come to, no exit is taken below the limit.
  lemma ClimbGoesOn(cfg: Config, s: State, e: real)
    requires Slow(cfg, e) && cfg.NoImpLimit() > 0 && s.profNum < cfg.MaxProfLimit() && s.profNum == 3 * s.k
    requires s.noImp == 0 && Climbed(s, e, 3 * s.k)
    ensures Head(cfg, s) == Go(Damped(cfg, s))
  {
    ClimbFails(cfg, s, e, 3 * s.k);
  }

  // A pass measures three points, wherever they are.
  lemma PassIs(cfg: Config, s: State, i: Inputs) returns (p: Pair, m: Pair, z: Pair)
    requires s.c != 0.0
    ensures Pass(cfg, s, i) == Thrice(cfg, Prepared(cfg, s, i), p, m, z, i)
  {
    var t := Prepared(cfg, s, i);
    var ak, ck := s.a / i.aDen, s.c / i.cDen;
    p, m, z := PlusPoint(t, ck, i), MinusPoint(t, ck, i), StarPoint(t, ak, ck, i);
  }

  lemma ClimbingPass(cfg: Config, s: State, e: real, d: Powers, k: nat, r: Step)
    requires s.c != 0.0 && Slow(cfg, e) && 3 * k < cfg.MaxProfLimit() && Climbed(s, e, 3 * k)
    requires r == Pass(cfg, s, Climb(e, d, k))
    ensures r.Go? && r.s.k == s.k + 1 && Climbed(r.s, e, 3 * k + 3) && r.s.c == s.c && r.s.profNum == s.profNum + 3
  {
    var i := Climb(e, d, k);
    var p, m, z := PassIs(cfg, s, i);
    var t := Prepared(cfg, s, i);
    ThriceClimbs(cfg, t, p, m, z, e, k, d);
    ThriceCounts(cfg, t, p, m, z, i);
  }
}
