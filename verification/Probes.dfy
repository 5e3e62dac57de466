/** One dimension of the stochastic approximation: a perturbed pair of points, cut to
    the box, with the perturbation that is left on either side
    (src/fastprof/fastprof_tcp.cpp:335-379 and src/fastprof/fastprof_udt.cpp:346-391).
 */
module Probes {
  import opened Numbers

  const LOW := 1.0    // F_ITERATIVE_MIN
  const HIGH := 25.0  // F_ITERATIVE_MAX

  predicate InBox(x: real) {
    LOW <= x <= HIGH
  }

  // f_perturb()
  type Sign = d: real | d == 1.0 || d == -1.0 witness 1.0

  function Clamp(x: real): (r: real)
    ensures InBox(r) && (InBox(x) ==> r == x)
  {
    if x > HIGH then HIGH else if x < LOW then LOW else x
  }

  function Min(x: real, y: real): real {
    if x < y then x else y
  }

  // theta_plus or theta_minus after the cut, and its ck_adjust
  datatype Probe = Probe(at: real, reach: real)

  // ck_adjust of a step `s` of which the box leaves `room`
  function Cut(ck: real, room: real, s: real): real
    requires s != 0.0
  {
    ck * Abs(room / s)
  }

  function Aim(theta: real, step: real, ck: real): Probe
    requires InBox(theta)
  {
    var t := theta + step;
    if t > HIGH then Probe(HIGH, Cut(ck, HIGH - theta, t - theta))
    else if t < LOW then Probe(LOW, Cut(ck, LOW - theta, t - theta))
    else Probe(t, ck)
  }

  function Plus(theta: real, ck: real, delta: Sign): Probe
    requires InBox(theta)
  {
    Aim(theta, ck * delta, ck)
  }

  function Minus(theta: real, ck: real, delta: Sign): Probe
    requires InBox(theta)
  {
    Aim(theta, -(ck * delta), ck)
  }

  // Each ck_adjust is the signed distance that the cut left of the step.
  lemma AimReach(theta: real, step: real, ck: real)
    requires InBox(theta) && (step == ck || step == -ck)
    ensures var p := Aim(theta, step, ck); InBox(p.at) && p.reach == if step == ck then p.at - theta else theta - p.at
    ensures ck >= 0.0 ==> Aim(theta, step, ck).reach == Abs(Aim(theta, step, ck).at - theta)
    ensures ck > 0.0 && step > 0.0 ==> Aim(theta, step, ck).reach == Min(ck, HIGH - theta)
    ensures ck > 0.0 && step < 0.0 ==> Aim(theta, step, ck).reach == Min(ck, theta - LOW)
  {
  }

  // The denominator of ghat
  function Denominator(theta: real, ck: real, delta: Sign): real
    requires InBox(theta)
  {
    (Plus(theta, ck, delta).reach + Minus(theta, ck, delta).reach) * delta
  }

  // Where the probes of a signed step land, and how far they reach in its direction
  lemma ProbeReach(theta: real, step: real, ck: real, sign: Sign)
    requires InBox(theta) && step == (if sign == 1.0 then ck else -ck)
    ensures var p := Aim(theta, step, ck); p.reach == if sign == 1.0 then p.at - theta else theta - p.at
  {
    AimReach(theta, step, ck);
    if step == ck && sign == -1.0 {
      assert ck == 0.0 && step == 0.0;
    }
  }

  lemma Signed(ck: real, delta: Sign)
    ensures ck * delta == if delta == 1.0 then ck else -ck
  {
  }

  // The two one-sided corrections make the denominator the exact secant, whatever the cut.
  lemma ExactSecant(theta: real, ck: real, delta: Sign)
    requires InBox(theta)
    ensures Denominator(theta, ck, delta) == Plus(theta, ck, delta).at - Minus(theta, ck, delta).at
  {
    var step := ck * delta;
    Signed(ck, delta);
    ProbeReach(theta, step, ck, delta);
    ProbeReach(theta, -step, ck, if delta == 1.0 then -1.0 else 1.0);
    Signed(Aim(theta, step, ck).reach + Aim(theta, -step, ck).reach, delta);
  }

  // Its size: at least the shorter of ck and the box, at most the shorter of 2ck and the box.
  lemma SecantBounds(theta: real, ck: real, delta: Sign)
    requires InBox(theta) && ck > 0.0
    ensures var sum := Plus(theta, ck, delta).reach + Minus(theta, ck, delta).reach;
      Min(ck, HIGH - LOW) <= sum <= Min(2.0 * ck, HIGH - LOW)
  {
    AimReach(theta, ck * delta, ck);
    AimReach(theta, -(ck * delta), ck);
  }

  // The division for ghat is defined exactly when the perturbation gain is not zero.
  lemma DenominatorDefined(theta: real, ck: real, delta: Sign)
    requires InBox(theta)
    ensures Denominator(theta, ck, delta) != 0.0 <==> ck != 0.0
  {
    ExactSecant(theta, ck, delta);
  }

  // One component of ghat
  function Slope(theta: real, ck: real, delta: Sign, rise: real): real
    requires InBox(theta) && ck != 0.0
  {
    DenominatorDefined(theta, ck, delta);
    rise / Denominator(theta, ck, delta)
  }

  // The projected step from theta
  function Moved(theta: real, ak: real, slope: real): real {
    Clamp(theta + ak * slope)
  }

  // The rise that was measured, seen along the axis
  function Along(delta: Sign, rise: real): real {
    if delta == 1.0 then rise else -rise
  }

  // `to` lies in the box and not against the measured rise as seen from `from`.
  predicate Follows(from: real, to: real, delta: Sign, rise: real) {
    InBox(to) && (to > from ==> Along(delta, rise) > 0.0) && (to < from ==> Along(delta, rise) < 0.0)
  }

  // A step from `from` to `to` that follows the rise and is no longer than the gain allows
  predicate Projected(from: real, to: real, ak: real, ck: real, delta: Sign, rise: real) {
    && InBox(from) && ck != 0.0 && Follows(from, to, delta, rise)
    && Abs(to - from) <= Abs(ak * Slope(from, ck, delta, rise))
  }

  // For a positive gain the step never goes against the measured rise, and never further than ak*|ghat|.
  lemma ProjectedStep(theta: real, ak: real, ck: real, delta: Sign, rise: real)
    requires InBox(theta) && ak > 0.0 && ck > 0.0
    ensures Projected(theta, Moved(theta, ak, Slope(theta, ck, delta, rise)), ak, ck, delta, rise)
  {
    var g := Slope(theta, ck, delta, rise);
    SlopeSign(theta, ck, delta, rise, g);
    SameSign(g, ak, ak * g);
  }

  // ghat points the way of the measured rise.
  lemma SlopeSign(theta: real, ck: real, delta: Sign, rise: real, g: real)
    requires InBox(theta) && ck > 0.0 && g == Slope(theta, ck, delta, rise)
    ensures (g > 0.0 <==> Along(delta, rise) > 0.0) && (g < 0.0 <==> Along(delta, rise) < 0.0)
  {
  }

  lemma SameSign(x: real, d: real, p: real)
    requires d > 0.0 && x * d == p
    ensures (x > 0.0 <==> p > 0.0) && (x < 0.0 <==> p < 0.0)
  {
  }
}
