/** One turn of the tuning loop as arithmetic: whole numbers nearest to values, points of the box nearest
    to targets, products where the code divides.  Nothing here is told through the functions that
    compute it, and the constants are written out.
 */
module PlainPass {
  import opened Options
  import opened Numbers
  import opened Probes
  import opened Tuning
  import opened TuningSteps
  import opened TuningReport

  // The whole number nearest to x, the upper one in the middle
  predicate Nearest(n: int, x: real) {
    n as real - 0.5 <= x < n as real + 0.5
  }

  // The point of the box that is nearest to a target
  predicate CutTo(p: real, target: real) {
    if target > 25.0 then p == 25.0 else if target < 1.0 then p == 1.0 else p == target
  }

  // min(host limit, 2*10^9)
  predicate IsCap(cap: int, hostMaxBuf: int) {
    cap <= hostMaxBuf && cap <= 2000000000 && (cap == hostMaxBuf || cap == 2000000000)
  }

  // n brought between 16000 and the cap; the cap wins.
  predicate Fitted(m: int, n: int, cap: int) {
    if n > cap || cap < 16000 then m == cap else if n < 16000 then m == 16000 else m == n
  }

  // An int that was assigned the nearest whole number to x, or whatever came of it out of range
  predicate Assigned(n: int, x: real, wild: int) {
    (-2147483648 <= n <= 2147483647 && Nearest(n, x)) || (n == wild && (x >= 2147483647.5 || x < -2147483648.5))
  }

  // ---------- The round-trip time and the window ----------

  // Weight 1/8 for the old and 7/8 for the new value
  predicate Smoothed(bwBps: real, before: real, pingMs: real, after: real) {
    if bwBps < 0.0 || pingMs < 0.0 then after == before
    else if before < 0.0 then after == pingMs
    else 8.0 * after == before + 7.0 * pingMs
  }

  lemma RttPlain(cfg: Config, s: State, i: Inputs)
    ensures Smoothed(cfg.bwBps, s.rttMs, i.pingMs, Prepared(cfg, s, i).rttMs)
  {
  }

  // The b bytes that are under way at bw bits per second and rtt milliseconds: rtt * bw == 8000 * b.
  lemma BdpPlain(bwBps: real, rttMs: real, b: real)
    requires bwBps >= 0.0 && rttMs >= 0.0 && rttMs * bwBps == 8000.0 * b
    ensures Bdp(bwBps, rttMs) == b >= 0.0
  {
    var x, y := rttMs * 0.001, bwBps / 8.0;
    Scales(rttMs, bwBps, x, y);
  }

  lemma Scales(rtt: real, bw: real, x: real, y: real)
    requires rtt == 1000.0 * x && bw == 8.0 * y && x >= 0.0 && y >= 0.0
    ensures rtt * bw == 8000.0 * (x * y) && x * y >= 0.0
  {
  }

  lemma AssignedPlain(x: real, wild: Int32)
    ensures Assigned(ToInt(Round(x), wild), x, wild)
  {
    RoundNearest(x, Round(x));
  }

  lemma GuardedPlain(cfg: Config, n: int, cap: int)
    requires IsCap(cap, cfg.hostMaxBuf)
    ensures Fitted(Guarded(cfg, n), n, cap)
  {
  }

  // Without a bandwidth or a round-trip time the window stays; otherwise it goes from 3/4 of the bytes
  // under way to four times as many, inside the safeguards.
  predicate Windowed(cfg: Config, s: State, i: Inputs, low: int, high: int, rttMs: real,
                     b: real, n: int, m: int, cap: int)
  {
    if cfg.bwBps < 0.0 || rttMs < 0.0 then low == s.bufLow && high == s.bufHigh
    else
      && rttMs * cfg.bwBps == 8000.0 * b && Assigned(n, 0.75 * b, i.wildLow) && Assigned(m, 4.0 * b, i.wildHigh)
      && Fitted(low, n, cap) && Fitted(high, m, cap)
  }

  lemma WindowPlain(cfg: Config, s: State, i: Inputs, t: State, cap: int, b: real) returns (n: int, m: int)
    requires t == Prepared(cfg, s, i) && IsCap(cap, cfg.hostMaxBuf) && t.rttMs * cfg.bwBps == 8000.0 * b
    ensures Windowed(cfg, s, i, t.bufLow, t.bufHigh, t.rttMs, b, n, m, cap)
  {
    if cfg.bwBps >= 0.0 && t.rttMs >= 0.0 {
      BdpPlain(cfg.bwBps, t.rttMs, b);
    }
    EndsSet(cfg, s, i, t, b);
    n, m := EndsPlain(cfg, s, i, t.bufLow, t.bufHigh, t.rttMs, b, cap);
  }

  predicate EndsAt(cfg: Config, s: State, i: Inputs, low: int, high: int, rttMs: real, b: real) {
    if cfg.bwBps < 0.0 || rttMs < 0.0 then low == s.bufLow && high == s.bufHigh
    else
      && low == Guarded(cfg, ToInt(Round(0.75 * b), i.wildLow))
      && high == Guarded(cfg, ToInt(Round(4.0 * b), i.wildHigh))
  }

  lemma EndsSet(cfg: Config, s: State, i: Inputs, t: State, b: real)
    requires t == Prepared(cfg, s, i)
    requires cfg.bwBps >= 0.0 && t.rttMs >= 0.0 ==> Bdp(cfg.bwBps, t.rttMs) == b >= 0.0
    ensures EndsAt(cfg, s, i, t.bufLow, t.bufHigh, t.rttMs, b)
  {
  }

  lemma EndsPlain(cfg: Config, s: State, i: Inputs, low: int, high: int, rttMs: real, b: real, cap: int)
      returns (n: int, m: int)
    requires EndsAt(cfg, s, i, low, high, rttMs, b) && IsCap(cap, cfg.hostMaxBuf) && rttMs * cfg.bwBps == 8000.0 * b
    ensures Windowed(cfg, s, i, low, high, rttMs, b, n, m, cap)
  {
    n, m := ToInt(Round(0.75 * b), i.wildLow), ToInt(Round(4.0 * b), i.wildHigh);
    EndPlain(cfg, 0.75 * b, i.wildLow, n, cap);
    EndPlain(cfg, 4.0 * b, i.wildHigh, m, cap);
  }

  lemma EndPlain(cfg: Config, x: real, wild: Int32, n: int, cap: int)
    requires IsCap(cap, cfg.hostMaxBuf) && n == ToInt(Round(x), wild)
    ensures Assigned(n, x, wild) && Fitted(Guarded(cfg, n), n, cap)
  {
    AssignedPlain(x, wild);
    GuardedPlain(cfg, n, cap);
  }

  lemma HoldsBetween(b: real, k: int, n: int, wildLow: int, m: int, wildHigh: int, cap: int, low: int, high: int)
    requires 0.0 <= 4.0 * b < 2147483647.5 && Nearest(k, b) && 16000 <= k <= cap
    requires Assigned(n, 0.75 * b, wildLow) && Assigned(m, 4.0 * b, wildHigh)
    requires Fitted(low, n, cap) && Fitted(high, m, cap)
    ensures 16000 <= low <= k <= high <= cap
  {
  }

  lemma HoldsFrom(cfg: Config, s: State, i: Inputs, low: int, high: int, rttMs: real, b: real, cap: int, k: int)
    requires EndsAt(cfg, s, i, low, high, rttMs, b) && IsCap(cap, cfg.hostMaxBuf)
    requires cfg.bwBps >= 0.0 && rttMs >= 0.0 && 0.0 <= 4.0 * b < 2147483647.5 && Nearest(k, b) && 16000 <= k <= cap
    ensures 16000 <= low <= k <= high <= cap
  {
    var n, m := ToInt(Round(0.75 * b), i.wildLow), ToInt(Round(4.0 * b), i.wildHigh);
    EndPlain(cfg, 0.75 * b, i.wildLow, n, cap);
    EndPlain(cfg, 4.0 * b, i.wildHigh, m, cap);
    HoldsBetween(b, k, n, i.wildLow, m, i.wildHigh, cap, low, high);
  }

  // The bytes under way are in the window whenever the safeguards admit them and the upper end fits an int.
  lemma WindowHolds(cfg: Config, s: State, i: Inputs, t: State, cap: int, b: real, k: int)
    requires t == Prepared(cfg, s, i) && IsCap(cap, cfg.hostMaxBuf) && t.rttMs * cfg.bwBps == 8000.0 * b
    requires cfg.bwBps >= 0.0 && t.rttMs >= 0.0 && 4.0 * b < 2147483647.5 && Nearest(k, b) && 16000 <= k <= cap
    ensures 16000 <= t.bufLow <= k <= t.bufHigh <= cap
  {
    BdpPlain(cfg.bwBps, t.rttMs, b);
    EndsSet(cfg, s, i, t, b);
    HoldsFrom(cfg, s, i, t.bufLow, t.bufHigh, t.rttMs, b, cap, k);
  }

  // ---------- Values and settings ----------

  // What the two coordinates of theta stand for: (buffer, streams) or (block in packets, buffer)
  predicate ValuesFor(kind: Kind, low: int, high: int, theta: Pair, x: real, y: real) {
    match kind
    case Tcp => 24.0 * (x - low as real) == (theta.x - 1.0) * (high - low) as real && y == theta.y
    case Udt(_) => x == theta.x && 24.0 * (y - low as real) == (theta.y - 1.0) * (high - low) as real
  }

  // What is written on the test object for two values; a socket buffer is half of the buffer.
  predicate SettingFor(kind: Kind, x: real, y: real, u: Setting) {
    match kind
    case Tcp => u.TcpSetting? && Nearest(u.socketBuf, x / 2.0) && Nearest(u.streams, y)
    case Udt(mss) =>
      && u.UdtSetting? && Nearest(u.block, x * (mss - 44) as real)
      && Nearest(u.udtBuf, y) && Nearest(u.udpBuf, y / 2.0)
  }

  lemma ScaledPlain(low: real, high: real, theta: real, v: real)
    requires v == ThetaToVal(low, high, theta)
    ensures 24.0 * (v - low) == (theta - 1.0) * (high - low)
  {
    var p := (theta - 1.0) * (high - low);
    assert v == p / 24.0 + low;
  }

  lemma ValuesPlain(cfg: Config, low: int, high: int, theta: Pair)
    ensures var v := Values(cfg, low, high, theta); ValuesFor(cfg.kind, low, high, theta, v.x, v.y)
  {
    var v := Values(cfg, low, high, theta);
    assert (high - low) as real == high as real - low as real;
    match cfg.kind
    case Tcp =>
      ScaledPlain(low as real, high as real, theta.x, v.x);
      ScaledPlain(1.0, 25.0, theta.y, v.y);
    case Udt(_) =>
      ScaledPlain(1.0, 25.0, theta.x, v.x);
      ScaledPlain(low as real, high as real, theta.y, v.y);
  }

  lemma SettingPlain(cfg: Config, v: Pair)
    ensures SettingFor(cfg.kind, v.x, v.y, SettingOf(cfg, v))
  {
  }

  // In every run each entry of the list has the setting that belongs to its values.
  lemma RunSettings(cfg: Config, a: real, c: real, theta: Pair, rttMs: real, oracle: Oracle, k: nat)
    requires c != 0.0 && cfg.cScale != 0.0 && k < |Run(cfg, Start(cfg, a, c, theta, rttMs), oracle).0.visited|
    ensures var t := Run(cfg, Start(cfg, a, c, theta, rttMs), oracle).0;
      k < |t.used| && SettingFor(cfg.kind, t.visited[k].first, t.visited[k].second, t.used[k])
  {
    RunCounted(cfg, Start(cfg, a, c, theta, rttMs), oracle);
    var t := Run(cfg, Start(cfg, a, c, theta, rttMs), oracle).0;
    SettingPlain(cfg, Pair(t.visited[k].first, t.visited[k].second));
  }

  // ---------- The three points ----------

  lemma ClampPlain(x: real)
    ensures CutTo(Clamp(x), x)
  {
  }

  lemma ProbePlain(theta: real, ck: real, delta: Sign)
    requires InBox(theta)
    ensures CutTo(Plus(theta, ck, delta).at, theta + ck * delta)
    ensures CutTo(Minus(theta, ck, delta).at, theta - ck * delta)
  {
    ProbesAreClamped(theta, ck, delta);
  }

  lemma QuotientPlain(x: real, d: real, q: real)
    requires d != 0.0 && q == x / d
    ensures q * d == x
  {
  }

  // In one dimension: two probes on either side, and the step along the slope g between them
  predicate Aimed(theta: real, ak: real, ck: real, delta: Sign, rise: real,
                  plus: real, minus: real, star: real, g: real)
  {
    && CutTo(plus, theta + ck * delta) && CutTo(minus, theta - ck * delta) && plus != minus
    && g * (plus - minus) == rise && CutTo(star, theta + ak * g)
  }

  lemma SlopePlain(theta: real, ck: real, delta: Sign, rise: real, plus: real, minus: real, g: real)
    requires InBox(theta) && ck != 0.0 && plus == Plus(theta, ck, delta).at && minus == Minus(theta, ck, delta).at
    requires g == Slope(theta, ck, delta, rise)
    ensures plus != minus && g * (plus - minus) == rise
  {
    SecantSlope(theta, ck, delta, rise, plus, minus);
    QuotientPlain(rise, plus - minus, g);
  }

  lemma StepPlain(theta: real, ak: real, ck: real, delta: Sign, rise: real, plus: real, minus: real, g: real)
    requires InBox(theta) && plus == Plus(theta, ck, delta).at && minus == Minus(theta, ck, delta).at
    requires plus != minus && g * (plus - minus) == rise
    ensures Aimed(theta, ak, ck, delta, rise, plus, minus, Moved(theta, ak, g), g)
  {
    ProbePlain(theta, ck, delta);
    ClampPlain(theta + ak * g);
  }

  // In Gb/s; a run that failed has none, and the pass does not come to theta(*).
  predicate Rise(i: Inputs, rise: real) {
    1000.0 * rise == (if i.plus.Measured? then i.plus.mbps else 0.0) - if i.minus.Measured? then i.minus.mbps else 0.0
  }

  datatype Points = Points(plus: Pair, minus: Pair, star: Pair)

  predicate AimedBoth(theta: Pair, ak: real, ck: real, i: Inputs, rise: real, p: Points, g: Pair) {
    && Aimed(theta.x, ak, ck, i.deltaX, rise, p.plus.x, p.minus.x, p.star.x, g.x)
    && Aimed(theta.y, ak, ck, i.deltaY, rise, p.plus.y, p.minus.y, p.star.y, g.y)
  }

  lemma DimensionPlain(theta: real, ak: real, ck: real, delta: Sign, rise: real, plus: real, minus: real)
      returns (g: real)
    requires InBox(theta) && ck != 0.0 && plus == Plus(theta, ck, delta).at && minus == Minus(theta, ck, delta).at
    ensures g == Slope(theta, ck, delta, rise)
    ensures Aimed(theta, ak, ck, delta, rise, plus, minus, Moved(theta, ak, g), g)
  {
    g := Slope(theta, ck, delta, rise);
    SlopePlain(theta, ck, delta, rise, plus, minus, g);
    StepPlain(theta, ak, ck, delta, rise, plus, minus, g);
  }

  lemma PointsPlain(t: State, ak: real, ck: real, i: Inputs, rise: real, p: Points) returns (g: Pair)
    requires InBox(t.theta.x) && InBox(t.theta.y) && ck != 0.0 && Rise(i, rise)
    requires p == Points(PlusPoint(t, ck, i), MinusPoint(t, ck, i), StarPoint(t, ak, ck, i))
    ensures AimedBoth(t.theta, ak, ck, i, rise, p, g)
  {
    var x := DimensionPlain(t.theta.x, ak, ck, i.deltaX, rise, p.plus.x, p.minus.x);
    var y := DimensionPlain(t.theta.y, ak, ck, i.deltaY, rise, p.plus.y, p.minus.y);
    g := Pair(x, y);
    StarPlain(t, ak, ck, i, rise, g);
  }

  lemma StarPlain(t: State, ak: real, ck: real, i: Inputs, rise: real, g: Pair)
    requires InBox(t.theta.x) && InBox(t.theta.y) && ck != 0.0 && Rise(i, rise)
    requires g == Pair(Slope(t.theta.x, ck, i.deltaX, rise), Slope(t.theta.y, ck, i.deltaY, rise))
    ensures StarPoint(t, ak, ck, i) == Pair(Moved(t.theta.x, ak, g.x), Moved(t.theta.y, ak, g.y))
  {
    assert rise == Mbps(i.plus) / 1000.0 - Mbps(i.minus) / 1000.0;
  }

  // ---------- A pass ----------

  // The entry of the list and the setting for a point, at the window of the pass
  predicate EntryFor(kind: Kind, t: State, theta: Pair, marker: char, m: Measurement, e: Trace, u: Setting) {
    && ValuesFor(kind, t.bufLow, t.bufHigh, theta, e.first, e.second) && SettingFor(kind, e.first, e.second, u)
    && e.marker == marker && m.Measured? && m.stored && e.perfMbps == m.mbps
  }

  predicate Entered(kind: Kind, t: State, i: Inputs, p: Points, before: State, after: State) {
    var n, l := |before.visited|, |before.used|;
    && |after.visited| == n + 3 && after.visited[..n] == before.visited
    && |after.used| == l + 3 && after.used[..l] == before.used
    && after.points == before.points + [p.plus, p.minus, p.star]
    && EntryFor(kind, t, p.plus, '+', i.plus, after.visited[n], after.used[l])
    && EntryFor(kind, t, p.minus, '-', i.minus, after.visited[n + 1], after.used[l + 1])
    && EntryFor(kind, t, p.star, '*', i.star, after.visited[n + 2], after.used[l + 2])
  }

  lemma TriedPlain(cfg: Config, s: State, theta: Pair, marker: char, m: Measurement)
    ensures var r := Tried(cfg, s, theta, marker, m); r.Go? || r.why.Gain? ==>
      && |r.s.visited| == |s.visited| + 1 && r.s.visited[..|s.visited|] == s.visited
      && |r.s.used| == |s.used| + 1 && r.s.used[..|s.used|] == s.used
      && EntryFor(cfg.kind, s, theta, marker, m, r.s.visited[|s.visited|], r.s.used[|s.used|])
      && r.s.points == s.points + [theta] && r.s.bufLow == s.bufLow && r.s.bufHigh == s.bufHigh
  {
    var v := Values(cfg, s.bufLow, s.bufHigh, theta);
    ValuesPlain(cfg, s.bufLow, s.bufHigh, theta);
    SettingPlain(cfg, v);
  }

  lemma ThricePlain(cfg: Config, s: State, p: Points, i: Inputs, r: Step)
    requires r == Thrice(cfg, s, p.plus, p.minus, p.star, i)
    ensures r.Go? ==> Entered(cfg.kind, s, i, p, s, r.s)
  {
    TriedPlain(cfg, s, p.plus, '+', i.plus);
    var r1 := Tried(cfg, s, p.plus, '+', i.plus);
    if r1.Go? {
      TriedPlain(cfg, r1.s, p.minus, '-', i.minus);
      var r2 := Tried(cfg, r1.s, p.minus, '-', i.minus);
      if r2.Go? {
        TriedPlain(cfg, r2.s.(theta := p.star), p.star, '*', i.star);
      }
    }
  }

  lemma BytesPlain(rttMs: real, bwBps: real) returns (b: real)
    ensures rttMs * bwBps == 8000.0 * b
  {
    var x := rttMs * bwBps;
    b := x / 8000.0;
  }

  // The start of a pass: the round-trip time, the window, and theta cut to the box
  predicate Readied(cfg: Config, s: State, i: Inputs, t: State, b: real, n: int, m: int, cap: int) {
    && CutTo(t.theta.x, s.theta.x) && CutTo(t.theta.y, s.theta.y) && Smoothed(cfg.bwBps, s.rttMs, i.pingMs, t.rttMs)
    && Windowed(cfg, s, i, t.bufLow, t.bufHigh, t.rttMs, b, n, m, cap)
  }

  lemma ReadiedPlain(cfg: Config, s: State, i: Inputs, t: State, cap: int) returns (b: real, n: int, m: int)
    requires IsCap(cap, cfg.hostMaxBuf) && t == Prepared(cfg, s, i)
    ensures Readied(cfg, s, i, t, b, n, m, cap)
  {
    b := BytesPlain(t.rttMs, cfg.bwBps);
    n, m := WindowPlain(cfg, s, i, t, cap, b);
    RttPlain(cfg, s, i);
    ClampPlain(s.theta.x);
    ClampPlain(s.theta.y);
  }

  lemma PassFrom(cfg: Config, s: State, i: Inputs, t: State, ak: real, ck: real, rise: real, cap: int,
                 p: Points, r: Step)
      returns (g: Pair, b: real, n: int, m: int)
    requires t == Prepared(cfg, s, i) && ck != 0.0 && Rise(i, rise) && IsCap(cap, cfg.hostMaxBuf)
    requires p == Points(PlusPoint(t, ck, i), MinusPoint(t, ck, i), StarPoint(t, ak, ck, i))
    requires r == Thrice(cfg, t, p.plus, p.minus, p.star, i)
    ensures Readied(cfg, s, i, t, b, n, m, cap) && AimedBoth(t.theta, ak, ck, i, rise, p, g)
    ensures r.Go? ==>
      Entered(cfg.kind, t, i, p, s, r.s) && r.s.rttMs == t.rttMs && r.s.bufLow == t.bufLow && r.s.bufHigh == t.bufHigh
  {
    b, n, m := ReadiedPlain(cfg, s, i, t, cap);
    g := PointsPlain(t, ak, ck, i, rise, p);
    ThriceEnters(cfg, s, t, p, i);
  }

  // What a pass that goes on has done: it has cut theta to the box, set the window, measured the two probes
  // and the step along their slope, each with the setting that its point stands for, and entered them.
  lemma PassPlain(cfg: Config, s: State, i: Inputs, r: Step, ak: real, ck: real, rise: real, cap: int)
      returns (t: State, p: Points, g: Pair, b: real, n: int, m: int)
    requires s.c != 0.0 && r == Pass(cfg, s, i) && Rise(i, rise) && IsCap(cap, cfg.hostMaxBuf)
    requires ak == s.a / i.aDen && ck == s.c / i.cDen
    ensures Readied(cfg, s, i, t, b, n, m, cap) && AimedBoth(t.theta, ak, ck, i, rise, p, g)
    ensures r.Go? ==>
      Entered(cfg.kind, t, i, p, s, r.s) && r.s.rttMs == t.rttMs && r.s.bufLow == t.bufLow && r.s.bufHigh == t.bufHigh
  {
    t := Prepared(cfg, s, i);
    p := PassShape(cfg, s, i, ak, ck, t);
    g, b, n, m := PassFrom(cfg, s, i, t, ak, ck, rise, cap, p, r);
  }

  lemma PassShape(cfg: Config, s: State, i: Inputs, ak: real, ck: real, t: State) returns (p: Points)
    requires s.c != 0.0 && ak == s.a / i.aDen && ck == s.c / i.cDen && t == Prepared(cfg, s, i)
    ensures ck != 0.0
    ensures p == Points(PlusPoint(t, ck, i), MinusPoint(t, ck, i), StarPoint(t, ak, ck, i))
    ensures Pass(cfg, s, i) == Thrice(cfg, t, p.plus, p.minus, p.star, i)
  {
    assert ck != 0.0;
    p := Points(PlusPoint(t, ck, i), MinusPoint(t, ck, i), StarPoint(t, ak, ck, i));
  }

  // So in every pass of every run, from the loop head it starts at, with the gains as the head leaves them
  lemma EveryPassPlain(cfg: Config, z: State, oracle: Oracle, h: State, u: State, i: Inputs,
                       ak: real, ck: real, rise: real, cap: int)
      returns (t: State, p: Points, g: Pair, b: real, n: int, m: int)
    requires z.c != 0.0 && cfg.cScale != 0.0 && h in Heads(cfg, z, oracle) && Head(cfg, h) == Go(u) && i == oracle(h.k)
    requires ak == u.a / i.aDen && ck == u.c / i.cDen && Rise(i, rise) && IsCap(cap, cfg.hostMaxBuf)
    ensures Readied(cfg, u, i, t, b, n, m, cap) && AimedBoth(t.theta, ak, ck, i, rise, p, g)
    ensures Turn(cfg, h, oracle).Go? ==> Entered(cfg.kind, t, i, p, u, Turn(cfg, h, oracle).s)
  {
    HeadGain(cfg, h);
    t, p, g, b, n, m := PassPlain(cfg, u, i, Turn(cfg, h, oracle), ak, ck, rise, cap);
  }

  lemma ThriceEnters(cfg: Config, s: State, t: State, p: Points, i: Inputs)
    requires t.used == s.used && t.visited == s.visited && t.points == s.points
    ensures var r := Thrice(cfg, t, p.plus, p.minus, p.star, i); r.Go? ==>
      Entered(cfg.kind, t, i, p, s, r.s) && r.s.rttMs == t.rttMs && r.s.bufLow == t.bufLow && r.s.bufHigh == t.bufHigh
  {
    ThricePlain(cfg, t, p, i, Thrice(cfg, t, p.plus, p.minus, p.star, i));
  }

  // ---------- The exits ----------

  // The limits and the ratio: 30, twice the impeded limit, and 0.75 stand for those that are not given.
  predicate Limits(cfg: Config, most: int, impeded: int, ratio: real) {
    && impeded == (if cfg.impededLimit < 0 then 30 else cfg.impededLimit)
    && most == (if cfg.maxLimit < 0 then 2 * impeded else cfg.maxLimit)
    && ratio == if cfg.pgr < 0.0 then 0.75 else cfg.pgr
  }

  // The best performance in Gb/s over the bandwidth in b/s, without the quotient
  predicate Gained(bwBps: real, ratio: real, maxPerf: real) {
    if bwBps > 0.0 then 1000000000.0 * maxPerf >= ratio * bwBps
    else if bwBps < 0.0 then 1000000000.0 * maxPerf <= ratio * bwBps
    else maxPerf > 0.0
  }

  lemma GainPlain(cfg: Config, most: int, impeded: int, ratio: real, maxPerf: real)
    requires Limits(cfg, most, impeded, ratio)
    ensures cfg.GainReached(maxPerf) <==> Gained(cfg.bwBps, ratio, maxPerf)
  {
    if cfg.bwBps != 0.0 {
      var d := cfg.bwBps / 1000000000.0;
      OverPlain(maxPerf, d, ratio, maxPerf / d);
      assert ratio * cfg.bwBps == 1000000000.0 * (ratio * d) by {
        Shift(ratio, d, cfg.bwBps);
      }
    }
  }

  lemma Shift(x: real, d: real, bw: real)
    requires bw == 1000000000.0 * d
    ensures x * bw == 1000000000.0 * (x * d)
  {
  }

  lemma OverPlain(x: real, d: real, ratio: real, q: real)
    requires d != 0.0 && q == x / d
    ensures d > 0.0 ==> (q >= ratio <==> x >= ratio * d)
    ensures d < 0.0 ==> (q >= ratio <==> x <= ratio * d)
  {
    assert q * d == x;
    assert (q - ratio) * d == x - ratio * d;
    var e := q - ratio;
    SignPlain(e, d, e * d);
  }

  lemma SignPlain(e: real, d: real, p: real)
    requires d != 0.0 && p == e * d
    ensures d > 0.0 ==> (e >= 0.0 <==> p >= 0.0)
    ensures d < 0.0 ==> (e >= 0.0 <==> p <= 0.0)
  {
  }

  // The head of the loop: no more measurements than allowed; both gains rescaled once half of the impeded
  // limit, rounded down, has been reached; then the impeded exit, and then the gain exit.
  lemma HeadPlain(cfg: Config, s: State, most: int, impeded: int, ratio: real)
    requires Limits(cfg, most, impeded, ratio)
    ensures var h := Head(cfg, s);
      if s.profNum >= most then h == Stop(s, UpperBound)
      else if 2 * s.noImp + 1 < impeded then
        h == if Gained(cfg.bwBps, ratio, s.maxPerf) then Stop(s, Gain) else Go(s)
      else
        var t := s.(a := s.a * cfg.aScale, c := s.c * cfg.cScale, rescaled := s.rescaled + 1);
        h == if s.noImp >= impeded then Stop(t, Impeded)
             else if Gained(cfg.bwBps, ratio, s.maxPerf) then Stop(t, Gain) else Go(t)
  {
    GainPlain(cfg, most, impeded, ratio, s.maxPerf);
  }

  // ---------- One measurement ----------

  // A failed run or record ends the search after the setting was written; otherwise the measurement is entered,
  // and compared with the best one in Gb/s.
  lemma MeasurePlain(cfg: Config, s: State, theta: Pair, marker: char, m: Measurement,
                     most: int, impeded: int, ratio: real)
    requires Limits(cfg, most, impeded, ratio)
    ensures var r := Tried(cfg, s, theta, marker, m);
      && |r.s.used| == |s.used| + 1 && (r.Stop? && r.why.RunFailed? <==> m.Broken?)
      && (r.Stop? && r.why.StoreFailed? <==> m.Measured? && !m.stored)
      && (r.Stop? && !r.why.Gain? ==> r.s == s.(used := r.s.used))
      && (m.Measured? && m.stored ==>
            && r.s.profNum == s.profNum + 1
            && if m.mbps > 1000.0 * s.maxPerf
               then 1000.0 * r.s.maxPerf == m.mbps && r.s.maxTheta == theta && r.s.noImp == 0
                    && r.s.saved == Some(m.mbps)
                    && (r.Stop? <==> Gained(cfg.bwBps, ratio, r.s.maxPerf))
               else r.Go? && r.s.maxPerf == s.maxPerf && r.s.maxTheta == s.maxTheta && r.s.noImp == s.noImp + 1
                    && r.s.saved == s.saved)
  {
    if m.Measured? {
      GainPlain(cfg, most, impeded, ratio, m.mbps / 1000.0);
    }
  }

  // The variables before the loop
  lemma StartPlain(cfg: Config, a: real, c: real, theta: Pair, rttMs: real, cap: int)
    requires IsCap(cap, cfg.hostMaxBuf)
    ensures var z := Start(cfg, a, c, theta, rttMs);
      && z.a == a && z.c == c && z.theta == theta && z.rttMs == rttMs && z.bufLow == 16000 && z.bufHigh == cap
      && z.maxPerf == 0.0 && z.noImp == z.profNum == z.k == 0 && z.visited == [] && z.used == [] && z.saved == None
  {
  }
}
