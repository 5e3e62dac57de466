/** The tuning loop that f_tcp_client_run and f_udt_client_run share, as a function of
    everything it asks the outside for: ping times, perturbation signs, the two powers of
    the gain sequences, and one result per measurement.
 */
module Tuning {
  import opened Options
  import opened Numbers
  import opened Probes

  // Two control parameters: (buffer, streams) for TCP, (block, buffer) for UDT.
  datatype Pair = Pair(x: real, y: real)

  datatype Kind = Tcp | Udt(mss: int)

  const BUF_MIN := 16000           // F_BUF_MIN
  const BUF_MAX := 2000000000      // F_BUF_MAX
  const IMPEDED_LIMIT := 30        // F_IMPEDED_LIMIT
  const DEFAULT_PGR := 0.75        // F_DEFAULT_PGR

  type Positive = x: real | x > 0.0 witness 1.0

  // The fields of fastprof_ctrl that the loop only reads.
  datatype Config = Config(kind: Kind, hostMaxBuf: int, bwBps: real, pgr: real, impededLimit: int, maxLimit: int,
                           aScale: real, cScale: real)
  {
    function NoImpLimit(): nat {
      if impededLimit < 0 then IMPEDED_LIMIT else impededLimit
    }

    function MaxProfLimit(): nat {
      if maxLimit < 0 then 2 * NoImpLimit() else maxLimit
    }

    function GainRatio(): real {
      if pgr < 0.0 then DEFAULT_PGR else pgr
    }

    // buf_size_max_safeguard
    function BufCap(): int {
      if hostMaxBuf < BUF_MAX then hostMaxBuf else BUF_MAX
    }

    // max_perf / BW >= perf_gain_ratio, with 0/0 comparing false and x/0 infinite
    predicate GainReached(maxPerf: real) {
      if bwBps == 0.0 then maxPerf > 0.0 else maxPerf / (bwBps / 1000000000.0) >= GainRatio()
    }
  }

  // What is written on the iperf or TPG test object before it runs.
  datatype Setting =
    | TcpSetting(socketBuf: int, streams: int)
    | UdtSetting(block: int, udtBuf: int, udpBuf: int)

  // An entry of visited_list
  datatype Trace = Trace(first: real, second: real, marker: char, perfMbps: real)

  // One measurement: the run may fail, and so may storing its record.
  datatype Measurement = Broken | Measured(mbps: real, stored: bool)

  // All that one pass takes from outside.  `wildLow` and `wildHigh` are what converting an
  // out-of-range double to int yields.
  datatype Inputs = Inputs(pingMs: real, wildLow: Int32, wildHigh: Int32, aDen: Positive, cDen: Positive,
                           deltaX: Sign, deltaY: Sign, plus: Measurement, minus: Measurement, star: Measurement)

  type Oracle = nat -> Inputs

  // The variables of the loop.  `points`, `used` and `rescaled` are history: the theta behind
  // every visited entry, every setting ever written, and the number of gain rescalings.
  datatype State = State(
    a: real, c: real, theta: Pair, bufLow: int, bufHigh: int, rttMs: real,
    maxPerf: real, maxTheta: Pair, noImp: nat, profNum: nat, k: nat,
    visited: seq<Trace>, saved: Option<real>,
    points: seq<Pair>, used: seq<Setting>, rescaled: nat)

  datatype Why = UpperBound | Impeded | Gain | RunFailed | StoreFailed

  datatype Step = Go(s: State) | Stop(s: State, why: Why)

  // f_round()
  function Round(x: real): int {
    (x + 0.5).Floor
  }

  // f_*_theta_to_val() over the box [1, 25]
  function ThetaToVal(low: real, high: real, theta: real): real {
    (theta - 1.0) * (high - low) / 24.0 + low
  }

  // The parameter values at theta for a buffer window, and what is set from them
  function Values(cfg: Config, bufLow: int, bufHigh: int, theta: Pair): Pair {
    match cfg.kind
    case Tcp => Pair(ThetaToVal(bufLow as real, bufHigh as real, theta.x), ThetaToVal(1.0, 25.0, theta.y))
    case Udt(_) => Pair(ThetaToVal(1.0, 25.0, theta.x), ThetaToVal(bufLow as real, bufHigh as real, theta.y))
  }

  function SettingOf(cfg: Config, v: Pair): Setting {
    match cfg.kind
    case Tcp => TcpSetting(Round(v.x * 0.5), Round(v.y))
    case Udt(mss) => UdtSetting(Round(v.x * (mss - 44) as real), Round(v.y), Round(v.y * 0.5))
  }

  // The first free step: rtt_ms, the bandwidth-delay product, and the buffer range.
  function NextRtt(bwBps: real, rttMs: real, pingMs: real): real {
    if bwBps < 0.0 || pingMs < 0.0 then rttMs
    else if rttMs < 0.0 then pingMs
    else rttMs * 0.125 + pingMs * 0.875
  }

  function Bdp(bwBps: real, rttMs: real): real {
    if bwBps < 0.0 || rttMs < 0.0 then -1.0 else rttMs * 0.001 * (bwBps / 8.0)
  }

  // An int assigned from a double that holds a whole number
  function ToInt(n: int, wild: Int32): Int32 {
    if INT_MIN <= n <= INT_MAX then n else wild
  }

  function Guarded(cfg: Config, n: int): int {
    var m := if n < BUF_MIN then BUF_MIN else n;
    if m > cfg.BufCap() then cfg.BufCap() else m
  }

  function Prepared(cfg: Config, s: State, i: Inputs): State {
    var rtt := NextRtt(cfg.bwBps, s.rttMs, i.pingMs);
    var bdp := Bdp(cfg.bwBps, rtt);
    var low := if bdp < 0.0 then s.bufLow else Guarded(cfg, ToInt(Round(0.75 * bdp), i.wildLow));
    var high := if bdp < 0.0 then s.bufHigh else Guarded(cfg, ToInt(Round(4.0 * bdp), i.wildHigh));
    s.(rttMs := rtt, bufLow := low, bufHigh := high,
       theta := Pair(Clamp(s.theta.x), Clamp(s.theta.y)), k := s.k + 1)
  }

  // A trace is pushed, and then compared with the best.
  function Pushed(s: State, theta: Pair, v: Pair, marker: char, mbps: real): State {
    s.(profNum := s.profNum + 1, points := s.points + [theta],
       visited := s.visited + [Trace(v.x, v.y, marker, mbps / 1000.0 * 1000.0)])
  }

  function Judged(cfg: Config, s: State, theta: Pair, mbps: real): Step {
    var gbps := mbps / 1000.0;
    if gbps > s.maxPerf then
      var best := s.(maxPerf := gbps, maxTheta := theta, noImp := 0, saved := Some(mbps));
      if cfg.GainReached(gbps) then Stop(best, Gain) else Go(best)
    else
      Go(s.(noImp := s.noImp + 1))
  }

  // One measurement with setting u at theta, where the parameters have the values v
  function Kept(cfg: Config, s: State, theta: Pair, v: Pair, u: Setting, marker: char, m: Measurement): Step {
    var ran := s.(used := s.used + [u]);
    if m.Broken? then Stop(ran, RunFailed)
    else if !m.stored then Stop(ran, StoreFailed)
    else Judged(cfg, Pushed(ran, theta, v, marker, m.mbps), theta, m.mbps)
  }

  function Tried(cfg: Config, s: State, theta: Pair, marker: char, m: Measurement): Step {
    var v := Values(cfg, s.bufLow, s.bufHigh, theta);
    Kept(cfg, s, theta, v, SettingOf(cfg, v), marker, m)
  }

  function PlusPoint(s: State, ck: real, i: Inputs): Pair
    requires InBox(s.theta.x) && InBox(s.theta.y)
  {
    Pair(Plus(s.theta.x, ck, i.deltaX).at, Plus(s.theta.y, ck, i.deltaY).at)
  }

  function MinusPoint(s: State, ck: real, i: Inputs): Pair
    requires InBox(s.theta.x) && InBox(s.theta.y)
  {
    Pair(Minus(s.theta.x, ck, i.deltaX).at, Minus(s.theta.y, ck, i.deltaY).at)
  }

  function Mbps(m: Measurement): real {
    if m.Broken? then 0.0 else m.mbps
  }

  // Both components of theta + ak*ghat, cut to the box
  function StarPoint(s: State, ak: real, ck: real, i: Inputs): Pair
    requires InBox(s.theta.x) && InBox(s.theta.y) && ck != 0.0
  {
    var rise := Mbps(i.plus) / 1000.0 - Mbps(i.minus) / 1000.0;
    Pair(Moved(s.theta.x, ak, Slope(s.theta.x, ck, i.deltaX, rise)),
         Moved(s.theta.y, ak, Slope(s.theta.y, ck, i.deltaY, rise)))
  }

  // A further measurement, if the one before did not end the run
  function Again(cfg: Config, r: Step, theta: Pair, marker: char, m: Measurement): Step {
    if r.Stop? then r else Tried(cfg, r.s, theta, marker, m)
  }

  function Moving(r: Step, theta: Pair): Step {
    if r.Stop? then r else Go(r.s.(theta := theta))
  }

  function Restarted(r: Step): Step {
    if r.Stop? then r else Go(r.s.(theta := r.s.maxTheta))
  }

  // y(+), y(-), the move to theta(*), y(*), and the restart from the best point so far
  function Thrice(cfg: Config, s: State, plus: Pair, minus: Pair, star: Pair, i: Inputs): Step {
    var r1 := Tried(cfg, s, plus, '+', i.plus);
    var r2 := Again(cfg, r1, minus, '-', i.minus);
    var r3 := Again(cfg, Moving(r2, star), star, '*', i.star);
    Restarted(r3)
  }

  // One pass below the exit tests
  function Pass(cfg: Config, s: State, i: Inputs): Step
    requires s.c != 0.0
  {
    var t := Prepared(cfg, s, i);
    var ak, ck := s.a / i.aDen, s.c / i.cDen;
    Thrice(cfg, t, PlusPoint(t, ck, i), MinusPoint(t, ck, i), StarPoint(t, ak, ck, i), i)
  }

  // The gains after a while without improvement
  function Damped(cfg: Config, s: State): State {
    if s.noImp >= cfg.NoImpLimit() / 2
    then s.(a := s.a * cfg.aScale, c := s.c * cfg.cScale, rescaled := s.rescaled + 1) else s
  }

  // The exit tests at the head of the loop, with the gain rescaling between the first two.
  function Head(cfg: Config, s: State): Step {
    if s.profNum >= cfg.MaxProfLimit() then Stop(s, UpperBound) else
    var t := Damped(cfg, s);
    if s.noImp >= cfg.NoImpLimit() then Stop(t, Impeded)
    else if cfg.GainReached(s.maxPerf) then Stop(t, Gain)
    else Go(t)
  }

  lemma PassCounts(cfg: Config, s: State, i: Inputs)
    requires s.c != 0.0
    ensures var r := Pass(cfg, s, i); r.Go? ==> r.s.profNum == s.profNum + 3 && r.s.k == s.k + 1 && r.s.c == s.c
  {
    var t := Prepared(cfg, s, i);
    var ak, ck := s.a / i.aDen, s.c / i.cDen;
    ThriceCounts(cfg, t, PlusPoint(t, ck, i), MinusPoint(t, ck, i), StarPoint(t, ak, ck, i), i);
  }

  lemma ThriceCounts(cfg: Config, s: State, plus: Pair, minus: Pair, star: Pair, i: Inputs)
    ensures var r := Thrice(cfg, s, plus, minus, star, i);
      r.Go? ==> r.s.profNum == s.profNum + 3 && r.s.k == s.k && r.s.c == s.c
  {
  }

  lemma HeadGain(cfg: Config, s: State)
    requires s.c != 0.0 && cfg.cScale != 0.0
    ensures Head(cfg, s).s.c != 0.0
  {
  }

  // One turn of the loop: the exit tests, and the pass if none of them fires.
  function Turn(cfg: Config, s: State, oracle: Oracle): (r: Step)
    requires s.c != 0.0 && cfg.cScale != 0.0
    ensures r.Go? ==> r.s.profNum == s.profNum + 3 && r.s.k == s.k + 1 && r.s.c != 0.0
    ensures r.Go? ==> s.profNum < cfg.MaxProfLimit()
  {
    HeadGain(cfg, s);
    match Head(cfg, s)
    case Stop(t, why) => Stop(t, why)
    case Go(t) =>
      PassCounts(cfg, t, oracle(s.k));
      Pass(cfg, t, oracle(s.k))
  }

  // The whole loop; the number of passes is not given but proved finite.
  function Run(cfg: Config, s: State, oracle: Oracle): (State, Why)
    requires s.c != 0.0 && cfg.cScale != 0.0
    decreases cfg.MaxProfLimit() - s.profNum
  {
    match Turn(cfg, s, oracle)
    case Stop(t, why) => (t, why)
    case Go(u) => Run(cfg, u, oracle)
  }

  // The variables as they stand before the loop
  function Start(cfg: Config, a: real, c: real, theta: Pair, rttMs: real): State {
    State(a, c, theta, BUF_MIN, cfg.BufCap(), rttMs, 0.0, Pair(0.0, 0.0), 0, 0, 0, [], None, [], [], 0)
  }

  // The states at all the loop heads of a run, in order
  function Heads(cfg: Config, s: State, oracle: Oracle): (hs: seq<State>)
    requires s.c != 0.0 && cfg.cScale != 0.0
    ensures hs != [] && hs[0] == s
    ensures forall h <- hs :: h.c != 0.0
    decreases cfg.MaxProfLimit() - s.profNum
  {
    match Turn(cfg, s, oracle)
    case Stop(_, _) => [s]
    case Go(u) => [s] + Heads(cfg, u, oracle)
  }

  // A run ends in the turn that starts at its last loop head.
  lemma {:induction false} RunEnds(cfg: Config, s: State, oracle: Oracle)
    requires s.c != 0.0 && cfg.cScale != 0.0
    ensures var hs := Heads(cfg, s, oracle); var (t, why) := Run(cfg, s, oracle);
      Turn(cfg, hs[|hs| - 1], oracle) == Stop(t, why)
    decreases cfg.MaxProfLimit() - s.profNum
  {
    var r := Turn(cfg, s, oracle);
    if r.Go? {
      RunEnds(cfg, r.s, oracle);
    }
  }
}
