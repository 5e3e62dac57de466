/** The tuning loop in its own form: variables updated step by step, one test object that
    every measurement reuses, and prof_max as a shallow copy.
    f_tcp_client_run and f_udt_client_run differ in the kind of their configuration only.
 */
module Profiler {
  import opened Options
  import opened Probes
  import opened Tuning
  import opened TuningReport
  import opened TuningSteps

  // The iperf_test or tpg_profile behind a profile
  class TestObject {
    var setting: Setting

    constructor (setting: Setting)
      ensures this.setting == setting
    {
      this.setting := setting;
    }
  }

  // struct fastprof_tcp_prof and struct fastprof_udt_prof: a pointer and the performance
  class Profile {
    var test: TestObject
    var perfMbps: real

    constructor (test: TestObject, perfMbps: real)
      ensures this.test == test && this.perfMbps == perfMbps
    {
      this.test, this.perfMbps := test, perfMbps;
    }

    // memcpy(prof_max, prof, sizeof *prof)
    method CopyFrom(other: Profile)
      modifies this
      ensures test == old(other.test) && perfMbps == old(other.perfMbps)
    {
      test, perfMbps := other.test, other.perfMbps;
    }
  }

  // fastprof_ctrl, of which the loop writes rtt_ms
  class Control {
    var rttMs: real

    constructor (rttMs: real)
      ensures this.rttMs == rttMs
    {
      this.rttMs := rttMs;
    }
  }

  function Ended(s: State, why: Option<Why>): Step {
    if why.None? then Go(s) else Stop(s, why.value)
  }

  class Search {
    const cfg: Config
    const prof: Profile
    const profMax: Profile
    const ctrl: Control

    var a: real
    var c: real
    var theta: Pair
    var bufLow: int
    var bufHigh: int
    var maxPerf: real
    var maxTheta: Pair
    var noImp: nat
    var profNum: nat
    var k: nat
    var visited: seq<Trace>

    ghost var saved: Option<real>
    ghost var points: seq<Pair>
    ghost var used: seq<Setting>
    ghost var rescaled: nat

    ghost predicate Valid()
      reads this, prof, prof.test, profMax, profMax.test
    {
      && prof != profMax
      && (used != [] ==> prof.test.setting == used[|used| - 1])
      && (saved.Some? ==> used != [] && profMax.test == prof.test && profMax.perfMbps == saved.value)
    }

    ghost function View(): State
      reads this, ctrl
    {
      State(a, c, theta, bufLow, bufHigh, ctrl.rttMs, maxPerf, maxTheta, noImp, profNum, k, visited, saved,
            points, used, rescaled)
    }

    constructor (cfg: Config, prof: Profile, profMax: Profile, ctrl: Control, a: real, c: real, theta: Pair)
      requires prof != profMax
      ensures Valid() && View() == Start(cfg, a, c, theta, ctrl.rttMs)
      ensures this.cfg == cfg && this.prof == prof && this.profMax == profMax && this.ctrl == ctrl
    {
      this.cfg, this.prof, this.profMax, this.ctrl := cfg, prof, profMax, ctrl;
      this.a, this.c, this.theta := a, c, theta;
      bufLow := BUF_MIN;
      bufHigh := if cfg.hostMaxBuf < BUF_MAX then cfg.hostMaxBuf else BUF_MAX;
      maxPerf, maxTheta := 0.0, Pair(0.0, 0.0);
      noImp, profNum, k := 0, 0, 0;
      visited := [];
      saved, points, used, rescaled := None, [], [], 0;
    }

    // The gain rescaling
    method DampGains()
      requires Valid()
      modifies this`a, this`c, this`rescaled
      ensures Valid() && View() == Damped(cfg, old(View()))
    {
      if noImp >= cfg.NoImpLimit() / 2 {
        a := a * cfg.aScale;
        c := c * cfg.cScale;
        rescaled := rescaled + 1;
      }
    }

    // The exit tests and the gain rescaling at the head of the loop
    method CheckExits() returns (why: Option<Why>)
      requires Valid()
      modifies this`a, this`c, this`rescaled
      ensures Valid() && Ended(View(), why) == Head(cfg, old(View()))
    {
      if profNum >= cfg.MaxProfLimit() {
        return Some(UpperBound);
      }
      DampGains();
      if noImp >= cfg.NoImpLimit() {
        return Some(Impeded);
      }
      if cfg.GainReached(maxPerf) {
        return Some(Gain);
      }
      return None;
    }

    // A ping sample, if the bandwidth is known
    method UpdateRtt(pingMs: real)
      modifies ctrl
      ensures ctrl.rttMs == NextRtt(cfg.bwBps, old(ctrl.rttMs), pingMs)
    {
      if cfg.bwBps >= 0.0 && pingMs >= 0.0 {
        if ctrl.rttMs < 0.0 {
          ctrl.rttMs := pingMs;
        } else {
          ctrl.rttMs := ctrl.rttMs * 0.125 + pingMs * 0.875;
        }
      }
    }

    // The buffer window around a bandwidth-delay product, inside its safeguards
    method SetWindow(bdp: real, i: Inputs)
      requires bdp >= 0.0
      modifies this`bufLow, this`bufHigh
      ensures bufLow == Guarded(cfg, ToInt(Round(0.75 * bdp), i.wildLow))
      ensures bufHigh == Guarded(cfg, ToInt(Round(4.0 * bdp), i.wildHigh))
    {
      bufLow := ToInt(Round(0.75 * bdp), i.wildLow);
      bufHigh := ToInt(Round(4.0 * bdp), i.wildHigh);
      bufLow := if bufLow < BUF_MIN then BUF_MIN else bufLow;
      bufLow := if bufLow > cfg.BufCap() then cfg.BufCap() else bufLow;
      bufHigh := if bufHigh < BUF_MIN then BUF_MIN else bufHigh;
      bufHigh := if bufHigh > cfg.BufCap() then cfg.BufCap() else bufHigh;
    }

    // The round-trip time, the buffer window and the clamp of theta
    method Prepare(i: Inputs)
      requires Valid()
      modifies this`bufLow, this`bufHigh, this`theta, this`k, ctrl
      ensures Valid() && View() == Prepared(cfg, old(View()), i)
    {
      UpdateRtt(i.pingMs);
      var bdp := Bdp(cfg.bwBps, ctrl.rttMs);
      if bdp >= 0.0 {
        SetWindow(bdp, i);
      }
      theta := Pair(Clamp(theta.x), Clamp(theta.y));
      k := k + 1;
    }

    // What follows a measurement that was run and stored: push the trace,
    method Push(at: Pair, v: Pair, marker: char)
      requires Valid()
      modifies this`profNum, this`visited, this`points
      ensures Valid() && View() == Pushed(old(View()), at, v, marker, prof.perfMbps)
    {
      profNum := profNum + 1;
      visited := visited + [Trace(v.x, v.y, marker, prof.perfMbps / 1000.0 * 1000.0)];
      points := points + [at];
    }

    // and compare it with the best so far.
    method Compare(at: Pair) returns (why: Option<Why>)
      requires Valid() && used != []
      modifies this`maxPerf, this`maxTheta, this`noImp, this`saved, profMax
      ensures Valid() && Ended(View(), why) == Judged(cfg, old(View()), at, prof.perfMbps)
    {
      var mbps := prof.perfMbps;
      var gbps := mbps / 1000.0;
      if gbps > maxPerf {
        maxPerf := gbps;
        maxTheta := at;
        profMax.CopyFrom(prof);
        saved := Some(mbps);
        noImp := 0;
        if cfg.GainReached(maxPerf) {
          return Some(Gain);
        }
      } else {
        noImp := noImp + 1;
      }
      return None;
    }

    // One measurement: write the setting, run, store the record, then compare.
    method Measure(at: Pair, marker: char, m: Measurement) returns (why: Option<Why>)
      requires Valid()
      modifies this`profNum, this`visited, this`maxPerf, this`maxTheta, this`noImp
      modifies this`saved, this`points, this`used, prof`perfMbps, prof.test, profMax
      ensures Valid() && prof.test == old(prof.test)
      ensures Ended(View(), why) == Tried(cfg, old(View()), at, marker, m)
    {
      var v := Values(cfg, bufLow, bufHigh, at);
      prof.test.setting := SettingOf(cfg, v);
      used := used + [prof.test.setting];
      if m.Broken? {
        return Some(RunFailed);
      }
      prof.perfMbps := m.mbps;
      if !m.stored {
        return Some(StoreFailed);
      }
      Push(at, v, marker);
      why := Compare(at);
    }

    // The gradient estimate in one dimension
    method Gradient(at: real, plus: Probe, minus: Probe, delta: Sign, ck: real, rise: real) returns (ghat: real)
      requires InBox(at) && ck != 0.0 && plus == Plus(at, ck, delta) && minus == Minus(at, ck, delta)
      ensures plus.at != minus.at && ghat == rise / (plus.at - minus.at)
    {
      ExactSecant(at, ck, delta);
      DenominatorDefined(at, ck, delta);
      var d := (plus.reach + minus.reach) * delta;
      assert d == Denominator(at, ck, delta);
      SameQuotient(rise, d, plus.at - minus.at);
      ghat := rise / d;
    }

    // The projected step in one dimension
    method Move(at: real, ak: real, ghat: real) returns (next: real)
      ensures next == Moved(at, ak, ghat)
    {
      next := at + ak * ghat;
      next := if next >= HIGH then HIGH else next;
      next := if next <= LOW then LOW else next;
    }

    // Both dimensions of the way to theta(*)
    method Ascend(i: Inputs, plusX: Probe, minusX: Probe, plusY: Probe, minusY: Probe, ak: real, ck: real)
        returns (star: Pair)
      requires InBox(theta.x) && InBox(theta.y) && ck != 0.0
      requires plusX == Plus(theta.x, ck, i.deltaX) && minusX == Minus(theta.x, ck, i.deltaX)
      requires plusY == Plus(theta.y, ck, i.deltaY) && minusY == Minus(theta.y, ck, i.deltaY)
      ensures star == StarPoint(View(), ak, ck, i)
    {
      var rise := Mbps(i.plus) / 1000.0 - Mbps(i.minus) / 1000.0;
      var ghatX := Gradient(theta.x, plusX, minusX, i.deltaX, ck, rise);
      var ghatY := Gradient(theta.y, plusY, minusY, i.deltaY, ck, rise);
      SecantSlope(theta.x, ck, i.deltaX, rise, plusX.at, minusX.at);
      SecantSlope(theta.y, ck, i.deltaY, rise, plusY.at, minusY.at);
      var x := Move(theta.x, ak, ghatX);
      var y := Move(theta.y, ak, ghatY);
      star := Pair(x, y);
    }

    // y(+) and y(-)
    method MeasurePair(i: Inputs, plus: Pair, minus: Pair) returns (why: Option<Why>)
      requires Valid()
      modifies this`profNum, this`visited, this`maxPerf, this`maxTheta, this`noImp
      modifies this`saved, this`points, this`used, prof`perfMbps, prof.test, profMax
      ensures Valid() && prof.test == old(prof.test)
      ensures Ended(View(), why) == Again(cfg, Tried(cfg, old(View()), plus, '+', i.plus), minus, '-', i.minus)
    {
      why := Measure(plus, '+', i.plus);
      if why.None? {
        why := Measure(minus, '-', i.minus);
      }
    }

    // The move to theta(*), y(*), and the restart from the best point
    method MeasureStar(i: Inputs, star: Pair) returns (why: Option<Why>)
      requires Valid()
      modifies this`profNum, this`visited, this`maxPerf, this`maxTheta, this`noImp, this`theta
      modifies this`saved, this`points, this`used, prof`perfMbps, prof.test, profMax
      ensures Valid() && prof.test == old(prof.test)
      ensures Ended(View(), why) == Restarted(Tried(cfg, old(View()).(theta := star), star, '*', i.star))
    {
      theta := star;
      why := Measure(theta, '*', i.star);
      if why.None? {
        theta := maxTheta;
      }
    }

    // The body of the loop below the exit tests
    method Pass(i: Inputs) returns (why: Option<Why>)
      requires Valid() && c != 0.0
      modifies this, ctrl, prof`perfMbps, prof.test, profMax
      ensures Valid() && prof.test == old(prof.test)
      ensures Ended(View(), why) == Tuning.Pass(cfg, old(View()), i)
    {
      Prepare(i);
      ghost var s := View();
      var ak, ck := a / i.aDen, c / i.cDen;
      var plusX, plusY := Plus(theta.x, ck, i.deltaX), Plus(theta.y, ck, i.deltaY);
      var minusX, minusY := Minus(theta.x, ck, i.deltaX), Minus(theta.y, ck, i.deltaY);
      why := MeasurePair(i, Pair(plusX.at, plusY.at), Pair(minusX.at, minusY.at));
      if why.None? {
        var star := Ascend(i, plusX, minusX, plusY, minusY, ak, ck);
        assert star == StarPoint(s, ak, ck, i);
        why := MeasureStar(i, star);
      }
    }

    method TurnOnce(oracle: Oracle) returns (why: Option<Why>)
      requires Valid() && c != 0.0 && cfg.cScale != 0.0
      modifies this, ctrl, prof`perfMbps, prof.test, profMax
      ensures Valid() && prof.test == old(prof.test)
      ensures Ended(View(), why) == Turn(cfg, old(View()), oracle)
    {
      HeadGain(cfg, View());
      var n := k;
      why := CheckExits();
      if why.None? {
        why := Pass(oracle(n));
      }
    }

    // The whole of f_*_client_run between its set-up and its report.  What is printed through
    // prof_max afterwards is its performance and whatever setting the shared test object holds.
    method Run(oracle: Oracle) returns (why: Why)
      requires Valid() && c != 0.0 && cfg.cScale != 0.0
      modifies this, ctrl, prof`perfMbps, prof.test, profMax
      ensures Valid()
      ensures (View(), why) == Tuning.Run(cfg, old(View()), oracle)
      ensures saved.Some? ==> profMax.perfMbps == saved.value && Some(profMax.test.setting) == Reported(View())
    {
      while true
        invariant Valid() && c != 0.0 && prof.test == old(prof.test)
        invariant Tuning.Run(cfg, View(), oracle) == Tuning.Run(cfg, old(View()), oracle)
        decreases cfg.MaxProfLimit() - profNum
      {
        var end := TurnOnce(oracle);
        if end.Some? {
          return end.value;
        }
      }
    }
  }
}
