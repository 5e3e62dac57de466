/** How many measurements a run of the tuning loop can make, and when the UDT worker of a server with
    the same limit serves them all.
 */
module Budgets {
  import opened Climbs
  import opened Parties
  import opened Tuning
  import opened TuningSteps
  import opened TuningTrace
  import opened Workers

  // ---------- The most measurements ----------

  function Smaller(m: nat, n: nat): nat {
    if m < n then m else n
  }

  // With bandwidth 0 any positive measurement ends the run, so the other limit counts as well.
  function MostMeasured(cfg: Config): nat {
    if (cfg.bwBps != 0.0 && cfg.pgr == 0.0) || cfg.NoImpLimit() == 0 then 0
    else if cfg.bwBps == 0.0 then RoundedUp(Smaller(cfg.MaxProfLimit(), cfg.NoImpLimit()))
    else RoundedUp(cfg.MaxProfLimit())
  }

  function Count(cfg: Config, s: State, oracle: Oracle): nat
    requires s.c != 0.0 && cfg.cScale != 0.0
  {
    |Run(cfg, s, oracle).0.visited|
  }

  lemma NoneMeasured(cfg: Config, z: State, oracle: Oracle)
    requires z.c != 0.0 && cfg.cScale != 0.0 && z.visited == [] && z.maxPerf == 0.0
    requires (cfg.bwBps != 0.0 && cfg.pgr == 0.0) || cfg.NoImpLimit() == 0
    ensures Count(cfg, z, oracle) == 0
  {
    GainAtStart(cfg);
    assert Turn(cfg, z, oracle) == Head(cfg, z);
  }

  // At a loop head with bandwidth 0 nothing has improved.
  predicate Fruitless(cfg: Config, s: State) {
    AtLoopHead(s) && s.saved.None? && |s.visited| <= RoundedUp(Smaller(cfg.MaxProfLimit(), cfg.NoImpLimit()))
  }

  lemma FruitlessHead(cfg: Config, s: State)
    requires cfg.bwBps == 0.0 && Fruitless(cfg, s)
    ensures s.noImp == |s.visited| == s.profNum == 3 * s.k && s.maxPerf == 0.0
    ensures Head(cfg, s).Go? ==> |s.visited| + 3 <= RoundedUp(Smaller(cfg.MaxProfLimit(), cfg.NoImpLimit()))
  {
    ConsistentMeans(s);
    RoundingUp(s.k, Smaller(cfg.MaxProfLimit(), cfg.NoImpLimit()));
  }

  lemma {:induction false} FruitlessRun(cfg: Config, s: State, oracle: Oracle)
    requires s.c != 0.0 && cfg.cScale != 0.0 && cfg.bwBps == 0.0 && Fruitless(cfg, s)
    ensures Count(cfg, s, oracle) <= RoundedUp(Smaller(cfg.MaxProfLimit(), cfg.NoImpLimit()))
    decreases cfg.MaxProfLimit() - s.profNum
  {
    FruitlessHead(cfg, s);
    HeadGain(cfg, s);
    var h := Head(cfg, s);
    if h.Go? {
      var r := Turn(cfg, s, oracle);
      PassGrown(cfg, h.s, oracle(s.k));
      PassGain(cfg, h.s, oracle(s.k));
      TurnConsistent(cfg, s, oracle);
      if r.Go? {
        ConsistentMeans(r.s);
        FruitlessRun(cfg, r.s, oracle);
      }
    }
  }

  lemma AtMost(cfg: Config, a: real, c: real, theta: Pair, rttMs: real, oracle: Oracle)
    requires c != 0.0 && cfg.cScale != 0.0
    ensures Count(cfg, Start(cfg, a, c, theta, rttMs), oracle) <= MostMeasured(cfg)
  {
    var z := Start(cfg, a, c, theta, rttMs);
    StartConsistent(cfg, a, c, theta, rttMs);
    if (cfg.bwBps != 0.0 && cfg.pgr == 0.0) || cfg.NoImpLimit() == 0 {
      NoneMeasured(cfg, z, oracle);
    } else if cfg.bwBps == 0.0 {
      FruitlessRun(cfg, z, oracle);
    } else {
      assert Bounded(cfg, z);
      ExitBudgets(cfg, z, oracle);
    }
  }

  // ---------- Runs that make them ----------

  function Idling(d: Powers): Oracle {
    (k: nat) => Quiet(d, k, 1.0, 1.0, 0.0, 0.0, 0.0)
  }

  // With bandwidth 0, measuring nothing at all lasts longest.
  lemma {:induction false} IdleRun(cfg: Config, s: State, d: Powers)
    requires s.c != 0.0 && cfg.cScale != 0.0 && cfg.bwBps == 0.0 && cfg.NoImpLimit() > 0 && Fruitless(cfg, s)
    ensures Count(cfg, s, Idling(d)) == RoundedUp(Smaller(cfg.MaxProfLimit(), cfg.NoImpLimit()))
    decreases cfg.MaxProfLimit() - s.profNum
  {
    FruitlessHead(cfg, s);
    HeadGain(cfg, s);
    RoundingUp(s.k, Smaller(cfg.MaxProfLimit(), cfg.NoImpLimit()));
    var h := Head(cfg, s);
    if h.Go? {
      var i := Idling(d)(s.k);
      var p, m, z := PassIs(cfg, h.s, i);
      IdleThrice(cfg, Prepared(cfg, h.s, i), p, m, z, i);
      TurnConsistent(cfg, s, Idling(d));
      IdleRun(cfg, Turn(cfg, s, Idling(d)).s, d);
    }
  }

  lemma ClimbingTurn(cfg: Config, s: State, e: real, d: Powers, r: Step)
    requires s.c != 0.0 && cfg.cScale != 0.0 && Slow(cfg, e) && cfg.NoImpLimit() > 0
    requires s.profNum < cfg.MaxProfLimit() && s.profNum == 3 * s.k && s.noImp == 0 && Climbed(s, e, 3 * s.k)
    requires r == Turn(cfg, s, Climbing(e, d))
    ensures r.Go? && r.s.k == s.k + 1 && Climbed(r.s, e, 3 * r.s.k)
  {
    HeadGain(cfg, s);
    ClimbGoesOn(cfg, s, e);
    var h := Damped(cfg, s);
    assert r == Pass(cfg, h, Climb(e, d, s.k));
    ClimbingPass(cfg, h, e, d, s.k, r);
  }

  // A slow climb uses the whole limit.
  lemma {:induction false} ClimbingRun(cfg: Config, s: State, e: real, d: Powers)
    requires s.c != 0.0 && cfg.cScale != 0.0 && Slow(cfg, e) && cfg.NoImpLimit() > 0
    requires Bounded(cfg, s) && Climbed(s, e, 3 * s.k) && s.noImp == 0
    ensures Count(cfg, s, Climbing(e, d)) == RoundedUp(cfg.MaxProfLimit())
    decreases cfg.MaxProfLimit() - s.profNum
  {
    RoundingUp(s.k, cfg.MaxProfLimit());
    if s.profNum < cfg.MaxProfLimit() {
      var r := Turn(cfg, s, Climbing(e, d));
      ClimbingTurn(cfg, s, e, d, r);
      TurnBounded(cfg, s, Climbing(e, d));
      ClimbingRun(cfg, r.s, e, d);
    }
  }

  // Whatever the powers are
  lemma MostReached(cfg: Config, a: real, c: real, theta: Pair, rttMs: real, d: Powers) returns (oracle: Oracle)
    requires c != 0.0 && cfg.cScale != 0.0
    ensures Meets(oracle, d) && Count(cfg, Start(cfg, a, c, theta, rttMs), oracle) == MostMeasured(cfg)
  {
    var z := Start(cfg, a, c, theta, rttMs);
    StartConsistent(cfg, a, c, theta, rttMs);
    oracle := Idling(d);
    if (cfg.bwBps != 0.0 && cfg.pgr == 0.0) || cfg.NoImpLimit() == 0 {
      NoneMeasured(cfg, z, oracle);
    } else if cfg.bwBps == 0.0 {
      IdleRun(cfg, z, d);
    } else {
      var e := SlowStep(cfg);
      oracle := Climbing(e, d);
      ClimbingMeets(e, d);
      assert Bounded(cfg, z);
      ClimbingRun(cfg, z, e, d);
    }
  }

  // ---------- The server's worker ----------

  // The first n rounds of a worker that is kept busy with successes
  predicate Busy(rs: seq<Round>, n: nat) {
    n <= |rs| && forall i :: 0 <= i < n ==> rs[i].status == RUN_M2M_UDT && rs[i].ret > 0
  }

  lemma {:induction false} BusyCounts(rs: seq<Round>, n: nat)
    requires Busy(rs, n)
    ensures Successes(rs, n) == n && UdtFailures(rs, n) == 0
    decreases n
  {
    if n > 0 {
      BusyCounts(rs, n - 1);
    }
  }

  // The worker of a server with that limit serves n successes in a row exactly when they fit its budget.
  lemma ServedExactly(rs: seq<Round>, limit: int, n: nat)
    requires Busy(rs, n)
    ensures UdtServed(rs, limit, n) <==> n <= ServerBudget(limit)
  {
    forall i: nat | i < n
      ensures UdtServes(rs, limit, i) <==> i <= limit
    {
      BusyCounts(rs, i);
    }
    if n > 0 {
      assert n - 1 <= limit <==> UdtServes(rs, limit, n - 1);
    }
  }

  function ServerBudget(limit: int): nat {
    if limit < 0 then 0 else limit + 1
  }

  // Whatever the worker sees after them, it serves every measurement of the run.
  ghost predicate Covered(cfg: Config, z: State, oracle: Oracle)
    requires z.c != 0.0 && cfg.cScale != 0.0
  {
    forall rs: seq<Round> :: Busy(rs, Count(cfg, z, oracle)) ==> UdtServed(rs, cfg.maxLimit, Count(cfg, z, oracle))
  }

  lemma CoveredExactly(cfg: Config, z: State, oracle: Oracle)
    requires z.c != 0.0 && cfg.cScale != 0.0
    ensures Covered(cfg, z, oracle) <==> Count(cfg, z, oracle) <= ServerBudget(cfg.maxLimit)
  {
    var n := Count(cfg, z, oracle);
    var rs := seq(n, i => Round(RUN_M2M_UDT, false, 1, true));
    assert Busy(rs, n);
    ServedExactly(rs, cfg.maxLimit, n);
    forall rs: seq<Round> | Busy(rs, n)
      ensures UdtServed(rs, cfg.maxLimit, n) <==> n <= ServerBudget(cfg.maxLimit)
    {
      ServedExactly(rs, cfg.maxLimit, n);
    }
  }

  // With equal limits, one success of the server per measurement: its worker covers every run of the client
  // with the given powers exactly when the longest run there can be fits.
  lemma BudgetCovers(cfg: Config, a: real, c: real, theta: Pair, rttMs: real, d: Powers)
    requires c != 0.0 && cfg.cScale != 0.0
    ensures (forall oracle: Oracle | Meets(oracle, d) :: Covered(cfg, Start(cfg, a, c, theta, rttMs), oracle)) <==>
            MostMeasured(cfg) <= ServerBudget(cfg.maxLimit)
  {
    var z := Start(cfg, a, c, theta, rttMs);
    var longest := MostReached(cfg, a, c, theta, rttMs, d);
    CoveredExactly(cfg, z, longest);
    forall oracle: Oracle
      ensures Count(cfg, z, oracle) <= MostMeasured(cfg)
      ensures Covered(cfg, z, oracle) <==> Count(cfg, z, oracle) <= ServerBudget(cfg.maxLimit)
    {
      AtMost(cfg, a, c, theta, rttMs, oracle);
      CoveredExactly(cfg, z, oracle);
    }
  }

  // Unless the bandwidth or the ratio is 0 or no failure to improve is allowed, that is so exactly when the
  // limit is given and not of the form 3n + 1.
  lemma BudgetCoversRuns(cfg: Config, a: real, c: real, theta: Pair, rttMs: real, d: Powers)
    requires c != 0.0 && cfg.cScale != 0.0 && cfg.bwBps != 0.0 && cfg.pgr != 0.0 && cfg.NoImpLimit() > 0
    ensures (forall oracle: Oracle | Meets(oracle, d) :: Covered(cfg, Start(cfg, a, c, theta, rttMs), oracle)) <==>
            cfg.maxLimit >= 0 && cfg.maxLimit % 3 != 1
  {
    BudgetCovers(cfg, a, c, theta, rttMs, d);
    FitsExactly(cfg);
  }

  lemma FitsExactly(cfg: Config)
    requires cfg.bwBps != 0.0 && cfg.pgr != 0.0 && cfg.NoImpLimit() > 0
    ensures MostMeasured(cfg) <= ServerBudget(cfg.maxLimit) <==> cfg.maxLimit >= 0 && cfg.maxLimit % 3 != 1
  {
  }

  // In every case such a limit is enough.
  lemma BudgetSuffices(cfg: Config, a: real, c: real, theta: Pair, rttMs: real, oracle: Oracle)
    requires c != 0.0 && cfg.cScale != 0.0 && cfg.maxLimit >= 0 && cfg.maxLimit % 3 != 1
    ensures Covered(cfg, Start(cfg, a, c, theta, rttMs), oracle)
  {
    AtMost(cfg, a, c, theta, rttMs, oracle);
    CoveredExactly(cfg, Start(cfg, a, c, theta, rttMs), oracle);
    MostFits(cfg);
  }

  lemma MostFits(cfg: Config)
    requires cfg.maxLimit >= 0 && cfg.maxLimit % 3 != 1
    ensures MostMeasured(cfg) <= ServerBudget(cfg.maxLimit)
  {
    var n, l := cfg.maxLimit, cfg.NoImpLimit();
    assert RoundedUp(n) <= n + 1;
    assert l < n ==> RoundedUp(l) <= RoundedUp(n);
  }
}
