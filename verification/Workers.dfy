/** The loops of the server's two worker threads (src/probdata/probdata_server.cpp:495-527 and 611-652).
    What a loop sees in each round is given: the status that the poll loop has stored by then or a
    pending cancellation, what the profiling library returns, and whether the reset succeeds.
 */
module Workers {
  import opened Parties

  const MAX_ERROR_NUM := 10

  datatype Leaving = PhaseOver | LimitReached | TooManyErrors | ResetFailed | Cancelled

  datatype Round = Round(status: int, cancelled: bool, ret: int, reset: bool)

  // Rounds that succeeded among the first n
  function Successes(rs: seq<Round>, n: nat): nat
    requires n <= |rs|
  {
    if n == 0 then 0 else Successes(rs, n - 1) + if rs[n - 1].ret > 0 then 1 else 0
  }

  // Failures since the last success; a round that timed out, with 0, is neither.
  function UdtFailures(rs: seq<Round>, n: nat): nat
    requires n <= |rs|
  {
    if n == 0 then 0
    else if rs[n - 1].ret > 0 then 0
    else UdtFailures(rs, n - 1) + if rs[n - 1].ret < 0 then 1 else 0
  }

  // Here every round that is no failure clears the count.
  function TcpFailures(rs: seq<Round>, n: nat): nat
    requires n <= |rs|
  {
    if n == 0 || rs[n - 1].ret >= 0 then 0 else TcpFailures(rs, n - 1) + 1
  }

  // ---------- The UDT worker ----------

  // Nothing stops the UDT worker from serving round n.
  predicate UdtServes(rs: seq<Round>, limit: int, n: nat)
    requires n < |rs|
  {
    rs[n].status == RUN_M2M_UDT && Successes(rs, n) <= limit && UdtFailures(rs, n) < MAX_ERROR_NUM
  }

  // It has served n rounds.
  predicate UdtServed(rs: seq<Round>, limit: int, n: nat)
    requires n <= |rs|
  {
    forall i: nat :: i < n ==> UdtServes(rs, limit, i) && (rs[i].ret < 0 ==> rs[i].reset)
  }

  // It leaves for that reason after that many rounds, and for no reason before.
  predicate UdtLeft(rs: seq<Round>, limit: int, why: Leaving, rounds: nat) {
    rounds < |rs| &&
    match why
    case PhaseOver => UdtServed(rs, limit, rounds) && rs[rounds].status != RUN_M2M_UDT
    case LimitReached =>
      UdtServed(rs, limit, rounds) && rs[rounds].status == RUN_M2M_UDT && Successes(rs, rounds) > limit
    case TooManyErrors =>
      && UdtServed(rs, limit, rounds) && rs[rounds].status == RUN_M2M_UDT
      && Successes(rs, rounds) <= limit && UdtFailures(rs, rounds) == MAX_ERROR_NUM
    case ResetFailed =>
      && rounds > 0 && UdtServed(rs, limit, rounds - 1) && UdtServes(rs, limit, rounds - 1)
      && rs[rounds - 1].ret < 0 && !rs[rounds - 1].reset
    case Cancelled => false
  }

  // The phase is over in the end, so the worker leaves.
  method UdtFastprofWorker(rs: seq<Round>, limit: int) returns (why: Leaving, rounds: nat)
    requires rs != [] && rs[|rs| - 1].status != RUN_M2M_UDT
    ensures UdtLeft(rs, limit, why, rounds)
  {
    var errCnt, okCnt := 0, 0;
    rounds := 0;
    while rs[rounds].status == RUN_M2M_UDT
      invariant rounds < |rs|
      invariant UdtServed(rs, limit, rounds)
      invariant okCnt == Successes(rs, rounds) && errCnt == UdtFailures(rs, rounds) <= MAX_ERROR_NUM
      decreases |rs| - rounds
    {
      if okCnt > limit {
        return LimitReached, rounds;
      }
      if errCnt >= MAX_ERROR_NUM {
        return TooManyErrors, rounds;
      }
      var result := rs[rounds].ret;
      rounds := rounds + 1;
      if result < 0 {
        if !rs[rounds - 1].reset {
          return ResetFailed, rounds;
        }
        errCnt := errCnt + 1;
        if errCnt > MAX_ERROR_NUM {
          assert false;   // the test at the head of the loop comes first
        }
      } else if result > 0 {
        errCnt := 0;
        okCnt := okCnt + 1;
      }
    }
    why := PhaseOver;
  }

  // Reason and number of rounds are determined.
  lemma UdtLeftOnce(rs: seq<Round>, limit: int, why: Leaving, rounds: nat, why': Leaving, rounds': nat)
    requires UdtLeft(rs, limit, why, rounds) && UdtLeft(rs, limit, why', rounds')
    ensures why == why' && rounds == rounds'
  {
  }

  // A worker that is not stopped by errors or by the end of the phase serves limit + 1 successes, never more.
  lemma UdtBudget(rs: seq<Round>, limit: nat, why: Leaving, rounds: nat)
    requires UdtLeft(rs, limit, why, rounds)
    ensures Successes(rs, rounds) <= limit + 1 && (why == LimitReached ==> Successes(rs, rounds) == limit + 1)
    ensures why == TooManyErrors ==> Successes(rs, rounds) <= limit
  {
  }

  // ---------- The UDT worker by its rounds ----------

  // The rounds from m up to n that succeeded, and those that failed
  function Good(rs: seq<Round>, m: nat, n: nat): set<nat>
    requires n <= |rs|
  {
    set j: nat | m <= j < n && rs[j].ret > 0
  }

  function Bad(rs: seq<Round>, m: nat, n: nat): set<nat>
    requires n <= |rs|
  {
    set j: nat | m <= j < n && rs[j].ret < 0
  }

  // m is where the last success before round n lies behind.
  predicate Since(rs: seq<Round>, m: nat, n: nat) {
    m <= n <= |rs| && (m > 0 ==> rs[m - 1].ret > 0) && forall j: nat :: m <= j < n ==> rs[j].ret <= 0
  }

  lemma {:induction false} SuccessesCounted(rs: seq<Round>, n: nat)
    requires n <= |rs|
    ensures Successes(rs, n) == |Good(rs, 0, n)|
    decreases n
  {
    if n > 0 {
      SuccessesCounted(rs, n - 1);
      if rs[n - 1].ret > 0 {
        assert Good(rs, 0, n) == Good(rs, 0, n - 1) + {n - 1};
      } else {
        assert Good(rs, 0, n) == Good(rs, 0, n - 1);
      }
    }
  }

  lemma {:induction false} FailuresCounted(rs: seq<Round>, m: nat, n: nat)
    requires Since(rs, m, n)
    ensures UdtFailures(rs, n) == |Bad(rs, m, n)|
    decreases n
  {
    if m < n {
      FailuresCounted(rs, m, n - 1);
      if rs[n - 1].ret < 0 {
        assert Bad(rs, m, n) == Bad(rs, m, n - 1) + {n - 1};
      } else {
        assert Bad(rs, m, n) == Bad(rs, m, n - 1);
      }
    } else {
      assert Bad(rs, m, n) == {};
    }
  }

  lemma {:induction false} LastSuccess(rs: seq<Round>, n: nat) returns (m: nat)
    requires n <= |rs|
    ensures Since(rs, m, n)
    decreases n
  {
    if n == 0 || rs[n - 1].ret > 0 {
      m := n;
    } else {
      m := LastSuccess(rs, n - 1);
    }
  }

  // The phase lasts, at most `limit` rounds have succeeded, and fewer than ten have failed since the last of these.
  ghost predicate Goes(rs: seq<Round>, limit: int, n: nat) {
    && n < |rs| && rs[n].status == RUN_M2M_UDT && |Good(rs, 0, n)| <= limit
    && forall m: nat | Since(rs, m, n) :: |Bad(rs, m, n)| < 10
  }

  lemma GoesExactly(rs: seq<Round>, limit: int, n: nat)
    requires n < |rs|
    ensures Goes(rs, limit, n) <==> UdtServes(rs, limit, n)
  {
    SuccessesCounted(rs, n);
    var last := LastSuccess(rs, n);
    FailuresCounted(rs, last, n);
    forall m: nat | Since(rs, m, n)
      ensures |Bad(rs, m, n)| == UdtFailures(rs, n)
    {
      FailuresCounted(rs, m, n);
    }
  }

  // Every round before n goes, and no reset fails.
  ghost predicate Gone(rs: seq<Round>, limit: int, n: nat) {
    n <= |rs| && forall i: nat :: i < n ==> Goes(rs, limit, i) && (rs[i].ret < 0 ==> rs[i].reset)
  }

  lemma GoneExactly(rs: seq<Round>, limit: int, n: nat)
    requires n <= |rs|
    ensures Gone(rs, limit, n) <==> UdtServed(rs, limit, n)
  {
    forall i: nat | i < n
      ensures Goes(rs, limit, i) <==> UdtServes(rs, limit, i)
    {
      GoesExactly(rs, limit, i);
    }
  }

  // The worker leaves for errors exactly after a stretch of rounds that went, with ten failures since the last
  // success, timeouts in between or not, while the phase lasts and the limit has room.
  lemma UdtGivesUp(rs: seq<Round>, limit: int, n: nat, m: nat)
    requires n < |rs| && Since(rs, m, n)
    ensures UdtLeft(rs, limit, TooManyErrors, n) <==>
      && Gone(rs, limit, n) && rs[n].status == RUN_M2M_UDT && |Good(rs, 0, n)| <= limit && |Bad(rs, m, n)| == 10
  {
    SuccessesCounted(rs, n);
    FailuresCounted(rs, m, n);
    GoneExactly(rs, limit, n);
  }

  // The other ways to leave
  lemma UdtEnds(rs: seq<Round>, limit: int, n: nat)
    requires n < |rs|
    ensures UdtLeft(rs, limit, PhaseOver, n) <==> Gone(rs, limit, n) && rs[n].status != RUN_M2M_UDT
    ensures UdtLeft(rs, limit, LimitReached, n) <==>
      Gone(rs, limit, n) && rs[n].status == RUN_M2M_UDT && |Good(rs, 0, n)| > limit
  {
    SuccessesCounted(rs, n);
    GoneExactly(rs, limit, n);
  }

  lemma UdtResets(rs: seq<Round>, limit: int, n: nat, last: nat)
    requires n < |rs| && n == last + 1
    ensures UdtLeft(rs, limit, ResetFailed, n) <==>
      UdtServed(rs, limit, last) && UdtServes(rs, limit, last) && rs[last].ret < 0 && !rs[last].reset
  {
  }

  lemma UdtBreaks(rs: seq<Round>, limit: int, n: nat, last: nat)
    requires n < |rs| && n == last + 1
    ensures UdtLeft(rs, limit, ResetFailed, n) <==>
      (Gone(rs, limit, last) && Goes(rs, limit, last) && rs[last].ret < 0 && !rs[last].reset)
  {
    UdtResets(rs, limit, n, last);
    var gone, goes := Gone(rs, limit, last), Goes(rs, limit, last);
    assert gone <==> UdtServed(rs, limit, last) by {
      GoneExactly(rs, limit, last);
    }
    assert goes <==> UdtServes(rs, limit, last) by {
      GoesExactly(rs, limit, last);
    }
  }

  // ---------- The TCP worker ----------

  predicate TcpServed(rs: seq<Round>, n: nat)
    requires n <= |rs|
  {
    forall i: nat :: i < n ==> !rs[i].cancelled && TcpFailures(rs, i) < MAX_ERROR_NUM && rs[i].reset
  }

  predicate TcpLeft(rs: seq<Round>, why: Leaving, rounds: nat) {
    rounds < |rs| &&
    match why
    case Cancelled => TcpServed(rs, rounds) && rs[rounds].cancelled && TcpFailures(rs, rounds) < MAX_ERROR_NUM
    case TooManyErrors =>
      rounds > 0 && TcpServed(rs, rounds - 1) && !rs[rounds - 1].cancelled && TcpFailures(rs, rounds) == MAX_ERROR_NUM
    case ResetFailed =>
      && rounds > 0 && TcpServed(rs, rounds - 1) && !rs[rounds - 1].cancelled
      && TcpFailures(rs, rounds) < MAX_ERROR_NUM && !rs[rounds - 1].reset
    case PhaseOver => false
    case LimitReached => false
  }

  // This loop has no bound of its own; here it is cancelled in the end.
  method TcpFastprofWorker(rs: seq<Round>) returns (why: Leaving, rounds: nat)
    requires rs != [] && rs[|rs| - 1].cancelled
    ensures TcpLeft(rs, why, rounds)
  {
    var errCnt := 0;
    rounds := 0;
    while true
      invariant rounds < |rs|
      invariant TcpServed(rs, rounds)
      invariant errCnt == TcpFailures(rs, rounds) < MAX_ERROR_NUM
      decreases |rs| - rounds
    {
      if rs[rounds].cancelled {
        return Cancelled, rounds;
      }
      var result := rs[rounds].ret;
      rounds := rounds + 1;
      if result < 0 {
        errCnt := errCnt + 1;
        if errCnt >= MAX_ERROR_NUM {
          return TooManyErrors, rounds;
        }
      } else {
        errCnt := 0;
      }
      if !rs[rounds - 1].reset {
        return ResetFailed, rounds;
      }
    }
  }

  // What k failures in a row are
  lemma {:induction false} FailuresInARow(rs: seq<Round>, n: nat, k: nat)
    requires n <= |rs|
    ensures TcpFailures(rs, n) >= k <==> k <= n && forall j :: n - k <= j < n ==> rs[j].ret < 0
    decreases k
  {
    if 0 < k && 0 < n {
      FailuresInARow(rs, n - 1, k - 1);
      if k <= n && rs[n - 1].ret < 0 && forall j :: n - k <= j < n - 1 ==> rs[j].ret < 0 {
        assert forall j :: n - k <= j < n ==> rs[j].ret < 0;
      }
    }
  }

  // A worker whose resets succeed gives up exactly when its last ten rounds failed.
  lemma GivesUp(rs: seq<Round>, why: Leaving, rounds: nat)
    requires TcpLeft(rs, why, rounds) && forall n :: 0 <= n < |rs| ==> rs[n].reset
    ensures why == TooManyErrors <==>
      rounds >= 10 && forall j :: rounds - 10 <= j < rounds ==> rs[j].ret < 0
  {
    FailuresInARow(rs, rounds, MAX_ERROR_NUM);
  }

  // The ten rounds before round n failed.
  predicate TenFailed(rs: seq<Round>, n: nat)
    requires n <= |rs|
  {
    n >= 10 && forall j :: n - 10 <= j < n ==> rs[j].ret < 0
  }

  // The rounds before n were not cancelled, were reset, and none came after ten failures in a row.
  predicate TcpGone(rs: seq<Round>, n: nat)
    requires n <= |rs|
  {
    forall i: nat :: i < n ==> !rs[i].cancelled && !TenFailed(rs, i) && rs[i].reset
  }

  lemma TcpGoneExactly(rs: seq<Round>, n: nat)
    requires n <= |rs|
    ensures TcpGone(rs, n) <==> TcpServed(rs, n)
  {
    forall i: nat | i < n
      ensures TenFailed(rs, i) <==> TcpFailures(rs, i) >= MAX_ERROR_NUM
    {
      FailuresInARow(rs, i, 10);
    }
  }

  lemma TcpEnds(rs: seq<Round>, n: nat)
    requires n < |rs|
    ensures TcpLeft(rs, Cancelled, n) <==> TcpGone(rs, n) && rs[n].cancelled && !TenFailed(rs, n)
  {
    TcpGoneExactly(rs, n);
    FailuresInARow(rs, n, 10);
  }

  // After its last round: by the tenth failure in a row, which goes before the reset, or by a failed reset
  lemma TcpBreaks(rs: seq<Round>, n: nat, last: nat)
    requires n < |rs| && n == last + 1
    ensures TcpLeft(rs, ResetFailed, n) <==>
      TcpGone(rs, last) && !rs[last].cancelled && !TenFailed(rs, n) && !rs[last].reset
    ensures TcpLeft(rs, TooManyErrors, n) ==> TcpGone(rs, last) && !rs[last].cancelled && TenFailed(rs, n)
    ensures TcpGone(rs, last) && !rs[last].cancelled && TenFailed(rs, n) && !TenFailed(rs, last) ==>
      TcpLeft(rs, TooManyErrors, n)
  {
    TcpGoneExactly(rs, last);
    FailuresInARow(rs, n, 10);
    FailuresInARow(rs, last, 10);
  }
}
