/** A whole memory session: the history search, the profiling runs and the records they append, done
    in the order in which the client of the protocol does them; then what the file answers.
 */
module WholeSession {
  import opened Options
  import opened Numbers
  import opened Decimals
  import opened Scanf
  import opened Records
  import opened Histories
  import opened Advisor
  import Tuning
  import TuningTrace
  import TuningRange
  import TuningReport
  import P = Parties
  import S = Sessions
  import C = Choreography
  import T = SessionTheorems
  import G = SessionProgress

  // ---------- A profiler ----------

  predicate MeasureFits(m: Tuning.Measurement) {
    m.Measured? ==> PerfFits(m.mbps)
  }

  predicate ExtraFits(x: Extra) {
    && IsWord(x.time) && |x.time| < 32
    && InInt(x.mss) && InInt(x.other) && InInt(x.duration) && LONG_MIN <= x.transSize <= LONG_MAX
  }

  // A profiler as the client runs it: its settings, its starting values, and all it meets
  datatype Online = Online(cfg: Tuning.Config, a: real, c: real, theta: Tuning.Pair, rttMs: real,
                           oracle: Tuning.Oracle, extras: nat -> Extra)
  {
    predicate Runs() {
      c != 0.0 && cfg.cScale != 0.0 && TuningRange.Sane(cfg) && (cfg.kind.Udt? ==> 25 * (cfg.kind.mss - 44) <= INT_MAX)
    }

    ghost predicate Valid() {
      && Runs()
      && (forall k: nat :: var i := oracle(k); MeasureFits(i.plus) && MeasureFits(i.minus) && MeasureFits(i.star))
      && forall k: nat :: ExtraFits(extras(k))
    }

    function Begin(): Tuning.State {
      Tuning.Start(cfg, a, c, theta, rttMs)
    }

    function Result(): Tuning.State
      requires Runs()
    {
      Tuning.Run(cfg, Begin(), oracle).0
    }
  }

  // Every measurement in the list is one that the run has met.
  predicate AllFit(s: Tuning.State) {
    forall t <- s.visited :: PerfFits(t.perfMbps)
  }

  lemma TriedFits(cfg: Tuning.Config, s: Tuning.State, theta: Tuning.Pair, marker: char, m: Tuning.Measurement)
    requires AllFit(s) && MeasureFits(m)
    ensures AllFit(Tuning.Tried(cfg, s, theta, marker, m).s)
  {
    if m.Measured? {
      assert m.mbps / 1000.0 * 1000.0 == m.mbps;
    }
  }

  lemma ThriceFits(cfg: Tuning.Config, s: Tuning.State, plus: Tuning.Pair, minus: Tuning.Pair, star: Tuning.Pair,
                   i: Tuning.Inputs)
    requires AllFit(s) && MeasureFits(i.plus) && MeasureFits(i.minus) && MeasureFits(i.star)
    ensures AllFit(Tuning.Thrice(cfg, s, plus, minus, star, i).s)
  {
    TriedFits(cfg, s, plus, '+', i.plus);
    var r1 := Tuning.Tried(cfg, s, plus, '+', i.plus);
    if r1.Go? {
      TriedFits(cfg, r1.s, minus, '-', i.minus);
    }
    var r2 := Tuning.Again(cfg, r1, minus, '-', i.minus);
    if r2.Go? {
      TriedFits(cfg, r2.s.(theta := star), star, '*', i.star);
    }
  }

  lemma PassFits(cfg: Tuning.Config, s: Tuning.State, i: Tuning.Inputs)
    requires s.c != 0.0 && AllFit(s) && MeasureFits(i.plus) && MeasureFits(i.minus) && MeasureFits(i.star)
    ensures AllFit(Tuning.Pass(cfg, s, i).s)
  {
    var t := Tuning.Prepared(cfg, s, i);
    var ak, ck := s.a / i.aDen, s.c / i.cDen;
    ThriceFits(cfg, t, Tuning.PlusPoint(t, ck, i), Tuning.MinusPoint(t, ck, i), Tuning.StarPoint(t, ak, ck, i), i);
  }

  lemma {:induction false} RunFits(cfg: Tuning.Config, s: Tuning.State, oracle: Tuning.Oracle)
    requires s.c != 0.0 && cfg.cScale != 0.0 && AllFit(s)
    requires forall k: nat :: var i := oracle(k); MeasureFits(i.plus) && MeasureFits(i.minus) && MeasureFits(i.star)
    ensures AllFit(Tuning.Run(cfg, s, oracle).0)
    decreases cfg.MaxProfLimit() - s.profNum
  {
    Tuning.HeadGain(cfg, s);
    var h := Tuning.Head(cfg, s);
    if h.Go? {
      PassFits(cfg, h.s, oracle(s.k));
      var r := Tuning.Turn(cfg, s, oracle);
      if r.Go? {
        RunFits(cfg, r.s, oracle);
      }
    }
  }

  // What the tuning theorems say of a profiler's result
  lemma ResultHolds(o: Online)
    requires o.Valid()
    ensures var s := o.Result();
      TuningTrace.Consistent(s) && TuningReport.Backed(o.cfg, s) && TuningRange.Ranged(o.cfg, s) && AllFit(s)
  {
    TuningTrace.StartConsistent(o.cfg, o.a, o.c, o.theta, o.rttMs);
    TuningTrace.RunConsistent(o.cfg, o.Begin(), o.oracle);
    TuningReport.RunCounted(o.cfg, o.Begin(), o.oracle);
    TuningRange.StartOrdered(o.cfg, o.a, o.c, o.theta, o.rttMs);
    TuningRange.RunRanged(o.cfg, o.Begin(), o.oracle);
    RunFits(o.cfg, o.Begin(), o.oracle);
  }

  lemma LegalInRange(localIp: string, remoteIp: string, cfg: Tuning.Config, u: Tuning.Setting, perf: real, x: Extra)
    requires TuningRange.Legal(cfg, u) && ExtraFits(x) && (cfg.kind.Udt? ==> 25 * (cfg.kind.mss - 44) <= INT_MAX)
    requires TuningRange.Sane(cfg)
    ensures InRange(Composed(localIp, remoteIp, u, perf, x))
  {
  }

  // ---------- What a profiler leaves in the file ----------

  // Records to append, and the performance that prof_max holds in the end
  datatype Batch = Batch(es: seq<Entry>, saved: real)

  // They can all be stored, and the performance is their greatest.
  ghost predicate Tops(b: Batch) {
    && (forall e <- b.es :: Storable(e)) && Rounded(b.saved) >= 0.0
    && (forall i :: IsRecord(b.es, i) ==> PerfAt(b.es, i) <= Rounded(b.saved))
    && (exists i :: IsRecord(b.es, i) && PerfAt(b.es, i) == Rounded(b.saved))
  }

  function BatchOf(o: Online, localIp: string, remoteIp: string): Batch
    requires o.Runs() && o.Result().saved.Some? && |o.Result().visited| <= |o.Result().used|
  {
    var s := o.Result();
    Batch(Added(localIp, remoteIp, s, seq(|s.visited|, i requires 0 <= i < |s.visited| => o.extras(i))), s.saved.value)
  }

  lemma BatchStorable(o: Online, localIp: string, remoteIp: string, es: seq<Entry>)
    requires o.Valid() && Address(localIp) && Address(remoteIp) && o.Result().saved.Some?
    requires |o.Result().visited| <= |o.Result().used| && es == BatchOf(o, localIp, remoteIp).es
    ensures forall e <- es :: Storable(e)
  {
    ResultHolds(o);
    var s := o.Result();
    forall i | 0 <= i < |es|
      ensures Storable(es[i])
    {
      var u, perf, x := s.used[i], s.visited[i].perfMbps, o.extras(i);
      assert u in s.used && s.visited[i] in s.visited;
      LegalInRange(localIp, remoteIp, o.cfg, u, perf, x);
      ComposedIsStorable(localIp, remoteIp, u, perf, x);
    }
  }

  lemma BatchTops(o: Online, localIp: string, remoteIp: string, b: Batch)
    requires o.Valid() && Address(localIp) && Address(remoteIp) && o.Result().saved.Some?
    requires |o.Result().visited| <= |o.Result().used| && b == BatchOf(o, localIp, remoteIp)
    ensures Tops(b)
  {
    ResultHolds(o);
    var s := o.Result();
    BatchStorable(o, localIp, remoteIp, b.es);
    SavedIsPositive(s);
    AddedGreatest(localIp, remoteIp, s, seq(|s.visited|, i requires 0 <= i < |s.visited| => o.extras(i)));
  }

  // ---------- The client's work on the file ----------

  // The file, and what the client has from the search and from the two profilers
  datatype Desk = Desk(es: seq<Entry>, hist: Option<Outcome>, tcp: Option<real>, udt: Option<real>)

  function Found(es: seq<Entry>): Outcome {
    Search(Render(es), 0, false, None)
  }

  function Done(tcp: Batch, udt: Batch, d: Desk, work: P.Work): Desk {
    match work
    case SearchMemory => d.(hist := Some(Found(d.es)))
    case RunTcp => d.(es := d.es + tcp.es, tcp := Some(tcp.saved))
    case RunUdt => d.(es := d.es + udt.es, udt := Some(udt.saved))
    case _ => d
  }

  function AllDone(tcp: Batch, udt: Batch, d: Desk, works: seq<P.Work>): Desk
    decreases |works|
  {
    if works == [] then d else AllDone(tcp, udt, Done(tcp, udt, d, works[0]), works[1..])
  }

  // The desk when a session comes to some world, the file having held `es` before
  function DeskAt(p: S.Session, moves: seq<S.Move>, tcp: Batch, udt: Batch, es: seq<Entry>): Desk
    requires T.Run(p, moves)
  {
    AllDone(tcp, udt, Desk(es, None, None, None), T.End(p, moves).client.did)
  }

  // The greatest of a performance and those of the profilers that have run
  function Top(d: Desk, hist: real): real {
    var x := if d.tcp.Some? then Max(hist, Rounded(d.tcp.value)) else hist;
    if d.udt.Some? then Max(x, Rounded(d.udt.value)) else x
  }

  // The file is readable, goes on from `es`, and its best is that of `es` or of a profiler.
  ghost predicate Right(tcp: Batch, udt: Batch, d: Desk, es: seq<Entry>) {
    && es <= d.es && (forall e <- d.es :: Storable(e))
    && PerfOf(AfterAll(None, d.es)) == Top(d, PerfOf(AfterAll(None, es)))
    && (d.tcp.Some? ==> d.tcp.value == tcp.saved) && (d.udt.Some? ==> d.udt.value == udt.saved)
  }

  // A batch makes the best a running maximum.
  lemma BatchMaximum(b: Batch, es: seq<Entry>)
    requires Tops(b)
    ensures PerfOf(AfterAll(None, es + b.es)) == Max(PerfOf(AfterAll(None, es)), Rounded(b.saved))
  {
    AfterAllConcat(None, es, b.es);
    AfterAllPerf(AfterAll(None, es), b.es, Rounded(b.saved));
  }

  lemma DoneKeeps(tcp: Batch, udt: Batch, d: Desk, work: P.Work, es: seq<Entry>)
    requires Tops(tcp) && Tops(udt) && Right(tcp, udt, d, es)
    ensures Right(tcp, udt, Done(tcp, udt, d, work), es)
  {
    if work.RunTcp? {
      BatchMaximum(tcp, d.es);
    } else if work.RunUdt? {
      BatchMaximum(udt, d.es);
    }
  }

  lemma {:induction false} AllDoneKeeps(tcp: Batch, udt: Batch, d: Desk, works: seq<P.Work>, es: seq<Entry>)
    requires Tops(tcp) && Tops(udt) && Right(tcp, udt, d, es)
    ensures Right(tcp, udt, AllDone(tcp, udt, d, works), es)
    decreases |works|
  {
    if works != [] {
      DoneKeeps(tcp, udt, d, works[0], es);
      AllDoneKeeps(tcp, udt, Done(tcp, udt, d, works[0]), works[1..], es);
    }
  }

  lemma FoundIs(es: seq<Entry>)
    requires forall e <- es :: Storable(e)
    ensures Found(es) == Finish(AfterAll(None, es))
  {
    SearchEntries(Render(es), 0, es, None);
  }

  // Whenever in a session the file is searched, nothing that was in it is lost, and the answer is the
  // greatest of what it was before and of the profilers that have run.
  lemma FileAnswers(p: S.Session, moves: seq<S.Move>, tcp: Batch, udt: Batch, es: seq<Entry>)
    requires T.Run(p, moves) && Tops(tcp) && Tops(udt) && forall e <- es :: Storable(e)
    ensures var d := DeskAt(p, moves, tcp, udt, es);
      && es <= d.es && (forall e <- d.es :: Storable(e))
      && PerfOf(Found(d.es).best) == Top(d, PerfOf(Found(es).best)) >= PerfOf(Found(es).best)
  {
    var d := DeskAt(p, moves, tcp, udt, es);
    AllDoneKeeps(tcp, udt, Desk(es, None, None, None), T.End(p, moves).client.did, es);
    FoundIs(es);
    FoundIs(d.es);
  }

  // ---------- The finished session ----------

  // The session's search of the file finds what the file has.
  predicate Matches(p: S.Session, es: seq<Entry>) {
    p.Valid() && p.mode == P.Memory && p.found == Found(es).found
  }

  lemma DoneFirst(tcp: Batch, udt: Batch, d: Desk, work: P.Work, rest: seq<P.Work>, next: Desk)
    requires next == Done(tcp, udt, d, work)
    ensures AllDone(tcp, udt, d, [work] + rest) == AllDone(tcp, udt, next, rest)
  {
    assert ([work] + rest)[1..] == rest;
  }

  lemma TwoDone(tcp: Batch, udt: Batch, d: Desk, w1: P.Work, w2: P.Work, d1: Desk, d2: Desk)
    requires d1 == Done(tcp, udt, d, w1) && d2 == Done(tcp, udt, d1, w2)
    ensures AllDone(tcp, udt, d, [w1, w2]) == d2
  {
    DoneFirst(tcp, udt, d, w1, [w2], d1);
    DoneFirst(tcp, udt, d1, w2, [], d2);
    assert [w1] + [w2] == [w1, w2] && [w2] + [] == [w2];
  }

  // A finished memory session has searched the file as it was, then profiled TCP unless -t was given
  // and the file had an answer, then UDT.
  lemma DeskAtEnd(p: S.Session, moves: seq<S.Move>, tcp: Batch, udt: Batch, es: seq<Entry>)
    requires T.Run(p, moves) && S.Finished(T.End(p, moves)) && Matches(p, es)
    ensures DeskAt(p, moves, tcp, udt, es) ==
      if Found(es).found && p.udtOnly > 0
      then Desk(es + udt.es, Some(Found(es)), None, Some(udt.saved))
      else Desk(es + tcp.es + udt.es, Some(Found(es)), Some(tcp.saved), Some(udt.saved))
  {
    T.WorkInOrder(p, moves, true);
    var d0 := Desk(es, None, None, None);
    var d1 := d0.(hist := Some(Found(es)));
    if C.UsesTcp(p) {
      var d2 := d1.(es := es + tcp.es, tcp := Some(tcp.saved));
      DoneFirst(tcp, udt, d0, P.SearchMemory, [P.RunTcp, P.RunUdt], d1);
      TwoDone(tcp, udt, d1, P.RunTcp, P.RunUdt, d2, d2.(es := d2.es + udt.es, udt := Some(udt.saved)));
    } else {
      TwoDone(tcp, udt, d0, P.SearchMemory, P.RunUdt, d1, d1.(es := es + udt.es, udt := Some(udt.saved)));
    }
  }

  // ---------- End to end ----------

  // The addresses, and the two profilers as they are set up
  datatype Job = Job(localIp: string, remoteIp: string, tcp: Online, udt: Online)
  {
    ghost predicate Valid() {
      && Address(localIp) && Address(remoteIp) && tcp.Valid() && udt.Valid() && tcp.cfg.kind.Tcp? && udt.cfg.kind.Udt?
    }
  }

  // Both profilers measure something positive.
  ghost predicate Measures(job: Job)
    requires job.Valid()
  {
    job.tcp.Result().saved.Some? && job.udt.Result().saved.Some?
  }

  // What a profiler of the job leaves
  ghost function LeftBy(job: Job, o: Online): (b: Batch)
    requires job.Valid() && Measures(job) && (o == job.tcp || o == job.udt)
    ensures Tops(b) && Some(b.saved) == o.Result().saved
    ensures |o.Result().visited| <= |o.Result().used| && b == BatchOf(o, job.localIp, job.remoteIp)
  {
    ResultHolds(o);
    var b := BatchOf(o, job.localIp, job.remoteIp);
    BatchTops(o, job.localIp, job.remoteIp, b);
    b
  }

  lemma ThreeValues(d: Desk, tcp: real, udt: real, es: seq<Entry>)
    requires (forall e <- es :: Storable(e)) && (forall e <- d.es :: Storable(e))
    requires d.tcp == Some(tcp) && d.udt == Some(udt) && Rounded(tcp) >= 0.0
    requires PerfOf(Found(d.es).best) == Top(d, PerfOf(Found(es).best))
    ensures var hist, o := PerfOf(Found(es).best), Found(d.es);
      o.found && PerfOf(o.best) == Rounded(Max(Max(tcp, udt), hist))
  {
    FoundIs(es);
    FoundIs(d.es);
    BestIsRounded(es);
    MaxRounded(tcp, udt, PerfOf(Found(es).best));
  }

  lemma EndOfBatches(p: S.Session, moves: seq<S.Move>, tcp: Batch, udt: Batch, es: seq<Entry>)
    requires T.Run(p, moves) && S.Finished(T.End(p, moves)) && Matches(p, es) && forall e <- es :: Storable(e)
    requires Tops(tcp) && Tops(udt) && !(Found(es).found && p.udtOnly > 0)
    ensures var d := DeskAt(p, moves, tcp, udt, es);
      && d == Desk(es + tcp.es + udt.es, Some(Found(es)), Some(tcp.saved), Some(udt.saved))
      && (forall e <- d.es :: Storable(e)) && Found(d.es).found
      && PerfOf(Found(d.es).best) == Rounded(Max(Max(tcp.saved, udt.saved), PerfOf(Found(es).best)))
  {
    DeskAtEnd(p, moves, tcp, udt, es);
    FileAnswers(p, moves, tcp, udt, es);
    ThreeValues(DeskAt(p, moves, tcp, udt, es), tcp.saved, udt.saved, es);
  }

  lemma WinnerIsGreatest(tcp: real, udt: real, hist: real)
    ensures forall w: Source :: StrictWinner(w, tcp, udt, hist) ==>
              PerfBy(w, tcp, udt, hist) == Max(Max(tcp, udt), hist)
  {
    WinnerBeats(tcp, udt, hist);
  }

  // When a session with both profilers is finished, a fresh search of the file returns the greatest of
  // the three values that the recommendation compares, to six decimals; so if one of them is printed,
  // it is the one that the file answers with from now on.
  lemma EndToEnd(p: S.Session, moves: seq<S.Move>, job: Job, es: seq<Entry>)
    requires T.Run(p, moves) && S.Finished(T.End(p, moves)) && Matches(p, es) && forall e <- es :: Storable(e)
    requires job.Valid() && Measures(job) && !(Found(es).found && p.udtOnly > 0)
    ensures var d := DeskAt(p, moves, LeftBy(job, job.tcp), LeftBy(job, job.udt), es); var o := Found(d.es);
      var tcp, udt, hist := job.tcp.Result().saved.value, job.udt.Result().saved.value, PerfOf(Found(es).best);
      && d.hist == Some(Found(es)) && d.tcp == Some(tcp) && d.udt == Some(udt)
      && o.found && PerfOf(o.best) == Rounded(Max(Max(tcp, udt), hist))
      && forall w: Source :: StrictWinner(w, tcp, udt, hist) ==> PerfOf(o.best) == Rounded(PerfBy(w, tcp, udt, hist))
  {
    var tcp, udt := LeftBy(job, job.tcp), LeftBy(job, job.udt);
    EndOfBatches(p, moves, tcp, udt, es);
    WinnerIsGreatest(tcp.saved, udt.saved, PerfOf(Found(es).best));
  }

  // ---------- Which setting the file names ----------

  // The best record is among those between two places if all others are below it.
  lemma BestWithin(es: seq<Entry>, from: nat, own: seq<Entry>, top: real)
    requires (forall e <- es :: Storable(e)) && from + |own| <= |es| && es[from..from + |own|] == own
    requires PerfOf(Found(es).best) == top >= 0.0
    requires forall i :: IsRecord(es, i) && !(from <= i < from + |own|) ==> PerfAt(es, i) < top
    ensures exists k :: IsRecord(own, k) && PerfAt(own, k) == top && Found(es).best == Some(Stored(own[k].r))
  {
    FoundIs(es);
    SearchFindsBest(es);
    var i :| IsEarliestBest(es, i) && Found(es).best.value == Stored(es[i].r);
    Among(es, from, own, top, i);
  }

  lemma Among(es: seq<Entry>, from: nat, own: seq<Entry>, top: real, i: int)
    requires from + |own| <= |es| && es[from..from + |own|] == own && IsRecord(es, i) && PerfAt(es, i) == top
    requires forall i :: IsRecord(es, i) && !(from <= i < from + |own|) ==> PerfAt(es, i) < top
    ensures from <= i < from + |own| && IsRecord(own, i - from) && own[i - from] == es[i]
  {
    assert from <= i < from + |own|;
    assert own[i - from] == es[i];
  }

  // No record of a file is above what the search returns.
  lemma FileBelow(es: seq<Entry>, i: int)
    requires (forall e <- es :: Storable(e)) && IsRecord(es, i)
    ensures PerfAt(es, i) <= PerfOf(Found(es).best)
  {
    FoundIs(es);
    AfterAllMeaning(es);
  }

  // Where a batch beats all that is around it, the file answers with one of its best records.
  lemma BatchWins(es: seq<Entry>, b: Batch, after: seq<Entry>, rest: real)
    requires Tops(b) && (forall e <- es + b.es + after :: Storable(e))
    requires PerfOf(Found(es + b.es + after).best) == Rounded(b.saved) > rest
    requires forall i :: IsRecord(es, i) ==> PerfAt(es, i) <= rest
    requires forall i :: IsRecord(after, i) ==> PerfAt(after, i) <= rest
    ensures exists k ::
      && IsRecord(b.es, k) && PerfAt(b.es, k) == Rounded(b.saved)
      && Found(es + b.es + after).best == Some(Stored(b.es[k].r))
  {
    var all := es + b.es + after;
    assert all[|es|..|es| + |b.es|] == b.es;
    forall i | IsRecord(all, i) && !(|es| <= i < |es| + |b.es|)
      ensures PerfAt(all, i) < Rounded(b.saved)
    {
      if i < |es| {
        assert IsRecord(es, i) && PerfAt(es, i) == PerfAt(all, i);
      } else {
        assert IsRecord(after, i - |es| - |b.es|) && PerfAt(after, i - |es| - |b.es|) == PerfAt(all, i);
      }
    }
    BestWithin(all, |es|, b.es, Rounded(b.saved));
  }

  // The record is this profiler's, of a setting measured with its best performance.
  ghost predicate Names(o: Online, localIp: string, remoteIp: string, r: Record, k: nat)
    requires o.Runs()
  {
    var s := o.Result();
    && k < |s.visited| && s.saved.Some? && Rounded(s.visited[k].perfMbps) == Rounded(s.saved.value)
    && var measured := Tuning.Pair(s.visited[k].first, s.visited[k].second);
       r == Stored(Composed(localIp, remoteIp, Tuning.SettingOf(o.cfg, measured), s.visited[k].perfMbps, o.extras(k)))
  }

  lemma NamesOwn(o: Online, localIp: string, remoteIp: string, b: Batch, k: nat)
    requires o.Valid() && o.Result().saved.Some? && |o.Result().visited| <= |o.Result().used|
    requires b == BatchOf(o, localIp, remoteIp) && IsRecord(b.es, k) && PerfAt(b.es, k) == Rounded(b.saved)
    ensures Names(o, localIp, remoteIp, Stored(b.es[k].r), k)
  {
    ResultHolds(o);
    var s := o.Result();
    assert b.es[k].r == Composed(localIp, remoteIp, s.used[k], s.visited[k].perfMbps, o.extras(k));
  }

  // The search's value bounds the records before, the other profiler's those of its batch.
  lemma TcpWins(tcp: Batch, udt: Batch, es: seq<Entry>, hist: real, rest: real)
    requires Tops(tcp) && Tops(udt) && hist == PerfOf(Found(es).best)
    requires forall e <- es + tcp.es + udt.es :: Storable(e)
    requires rest == Max(Rounded(udt.saved), hist)
    requires PerfOf(Found(es + tcp.es + udt.es).best) == Rounded(tcp.saved) > rest
    ensures exists k :: IsRecord(tcp.es, k) && PerfAt(tcp.es, k) == Rounded(tcp.saved) &&
                        Found(es + tcp.es + udt.es).best == Some(Stored(tcp.es[k].r))
  {
    assert forall e <- es :: e in es + tcp.es + udt.es;
    forall i | IsRecord(es, i)
      ensures PerfAt(es, i) <= rest
    {
      FileBelow(es, i);
    }
    BatchWins(es, tcp, udt.es, rest);
  }

  lemma BothBelow(es: seq<Entry>, ts: seq<Entry>, rest: real)
    requires forall i :: IsRecord(es, i) ==> PerfAt(es, i) <= rest
    requires forall i :: IsRecord(ts, i) ==> PerfAt(ts, i) <= rest
    ensures forall i :: IsRecord(es + ts, i) ==> PerfAt(es + ts, i) <= rest
  {
    forall i | IsRecord(es + ts, i)
      ensures PerfAt(es + ts, i) <= rest
    {
      if i < |es| {
        assert IsRecord(es, i) && PerfAt(es + ts, i) == PerfAt(es, i);
      } else {
        assert IsRecord(ts, i - |es|) && PerfAt(es + ts, i) == PerfAt(ts, i - |es|);
      }
    }
  }

  lemma UdtWins(tcp: Batch, udt: Batch, es: seq<Entry>, hist: real, rest: real)
    requires Tops(tcp) && Tops(udt) && hist == PerfOf(Found(es).best)
    requires forall e <- es + tcp.es + udt.es :: Storable(e)
    requires rest == Max(Rounded(tcp.saved), hist)
    requires PerfOf(Found(es + tcp.es + udt.es).best) == Rounded(udt.saved) > rest
    ensures exists k :: IsRecord(udt.es, k) && PerfAt(udt.es, k) == Rounded(udt.saved) &&
                        Found(es + tcp.es + udt.es).best == Some(Stored(udt.es[k].r))
  {
    assert forall e <- es :: e in es + tcp.es + udt.es;
    forall i | IsRecord(es, i)
      ensures PerfAt(es, i) <= rest
    {
      FileBelow(es, i);
    }
    BothBelow(es, tcp.es, rest);
    assert es + tcp.es + udt.es + [] == es + tcp.es + udt.es;
    BatchWins(es + tcp.es, udt, [], rest);
  }

  lemma BatchAnswers(tcp: Batch, udt: Batch, es: seq<Entry>, w: Source, hist: real) returns (k: nat)
    requires Tops(tcp) && Tops(udt) && hist == PerfOf(Found(es).best)
    requires forall e <- es + tcp.es + udt.es :: Storable(e)
    requires PerfOf(Found(es + tcp.es + udt.es).best) == Max(Max(hist, Rounded(tcp.saved)), Rounded(udt.saved))
    requires w != History && StrictWinner(w, Rounded(tcp.saved), Rounded(udt.saved), hist)
    ensures var b := if w == Tcp then tcp else udt;
      && IsRecord(b.es, k) && PerfAt(b.es, k) == Rounded(b.saved)
      && Found(es + tcp.es + udt.es).best == Some(Stored(b.es[k].r))
  {
    WinnerBeats(Rounded(tcp.saved), Rounded(udt.saved), hist);
    if w == Tcp {
      TcpWins(tcp, udt, es, hist, Max(Rounded(udt.saved), hist));
      k :| IsRecord(tcp.es, k) && PerfAt(tcp.es, k) == Rounded(tcp.saved) &&
           Found(es + tcp.es + udt.es).best == Some(Stored(tcp.es[k].r));
    } else {
      UdtWins(tcp, udt, es, hist, Max(Rounded(tcp.saved), hist));
      k :| IsRecord(udt.es, k) && PerfAt(udt.es, k) == Rounded(udt.saved) &&
           Found(es + tcp.es + udt.es).best == Some(Stored(udt.es[k].r));
    }
  }

  lemma SessionAnswers(p: S.Session, moves: seq<S.Move>, tcp: Batch, udt: Batch, es: seq<Entry>, w: Source)
      returns (k: nat)
    requires T.Run(p, moves) && S.Finished(T.End(p, moves)) && Matches(p, es) && forall e <- es :: Storable(e)
    requires Tops(tcp) && Tops(udt) && !(Found(es).found && p.udtOnly > 0)
    requires w != History && StrictWinner(w, Rounded(tcp.saved), Rounded(udt.saved), PerfOf(Found(es).best))
    ensures var b, d := if w == Tcp then tcp else udt, DeskAt(p, moves, tcp, udt, es);
      IsRecord(b.es, k) && PerfAt(b.es, k) == Rounded(b.saved) && Found(d.es).best == Some(Stored(b.es[k].r))
  {
    DeskAtEnd(p, moves, tcp, udt, es);
    FileAnswers(p, moves, tcp, udt, es);
    k := BatchAnswers(tcp, udt, es, w, PerfOf(Found(es).best));
  }

  // The printed setting of a recommended profiler may be the wrong one; the record that the file
  // answers with after the session always has one that was measured with the best performance.
  lemma FileNamesSetting(p: S.Session, moves: seq<S.Move>, job: Job, es: seq<Entry>, w: Source) returns (k: nat)
    requires T.Run(p, moves) && S.Finished(T.End(p, moves)) && Matches(p, es) && forall e <- es :: Storable(e)
    requires job.Valid() && Measures(job) && !(Found(es).found && p.udtOnly > 0) && w != History
    requires StrictWinner(w, Rounded(job.tcp.Result().saved.value), Rounded(job.udt.Result().saved.value),
                          PerfOf(Found(es).best))
    ensures var best := Found(DeskAt(p, moves, LeftBy(job, job.tcp), LeftBy(job, job.udt), es).es).best;
      best.Some? && Names(if w == Tcp then job.tcp else job.udt, job.localIp, job.remoteIp, best.value, k)
  {
    var tcp, udt := LeftBy(job, job.tcp), LeftBy(job, job.udt);
    k := SessionAnswers(p, moves, tcp, udt, es, w);
    if w == Tcp {
      NamesOwn(job.tcp, job.localIp, job.remoteIp, tcp, k);
    } else {
      NamesOwn(job.udt, job.localIp, job.remoteIp, udt, k);
    }
  }

  // ---------- What the session takes from the handshake and from the file ----------

  // The buffers of a setting: the kernel doubles the two socket buffers.
  predicate BufferWithin(u: Tuning.Setting, most: int) {
    match u
    case TcpSetting(socketBuf, _) => 2 * socketBuf <= most + 1
    case UdtSetting(_, udtBuf, udpBuf) => udtBuf <= most && 2 * udpBuf <= most + 1
  }

  // A profiler that the client is about to run, with the limit it holds, stays within the limits of both sides.
  lemma BuffersAgreed(p: S.Session, moves: seq<S.Move>, o: Online, u: Tuning.Setting)
    requires T.Run(p, moves) && o.Valid() && u in o.Result().used
    requires var c := T.End(p, moves).client;
      c.todo != [] && c.todo[0] in {P.Do(P.RunTcp), P.Do(P.RunUdt)} && o.cfg.hostMaxBuf == c.ctrlMaxBuf
    ensures BufferWithin(u, p.clientMax) && BufferWithin(u, p.serverMax)
  {
    T.ProfilesShaken(p, moves, T.End(p, moves).client.todo[0].work);
    T.Agreement(p, moves);
    ResultHolds(o);
    assert TuningRange.Legal(o.cfg, u);
  }

  // A memory session can hang exactly when -t was given and the file has no record that is not negative.
  lemma DeadlockByFile(p: S.Session, es: seq<Entry>)
    requires Matches(p, es) && forall e <- es :: Storable(e)
    ensures (exists moves :: T.Run(p, moves) && G.Stuck(T.End(p, moves))) <==>
            p.udtOnly > 0 && forall i :: IsRecord(es, i) ==> PerfAt(es, i) < 0.0
  {
    G.DeadlockExactly(p);
    SearchFindsBest(es);
  }
}
