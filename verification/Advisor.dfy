/** From the measurements of a session to the profile file and to the recommendation at its end. */
module Advisor {
  import opened Options
  import opened Decimals
  import opened Scanf
  import opened Records
  import opened Histories
  import Tuning
  import TuningTrace

  // ---------- f_tcp_m2m_record_compose and f_udt_m2m_record_compose ----------

  const IP_SIZE := 32

  // The string that a char array holds
  function CString(s: seq<char>): string {
    if s == [] || s[0] == '\0' then "" else [s[0]] + CString(s[1..])
  }

  lemma {:induction false} CStringAt(s: seq<char>, n: nat)
    requires n < |s| && s[n] == '\0' && '\0' !in s[..n]
    ensures CString(s) == s[..n]
    decreases n
  {
    if n > 0 {
      assert s[..n][0] == s[0] && s[..n][1..] == s[1..][..n - 1];
      CStringAt(s[1..], n - 1);
    }
  }

  method Memcpy(to: array<char>, s: string)
    requires |s| <= to.Length
    modifies to
    ensures forall k :: 0 <= k < |s| ==> to[k] == s[k]
    ensures forall k :: |s| <= k < to.Length ==> to[k] == old(to[k])
  {
    var i := 0;
    while i < |s|
      invariant 0 <= i <= |s|
      invariant forall k :: 0 <= k < i ==> to[k] == s[k]
      invariant forall k :: i <= k < to.Length ==> to[k] == old(to[k])
    {
      to[i] := s[i];
      i := i + 1;
    }
  }

  // The address fields: both terminators go into src_ip, the second one where the remote address ends.
  function SourceField(localIp: string, remoteIp: string): string {
    localIp[..if |localIp| < |remoteIp| then |localIp| else |remoteIp|]
  }

  method ComposeAddresses(localIp: string, remoteIp: string) returns (srcIp: string, dstIp: string)
    requires |localIp| < IP_SIZE && |remoteIp| < IP_SIZE && '\0' !in localIp && '\0' !in remoteIp
    ensures srcIp == SourceField(localIp, remoteIp) && dstIp == remoteIp
  {
    var src := new char[IP_SIZE](_ => '\0');
    var dst := new char[IP_SIZE](_ => '\0');
    Memcpy(src, localIp);
    src[|localIp|] := '\0';
    Memcpy(dst, remoteIp);
    src[|remoteIp|] := '\0';
    var n := if |localIp| < |remoteIp| then |localIp| else |remoteIp|;
    assert src[..][..n] == localIp[..n];
    assert dst[..][..|remoteIp|] == remoteIp;
    CStringAt(src[..], n);
    CStringAt(dst[..], |remoteIp|);
    return CString(src[..]), CString(dst[..]);
  }

  // The record names its source correctly only if that address is not the longer one.
  lemma SourceKept(localIp: string, remoteIp: string)
    ensures SourceField(localIp, remoteIp) == localIp <==> |localIp| <= |remoteIp|
  {
  }

  // What a record takes from elsewhere than the setting: `other` is the block size for TCP, the number of
  // streams for UDT.
  datatype Extra = Extra(time: string, mss: int, other: int, duration: int, transSize: int)

  function Composed(localIp: string, remoteIp: string, u: Tuning.Setting, perf: real, x: Extra): Record {
    var src := SourceField(localIp, remoteIp);
    match u
    case TcpSetting(socketBuf, streams) =>
      Record(src, remoteIp, x.time, "TCP", "iperf3", streams, x.mss, socketBuf, "B", x.other, "B",
             x.duration, "sec", x.transSize, "B", perf, "Mbps")
    case UdtSetting(block, udtBuf, _) =>
      Record(src, remoteIp, x.time, "UDT", "tpg", x.other, x.mss, udtBuf, "B", block, "B",
             x.duration, "sec", x.transSize, "B", perf, "Mbps")
  }

  predicate Address(ip: string) {
    IsWord(ip) && |ip| < IP_SIZE && ip[0] != '#'
  }

  lemma UnitsAreWords()
    ensures IsWord("TCP") && IsWord("UDT") && IsWord("iperf3") && IsWord("tpg")
    ensures IsWord("B") && IsWord("sec") && IsWord("Mbps")
  {
  }

  lemma SourceIsWord(localIp: string, remoteIp: string)
    requires Address(localIp) && Address(remoteIp)
    ensures Address(SourceField(localIp, remoteIp))
  {
  }

  lemma ComposedIsStorable(localIp: string, remoteIp: string, u: Tuning.Setting, perf: real, x: Extra)
    requires Address(localIp) && Address(remoteIp) && IsWord(x.time) && |x.time| < 32 && PerfFits(perf)
    requires InRange(Composed(localIp, remoteIp, u, perf, x))
    ensures Storable(Entry.Measured(Composed(localIp, remoteIp, u, perf, x)))
  {
    UnitsAreWords();
    SourceIsWord(localIp, remoteIp);
  }

  // What the profile says of a record of that kind
  predicate Describes(b: Record, u: Tuning.Setting, x: Extra) {
    && b.currTime == x.time && b.mssSize == x.mss && b.duration == x.duration && b.transSize == x.transSize
    && b.bufferUnit == b.blockUnit == b.transUnit == "B" && b.durationUnit == "sec" && b.perfUnit == "Mbps"
    && match u
       case TcpSetting(socketBuf, streams) =>
         && b.protocolName == "TCP" && b.toolkitName == "iperf3"
         && b.bufferSize == socketBuf && b.numStreams == streams && b.blockSize == x.other
       case UdtSetting(block, udtBuf, _) =>
         && b.protocolName == "UDT" && b.toolkitName == "tpg"
         && b.blockSize == block && b.bufferSize == udtBuf && b.numStreams == x.other
  }

  // A composed record can be printed and read back: its 17 fields return, the performance to six decimals,
  // and with them the addresses, the time, the toolkit and all parameters that were measured.
  lemma ComposedReadsBack(localIp: string, remoteIp: string, u: Tuning.Setting, perf: real, x: Extra)
    requires Address(localIp) && Address(remoteIp) && IsWord(x.time) && |x.time| < 32 && PerfFits(perf)
    requires InRange(Composed(localIp, remoteIp, u, perf, x))
    ensures var r := Composed(localIp, remoteIp, u, perf, x);
      Parse(PrintRecord(r) + "\n") == Some(Stored(r)) && |PrintRecord(r)| < LINE_SIZE
    ensures var b := Parse(PrintRecord(Composed(localIp, remoteIp, u, perf, x)) + "\n").value;
      && b.srcIp == (if |localIp| <= |remoteIp| then localIp else localIp[..|remoteIp|]) && b.dstIp == remoteIp
      && b.perf == Rounded(perf) && Describes(b, u, x)
  {
    var r := Composed(localIp, remoteIp, u, perf, x);
    ComposedIsStorable(localIp, remoteIp, u, perf, x);
    LineFits(r);
    WordsRead(r, "\n");
    assert |localIp| <= |remoteIp| ==> localIp[..|localIp|] == localIp;
  }

  // ---------- What a profiling run adds to the file ----------

  // One record for every measurement in visited_list, in that order
  function Added(localIp: string, remoteIp: string, s: Tuning.State, xs: seq<Extra>): (es: seq<Entry>)
    requires |xs| == |s.visited| <= |s.used|
    ensures |es| == |xs|
  {
    seq(|xs|, i requires 0 <= i < |xs| =>
      Entry.Measured(Composed(localIp, remoteIp, s.used[i], s.visited[i].perfMbps, xs[i])))
  }

  // The k-th record reads back with the k-th performance, and says what was set for it.
  lemma AddedReadsBack(localIp: string, remoteIp: string, s: Tuning.State, xs: seq<Extra>, k: nat, r: Record)
    requires k < |xs| == |s.visited| <= |s.used| && Added(localIp, remoteIp, s, xs)[k] == Entry.Measured(r)
    requires Address(localIp) && Address(remoteIp) && IsWord(xs[k].time) && |xs[k].time| < 32
    requires PerfFits(s.visited[k].perfMbps) && InRange(r)
    ensures var b := Parse(PrintRecord(r) + "\n");
      && b.Some? && b.value.perf == Rounded(s.visited[k].perfMbps) && b.value.dstIp == remoteIp
      && Describes(b.value, s.used[k], xs[k])
  {
    ComposedReadsBack(localIp, remoteIp, s.used[k], s.visited[k].perfMbps, xs[k]);
  }

  // ---------- The recommendation ----------

  datatype Source = Tcp | Udt | History

  function PerfBy(w: Source, tcp: real, udt: real, hist: real): real {
    match w
    case Tcp => tcp
    case Udt => udt
    case History => hist
  }

  predicate StrictWinner(w: Source, tcp: real, udt: real, hist: real) {
    forall v: Source :: v != w ==> PerfBy(v, tcp, udt, hist) < PerfBy(w, tcp, udt, hist)
  }

  function Max(x: real, y: real): real {
    if x < y then y else x
  }

  lemma WinnerBeats(tcp: real, udt: real, hist: real)
    ensures StrictWinner(Tcp, tcp, udt, hist) <==> tcp > udt && tcp > hist
    ensures StrictWinner(Udt, tcp, udt, hist) <==> udt > tcp && udt > hist
    ensures StrictWinner(History, tcp, udt, hist) <==> hist > tcp && hist > udt
  {
    assert PerfBy(Tcp, tcp, udt, hist) == tcp && PerfBy(Udt, tcp, udt, hist) == udt;
    assert PerfBy(History, tcp, udt, hist) == hist;
  }

  predicate TiedForTop(tcp: real, udt: real, hist: real) {
    (tcp == udt && tcp >= hist) || (tcp == hist && tcp >= udt) || (udt == hist && udt >= tcp)
  }

  // The three tests at the end of probdata_client: exactly the strict winner is printed, and
  // nothing when the greatest value is there twice.
  method Recommend(tcp: real, udt: real, hist: real) returns (printed: seq<Source>)
    ensures forall w: Source :: printed == [w] <==> StrictWinner(w, tcp, udt, hist)
    ensures printed == [] <==> TiedForTop(tcp, udt, hist)
    ensures |printed| <= 1
  {
    printed := [];
    if udt > tcp && udt > hist {
      printed := printed + [Udt];
    }
    if tcp > udt && tcp > hist {
      printed := printed + [Tcp];
    }
    if hist > tcp && hist > udt {
      printed := printed + [History];
    }
    WinnerBeats(tcp, udt, hist);
    forall w: Source
      ensures printed == [w] <==> StrictWinner(w, tcp, udt, hist)
    {
      assert printed == [w] <==> |printed| == 1 && printed[0] == w;
      assert |printed| == 1 ==> StrictWinner(printed[0], tcp, udt, hist);
      assert w == Tcp || w == Udt || w == History;
    }
  }

  // ---------- End to end ----------

  lemma {:induction false} AfterAllConcat(best: Best, es: seq<Entry>, more: seq<Entry>)
    ensures AfterAll(best, es + more) == AfterAll(AfterAll(best, es), more)
    decreases es
  {
    if es == [] {
      assert es + more == more;
    } else {
      assert (es + more)[0] == es[0] && (es + more)[1..] == es[1..] + more;
      AfterAllConcat(After(best, es[0]), es[1..], more);
    }
  }

  // Reading on, the best performance becomes the maximum of what it was and what is read.
  lemma {:induction false} AfterAllPerf(best: Best, es: seq<Entry>, top: real)
    requires forall i :: IsRecord(es, i) ==> PerfAt(es, i) <= top
    requires exists i :: IsRecord(es, i) && PerfAt(es, i) == top
    ensures PerfOf(AfterAll(best, es)) == Max(PerfOf(best), top)
    decreases es
  {
    var next, rest := After(best, es[0]), es[1..];
    assert forall i :: IsRecord(rest, i) ==> IsRecord(es, i + 1) && PerfAt(es, i + 1) == PerfAt(rest, i);
    var k :| IsRecord(es, k) && PerfAt(es, k) == top;
    if k > 0 {
      assert IsRecord(rest, k - 1) && PerfAt(rest, k - 1) == top;
      AfterAllPerf(next, rest, top);
      assert es[0].Measured? ==> IsRecord(es, 0);
    } else {
      AfterAllBelow(next, rest, top);
    }
  }

  lemma {:induction false} AfterAllBelow(best: Best, es: seq<Entry>, top: real)
    requires forall i :: IsRecord(es, i) ==> PerfAt(es, i) <= top
    requires top <= PerfOf(best)
    ensures AfterAll(best, es) == best
    decreases es
  {
    if es != [] {
      var rest := es[1..];
      assert es[0].Measured? ==> IsRecord(es, 0) && PerfAt(es, 0) <= top;
      assert forall i :: IsRecord(rest, i) ==> IsRecord(es, i + 1) && PerfAt(es, i + 1) == PerfAt(rest, i);
      AfterAllBelow(best, rest, top);
    }
  }

  // The records of one run, read back: their greatest is the perf_Mbps of prof_max.
  lemma AddedGreatest(localIp: string, remoteIp: string, s: Tuning.State, xs: seq<Extra>)
    requires TuningTrace.Consistent(s) && s.saved.Some? && |xs| == |s.visited| <= |s.used|
    ensures var es := Added(localIp, remoteIp, s, xs);
      && (forall i :: IsRecord(es, i) ==> PerfAt(es, i) <= Rounded(s.saved.value))
      && (exists i :: IsRecord(es, i) && PerfAt(es, i) == Rounded(s.saved.value))
  {
    TuningTrace.ConsistentMeans(s);
    var es, v := Added(localIp, remoteIp, s, xs), s.visited;
    var j := |v| - 1 - s.noImp;
    assert IsRecord(es, j) && PerfAt(es, j) == Rounded(s.saved.value);
    forall i | IsRecord(es, i)
      ensures PerfAt(es, i) <= Rounded(s.saved.value)
    {
      RoundedMonotone(v[i].perfMbps, v[j].perfMbps);
    }
  }

  lemma AddedMaximum(localIp: string, remoteIp: string, s: Tuning.State, xs: seq<Extra>, best: Best)
    requires TuningTrace.Consistent(s) && s.saved.Some? && |xs| == |s.visited| <= |s.used|
    ensures PerfOf(AfterAll(best, Added(localIp, remoteIp, s, xs))) == Max(PerfOf(best), Rounded(s.saved.value))
  {
    AddedGreatest(localIp, remoteIp, s, xs);
    AfterAllPerf(best, Added(localIp, remoteIp, s, xs), Rounded(s.saved.value));
  }

  // After a session in which both profilers measured something positive, a fresh search of the
  // history file returns the greatest of the three values that the recommendation compares, to six
  // decimals; the value before the session may come from a search that found nothing, as -1.
  lemma FreshSearchAgrees(es: seq<Entry>, localIp: string, remoteIp: string,
                          t: Tuning.State, tx: seq<Extra>, u: Tuning.State, ux: seq<Extra>)
    requires TuningTrace.Consistent(t) && t.saved.Some? && |tx| == |t.visited| <= |t.used|
    requires TuningTrace.Consistent(u) && u.saved.Some? && |ux| == |u.visited| <= |u.used|
    requires forall e <- es + Added(localIp, remoteIp, t, tx) + Added(localIp, remoteIp, u, ux) :: Storable(e)
    ensures var text := Render(es + Added(localIp, remoteIp, t, tx) + Added(localIp, remoteIp, u, ux));
      var hist := PerfOf(Search(Render(es), 0, false, None).best);
      var o := Search(text, 0, false, None);
      o.found && PerfOf(o.best) == Rounded(Max(Max(t.saved.value, u.saved.value), hist))
  {
    var ts, us := Added(localIp, remoteIp, t, tx), Added(localIp, remoteIp, u, ux);
    assert es + ts + us == es + (ts + us);
    assert forall e <- es :: e in es + ts + us;
    SearchEntries(Render(es), 0, es, None);
    SearchEntries(Render(es + ts + us), 0, es + ts + us, None);
    AfterAllConcat(None, es + ts, us);
    AfterAllConcat(None, es, ts);
    var hist := AfterAll(None, es);
    AddedMaximum(localIp, remoteIp, t, tx, hist);
    AddedMaximum(localIp, remoteIp, u, ux, AfterAll(hist, ts));
    BestIsRounded(es);
    SavedIsPositive(t);
    MaxRounded(t.saved.value, u.saved.value, PerfOf(hist));
  }

  lemma SavedIsPositive(s: Tuning.State)
    requires TuningTrace.Consistent(s) && s.saved.Some?
    ensures s.saved.value > 0.0 && Rounded(s.saved.value) >= 0.0
  {
    TuningTrace.ConsistentMeans(s);
    RoundedOnce(0, false);
    RoundedMonotone(0.0, s.saved.value);
  }

  // What the search returns has been through the file.
  lemma BestIsRounded(es: seq<Entry>)
    ensures var p := PerfOf(AfterAll(None, es)); Rounded(p) == p
  {
    AfterAllMeaning(es);
    var b := AfterAll(None, es);
    if b.Some? {
      var i :| IsEarliestBest(es, i) && b.value == Stored(es[i].r);
      RoundedTwice(es[i].r.perf);
    } else {
      RoundedOnce(1000000, true);
    }
  }

  lemma RoundedTwice(x: real)
    ensures Rounded(Rounded(x)) == Rounded(x)
  {
    RoundedOnce(Millionths(x), x < 0.0);
  }

  lemma MaxRounded(x: real, y: real, hist: real)
    requires Rounded(hist) == hist
    ensures Rounded(Max(Max(x, y), hist)) == Max(Max(hist, Rounded(x)), Rounded(y))
  {
    if x <= y { RoundedMonotone(x, y); } else { RoundedMonotone(y, x); }
    if Max(x, y) <= hist { RoundedMonotone(Max(x, y), hist); } else { RoundedMonotone(hist, Max(x, y)); }
  }
}
