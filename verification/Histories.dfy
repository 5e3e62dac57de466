/** The profile history: f_m2m_db_search over a file that f_*_m2m_record_add wrote. */
module Histories {
  import opened Options
  import opened Decimals
  import opened Scanf
  import opened Records
  import opened TextFiles

  // The best record so far; None is the initial record_max with average_perf = -1.0.
  type Best = Option<Record>

  function PerfOf(best: Best): real {
    if best.None? then -1.0 else best.value.perf
  }

  // The function's return value and what it leaves in record_max.
  datatype Outcome = Outcome(found: bool, best: Best)

  const LINE_SIZE := 512

  predicate Skipped(line: string) {
    line == "" || line[0] == '\n' || line[0] == '\t' || line[0] == ' ' || line[0] == '\0' || line[0] == '#'
  }

  function Better(best: Best, r: Record): Best {
    if r.perf > PerfOf(best) then Some(r) else best
  }

  function Finish(best: Best): Outcome {
    Outcome(PerfOf(best) >= 0.0, best)
  }

  // The read loop from position pos on.
  function Search(text: string, pos: nat, eof: bool, best: Best): Outcome
    requires pos <= |text|
    decreases |text| - pos, !eof
  {
    if eof then Finish(best) else
    var next, end := LineEnd(text, pos, LINE_SIZE - 1), HitsEnd(text, pos, LINE_SIZE - 1);
    var line := text[pos..next];
    if Skipped(line) then Search(text, next, end, best)
    else match Parse(line)
      case None => Outcome(false, best)
      case Some(r) => Search(text, next, end, Better(best, r))
  }

  method DbSearch(f: TextFile) returns (r: Outcome)
    requires f.Valid() && !f.eof
    modifies f`pos, f`eof
    ensures r == Search(f.text, old(f.pos), false, None)
  {
    var best: Best := None;
    while !f.eof
      invariant f.Valid()
      invariant Search(f.text, old(f.pos), false, None) == Search(f.text, f.pos, f.eof, best)
      decreases |f.text| - f.pos, !f.eof
    {
      var line := f.Gets(LINE_SIZE);
      if Skipped(line) {
        continue;
      }
      var parsed := Parse(line);
      if parsed.None? {
        return Outcome(false, best);
      }
      if parsed.value.perf > PerfOf(best) {
        best := parsed;
      }
    }
    r := Outcome(PerfOf(best) >= 0.0, best);
  }

  // What the program and a careful user put into the file, a line each.
  datatype Entry = Measured(r: Record) | Remark(text: string)

  function Line(e: Entry): string {
    match e
    case Measured(r) => PrintRecord(r)
    case Remark(t) => t
  }

  // What a reader may write into the file: a blank line, one that starts with white space, or a comment
  predicate Ignored(t: string) {
    t == "" || t[0] == '#' || t[0] == ' ' || t[0] == '\t' || t[0] == '\0'
  }

  // A record that f_*_m2m_record_add may print, or such a line
  predicate Storable(e: Entry) {
    match e
    case Measured(r) => InRange(r) && InArrays(r) && Words(r) && PerfFits(r.perf) && r.srcIp[0] != '#'
    case Remark(t) => '\n' !in t && |t| <= 511 && Ignored(t)
  }

  function Render(es: seq<Entry>): string {
    if es == [] then "" else Line(es[0]) + "\n" + Render(es[1..])
  }

  // The best after an entry has been read, and after all of them
  function After(best: Best, e: Entry): Best {
    if e.Measured? then Better(best, Stored(e.r)) else best
  }

  function AfterAll(best: Best, es: seq<Entry>): Best
    decreases es
  {
    if es == [] then best else AfterAll(After(best, es[0]), es[1..])
  }

  lemma {:induction false} PrintHasNoNewline(vs: seq<Value>)
    requires forall v <- vs :: Readable(v)
    ensures '\n' !in Print(vs)
  {
    if vs != [] {
      ShowHasNoNewline(vs[0]);
      PrintHasNoNewline(vs[1..]);
    }
  }

  lemma ShowHasNoNewline(v: Value)
    requires Readable(v)
    ensures '\n' !in Show(v)
  {
  }

  lemma RecordShape(r: Record)
    requires Words(r)
    ensures '\n' !in PrintRecord(r)
    ensures PrintRecord(r) != "" && PrintRecord(r)[0] == r.srcIp[0] && IsWordChar(r.srcIp[0])
  {
    assert forall v <- Fields(r) :: Readable(v);
    PrintHasNoNewline(Fields(r));
    assert Show(Fields(r)[0]) == r.srcIp;
    assert r.srcIp[0] in r.srcIp;
  }

  lemma LineShape(e: Entry)
    requires Storable(e)
    ensures '\n' !in Line(e) && |Line(e)| <= LINE_SIZE - 1
    ensures e.Measured? ==> Line(e) != "" && !Skipped(Line(e))
  {
    if e.Measured? {
      LineFits(e.r);
      RecordShape(e.r);
    }
  }

  lemma ReadsAs(e: Entry, end: string)
    requires Storable(e) && (end == "" || end == "\n")
    ensures Skipped(Line(e) + end) <==> e.Remark?
    ensures e.Measured? ==> Parse(Line(e) + end) == Some(Stored(e.r))
  {
    LineShape(e);
    if e.Measured? {
      WordsRead(e.r, end);
      assert (Line(e) + end)[0] == Line(e)[0];
    }
  }

  // One round of the loop that does not meet the end of the file
  lemma SearchStep(text: string, pos: nat, next: nat, line: string, best: Best)
    requires pos <= next <= |text| && line == text[pos..next]
    requires next == LineEnd(text, pos, LINE_SIZE - 1) && !HitsEnd(text, pos, LINE_SIZE - 1)
    ensures Skipped(line) ==> Search(text, pos, false, best) == Search(text, next, false, best)
    ensures !Skipped(line) && Parse(line).Some? ==>
      Search(text, pos, false, best) == Search(text, next, false, Better(best, Parse(line).value))
    ensures !Skipped(line) && Parse(line).None? ==> Search(text, pos, false, best) == Outcome(false, best)
  {
  }

  lemma SearchRead(text: string, pos: nat, next: nat, e: Entry, end: string, best: Best)
    requires Storable(e) && (end == "" || end == "\n")
    requires pos <= next <= |text| && text[pos..next] == Line(e) + end
    requires next == LineEnd(text, pos, LINE_SIZE - 1) && !HitsEnd(text, pos, LINE_SIZE - 1)
    ensures Search(text, pos, false, best) == Search(text, next, false, After(best, e))
  {
    ReadsAs(e, end);
    SearchStep(text, pos, next, Line(e) + end, best);
  }

  // The newline that a line of 511 characters leaves for the next fgets()
  lemma NewlineLeft(text: string, pos: nat, best: Best)
    requires pos < |text| && text[pos] == '\n'
    ensures Search(text, pos, false, best) == Search(text, pos + 1, false, best)
  {
  }

  // Where the first fgets() on an entry's line stops
  lemma EntryTaken(text: string, pos: nat, stop: nat, e: Entry)
    requires Storable(e) && stop == pos + |Line(e)|
    requires stop < |text| && text[pos..stop] == Line(e) && text[stop] == '\n'
    ensures LineEnd(text, pos, LINE_SIZE - 1) == if |Line(e)| < LINE_SIZE - 1 then stop + 1 else stop
    ensures !HitsEnd(text, pos, LINE_SIZE - 1)
  {
    LineShape(e);
    LineUnbroken(text, pos, Line(e));
    LineTaken(text, pos, |Line(e)|, LINE_SIZE - 1);
  }

  // The search past one entry's line, whether or not the line filled the buffer.
  lemma SearchLine(text: string, pos: nat, stop: nat, e: Entry, best: Best)
    requires Storable(e) && stop == pos + |Line(e)|
    requires stop < |text| && text[pos..stop] == Line(e) && text[stop] == '\n'
    ensures Search(text, pos, false, best) == Search(text, stop + 1, false, After(best, e))
  {
    EntryTaken(text, pos, stop, e);
    if |Line(e)| < LINE_SIZE - 1 {
      assert text[pos..stop + 1] == Line(e) + "\n";
      SearchRead(text, pos, stop + 1, e, "\n", best);
    } else {
      assert text[pos..stop] == Line(e) + "";
      SearchRead(text, pos, stop, e, "", best);
      NewlineLeft(text, stop, After(best, e));
    }
  }

  // A comment, a blank line and one that starts with white space change nothing.
  lemma RemarkIgnored(text: string, pos: nat, stop: nat, t: string, best: Best)
    requires stop == pos + |t| < |text| && text[pos..stop] == t && text[stop] == '\n'
    requires '\n' !in t && |t| <= 511 && (t == "" || t[0] == '#' || t[0] == ' ' || t[0] == '\t')
    ensures Search(text, pos, false, best) == Search(text, stop + 1, false, best)
  {
    SearchLine(text, pos, stop, Remark(t), best);
  }

  lemma LineUnbroken(text: string, pos: nat, t: string)
    requires pos + |t| <= |text| && text[pos..pos + |t|] == t && '\n' !in t
    ensures forall j :: pos <= j < pos + |t| ==> text[j] != '\n'
  {
  }

  lemma SplitAt(text: string, pos: nat, stop: nat, line: string, rest: string)
    requires pos <= |text| && text[pos..] == line + "\n" + rest && stop == pos + |line|
    ensures stop < |text| && text[pos..stop] == line && text[stop] == '\n' && text[stop + 1..] == rest
  {
  }

  lemma SearchEnd(text: string, best: Best)
    ensures Search(text, |text|, false, best) == Finish(best)
  {
  }

  // The loop reads every line of the file once, and every record once.
  lemma {:induction false} SearchEntries(text: string, pos: nat, es: seq<Entry>, best: Best)
    requires forall e <- es :: Storable(e)
    requires pos <= |text| && text[pos..] == Render(es)
    ensures Search(text, pos, false, best) == Finish(AfterAll(best, es))
    decreases es
  {
    if es == [] {
      assert pos == |text|;
      SearchEnd(text, best);
    } else {
      var stop := pos + |Line(es[0])|;
      SplitAt(text, pos, stop, Line(es[0]), Render(es[1..]));
      SearchLine(text, pos, stop, es[0], best);
      SearchEntries(text, stop + 1, es[1..], After(best, es[0]));
    }
  }

  // ---------- A last line without its newline, and one that is no record ----------

  lemma {:induction false} TailTaken(text: string, i: nat, n: nat)
    requires i <= |text| && forall j :: i <= j < |text| ==> text[j] != '\n'
    ensures LineEnd(text, i, n) == if |text| - i <= n then |text| else i + n
    ensures HitsEnd(text, i, n) <==> |text| - i < n
    decreases |text| - i
  {
    if i < |text| && n > 0 {
      TailTaken(text, i + 1, n - 1);
    }
  }

  // An entry at the end of the file counts without its newline, too.
  lemma SearchTail(text: string, pos: nat, e: Entry, best: Best)
    requires Storable(e) && pos <= |text| && text[pos..] == Line(e)
    ensures Search(text, pos, false, best) == Finish(After(best, e))
  {
    LineShape(e);
    LineUnbroken(text, pos, Line(e));
    TailTaken(text, pos, LINE_SIZE - 1);
    assert text[pos..|text|] == Line(e) + "";
    ReadsAs(e, "");
    if |Line(e)| == LINE_SIZE - 1 {
      SearchEnd(text, After(best, e));
    }
  }

  // The lines of the entries in front of some text
  function RenderTo(es: seq<Entry>, tail: string): string {
    if es == [] then tail else Line(es[0]) + "\n" + RenderTo(es[1..], tail)
  }

  lemma {:induction false} RenderedTo(es: seq<Entry>, tail: string)
    ensures RenderTo(es, tail) == Render(es) + tail
  {
    if es != [] {
      RenderedTo(es[1..], tail);
      Regrouped(Line(es[0]), Render(es[1..]), tail);
    }
  }

  lemma Regrouped(line: string, more: string, rest: string)
    ensures line + "\n" + more + rest == line + "\n" + (more + rest)
  {
  }

  lemma {:induction false} TailAfter(text: string, pos: nat, es: seq<Entry>, best: Best, e: Entry)
    requires (forall f <- es :: Storable(f)) && Storable(e)
    requires pos <= |text| && text[pos..] == RenderTo(es, Line(e))
    ensures Search(text, pos, false, best) == Finish(After(AfterAll(best, es), e))
    decreases es
  {
    if es == [] {
      SearchTail(text, pos, e, best);
    } else {
      var stop := pos + |Line(es[0])|;
      SplitAt(text, pos, stop, Line(es[0]), RenderTo(es[1..], Line(e)));
      SearchLine(text, pos, stop, es[0], best);
      TailAfter(text, stop + 1, es[1..], After(best, es[0]), e);
    }
  }

  lemma {:induction false} BadAfter(text: string, pos: nat, es: seq<Entry>, best: Best, line: string, rest: string)
    requires forall f <- es :: Storable(f)
    requires pos <= |text| && text[pos..] == RenderTo(es, line + "\n" + rest)
    requires '\n' !in line && |line| <= 510 && !Ignored(line) && Parse(line + "\n").None?
    ensures Search(text, pos, false, best) == Outcome(false, AfterAll(best, es))
    decreases es
  {
    if es == [] {
      BadLine(text, pos, pos + |line|, line, rest, best);
    } else {
      var stop := pos + |Line(es[0])|;
      SplitAt(text, pos, stop, Line(es[0]), RenderTo(es[1..], line + "\n" + rest));
      SearchLine(text, pos, stop, es[0], best);
      BadAfter(text, stop + 1, es[1..], After(best, es[0]), line, rest);
    }
  }

  lemma SearchAll(es: seq<Entry>, e: Entry, text: string)
    requires text == Render(es) + Line(e) && (forall f <- es :: Storable(f)) && Storable(e)
    ensures Search(text, 0, false, None) == Finish(AfterAll(None, es + [e]))
  {
    RenderedTo(es, Line(e));
    assert text[0..] == text;
    TailAfter(text, 0, es, None, e);
    AfterAllAppend(None, es, e);
  }

  // A line that is neither ignored nor a record ends the search without success, and what follows is not read.
  lemma MalformedStops(es: seq<Entry>, line: string, rest: string, text: string)
    requires text == Render(es) + (line + "\n" + rest) && forall e <- es :: Storable(e)
    requires '\n' !in line && |line| <= 510 && !Ignored(line) && Parse(line + "\n").None?
    ensures Search(text, 0, false, None) == Outcome(false, AfterAll(None, es))
  {
    RenderedTo(es, line + "\n" + rest);
    assert text[0..] == text;
    BadAfter(text, 0, es, None, line, rest);
  }

  lemma BadLine(text: string, pos: nat, stop: nat, line: string, rest: string, best: Best)
    requires pos <= |text| && text[pos..] == line + "\n" + rest && stop == pos + |line|
    requires '\n' !in line && |line| <= 510 && !Ignored(line) && Parse(line + "\n").None?
    ensures Search(text, pos, false, best) == Outcome(false, best)
  {
    SplitAt(text, pos, stop, line, rest);
    LineUnbroken(text, pos, line);
    LineTaken(text, pos, |line|, LINE_SIZE - 1);
    assert text[pos..stop + 1] == line + "\n";
    StopsSkip(line);
    SearchStep(text, pos, stop + 1, line + "\n", best);
  }

  lemma StopsSkip(line: string)
    requires !Ignored(line) && '\n' !in line
    ensures !Skipped(line + "\n")
  {
    assert (line + "\n")[0] == line[0] && line[0] in line;
  }

  // A line of more than 511 characters is cut there, and its rest is read as a further line: so is that of a comment.
  lemma LongLine(text: string, pos: nat, next: nat, line: string, best: Best)
    requires next == pos + 511 <= |text| && line == text[pos..next] && '\n' !in line
    ensures line[0] in {'#', ' ', '\t'} ==> Search(text, pos, false, best) == Search(text, next, false, best)
    ensures line[0] !in {'#', ' ', '\t', '\0'} && Parse(line).Some? ==> var r := Parse(line).value;
      Search(text, pos, false, best) == Search(text, next, false, if r.perf > PerfOf(best) then Some(r) else best)
  {
    LineUnbroken(text, pos, line);
    RoomFilled(text, pos, LINE_SIZE - 1);
    SearchStep(text, pos, next, line, best);
  }

  // The characters that are no white space
  function Inked(s: string): nat {
    if s == "" then 0 else (if IsSpace(s[0]) then 0 else 1) + Inked(s[1..])
  }

  lemma {:induction false} InkedDrop(s: string, n: nat)
    requires n <= |s|
    ensures Inked(s) >= Inked(s[n..]) && (n > 0 && !IsSpace(s[0]) ==> Inked(s) > Inked(s[n..]))
  {
    if n > 0 {
      InkedDrop(s[1..], n - 1);
      assert s[1..][n - 1..] == s[n..];
    }
  }

  // Every conversion takes one of them at least.
  lemma ScanOneInks(c: Conversion, s: string)
    ensures var r := ScanOne(c, s); r.Some? ==> Inked(r.value.1) < Inked(s)
  {
    var n := Span(Blank, s);
    var t := s[n..];
    InkedDrop(s, n);
    match c
    case Str => InkedDrop(t, Span(Word, t));
    case Int => WholeInks(t, false);
    case LongLong => WholeInks(t, true);
    case Double => DoubleInks(t);
  }

  lemma UnsignedInks(t: string)
    ensures Inked(Unsigned(t)) <= Inked(t)
  {
    if t != "" {
      InkedDrop(t, 1);
    }
  }

  lemma WholeInks(t: string, long: bool)
    ensures var r := ScanWhole(t, long); r.Some? ==> Inked(r.value.1) < Inked(t)
  {
    var u := Unsigned(t);
    UnsignedInks(t);
    InkedDrop(u, Span(Numeral, u));
  }

  lemma DoubleInks(t: string)
    ensures var r := ScanDouble(t); r.Some? ==> Inked(r.value.1) < Inked(t)
  {
    var u := Unsigned(t);
    UnsignedInks(t);
    FractionInks(u);
  }

  lemma FractionInks(u: string)
    ensures var r := ScanFraction(u); r.Some? ==> Inked(r.value.2) < Inked(u)
  {
    var n := Span(Numeral, u);
    InkedDrop(u, n);
    if n < |u| && u[n] == '.' {
      var f := u[n + 1..];
      assert u[n..][1..] == f;
      InkedDrop(u[n..], 1);
      InkedDrop(f, Span(Numeral, f));
    }
  }

  lemma {:induction false} ScanInks(format: seq<Conversion>, s: string)
    ensures |Scan(format, s)| <= Inked(s)
    decreases |format|
  {
    if format != [] {
      ScanOneInks(format[0], s);
      var r := ScanOne(format[0], s);
      if r.Some? {
        ScanInks(format[1..], r.value.1);
      }
    }
  }

  // So a line with fewer than 17 of them is no record.
  lemma ShortLine(line: string)
    requires Inked(line) < 17
    ensures Parse(line).None?
  {
    ScanInks(FORMAT, line);
  }

  // ---------- What the answer means ----------

  predicate IsRecord(es: seq<Entry>, i: int) {
    0 <= i < |es| && es[i].Measured?
  }

  // The perf a stored record is read back with
  function PerfAt(es: seq<Entry>, i: int): real
    requires IsRecord(es, i)
  {
    Rounded(es[i].r.perf)
  }

  // Record i is the earliest of those with the greatest performance.
  ghost predicate IsEarliestBest(es: seq<Entry>, i: int) {
    && IsRecord(es, i)
    && (forall j :: IsRecord(es, j) ==> PerfAt(es, j) <= PerfAt(es, i))
    && (forall j :: IsRecord(es, j) && j < i ==> PerfAt(es, j) < PerfAt(es, i))
  }

  lemma {:induction false} AfterAllAppend(best: Best, es: seq<Entry>, e: Entry)
    ensures AfterAll(best, es + [e]) == After(AfterAll(best, es), e)
    decreases es
  {
    if es != [] {
      assert (es + [e])[0] == es[0] && (es + [e])[1..] == es[1..] + [e];
      AfterAllAppend(After(best, es[0]), es[1..], e);
    } else {
      assert es + [e] == [e];
    }
  }

  // The running maximum is None while no perf exceeds -1, and then the earliest best record.
  lemma {:induction false} AfterAllMeaning(es: seq<Entry>)
    ensures var b := AfterAll(None, es);
      if b.None? then forall i :: IsRecord(es, i) ==> PerfAt(es, i) <= -1.0
      else b.value.perf > -1.0 && exists i :: IsEarliestBest(es, i) && b.value == Stored(es[i].r)
    decreases es
  {
    if es != [] {
      var n := |es| - 1;
      var most, e := es[..n], es[n];
      assert es == most + [e];
      AfterAllMeaning(most);
      AfterAllAppend(None, most, e);
      var b := AfterAll(None, most);
      assert forall i :: IsRecord(most, i) ==> IsRecord(es, i) && PerfAt(es, i) == PerfAt(most, i);
      assert forall i :: IsRecord(es, i) && i < n ==> IsRecord(most, i);
      if e.Measured? && PerfAt(es, n) > PerfOf(b) {
        assert IsEarliestBest(es, n);
      } else if b.Some? {
        var i :| IsEarliestBest(most, i) && b.value == Stored(most[i].r);
        assert IsEarliestBest(es, i);
      }
    }
  }

  // On a file of printed records and skipped lines the search succeeds exactly when some perf is
  // >= 0, and then its answer is the earliest record of greatest perf.
  lemma SearchFindsBest(es: seq<Entry>)
    requires forall e <- es :: Storable(e)
    ensures var o := Search(Render(es), 0, false, None);
      && (o.found <==> exists i :: IsRecord(es, i) && PerfAt(es, i) >= 0.0)
      && (o.found ==> o.best.Some? && exists i :: IsEarliestBest(es, i) && o.best.value == Stored(es[i].r))
  {
    SearchEntries(Render(es), 0, es, None);
    AfterAllMeaning(es);
    var b := AfterAll(None, es);
    if b.Some? {
      var i :| IsEarliestBest(es, i) && b.value == Stored(es[i].r);
      assert PerfAt(es, i) == b.value.perf;
    }
  }

  lemma {:induction false} RenderAppend(es: seq<Entry>, more: seq<Entry>)
    ensures Render(es + more) == Render(es) + Render(more)
  {
    if es == [] {
      assert es + more == more;
    } else {
      assert (es + more)[0] == es[0] && (es + more)[1..] == es[1..] + more;
      RenderAppend(es[1..], more);
      assert Line(es[0]) + "\n" + (Render(es[1..]) + Render(more)) ==
             Line(es[0]) + "\n" + Render(es[1..]) + Render(more);
    }
  }

  // What f_*_m2m_record_add does to the file: the answer becomes a running maximum.
  method RecordAdd(f: TextFile, r: Record, ghost es: seq<Entry>)
    requires f.Valid() && f.text == Render(es) && forall e <- es :: Storable(e)
    requires Storable(Measured(r))
    modifies f`text
    ensures f.Valid() && f.text == Render(es + [Measured(r)])
    ensures Search(f.text, 0, false, None) == Finish(Better(AfterAll(None, es), Stored(r)))
  {
    f.Append(PrintRecord(r));
    f.Append("\n");
    RenderAppend(es, [Measured(r)]);
    assert Render([Measured(r)]) == PrintRecord(r) + "\n" + Render([]);
    assert Render(es) + PrintRecord(r) + "\n" == Render(es) + (PrintRecord(r) + "\n" + "");
    SearchEntries(f.text, 0, es + [Measured(r)], None);
    AfterAllAppend(None, es, Measured(r));
  }
}
