/** One line of the profile file: struct mem_record, its 17-field format, its printer
    and its parser.
 */
module Records {
  import opened Options
  import opened Decimals
  import opened Numbers
  import opened Scanf

  datatype Record = Record(
    srcIp: string, dstIp: string, currTime: string, protocolName: string, toolkitName: string,
    numStreams: int, mssSize: int, bufferSize: int, bufferUnit: string,
    blockSize: int, blockUnit: string, duration: int, durationUnit: string,
    transSize: int, transUnit: string, perf: real, perfUnit: string)

  // MEM_RECORD_FORMAT_LABEL
  const FORMAT: seq<Conversion> :=
    [Str, Str, Str, Str, Str, Int, Int, Int, Str, Int, Str, Int, Str, LongLong, Str, Double, Str]

  const NUM_ELEMENTS := 17

  function Fields(r: Record): seq<Value> {
    [Text(r.srcIp), Text(r.dstIp), Text(r.currTime), Text(r.protocolName), Text(r.toolkitName),
     Whole(r.numStreams), Whole(r.mssSize), Whole(r.bufferSize), Text(r.bufferUnit),
     Whole(r.blockSize), Text(r.blockUnit), Whole(r.duration), Text(r.durationUnit),
     Whole(r.transSize), Text(r.transUnit), Decimal(r.perf), Text(r.perfUnit)]
  }

  function WordOf(v: Value): string { if v.Text? then v.s else "" }
  function IntOf(v: Value): int { if v.Whole? then v.n else 0 }
  function RealOf(v: Value): real { if v.Decimal? then v.x else 0.0 }

  function FromFields(v: seq<Value>): Record
    requires |v| == NUM_ELEMENTS
  {
    Record(WordOf(v[0]), WordOf(v[1]), WordOf(v[2]), WordOf(v[3]), WordOf(v[4]),
           IntOf(v[5]), IntOf(v[6]), IntOf(v[7]), WordOf(v[8]), IntOf(v[9]), WordOf(v[10]),
           IntOf(v[11]), WordOf(v[12]), IntOf(v[13]), WordOf(v[14]), RealOf(v[15]), WordOf(v[16]))
  }

  function PrintRecord(r: Record): string {
    Print(Fields(r))
  }

  // sscanf() has to fill all 17 fields.
  function Parse(line: string): Option<Record> {
    var vs := Scan(FORMAT, line);
    if |vs| != NUM_ELEMENTS then None else Some(FromFields(vs))
  }

  predicate InInt(n: int) { INT_MIN <= n <= INT_MAX }

  // The integers are those of the C struct.
  predicate InRange(r: Record) {
    && InInt(r.numStreams) && InInt(r.mssSize) && InInt(r.bufferSize) && InInt(r.blockSize) && InInt(r.duration)
    && LONG_MIN <= r.transSize <= LONG_MAX
  }

  predicate Words(r: Record) {
    && IsWord(r.srcIp) && IsWord(r.dstIp) && IsWord(r.currTime) && IsWord(r.protocolName) && IsWord(r.toolkitName)
    && IsWord(r.bufferUnit) && IsWord(r.blockUnit) && IsWord(r.durationUnit) && IsWord(r.transUnit)
    && IsWord(r.perfUnit)
  }

  // What a printed record reads back as: printing keeps six decimals of the performance.
  function Stored(r: Record): Record {
    r.(perf := Rounded(r.perf))
  }

  lemma FieldsBack(r: Record)
    ensures FromFields(ReadBackAll(Fields(r))) == Stored(r)
  {
  }

  lemma WordsRead(r: Record, rest: string)
    requires InRange(r) && EndsWord(rest) && Words(r)
    ensures Parse(PrintRecord(r) + rest) == Some(Stored(r))
  {
    var line := PrintRecord(r) + rest;
    assert Gap(false) + line == line;
    ScanPrinted(FORMAT, Fields(r), false, rest);
    FieldsBack(r);
  }

  // Whatever the line, a parsed record's string fields are words.
  lemma ParsedWords(line: string)
    requires Parse(line).Some?
    ensures Words(Parse(line).value)
  {
    ScanYields(FORMAT, line);
    var vs := Scan(FORMAT, line);
    assert forall i :: 0 <= i < NUM_ELEMENTS && FORMAT[i].Str? ==> IsWord(WordOf(vs[i]));
  }

  // A printed line parses back to all 17 fields if and only if every string field is a word.
  lemma RoundTrip(r: Record, rest: string)
    requires InRange(r) && EndsWord(rest)
    ensures Parse(PrintRecord(r) + rest) == Some(Stored(r)) <==> Words(r)
  {
    if Words(r) {
      WordsRead(r, rest);
    } else if Parse(PrintRecord(r) + rest).Some? {
      ParsedWords(PrintRecord(r) + rest);
    }
  }

  // The char arrays of the C struct, terminators included.
  predicate InArrays(r: Record) {
    && |r.srcIp| < 32 && |r.dstIp| < 32 && |r.currTime| < 32 && |r.protocolName| < 32 && |r.toolkitName| < 32
    && |r.bufferUnit| < 8 && |r.blockUnit| < 8 && |r.durationUnit| < 8 && |r.transUnit| < 8 && |r.perfUnit| < 8
  }

  function Total(ws: seq<nat>): nat {
    if ws == [] then 0 else ws[0] + Total(ws[1..])
  }

  lemma {:induction false} PrintLength(vs: seq<Value>, ws: seq<nat>)
    requires |vs| == |ws| && vs != []
    requires forall i :: 0 <= i < |vs| ==> |Show(vs[i])| <= ws[i]
    ensures |Print(vs)| <= Total(ws) + |vs| - 1
  {
    if |vs| > 1 {
      PrintLength(vs[1..], ws[1..]);
    }
  }

  lemma IntegerLength(n: int, digits: nat)
    requires digits >= 1 && -(Pow10(digits) as int) < n < Pow10(digits)
    ensures |Show(Whole(n))| <= digits + 1
  {
    DigitsLength(if n < 0 then -n else n, digits);
  }

  lemma IntLength(n: int)
    requires InInt(n)
    ensures |Show(Whole(n))| <= 11
  {
    assert Pow10(5) == 100000;
    Pow10Sum(5, 5);
    IntegerLength(n, 10);
  }

  lemma LongLength(n: int)
    requires LONG_MIN <= n <= LONG_MAX
    ensures |Show(Whole(n))| <= 20
  {
    assert Pow10(5) == 100000 && Pow10(4) == 10000;
    Pow10Sum(5, 5);
    Pow10Sum(5, 4);
    Pow10Sum(10, 9);
    IntegerLength(n, 19);
  }

  // The largest magnitude whose line is sure to fit the read buffer
  const PERF_DIGITS := 221

  predicate PerfFits(x: real) {
    Abs(x) <= Pow10(PERF_DIGITS) as real
  }

  lemma PerfLength(x: real)
    requires PerfFits(x)
    ensures |Show(Decimal(x))| <= 230
  {
    var p := Pow10(PERF_DIGITS);
    assert Abs(x) * 1000000.0 <= p as real * 1000000.0;
    HalfEvenMonotone(Abs(x) * 1000000.0, (p * 1000000) as real);
    assert Millionths(x) / 1000000 <= p;
    Pow10Sum(PERF_DIGITS, 1);
    assert Pow10(1) == 10;
    DigitsLength(Millionths(x) / 1000000, PERF_DIGITS + 1);
  }

  const WIDTHS: seq<nat> := [31, 31, 31, 31, 31] + [11, 11, 11, 7] + [11, 7, 11, 7] + [20, 7, 230, 7]

  lemma {:induction false} TotalSum(s: seq<nat>, t: seq<nat>)
    ensures Total(s + t) == Total(s) + Total(t)
  {
    if s == [] {
      assert s + t == t;
    } else {
      assert (s + t)[1..] == s[1..] + t;
      TotalSum(s[1..], t);
    }
  }

  lemma WidthsTotal()
    ensures Total(WIDTHS) == 495
  {
    TotalSum([31, 31, 31, 31, 31] + [11, 11, 11, 7] + [11, 7, 11, 7], [20, 7, 230, 7]);
    TotalSum([31, 31, 31, 31, 31] + [11, 11, 11, 7], [11, 7, 11, 7]);
    TotalSum([31, 31, 31, 31, 31], [11, 11, 11, 7]);
  }

  lemma FieldWidth(r: Record, i: nat)
    requires InRange(r) && InArrays(r) && PerfFits(r.perf) && i < NUM_ELEMENTS
    ensures |Show(Fields(r)[i])| <= WIDTHS[i]
  {
    match Fields(r)[i]
    case Text(_) =>
    case Whole(n) => if i == 13 { LongLength(n); } else { IntLength(n); }
    case Decimal(x) => PerfLength(x);
  }

  // Every record of the C struct with |perf| <= 10^221 prints on at most 511 characters.
  lemma LineFits(r: Record)
    requires InRange(r) && InArrays(r) && PerfFits(r.perf)
    ensures |PrintRecord(r)| <= 511
  {
    forall i | 0 <= i < NUM_ELEMENTS
      ensures |Show(Fields(r)[i])| <= WIDTHS[i]
    {
      FieldWidth(r, i);
    }
    WidthsTotal();
    PrintLength(Fields(r), WIDTHS);
  }

  // ---------- The line ----------

  predicate NumbersOf(r: Record, ts: seq<string>)
    requires |ts| == NUM_ELEMENTS
  {
    && WritesInt(ts[5], r.numStreams) && WritesInt(ts[6], r.mssSize) && WritesInt(ts[7], r.bufferSize)
    && WritesInt(ts[9], r.blockSize) && WritesInt(ts[11], r.duration) && WritesInt(ts[13], r.transSize)
  }

  // The 17 texts of a record's line, in the order of the file's format
  predicate LineOf(r: Record, ts: seq<string>) {
    && |ts| == 17 && ts[0] == r.srcIp && ts[1] == r.dstIp && ts[2] == r.currTime && ts[3] == r.protocolName
    && ts[4] == r.toolkitName && ts[8] == r.bufferUnit && ts[10] == r.blockUnit && ts[12] == r.durationUnit
    && ts[14] == r.transUnit && ts[16] == r.perfUnit && NumbersOf(r, ts)
  }

  // The texts of the fields, one by one
  function Texts(r: Record): seq<string> {
    [r.srcIp, r.dstIp, r.currTime, r.protocolName, r.toolkitName,
     Show(Whole(r.numStreams)), Show(Whole(r.mssSize)), Show(Whole(r.bufferSize)), r.bufferUnit,
     Show(Whole(r.blockSize)), r.blockUnit, Show(Whole(r.duration)), r.durationUnit,
     Show(Whole(r.transSize)), r.transUnit, Show(Decimal(r.perf)), r.perfUnit]
  }

  lemma RecordText(r: Record) returns (ts: seq<string>, whole: string, fraction: string)
    ensures LineOf(r, ts) && PrintRecord(r) == Spaced(ts) && WritesDecimal(ts[15], r.perf, whole, fraction)
  {
    ts := Texts(r);
    TextsJoin(r, ts);
    TextsWrite(r, ts);
    whole, fraction := FloatText(r.perf);
  }

  lemma TextsJoin(r: Record, ts: seq<string>)
    requires ts == Texts(r)
    ensures PrintRecord(r) == Spaced(ts)
  {
    PrintJoins(Fields(r), ts);
  }

  predicate ShownAt(r: Record, ts: seq<string>)
    requires |ts| == NUM_ELEMENTS
  {
    && ts[5] == Show(Whole(r.numStreams)) && ts[6] == Show(Whole(r.mssSize)) && ts[7] == Show(Whole(r.bufferSize))
    && ts[9] == Show(Whole(r.blockSize)) && ts[11] == Show(Whole(r.duration)) && ts[13] == Show(Whole(r.transSize))
  }

  lemma TextsWrite(r: Record, ts: seq<string>)
    requires ts == Texts(r)
    ensures LineOf(r, ts)
  {
    assert ShownAt(r, ts);
    NumbersWritten(r, ts);
  }

  lemma IntAt(t: string, n: int)
    requires t == Show(Whole(n))
    ensures WritesInt(t, n)
  {
    IntText(n);
  }

  lemma NumbersWritten(r: Record, ts: seq<string>)
    requires |ts| == NUM_ELEMENTS && ShownAt(r, ts)
    ensures NumbersOf(r, ts)
  {
    IntAt(ts[5], r.numStreams);
    IntAt(ts[6], r.mssSize);
    IntAt(ts[7], r.bufferSize);
    IntAt(ts[9], r.blockSize);
    IntAt(ts[11], r.duration);
    IntAt(ts[13], r.transSize);
  }

  // ---------- Any line ----------

  // The texts and the numbers of a line: words, numerals, and one decimal numeral
  predicate Legible(ts: seq<string>, ss: seq<string>, ds: seq<string>, ns: seq<int>) {
    && |ts| == |ss| == |ds| == |ns| == 17
    && (forall i :: 0 <= i < 17 && i in {0, 1, 2, 3, 4, 8, 10, 12, 14, 16} ==> IsWord(ts[i]))
    && forall i :: 0 <= i < 17 && i in {5, 6, 7, 9, 11, 13} ==> IntegerText(ts[i], ss[i], ds[i], ns[i])
  }

  // What the i-th text is read as
  function ValueOf(i: nat, t: string, n: int, y: real): Value {
    if i == 15 then Decimal(y)
    else if i == 13 then Whole(Saturated(n))
    else if i in {5, 6, 7, 9, 11} then Whole(LowInt(Saturated(n)))
    else Text(t)
  }

  lemma FormatAt(i: nat)
    requires i < 17
    ensures FORMAT[i] == if i == 15 then Double else if i == 13 then LongLong
                         else if i in {5, 6, 7, 9, 11} then Int else Str
  {
  }

  lemma TextReads(i: nat, t: string, sign: string, d: string, n: int, y: real)
    requires i < 17 && i != 15
    requires if i in {5, 6, 7, 9, 11, 13} then IntegerText(t, sign, d, n) else IsWord(t)
    ensures Reads(FORMAT[i], t, ValueOf(i, t, n, y))
  {
    FormatAt(i);
    if i in {5, 6, 7, 9, 11, 13} {
      var r := IntegerReads(t, sign, d, n, i == 13);
    } else {
      WordReads(t);
    }
  }

  // A line of 17 such texts is a record: the words as they are, the integers as the C types keep them, and the
  // performance.
  lemma LineReads(ts: seq<string>, ss: seq<string>, ds: seq<string>, ns: seq<int>,
                  f: string, m: real, n: real, p: real, rest: string)
      returns (r: Record, x: real)
    requires Legible(ts, ss, ds, ns) && DecimalText(ts[15], ss[15], ds[15], f, m, n, p) && EndsWord(rest)
    ensures Parse(Spaced(ts) + rest) == Some(r)
    ensures r.srcIp == ts[0] && r.dstIp == ts[1] && r.currTime == ts[2] && r.protocolName == ts[3]
    ensures r.toolkitName == ts[4] && r.bufferUnit == ts[8] && r.blockUnit == ts[10] && r.durationUnit == ts[12]
    ensures r.transUnit == ts[14] && r.perfUnit == ts[16]
    ensures ReadsInt(ns[5], false, r.numStreams) && ReadsInt(ns[6], false, r.mssSize)
    ensures ReadsInt(ns[7], false, r.bufferSize) && ReadsInt(ns[9], false, r.blockSize)
    ensures ReadsInt(ns[11], false, r.duration) && ReadsInt(ns[13], true, r.transSize)
    ensures x * p == m * p + n && r.perf == if ss[15] == "-" then -x else x
  {
    x := DecimalReads(ts[15], ss[15], ds[15], f, m, n, p);
    var vs := LineScanned(ts, ss, ds, ns, if ss[15] == "-" then -x else x, rest);
    r := FromFields(vs);
    ReadsStored(ns[5], false);
    ReadsStored(ns[6], false);
    ReadsStored(ns[7], false);
    ReadsStored(ns[9], false);
    ReadsStored(ns[11], false);
    ReadsStored(ns[13], true);
  }

  lemma LineScanned(ts: seq<string>, ss: seq<string>, ds: seq<string>, ns: seq<int>, y: real, rest: string)
      returns (vs: seq<Value>)
    requires Legible(ts, ss, ds, ns) && Reads(Double, ts[15], Decimal(y)) && EndsWord(rest)
    ensures |vs| == 17 && (forall i :: 0 <= i < 17 ==> vs[i] == ValueOf(i, ts[i], ns[i], y))
    ensures Parse(Spaced(ts) + rest) == Some(FromFields(vs))
  {
    vs := seq(17, i requires 0 <= i < 17 => ValueOf(i, ts[i], ns[i], y));
    forall i | 0 <= i < 17
      ensures Reads(FORMAT[i], ts[i], vs[i])
    {
      if i != 15 {
        TextReads(i, ts[i], ss[i], ds[i], ns[i], y);
      }
    }
    AllReadFrom(FORMAT, ts, vs);
    ScanTexts(FORMAT, ts, vs, false, rest);
    assert Gap(false) + (Spaced(ts) + rest) == Spaced(ts) + rest;
  }
}
