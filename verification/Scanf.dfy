/** The part of printf and sscanf that the profile file goes through:
    %s, %d, %lld and %lf separated by single spaces.
 */
module Scanf {
  import opened Options
  import opened Decimals
  import opened Numbers

  // isspace() in the "C" locale
  predicate IsSpace(c: char) {
    c == ' ' || c == '\t' || c == '\n' || c == '\r' || c == '\U{000B}' || c == '\U{000C}'
  }

  // What "%s" takes: a C string ends at the first NUL.
  predicate IsWordChar(c: char) {
    !IsSpace(c) && c != '\0'
  }

  predicate IsWord(s: string) {
    s != "" && forall c <- s :: IsWordChar(c)
  }

  // Nothing that a conversion could still take stands at the front.
  predicate EndsWord(s: string) {
    s == "" || !IsWordChar(s[0])
  }

  datatype Class = Blank | Word | Numeral

  predicate Of(k: Class, c: char) {
    match k
    case Blank => IsSpace(c)
    case Word => IsWordChar(c)
    case Numeral => IsDigit(c)
  }

  // The length of the longest prefix within class `k`.
  function Span(k: Class, s: string): (n: nat)
    ensures n <= |s|
    ensures forall i :: 0 <= i < n ==> Of(k, s[i])
    ensures n < |s| ==> !Of(k, s[n])
  {
    if s == "" || !Of(k, s[0]) then 0 else 1 + Span(k, s[1..])
  }

  lemma {:induction false} SpanIs(k: Class, t: string, rest: string)
    requires forall c <- t :: Of(k, c)
    requires rest == "" || !Of(k, rest[0])
    ensures Span(k, t + rest) == |t|
  {
    if t != "" {
      assert (t + rest)[1..] == t[1..] + rest;
      SpanIs(k, t[1..], rest);
    } else {
      assert t + rest == rest;
    }
  }

  datatype Conversion = Str | Int | LongLong | Double
  datatype Value = Text(s: string) | Whole(n: int) | Decimal(x: real)

  // strtoll() saturates; a "%d" result is then stored as its low 32 bits.
  function Saturated(n: int): int {
    if n < LONG_MIN then LONG_MIN else if n > LONG_MAX then LONG_MAX else n
  }

  function LowInt(n: int): (r: int)
    ensures INT_MIN <= r <= INT_MAX && (INT_MIN <= n <= INT_MAX ==> r == n)
  {
    var m := n % 0x1_0000_0000;
    if m > INT_MAX then m - 0x1_0000_0000 else m
  }

  predicate IsSign(c: char) {
    c == '+' || c == '-'
  }

  // One conversion on the text after white space: the value and the unread text.
  function ScanWord(t: string): Option<(Value, string)> {
    var n := Span(Word, t);
    if n == 0 then None else Some((Text(t[..n]), t[n..]))
  }

  // An optional sign in front of a number
  function Unsigned(t: string): string {
    if t != "" && IsSign(t[0]) then t[1..] else t
  }

  predicate Negative(t: string) {
    t != "" && t[0] == '-'
  }

  function ScanNatural(u: string): Option<(nat, string)> {
    var n := Span(Numeral, u);
    if n == 0 then None else Some((Denoted(u[..n]), u[n..]))
  }

  // The digits before and after the point
  function ScanFraction(u: string): (r: Option<(string, string, string)>)
    ensures r.Some? ==> AllDigits(r.value.0) && AllDigits(r.value.1)
  {
    var n := Span(Numeral, u);
    var point := n < |u| && u[n] == '.';
    var f := if point then u[n + 1..] else "";
    var k := Span(Numeral, f);
    if n + k == 0 then None else Some((u[..n], f[..k], if point then f[k..] else u[n..]))
  }

  function Joined(whole: string, fraction: string): real
    requires AllDigits(whole) && AllDigits(fraction)
  {
    Denoted(whole) as real + Denoted(fraction) as real / Pow10(|fraction|) as real
  }

  function ScanWhole(t: string, long: bool): Option<(Value, string)> {
    match ScanNatural(Unsigned(t))
    case None => None
    case Some((m, rest)) =>
      var v := Saturated(if Negative(t) then -(m as int) else m);
      Some((Whole(if long then v else LowInt(v)), rest))
  }

  function ScanDouble(t: string): Option<(Value, string)> {
    match ScanFraction(Unsigned(t))
    case None => None
    case Some((d, f, rest)) => Some((Decimal(if Negative(t) then -Joined(d, f) else Joined(d, f)), rest))
  }

  function ScanOne(c: Conversion, s: string): Option<(Value, string)> {
    var t := s[Span(Blank, s)..];
    match c
    case Str => ScanWord(t)
    case Int => ScanWhole(t, false)
    case LongLong => ScanWhole(t, true)
    case Double => ScanDouble(t)
  }

  // sscanf(): the values of the conversions up to the first that fails.
  function Scan(format: seq<Conversion>, s: string): (vs: seq<Value>)
    ensures |vs| <= |format|
    decreases |format|, |s|
  {
    if format == [] then []
    else match ScanOne(format[0], s)
      case None => []
      case Some((v, rest)) => [v] + Scan(format[1..], rest)
  }

  function Minus(negative: bool): string {
    if negative then "-" else ""
  }

  function Show(v: Value): string {
    match v
    case Text(s) => s
    case Whole(n) => Minus(n < 0) + Digits(if n < 0 then -n else n)
    case Decimal(x) => Minus(x < 0.0) + Fixed(Millionths(x))
  }

  // "%lf" of a number of millionths
  function Fixed(n: nat): string {
    Pow10Six();
    Digits(n / 1000000) + "." + Padded(n % 1000000, 6)
  }

  lemma Pow10Six()
    ensures Pow10(6) == 1000000
  {
  }

  // printf() with single spaces between the conversions
  function Print(vs: seq<Value>): string {
    if vs == [] then "" else if |vs| == 1 then Show(vs[0]) else Show(vs[0]) + " " + Print(vs[1..])
  }

  // The values that fit a conversion of the C program.
  predicate Fits(c: Conversion, v: Value) {
    match c
    case Str => v.Text?
    case Int => v.Whole? && INT_MIN <= v.n <= INT_MAX
    case LongLong => v.Whole? && LONG_MIN <= v.n <= LONG_MAX
    case Double => v.Decimal?
  }

  predicate Readable(v: Value) {
    v.Text? ==> IsWord(v.s)
  }

  function ReadBack(v: Value): Value {
    if v.Decimal? then Decimal(Rounded(v.x)) else v
  }

  // Reading the digits in front of `rest`
  lemma DigitsSpan(d: string, rest: string)
    requires AllDigits(d)
    requires rest == "" || !IsDigit(rest[0])
    ensures Span(Numeral, d + rest) == |d| && (d + rest)[..|d|] == d && (d + rest)[|d|..] == rest
  {
  }

  lemma SignSplit(negative: bool, u: string)
    requires u != "" && IsDigit(u[0])
    ensures Unsigned(Minus(negative) + u) == u
    ensures Negative(Minus(negative) + u) == negative
  {
  }

  lemma NaturalScanned(d: string, rest: string)
    requires d != "" && AllDigits(d) && EndsWord(rest)
    ensures IsDigit((d + rest)[0])
    ensures ScanNatural(d + rest) == Some((Denoted(d), rest))
  {
    assert d[0] in d;
    DigitsSpan(d, rest);
  }

  // Regrouping of concatenations
  lemma Regroup4(a: string, b: string, c: string, d: string)
    ensures a + b + c + d == a + (b + (c + d))
  {
  }

  lemma Regroup3(a: string, b: string, c: string)
    ensures a + b + c == a + (b + c)
  {
  }

  lemma WholeScanned(negative: bool, d: string, long: bool, rest: string)
    requires d != "" && AllDigits(d) && EndsWord(rest)
    ensures var n := Saturated(if negative then -(Denoted(d) as int) else Denoted(d));
      ScanWhole(Minus(negative) + (d + rest), long) == Some((Whole(if long then n else LowInt(n)), rest))
  {
    NaturalScanned(d, rest);
    SignSplit(negative, d + rest);
  }

  // A value of the C type is neither saturated nor cut.
  lemma WholeKept(n: int, long: bool)
    requires if long then LONG_MIN <= n <= LONG_MAX else INT_MIN <= n <= INT_MAX
    ensures (if long then Saturated(n) else LowInt(Saturated(n))) == n
  {
  }

  lemma ShowWhole(n: int, long: bool, rest: string)
    requires if long then LONG_MIN <= n <= LONG_MAX else INT_MIN <= n <= INT_MAX
    requires EndsWord(rest)
    ensures ScanWhole(Show(Whole(n)) + rest, long) == Some((Whole(n), rest))
  {
    var m: nat := if n < 0 then -n else n;
    DigitsDenote(m);
    ShowIs(n, m);
    ShowDigits(n, Digits(m), long, rest);
  }

  lemma ShowIs(n: int, m: nat)
    requires m == if n < 0 then -n else n
    ensures Show(Whole(n)) == Minus(n < 0) + Digits(m)
  {
  }

  lemma ShowDigits(n: int, d: string, long: bool, rest: string)
    requires if long then LONG_MIN <= n <= LONG_MAX else INT_MIN <= n <= INT_MAX
    requires EndsWord(rest) && d != "" && AllDigits(d) && Denoted(d) == if n < 0 then -n else n
    ensures ScanWhole(Minus(n < 0) + d + rest, long) == Some((Whole(n), rest))
  {
    WholeKept(n, long);
    WholeScanned(n < 0, d, long, rest);
    Regroup3(Minus(n < 0), d, rest);
  }

  lemma PointScanned(d: string, f: string, rest: string)
    requires d != "" && AllDigits(d) && AllDigits(f) && EndsWord(rest)
    ensures var u := d + ("." + (f + rest)); IsDigit(u[0]) && ScanFraction(u) == Some((d, f, rest))
  {
    assert d[0] in d;
    var tail := "." + (f + rest);
    DigitsSpan(d, tail);
    assert (d + tail)[|d|] == '.' && (d + tail)[|d| + 1..] == f + rest;
    DigitsSpan(f, rest);
  }

  lemma FractionScanned(d: string, f: string, rest: string)
    requires d != "" && AllDigits(d) && AllDigits(f) && EndsWord(rest)
    ensures var u := d + "." + f + rest; IsDigit(u[0]) && ScanFraction(u) == Some((d, f, rest))
  {
    PointScanned(d, f, rest);
    Regroup4(d, ".", f, rest);
  }

  lemma DoubleScanned(negative: bool, t: string, d: string, f: string, rest: string)
    requires var u := t + rest; u != "" && IsDigit(u[0]) && ScanFraction(u) == Some((d, f, rest))
    ensures ScanDouble(Minus(negative) + t + rest) ==
            Some((Decimal(if negative then -Joined(d, f) else Joined(d, f)), rest))
  {
    SignSplit(negative, t + rest);
    Regroup3(Minus(negative), t, rest);
  }

  // The two digit strings of a printed number of millionths
  lemma FixedParts(m: nat, rest: string) returns (d: string, f: string)
    requires EndsWord(rest)
    ensures var u := Fixed(m) + rest; u != "" && IsDigit(u[0]) && ScanFraction(u) == Some((d, f, rest))
    ensures AllDigits(d) && AllDigits(f) && Joined(d, f) == m as real / 1000000.0
  {
    d, f := FixedValue(m);
    FractionScanned(d, f, rest);
  }

  lemma FixedValue(m: nat) returns (d: string, f: string)
    ensures d != "" && AllDigits(d) && AllDigits(f)
    ensures Fixed(m) == d + "." + f && Joined(d, f) == m as real / 1000000.0
  {
    Pow10Six();
    d, f := Digits(m / 1000000), Padded(m % 1000000, 6);
    DigitsDenote(m / 1000000);
    PaddedDenotes(m % 1000000, 6);
    JoinedValue(d, f, m);
  }

  lemma JoinedValue(d: string, f: string, m: nat)
    requires AllDigits(d) && AllDigits(f) && |f| == 6
    requires Denoted(d) == m / 1000000 && Denoted(f) == m % 1000000
    ensures Joined(d, f) == m as real / 1000000.0
  {
  }

  lemma ShowDouble(x: real, rest: string)
    requires EndsWord(rest)
    ensures ScanDouble(Show(Decimal(x)) + rest) == Some((Decimal(Rounded(x)), rest))
  {
    var m := Millionths(x);
    var d, f := FixedParts(m, rest);
    DoubleScanned(x < 0.0, Fixed(m), d, f, rest);
    assert Rounded(x) == if x < 0.0 then -Joined(d, f) else Joined(d, f);
    assert Show(Decimal(x)) == Minus(x < 0.0) + Fixed(m);
  }

  // No printed value starts with white space.
  lemma ShowStarts(c: Conversion, v: Value)
    requires Fits(c, v) && Readable(v)
    ensures Show(v) != "" && IsWordChar(Show(v)[0])
  {
    match v
    case Text(s) => assert s[0] in s;
    case Whole(n) =>
      var d := Digits(if n < 0 then -n else n);
      assert d[0] in d;
    case Decimal(x) =>
      var d := Digits(Millionths(x) / 1000000);
      assert d[0] in d;
  }

  // The space in front of every value but the first
  function Gap(inner: bool): string {
    if inner then " " else ""
  }

  lemma GapSkipped(inner: bool, t: string)
    requires t != "" && !IsSpace(t[0])
    ensures var s := Gap(inner) + t; s[Span(Blank, s)..] == t
  {
  }

  // One printed value, wherever it stands in the line.
  lemma ReadShown(c: Conversion, v: Value, inner: bool, rest: string)
    requires Fits(c, v) && Readable(v) && EndsWord(rest)
    ensures ScanOne(c, Gap(inner) + (Show(v) + rest)) == Some((ReadBack(v), rest))
  {
    ShowStarts(c, v);
    var t := Show(v) + rest;
    GapSkipped(inner, t);
    match c
    case Str =>
      SpanIs(Word, v.s, rest);
      assert t[..|v.s|] == v.s && t[|v.s|..] == rest;
    case Int => ShowWhole(v.n, false, rest);
    case LongLong => ShowWhole(v.n, true, rest);
    case Double => ShowDouble(v.x, rest);
  }

  function ReadBackAll(vs: seq<Value>): (r: seq<Value>)
    ensures |r| == |vs|
    ensures forall i :: 0 <= i < |vs| ==> r[i] == ReadBack(vs[i])
  {
    if vs == [] then [] else [ReadBack(vs[0])] + ReadBackAll(vs[1..])
  }

  function Spaced(ts: seq<string>): string {
    if ts == [] then "" else if |ts| == 1 then ts[0] else ts[0] + " " + Spaced(ts[1..])
  }

  lemma {:induction false} PrintJoins(vs: seq<Value>, ts: seq<string>)
    requires |vs| == |ts| && forall i :: 0 <= i < |vs| ==> ts[i] == Show(vs[i])
    ensures Print(vs) == Spaced(ts)
  {
    if |vs| > 1 {
      PrintJoins(vs[1..], ts[1..]);
    }
  }

  lemma SpacedSplit(ts: seq<string>, inner: bool, rest: string)
    requires |ts| > 1
    ensures Gap(inner) + (Spaced(ts) + rest) == Gap(inner) + (ts[0] + (Gap(true) + (Spaced(ts[1..]) + rest)))
  {
    var a, b := ts[0], Spaced(ts[1..]);
    Regroup4(a, " ", b, rest);
  }

  lemma ScanCons(format: seq<Conversion>, s: string, v: Value, tail: string)
    requires format != [] && ScanOne(format[0], s) == Some((v, tail))
    ensures Scan(format, s) == [v] + Scan(format[1..], tail)
  {
  }

  // The conversion takes the text, wherever it stands in a line, and yields the value.
  ghost predicate Reads(c: Conversion, t: string, v: Value) {
    forall inner: bool, rest: string | EndsWord(rest) :: ScanOne(c, Gap(inner) + (t + rest)) == Some((v, rest))
  }

  ghost predicate AllRead(format: seq<Conversion>, ts: seq<string>, vs: seq<Value>) {
    && |format| == |ts| == |vs|
    && (format == [] || (Reads(format[0], ts[0], vs[0]) && AllRead(format[1..], ts[1..], vs[1..])))
  }

  lemma ReadsOnce(c: Conversion, t: string, v: Value, inner: bool, rest: string)
    requires Reads(c, t, v) && EndsWord(rest)
    ensures ScanOne(c, Gap(inner) + (t + rest)) == Some((v, rest))
  {
  }

  // A line of such texts is read text by text.
  lemma {:induction false} ScanTexts(format: seq<Conversion>, ts: seq<string>, vs: seq<Value>,
                                     inner: bool, rest: string)
    requires AllRead(format, ts, vs) && EndsWord(rest)
    ensures Scan(format, Gap(inner) + (Spaced(ts) + rest)) == vs
  {
    if |ts| > 0 {
      var tail := if |ts| == 1 then rest else Gap(true) + (Spaced(ts[1..]) + rest);
      if |ts| > 1 {
        SpacedSplit(ts, inner, rest);
        ScanTexts(format[1..], ts[1..], vs[1..], true, rest);
      }
      ReadsOnce(format[0], ts[0], vs[0], inner, tail);
      ScanCons(format, Gap(inner) + (ts[0] + tail), vs[0], tail);
    }
  }

  lemma ShownReads(c: Conversion, v: Value)
    requires Fits(c, v) && Readable(v)
    ensures Reads(c, Show(v), ReadBack(v))
  {
    forall inner: bool, rest: string | EndsWord(rest)
      ensures ScanOne(c, Gap(inner) + (Show(v) + rest)) == Some((ReadBack(v), rest))
    {
      ReadShown(c, v, inner, rest);
    }
  }

  function Shows(vs: seq<Value>): (ts: seq<string>)
    ensures |ts| == |vs|
  {
    if vs == [] then [] else [Show(vs[0])] + Shows(vs[1..])
  }

  lemma {:induction false} AllShown(format: seq<Conversion>, vs: seq<Value>)
    requires |format| == |vs| && forall i :: 0 <= i < |vs| ==> Fits(format[i], vs[i]) && Readable(vs[i])
    ensures AllRead(format, Shows(vs), ReadBackAll(vs)) && Spaced(Shows(vs)) == Print(vs)
  {
    if vs != [] {
      ShownReads(format[0], vs[0]);
      AllShown(format[1..], vs[1..]);
    }
  }

  // Reading a printed line gives every value back, reals up to the six printed decimals.
  lemma ScanPrinted(format: seq<Conversion>, vs: seq<Value>, inner: bool, rest: string)
    requires |format| == |vs| && EndsWord(rest)
    requires forall i :: 0 <= i < |vs| ==> Fits(format[i], vs[i]) && Readable(vs[i])
    ensures Scan(format, Gap(inner) + (Print(vs) + rest)) == ReadBackAll(vs)
  {
    AllShown(format, vs);
    ScanTexts(format, Shows(vs), ReadBackAll(vs), inner, rest);
  }

  predicate Yields(c: Conversion, v: Value) {
    Readable(v) && (c.Str? <==> v.Text?) && (c.Double? <==> v.Decimal?)
  }

  lemma ScanOneYields(c: Conversion, s: string)
    requires ScanOne(c, s).Some?
    ensures Yields(c, ScanOne(c, s).value.0)
  {
  }

  // "%s" never yields anything but a word, and the numeric conversions never a text.
  lemma {:induction false} ScanYields(format: seq<Conversion>, s: string)
    ensures forall i :: 0 <= i < |Scan(format, s)| ==> Yields(format[i], Scan(format, s)[i])
  {
    if format != [] && ScanOne(format[0], s).Some? {
      var (v, rest) := ScanOne(format[0], s).value;
      ScanOneYields(format[0], s);
      ScanYields(format[1..], rest);
      ScanCons(format, s, v, rest);
    }
  }

  // ---------- The text of a value ----------

  // The decimal numeral of an integer
  predicate WritesInt(s: string, n: int) {
    if n < 0 then s != "" && s[0] == '-' && WritesNat(s[1..], -n) else WritesNat(s, n)
  }

  predicate WritesNat(s: string, n: nat) {
    s != "" && AllDigits(s) && Denoted(s) == n && (s[0] == '0' ==> s == "0")
  }

  // A sign if the number is negative, a numeral, the point, and six digits; together the number in millionths
  predicate WritesDecimal(s: string, x: real, whole: string, fraction: string) {
    && s == (if x < 0.0 then "-" else "") + whole + "." + fraction
    && AllDigits(whole) && AllDigits(fraction) && |fraction| == 6 && whole != "" && (whole[0] == '0' ==> whole == "0")
    && var n := 1000000 * Denoted(whole) + Denoted(fraction);
       && Abs(x) * 1000000.0 - 0.5 <= n as real <= Abs(x) * 1000000.0 + 0.5
       && (n as real - Abs(x) * 1000000.0 == 0.5 || n as real - Abs(x) * 1000000.0 == -0.5 ==> n % 2 == 0)
  }

  lemma IntText(n: int)
    ensures WritesInt(Show(Whole(n)), n)
  {
    var m: nat := if n < 0 then -n else n;
    DigitsDenote(m);
    DigitsLead(m);
    if n < 0 {
      assert ("-" + Digits(m))[1..] == Digits(m);
    } else {
      assert "" + Digits(m) == Digits(m);
    }
  }

  lemma FloatText(x: real) returns (whole: string, fraction: string)
    ensures WritesDecimal(Show(Decimal(x)), x, whole, fraction)
  {
    whole, fraction := FixedText(Millionths(x));
    RoundedNear(x);
    Regroup4(Minus(x < 0.0), whole, ".", fraction);
    Regroup3(whole, ".", fraction);
  }

  lemma FixedText(n: nat) returns (whole: string, fraction: string)
    ensures Fixed(n) == whole + "." + fraction && AllDigits(whole) && AllDigits(fraction) && |fraction| == 6
    ensures whole != "" && (whole[0] == '0' ==> whole == "0") && 1000000 * Denoted(whole) + Denoted(fraction) == n
  {
    Pow10Six();
    whole, fraction := Digits(n / 1000000), Padded(n % 1000000, 6);
    DigitsDenote(n / 1000000);
    DigitsLead(n / 1000000);
    PaddedDenotes(n % 1000000, 6);
  }

  // ---------- The value of a text ----------

  // An integer that does not fit 64 bits is the nearest one that does; "%d" keeps the low 32 bits of that.
  predicate ReadsInt(n: int, long: bool, r: int) {
    var m := if n > 9223372036854775807 then 9223372036854775807
             else if n < -9223372036854775808 then -9223372036854775808 else n;
    if long then r == m else -2147483648 <= r <= 2147483647 && (r - m) % 4294967296 == 0
  }

  lemma LowIntPlain(n: int)
    ensures (LowInt(n) - n) % 4294967296 == 0
  {
    var m := n % 4294967296;
    assert n == 4294967296 * (n / 4294967296) + m;
    assert LowInt(n) - n == 4294967296 * (-(n / 4294967296) + if m > INT_MAX then -1 else 0);
    Multiple(-(n / 4294967296) + if m > INT_MAX then -1 else 0);
  }

  lemma Multiple(k: int)
    ensures 4294967296 * k % 4294967296 == 0
  {
  }

  lemma ReadsStored(n: int, long: bool)
    ensures ReadsInt(n, long, if long then Saturated(n) else LowInt(Saturated(n)))
  {
    LowIntPlain(Saturated(n));
  }

  lemma WholeSigned(sign: string, u: string, m: nat, long: bool, rest: string, n: int)
    requires sign in {"", "-", "+"} && u != "" && IsDigit(u[0]) && ScanNatural(u) == Some((m, rest))
    requires n == if sign == "-" then -(m as int) else m
    ensures ScanWhole(sign + u, long) == Some((Whole(if long then Saturated(n) else LowInt(Saturated(n))), rest))
  {
    SignedText(sign, u);
  }

  lemma SignedText(sign: string, u: string)
    requires sign in {"", "-", "+"} && (u == "" || !IsSign(u[0]))
    ensures Unsigned(sign + u) == u && (Negative(sign + u) <==> sign == "-")
  {
    if sign == "" {
      assert sign + u == u;
    } else {
      assert (sign + u)[1..] == u;
    }
  }

  lemma DoubleAt(sign: string, u: string, d: string, f: string, rest: string, x: real)
    requires sign in {"", "-", "+"} && (u == "" || !IsSign(u[0])) && ScanFraction(u) == Some((d, f, rest))
    requires AllDigits(d) && AllDigits(f) && x == Joined(d, f)
    ensures ScanDouble(sign + u) == Some((Decimal(if sign == "-" then -x else x), rest))
  {
    SignedText(sign, u);
  }

  lemma EndsNumber(rest: string)
    requires EndsWord(rest)
    ensures rest == "" || !IsDigit(rest[0])
  {
  }

  lemma PointSplit(d: string, f: string, rest: string)
    requires AllDigits(d) && AllDigits(f) && d + f != "" && EndsWord(rest)
    ensures var u := d + ("." + (f + rest)); u != "" && !IsSign(u[0]) && ScanFraction(u) == Some((d, f, rest))
  {
    if d == "" {
      PointFirst(f, rest);
      assert d + ("." + (f + rest)) == "." + (f + rest);
    } else {
      PointScanned(d, f, rest);
    }
  }

  lemma PointFirst(f: string, rest: string)
    requires AllDigits(f) && f != "" && EndsWord(rest)
    ensures ScanFraction("." + (f + rest)) == Some(("", f, rest))
  {
    var u := "." + (f + rest);
    EndsNumber(rest);
    assert u[1..] == f + rest && Span(Numeral, u) == 0;
    DigitsSpan(f, rest);
  }

  lemma SumPlain(m: real, n: real, p: real, x: real)
    requires p != 0.0 && x == m + n / p
    ensures x * p == m * p + n
  {
    var q := n / p;
    assert q * p == n;
    assert (m + q) * p == m * p + q * p;
  }

  lemma JoinedWhole(d: string, x: real)
    requires AllDigits(d) && x == Denoted(d) as real
    ensures Joined(d, "") == x
  {
  }

  // Without a point
  lemma WholeDouble(sign: string, d: string, rest: string, u: string, x: real)
    requires sign in {"", "-", "+"} && AllDigits(d) && d != "" && EndsWord(rest) && u == d + rest
    requires x == Denoted(d) as real
    ensures ScanDouble(sign + u) == Some((Decimal(if sign == "-" then -x else x), rest))
  {
    NoPoint(d, rest);
    JoinedWhole(d, x);
    DoubleAt(sign, u, d, "", rest, x);
  }

  lemma NoPoint(d: string, rest: string)
    requires AllDigits(d) && d != "" && EndsWord(rest)
    ensures var u := d + rest; !IsSign(u[0]) && ScanFraction(u) == Some((d, "", rest))
  {
    assert d[0] in d;
    DigitsSpan(d, rest);
  }

  // No digit, no number
  lemma NoNumber(sign: string, t: string, long: bool)
    requires sign in {"", "-", "+"} && (t == "" || t[0] !in "0123456789+-")
    ensures ScanWhole(sign + t, long) == None
    ensures (t != "" && t[0] == '.' ==> t == "." || t[1] !in "0123456789") ==> ScanDouble(sign + t) == None
  {
    SignedText(sign, t);
    NoDigits(t);
  }

  lemma NoDigits(t: string)
    requires t == "" || t[0] !in "0123456789"
    ensures ScanNatural(t) == None
    ensures (t != "" && t[0] == '.' ==> t == "." || t[1] !in "0123456789") ==> ScanFraction(t) == None
  {
    if t != "" {
      Literal(t[0]);
      if |t| > 1 {
        Literal(t[1]);
      }
    }
  }

  lemma Literal(c: char)
    ensures c in "0123456789" <==> IsDigit(c)
  {
    if IsDigit(c) {
      DigitChar(DigitValue(c));
      assert "0123456789"[DigitValue(c)] == c;
    }
  }

  const BLANKS := {' ', '\t', '\n', '\r', '\U{000B}', '\U{000C}'}

  lemma BlankStep(c: char, s: string, all: string)
    requires c in BLANKS && all == [c] + s
    ensures all[Span(Blank, all)..] == s[Span(Blank, s)..]
  {
    assert all[1..] == s;
  }

  lemma {:induction false} BlanksSpan(b: string, t: string, all: string)
    requires (forall x <- b :: x in BLANKS) && all == b + t
    ensures all[Span(Blank, all)..] == t[Span(Blank, t)..]
    decreases |b|
  {
    if b == "" {
      assert all == t;
    } else {
      assert b[0] in b && all == [b[0]] + (b[1..] + t);
      BlanksSpan(b[1..], t, b[1..] + t);
      BlankStep(b[0], b[1..] + t, all);
    }
  }

  // White space in front of a conversion is not looked at.
  lemma BlanksSkipped(c: Conversion, b: string, t: string)
    requires forall x <- b :: x in BLANKS
    ensures ScanOne(c, b + t) == ScanOne(c, t)
  {
    BlanksSpan(b, t, b + t);
  }

  // A word goes up to the next white space or the end of the string.
  lemma WordTaken(w: string, rest: string)
    requires w != "" && (forall x <- w :: x !in BLANKS && x != '\0')
    requires rest == "" || rest[0] in BLANKS || rest[0] == '\0'
    ensures ScanOne(Str, w + rest) == Some((Text(w), rest))
  {
    assert w[0] in w;
    SpanIs(Word, w, rest);
    assert (w + rest)[0..] == w + rest;
  }

  // ---------- The texts that conversions take ----------

  lemma WordReads(t: string)
    requires IsWord(t)
    ensures Reads(Str, t, Text(t))
  {
    forall inner: bool, rest: string | EndsWord(rest)
      ensures ScanOne(Str, Gap(inner) + (t + rest)) == Some((Text(t), rest))
    {
      ReadShown(Str, Text(t), inner, rest);
    }
  }

  // An optional sign and a digit or more: the number
  predicate IntegerText(t: string, sign: string, d: string, n: int) {
    t == sign + d && sign in {"", "-", "+"} && d != "" && AllDigits(d) &&
    n == if sign == "-" then -(Denoted(d) as int) else Denoted(d)
  }

  lemma IntegerReads(t: string, sign: string, d: string, n: int, long: bool) returns (r: int)
    requires IntegerText(t, sign, d, n)
    ensures Reads(if long then LongLong else Int, t, Whole(r)) && ReadsInt(n, long, r)
    ensures r == if long then Saturated(n) else LowInt(Saturated(n))
  {
    r := if long then Saturated(n) else LowInt(Saturated(n));
    ReadsStored(n, long);
    forall inner: bool, rest: string | EndsWord(rest)
      ensures ScanOne(if long then LongLong else Int, Gap(inner) + (t + rest)) == Some((Whole(r), rest))
    {
      IntegerTaken(t, sign, d, n, long, r, inner, rest);
    }
  }

  lemma IntegerTaken(t: string, sign: string, d: string, n: int, long: bool, r: int, inner: bool, rest: string)
    requires IntegerText(t, sign, d, n) && EndsWord(rest)
    requires r == if long then Saturated(n) else LowInt(Saturated(n))
    ensures ScanOne(if long then LongLong else Int, Gap(inner) + (t + rest)) == Some((Whole(r), rest))
  {
    NaturalScanned(d, rest);
    WholeSigned(sign, d + rest, Denoted(d), long, rest, n);
    Regroup3(sign, d, rest);
    SignStarts(sign, d, t + rest);
    OneScanned(if long then LongLong else Int, inner, t + rest);
  }

  lemma OneScanned(c: Conversion, inner: bool, t: string)
    requires t != "" && !IsSpace(t[0])
    ensures ScanOne(c, Gap(inner) + t) ==
            match c
            case Str => ScanWord(t)
            case Int => ScanWhole(t, false)
            case LongLong => ScanWhole(t, true)
            case Double => ScanDouble(t)
  {
    GapSkipped(inner, t);
  }

  lemma SignStarts(sign: string, d: string, s: string)
    requires sign in {"", "-", "+"} && d != "" && IsDigit(d[0]) && sign + d <= s
    ensures s != "" && !IsSpace(s[0])
  {
    assert (sign + d)[0] == s[0];
    if sign == "" {
      assert sign + d == d;
    }
  }

  // An optional sign and digits around a point: the whole m, and the fraction n over p
  predicate DecimalText(t: string, sign: string, d: string, f: string, m: real, n: real, p: real) {
    t == sign + (d + ("." + f)) && sign in {"", "-", "+"} && AllDigits(d) && AllDigits(f) && d + f != "" &&
    m == Denoted(d) as real && n == Denoted(f) as real && p == Pow10(|f|) as real
  }

  lemma DecimalReads(t: string, sign: string, d: string, f: string, m: real, n: real, p: real) returns (x: real)
    requires DecimalText(t, sign, d, f, m, n, p)
    ensures Reads(Double, t, Decimal(if sign == "-" then -x else x)) && x * p == m * p + n
  {
    x := Joined(d, f);
    SumPlain(m, n, p, x);
    forall inner: bool, rest: string | EndsWord(rest)
      ensures ScanOne(Double, Gap(inner) + (t + rest)) == Some((Decimal(if sign == "-" then -x else x), rest))
    {
      DecimalTaken(t, sign, d, f, x, inner, rest);
    }
  }

  lemma DecimalTaken(t: string, sign: string, d: string, f: string, x: real, inner: bool, rest: string)
    requires t == sign + (d + ("." + f)) && sign in {"", "-", "+"} && AllDigits(d) && AllDigits(f) && d + f != ""
    requires x == Joined(d, f) && EndsWord(rest)
    ensures ScanOne(Double, Gap(inner) + (t + rest)) == Some((Decimal(if sign == "-" then -x else x), rest))
  {
    var u := d + ("." + (f + rest));
    PointSplit(d, f, rest);
    PointStarts(d, f, rest, u);
    DoubleAt(sign, u, d, f, rest, x);
    TextTo(t, sign, d, f, rest, u);
    OneScanned(Double, inner, t + rest);
  }

  lemma PointStarts(d: string, f: string, rest: string, u: string)
    requires AllDigits(d) && u == d + ("." + (f + rest))
    ensures u != "" && !IsSpace(u[0])
  {
    if d != "" {
      assert d[0] in d;
    }
  }

  lemma TextTo(t: string, sign: string, d: string, f: string, rest: string, u: string)
    requires t == sign + (d + ("." + f)) && u == d + ("." + (f + rest)) && sign in {"", "-", "+"}
    requires u != "" && !IsSpace(u[0])
    ensures t + rest == sign + u && t + rest != "" && !IsSpace((t + rest)[0])
  {
    Regroup4(sign, d, "." + f, rest);
    Regroup3(".", f, rest);
    assert t + rest == sign + u;
    if sign == "" {
      assert sign + u == u;
    } else {
      assert (sign + u)[0] == sign[0];
    }
  }

  lemma {:induction false} AllReadFrom(format: seq<Conversion>, ts: seq<string>, vs: seq<Value>)
    requires |format| == |ts| == |vs| && forall i :: 0 <= i < |ts| ==> Reads(format[i], ts[i], vs[i])
    ensures AllRead(format, ts, vs)
  {
    if format != [] {
      AllReadFrom(format[1..], ts[1..], vs[1..]);
    }
  }
}
