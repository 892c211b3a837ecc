/** The pure core of logger/logger.go: level gating, the fixed-width decimal
    writer `itoa`, the header layout with its 30-column file field, the
    code-line override, and the by-day rotation test. Characters stand for
    bytes: the model assumes ASCII file names and prefixes. */
module Logger {
  import opened Values

  const PanicLevel: int := 0
  const FatalLevel: int := 1
  const ErrorLevel: int := 2
  const WarnLevel: int := 3
  const InfoLevel: int := 4
  const DebugLevel: int := 5

  const ByDay: int := 0
  const ByWeek: int := 1
  const ByMonth: int := 2
  const BySize: int := 3

  const FatalPrefix: string := "[FATAL] "
  const ErrorPrefix: string := "[ERROR] "
  const WarnPrefix: string := "[WARN]  "
  const InfoPrefix: string := "[INFO]  "
  const DebugPrefix: string := "[DEBUG] "

  /** The largest value of Go's 64-bit `int`. */
  const MaxInt: int := 0x7fff_ffff_ffff_ffff

  /** Seconds in a day, the rotation window. */
  const DaySeconds: int := 86400

  /** The six logging entry points. */
  datatype LogCall = DebugCall | InfoCall | WarnCall | ErrorCall | FatalCall | RawCall

  /** The level each entry point requires; `Raw` shares Info's. */
  function Threshold(call: LogCall): int
  {
    match call
    case DebugCall => DebugLevel
    case InfoCall => InfoLevel
    case WarnCall => WarnLevel
    case ErrorCall => ErrorLevel
    case FatalCall => FatalLevel
    case RawCall => InfoLevel
  }

  /** The header prefix of each entry point; `Raw` writes no header. */
  function Prefix(call: LogCall): Option<string>
  {
    match call
    case DebugCall => Some(DebugPrefix)
    case InfoCall => Some(InfoPrefix)
    case WarnCall => Some(WarnPrefix)
    case ErrorCall => Some(ErrorPrefix)
    case FatalCall => Some(FatalPrefix)
    case RawCall => None
  }

  /** A call writes a line exactly when the configured level reaches its threshold. */
  predicate Emits(level: int, call: LogCall)
  {
    level >= Threshold(call)
  }

  /** The levels are strictly ordered from Panic up to Debug, and every
      prefix is eight characters wide. */
  lemma LevelsOrdered()
    ensures PanicLevel < FatalLevel < ErrorLevel < WarnLevel < InfoLevel < DebugLevel
    ensures forall call: LogCall :: Prefix(call).Some? ==> |Prefix(call).value| == 8
  {
  }

  /** Raising the level never silences a call; at Panic level nothing is
      written, at Debug level everything is; Raw is gated exactly like Info. */
  lemma GatingMonotone(l1: int, l2: int, call: LogCall)
    requires l1 <= l2
    ensures Emits(l1, call) ==> Emits(l2, call)
    ensures !Emits(PanicLevel, call) && Emits(DebugLevel, call)
    ensures Emits(l1, RawCall) <==> Emits(l1, InfoCall)
  {
  }

  /** At a configured level, the calls that write are exactly those whose
      severity is at least as high as the level allows. */
  lemma GatingByLevel(level: int)
    ensures Emits(level, FatalCall) <==> level >= FatalLevel
    ensures Emits(level, ErrorCall) <==> level >= ErrorLevel
    ensures Emits(level, WarnCall) <==> level >= WarnLevel
    ensures Emits(level, InfoCall) <==> level >= InfoLevel
    ensures Emits(level, DebugCall) <==> level >= DebugLevel
    ensures Emits(level, DebugCall) ==> Emits(level, InfoCall)
    ensures Emits(level, InfoCall) ==> Emits(level, WarnCall)
    ensures Emits(level, WarnCall) ==> Emits(level, ErrorCall)
    ensures Emits(level, ErrorCall) ==> Emits(level, FatalCall)
  {
  }

  // ---------------------------------------------------------------------
  // Decimal text

  function Pow10(n: nat): nat
  {
    if n == 0 then 1 else 10 * Pow10(n - 1)
  }

  function DigitChar(d: int): char
    requires 0 <= d < 10
  {
    ('0' as int + d) as char
  }

  predicate IsDigit(c: char)
  {
    '0' <= c <= '9'
  }

  /** The shortest decimal spelling of a natural number. */
  function Digits(i: nat): string
  {
    if i < 10 then [DigitChar(i)] else Digits(i / 10) + [DigitChar(i % 10)]
  }

  function Zeros(n: nat): string
  {
    seq(n, _ => '0')
  }

  /** What `itoa` appends, in the shape of its loop: while the value has
      more than one digit or the width asks for more, the last digit goes to
      the right of the rest; then the single remaining digit. */
  function FixedWidth(i: nat, wid: int): string
    decreases i, wid
  {
    if i >= 10 || wid > 1 then FixedWidth(i / 10, wid - 1) + [DigitChar(i % 10)]
    else [DigitChar(i)]
  }

  /** The same text by an independent definition: the shortest decimal
      spelling, left-padded with '0' to at least `wid` characters. */
  function PaddedDigits(i: nat, wid: int): string
  {
    Zeros(if wid > |Digits(i)| then wid - |Digits(i)| else 0) + Digits(i)
  }

  /** The number a string of decimal digits spells. */
  function DecimalValue(s: string): int
  {
    if s == [] then 0 else 10 * DecimalValue(s[..|s| - 1]) + (s[|s| - 1] as int - '0' as int)
  }

  lemma {:induction false} DigitsShape(i: nat)
    ensures 1 <= |Digits(i)|
    ensures forall k :: 0 <= k < |Digits(i)| ==> IsDigit(Digits(i)[k])
    ensures DecimalValue(Digits(i)) == i
    ensures i > 0 ==> Digits(i)[0] != '0'
  {
    if i >= 10 {
      DigitsShape(i / 10);
      var s := Digits(i);
      assert s[..|s| - 1] == Digits(i / 10);
    }
  }

  lemma {:induction false} DecimalIgnoresZeros(n: nat, s: string)
    ensures DecimalValue(Zeros(n) + s) == DecimalValue(s)
    decreases |s|, n
  {
    if s == [] {
      assert Zeros(n) + s == Zeros(n);
      if n > 0 {
        assert Zeros(n)[..n - 1] == Zeros(n - 1);
        DecimalIgnoresZeros(n - 1, []);
        assert Zeros(n - 1) + [] == Zeros(n - 1);
      }
    } else {
      var front := s[..|s| - 1];
      assert (Zeros(n) + s)[..|Zeros(n) + s| - 1] == Zeros(n) + front;
      DecimalIgnoresZeros(n, front);
    }
  }

  /** One digit off the right end of the padded spelling. */
  lemma PaddedDigitsStep(i: nat, wid: int)
    requires i >= 10 || wid > 1
    ensures PaddedDigits(i, wid) == PaddedDigits(i / 10, wid - 1) + [DigitChar(i % 10)]
  {
    if i < 10 {
      assert Digits(i) == [DigitChar(i % 10)];
      assert Digits(i / 10) == "0";
      assert Zeros(wid - 1) == Zeros(wid - 2) + "0";
    } else {
      var n := if wid > |Digits(i)| then wid - |Digits(i)| else 0;
      assert PaddedDigits(i, wid) == Zeros(n) + Digits(i / 10) + [DigitChar(i % 10)];
    }
  }

  /** The loop-shaped text is the padded spelling. */
  lemma {:induction false} FixedWidthIsPadded(i: nat, wid: int)
    ensures FixedWidth(i, wid) == PaddedDigits(i, wid)
    decreases i, wid
  {
    if i >= 10 || wid > 1 {
      FixedWidthIsPadded(i / 10, wid - 1);
      PaddedDigitsStep(i, wid);
    }
  }

  /** The text `itoa` appends is all ASCII digits, spells `i`, is
      `max(digit count, wid)` long, and has no padding when `wid <= 1`. */
  lemma FixedWidthShape(i: nat, wid: int)
    ensures |FixedWidth(i, wid)| == if wid > |Digits(i)| then wid else |Digits(i)|
    ensures forall k :: 0 <= k < |FixedWidth(i, wid)| ==> IsDigit(FixedWidth(i, wid)[k])
    ensures DecimalValue(FixedWidth(i, wid)) == i
    ensures wid <= 1 ==> FixedWidth(i, wid) == Digits(i)
  {
    FixedWidthIsPadded(i, wid);
    DigitsShape(i);
    var n := if wid > |Digits(i)| then wid - |Digits(i)| else 0;
    DecimalIgnoresZeros(n, Digits(i));
    var f := PaddedDigits(i, wid);
    forall k | 0 <= k < |f|
      ensures IsDigit(f[k])
    {
      if k >= n {
        assert f[k] == Digits(i)[k - n];
      }
    }
  }

  /** A number below 10^k has at most k digits. */
  lemma {:induction false} DigitsBound(i: nat, k: nat)
    requires 1 <= k && i < Pow10(k)
    ensures |Digits(i)| <= k
  {
    if i >= 10 {
      assert Pow10(k) == 10 * Pow10(k - 1);
      assert k != 1 by {
        assert Pow10(1) == 10 * Pow10(0);
      }
      assert i / 10 < Pow10(k - 1);
      DigitsBound(i / 10, k - 1);
    }
  }

  /** Below 10^w the fixed-width text is exactly w characters. */
  lemma FixedWidthExact(i: nat, w: nat)
    requires 1 <= w && i < Pow10(w)
    ensures |FixedWidth(i, w)| == w
  {
    DigitsBound(i, w);
    FixedWidthShape(i, w);
  }

  lemma MaxIntDigits(i: nat)
    requires i <= MaxInt
    ensures |Digits(i)| <= 19
  {
    assert Pow10(1) == 10;
    assert Pow10(2) == 100;
    assert Pow10(3) == 1000;
    assert Pow10(4) == 10000;
    assert Pow10(5) == 100000;
    assert Pow10(6) == 1000000;
    assert Pow10(7) == 10000000;
    assert Pow10(8) == 100000000;
    assert Pow10(9) == 1000000000;
    assert Pow10(10) == 10000000000;
    assert Pow10(11) == 100000000000;
    assert Pow10(12) == 1000000000000;
    assert Pow10(13) == 10000000000000;
    assert Pow10(14) == 100000000000000;
    assert Pow10(15) == 1000000000000000;
    assert Pow10(16) == 10000000000000000;
    assert Pow10(17) == 100000000000000000;
    assert Pow10(18) == 1000000000000000000;
    assert Pow10(19) == 10000000000000000000;
    DigitsBound(i, 19);
  }

  /** Every 64-bit value fits the 20-byte scratch array at width 20 or less. */
  lemma ItoaFits(i: nat, wid: int)
    requires i <= MaxInt && wid <= 20
    ensures 1 <= |FixedWidth(i, wid)| <= 20
  {
    MaxIntDigits(i);
    FixedWidthShape(i, wid);
    DigitsShape(i);
  }

  /** `itoa`: digits are produced right to left into a 20-byte scratch
      array, at least `wid` of them, then appended to `buf`. The source calls
      it with non-negative values; a width above 20 would overrun the array. */
  method Itoa(buf: seq<char>, i: int, wid: int) returns (out: seq<char>)
    requires 0 <= i <= MaxInt && wid <= 20
    ensures out == buf + FixedWidth(i, wid)
  {
    ItoaFits(i, wid);
    var b := new char[20];
    var bp := b.Length - 1;
    var n: nat := i;
    var w := wid;
    while n >= 10 || w > 1
      invariant 0 <= bp < b.Length
      invariant |FixedWidth(n, w)| <= bp + 1
      invariant FixedWidth(i, wid) == FixedWidth(n, w) + b[bp + 1..]
      decreases bp
    {
      ghost var tail := b[bp + 1..];
      ghost var front := FixedWidth(n / 10, w - 1);
      w := w - 1;
      var q := n / 10;
      assert n - q * 10 == n % 10;
      b[bp] := DigitChar(n - q * 10);
      assert b[bp + 1..] == tail;
      assert b[bp..] == [DigitChar(n % 10)] + tail;
      assert FixedWidth(i, wid) == front + b[bp..];
      bp := bp - 1;
      n := q;
    }
    assert FixedWidth(n, w) == [DigitChar(n)];
    b[bp] := DigitChar(n);
    assert b[bp..] == [b[bp]] + b[bp + 1..];
    out := buf + b[bp..];
  }

  // ---------------------------------------------------------------------
  // The header

  function Spaces(n: nat): string
  {
    seq(n, _ => ' ')
  }

  /** `fmt.Sprintf("%30s", file)` then its last 30 characters. */
  function FileField(file: string): (r: string)
    ensures |r| == 30
    ensures |file| <= 30 ==> r == Spaces(30 - |file|) + file
    ensures |file| >= 30 ==> r == file[|file| - 30..]
  {
    var f := Spaces(if |file| < 30 then 30 - |file| else 0) + file;
    f[|f| - 30..]
  }

  /** `fmt.Sprintf("%-12s", g)`. */
  function PadRight(g: string, width: nat): (r: string)
    ensures |r| == if |g| < width then width else |g|
    ensures g <= r
    ensures forall k :: |g| <= k < |r| ==> r[k] == ' '
  {
    g + Spaces(if |g| < width then width - |g| else 0)
  }

  /** A wall-clock reading as `t.Clock()` and `t.Nanosecond()` return it. */
  datatype Clock = Clock(hour: int, minute: int, second: int, nanosecond: int)
  {
    predicate Valid()
    {
      0 <= hour < 24 && 0 <= minute < 60 && 0 <= second < 60 && 0 <= nanosecond < 1_000_000_000
    }
  }

  /** `HH:MM:SS.uuuuuu`, each field through `itoa`. */
  function ClockText(t: Clock): string
    requires t.Valid()
  {
    FixedWidth(t.hour, 2) + ":" + FixedWidth(t.minute, 2) + ":" + FixedWidth(t.second, 2)
    + "." + FixedWidth(t.nanosecond / 1000, 6)
  }

  /** ` [goroutine]` padded to 12, or nothing. */
  function GoroutineText(goroutine: string): string
  {
    if goroutine != "" then " [" + PadRight(goroutine, 12) + "]" else ""
  }

  function Bracketed(s: string): string
  {
    "[" + s + "]"
  }

  /** The header text by definition. */
  function HeaderText(prefix: string, t: Clock, file: string, goroutine: string): string
    requires t.Valid()
  {
    prefix + ClockText(t) + " " + Bracketed(FileField(file)) + GoroutineText(goroutine) + ": "
  }

  /** The clock part of `formatHeader`: four `itoa` calls with their separators. */
  method AppendClock(buf: seq<char>, t: Clock) returns (out: seq<char>)
    requires t.Valid()
    ensures out == buf + ClockText(t)
  {
    out := Itoa(buf, t.hour, 2);
    out := out + ":";
    out := Itoa(out, t.minute, 2);
    out := out + ":";
    assert out == buf + (FixedWidth(t.hour, 2) + ":" + FixedWidth(t.minute, 2) + ":");
    out := Itoa(out, t.second, 2);
    out := out + ".";
    out := Itoa(out, t.nanosecond / 1000, 6);
  }

  lemma AppendsAssociate<T>(buf: seq<T>, a: seq<T>, b: seq<T>, c: seq<T>, d: seq<T>, e: seq<T>, f: seq<T>)
    ensures buf + a + b + c + d + e + f == buf + (a + b + c + d + e + f)
  {
  }

  /** `formatHeader`: appends the header to `buf` piece by piece. */
  method FormatHeader(buf: seq<char>, prefix: string, t: Clock, file: string, goroutine: string)
    returns (out: seq<char>)
    requires t.Valid()
    ensures out == buf + HeaderText(prefix, t, file, goroutine)
  {
    out := buf + prefix;
    out := AppendClock(out, t);
    out := out + " ";
    out := out + Bracketed(FileField(file));
    if goroutine != "" {
      out := out + GoroutineText(goroutine);
    }
    out := out + ": ";
    AppendsAssociate(buf, prefix, ClockText(t), " ", Bracketed(FileField(file)), GoroutineText(goroutine), ": ");
  }

  /** Where each piece of a six-piece concatenation sits. */
  lemma SixPieces<T>(a: seq<T>, b: seq<T>, c: seq<T>, d: seq<T>, e: seq<T>, f: seq<T>)
    ensures var h := a + b + c + d + e + f;
      var i1 := |a|;
      var i2 := i1 + |b|;
      var i3 := i2 + |c|;
      var i4 := i3 + |d|;
      var i5 := i4 + |e|;
      && |h| == i5 + |f|
      && h[..i1] == a && h[i1..i2] == b && h[i2..i3] == c && h[i3..i4] == d && h[i4..i5] == e && h[i5..] == f
  {
    var h := a + b + c + d + e + f;
    assert h == a + (b + (c + (d + (e + f))));
  }

  /** The clock part: HH:MM:SS.uuuuuu, fifteen characters, each field all
      digits and spelling hour, minute, second and microsecond. */
  lemma ClockLayout(t: Clock)
    requires t.Valid()
    ensures var c := ClockText(t);
      && |c| == 15
      && c[2] == ':' && c[5] == ':' && c[8] == '.'
      && c[0..2] == FixedWidth(t.hour, 2) && DecimalValue(c[0..2]) == t.hour
      && c[3..5] == FixedWidth(t.minute, 2) && DecimalValue(c[3..5]) == t.minute
      && c[6..8] == FixedWidth(t.second, 2) && DecimalValue(c[6..8]) == t.second
      && c[9..15] == FixedWidth(t.nanosecond / 1000, 6) && DecimalValue(c[9..15]) == t.nanosecond / 1000
      && forall k :: 0 <= k < 15 && k != 2 && k != 5 && k != 8 ==> IsDigit(c[k])
  {
    assert Pow10(2) == 100;
    assert Pow10(6) == 1_000_000;
    FixedWidthExact(t.hour, 2);
    FixedWidthExact(t.minute, 2);
    FixedWidthExact(t.second, 2);
    FixedWidthExact(t.nanosecond / 1000, 6);
    FixedWidthShape(t.hour, 2);
    FixedWidthShape(t.minute, 2);
    FixedWidthShape(t.second, 2);
    FixedWidthShape(t.nanosecond / 1000, 6);
    ClockPieces(FixedWidth(t.hour, 2), FixedWidth(t.minute, 2), FixedWidth(t.second, 2), FixedWidth(t.nanosecond / 1000, 6));
  }

  /** Where the fields of `hh:mm:ss.uuuuuu` sit, for any four digit strings
      of widths 2, 2, 2 and 6. */
  lemma ClockPieces(hh: string, mm: string, ss: string, us: string)
    requires |hh| == 2 && |mm| == 2 && |ss| == 2 && |us| == 6
    requires forall k :: 0 <= k < 2 ==> IsDigit(hh[k]) && IsDigit(mm[k]) && IsDigit(ss[k])
    requires forall k :: 0 <= k < 6 ==> IsDigit(us[k])
    ensures var c := hh + ":" + mm + ":" + ss + "." + us;
      && |c| == 15
      && c[2] == ':' && c[5] == ':' && c[8] == '.'
      && c[0..2] == hh && c[3..5] == mm && c[6..8] == ss && c[9..15] == us
      && forall k :: 0 <= k < 15 && k != 2 && k != 5 && k != 8 ==> IsDigit(c[k])
  {
    var c := hh + ":" + mm + ":" + ss + "." + us;
    assert c[0..2] == hh;
    assert c[3..5] == mm;
    assert c[6..8] == ss;
    assert c[9..15] == us;
    forall k | 0 <= k < 15 && k != 2 && k != 5 && k != 8
      ensures IsDigit(c[k])
    {
      if k < 2 { assert c[k] == hh[k]; }
      else if k < 5 { assert c[k] == mm[k - 3]; }
      else if k < 8 { assert c[k] == ss[k - 6]; }
      else { assert c[k] == us[k - 9]; }
    }
  }

  lemma ClockLength(t: Clock)
    requires t.Valid()
    ensures |ClockText(t)| == 15
  {
    ClockLayout(t);
  }

  /** The header layout: the prefix; the fifteen-character clock; a space;
      the 30-column file field in brackets; the goroutine part (empty when
      there is no goroutine); ": ". */
  lemma HeaderLayout(prefix: string, t: Clock, file: string, goroutine: string)
    requires t.Valid()
    ensures var h := HeaderText(prefix, t, file, goroutine);
      var p := |prefix|;
      var g := GoroutineText(goroutine);
      && |h| == p + 48 + |g| + 2
      && h[..p] == prefix
      && h[p..p + 15] == ClockText(t)
      && h[p + 15] == ' '
      && h[p + 16] == '[' && h[p + 17..p + 47] == FileField(file) && h[p + 47] == ']'
      && h[p + 48..p + 48 + |g|] == g
      && (goroutine == "" <==> g == "")
      && h[p + 48 + |g|..] == ": "
  {
    ClockLength(t);
    HeaderPieces(prefix, ClockText(t), FileField(file), GoroutineText(goroutine));
  }

  /** The layout over abstract pieces: a 15-character clock and a
      30-character file field. */
  lemma HeaderPieces(prefix: string, clock: string, field: string, g: string)
    requires |clock| == 15 && |field| == 30
    ensures var h := prefix + clock + " " + Bracketed(field) + g + ": ";
      var p := |prefix|;
      && |h| == p + 48 + |g| + 2
      && h[..p] == prefix
      && h[p..p + 15] == clock
      && h[p + 15] == ' '
      && h[p + 16] == '[' && h[p + 17..p + 47] == field && h[p + 47] == ']'
      && h[p + 48..p + 48 + |g|] == g
      && h[p + 48 + |g|..] == ": "
  {
    var b := Bracketed(field);
    SixPieces(prefix, clock, " ", b, g, ": ");
    var h := prefix + clock + " " + b + g + ": ";
    var p := |prefix|;
    assert h[p + 16..p + 48] == b;
    assert b[1..31] == field;
    assert h[p + 17..p + 47] == b[1..31];
  }

  /** The file field of a message header: a non-empty code line verbatim,
      else the caller's `file:line`, else `???`. */
  function MessageFile(codeLine: string, caller: Option<(string, nat)>): (file: string)
    ensures codeLine != "" ==> file == codeLine
  {
    if codeLine != "" then codeLine
    else if caller.Some? then caller.value.0 + ":" + Digits(caller.value.1)
    else "???"
  }

  /** A non-empty code line decides the file field whatever the caller
      lookup would have given; without one, a found caller gives its file,
      a ':' and the decimal digits of its line, and a failed lookup `???`. */
  lemma CodeLineOverrides(prefix: string, t: Clock, codeLine: string,
                          c1: Option<(string, nat)>, c2: Option<(string, nat)>)
    requires t.Valid()
    ensures codeLine != "" ==>
      HeaderText(prefix, t, MessageFile(codeLine, c1), "") == HeaderText(prefix, t, MessageFile(codeLine, c2), "")
    ensures codeLine != "" ==> FileField(MessageFile(codeLine, c1)) == FileField(codeLine)
    ensures codeLine == "" && c1.None? ==> MessageFile(codeLine, c1) == "???"
    ensures codeLine == "" && c1.Some? ==>
      && c1.value.0 <= MessageFile(codeLine, c1)
      && MessageFile(codeLine, c1)[|c1.value.0|] == ':'
      && var line := MessageFile(codeLine, c1)[|c1.value.0| + 1..];
         && 1 <= |line|
         && (forall k :: 0 <= k < |line| ==> IsDigit(line[k]))
         && DecimalValue(line) == c1.value.1
  {
    if codeLine == "" && c1.Some? {
      var (file, n) := c1.value;
      DigitsShape(n);
      assert MessageFile(codeLine, c1)[|file| + 1..] == Digits(n);
    }
  }

  /** `formatMsgHeader` (without the goroutine part, which is always empty).
      The caller lookup and the clock are parameters. */
  method FormatMsgHeader(prefix: string, codeLine: string, caller: Option<(string, nat)>, t: Clock)
    returns (header: string)
    requires t.Valid()
    ensures header == HeaderText(prefix, t, MessageFile(codeLine, caller), "")
  {
    var file: string;
    if codeLine != "" {
      file := codeLine;
    } else if caller.Some? {
      file := caller.value.0 + ":" + Digits(caller.value.1);
    } else {
      file := "???";
    }
    assert file == MessageFile(codeLine, caller);
    header := FormatHeader([], prefix, t, file, "");
  }

  /** One call of `Debug`/`Info`/`Warn`/`Error`/`Fatal`/`Raw` at a configured
      level: nothing below the call's threshold; otherwise the header and
      the already formatted message, or the bare message for `Raw`. */
  method Log(level: int, call: LogCall, message: string, caller: Option<(string, nat)>, t: Clock)
    returns (line: Option<string>)
    requires t.Valid()
    ensures line.Some? <==> Emits(level, call)
    ensures line.Some? && call == RawCall ==> line.value == message
    ensures line.Some? && call != RawCall ==>
      line.value == HeaderText(Prefix(call).value, t, MessageFile("", caller), "") + message
  {
    if level < Threshold(call) {
      return None;
    }
    if call == RawCall {
      return Some(message);
    }
    var header := FormatMsgHeader(Prefix(call).value, "", caller, t);
    return Some(header + message);
  }

  // ---------------------------------------------------------------------
  // Rotation

  /** The by-day test in `Write`: the last rotation is more than a day old,
      or lies in the future. */
  predicate RotatesByDay(logTime: int, now: int)
  {
    logTime + DaySeconds < now || logTime > now
  }

  /** No rotation exactly while `now` lies in the closed day window that
      starts at the last rotation. */
  lemma RotationWindow(logTime: int, now: int)
    ensures !RotatesByDay(logTime, now) <==> logTime <= now <= logTime + DaySeconds
    ensures RotatesByDay(logTime, logTime + DaySeconds + 1) && !RotatesByDay(logTime, logTime + DaySeconds)
    ensures RotatesByDay(logTime, logTime - 1) && !RotatesByDay(logTime, logTime)
  {
  }

  /** Whether a write opens a new file: only with a file name (else it goes
      to the console), and in every mode but BySize by the day test. */
  predicate OpensNewFile(fileName: string, saveMode: int, logTime: int, now: int)
  {
    fileName != "" && saveMode != BySize && RotatesByDay(logTime, now)
  }

  /** ByWeek and ByMonth behave exactly like ByDay. */
  lemma NonSizeModesRotateDaily(fileName: string, logTime: int, now: int)
    ensures OpensNewFile(fileName, ByWeek, logTime, now) == OpensNewFile(fileName, ByDay, logTime, now)
    ensures OpensNewFile(fileName, ByMonth, logTime, now) == OpensNewFile(fileName, ByDay, logTime, now)
    ensures !OpensNewFile("", ByDay, logTime, now)
  {
  }
}
