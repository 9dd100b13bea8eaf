/** Duration strings such as `30m`, and the time windows of the two metric consumers. */
module Durations {
  import opened Types

  predicate IsDigit(c: char) {
    '0' <= c <= '9'
  }

  predicate AllDigits(s: string) {
    forall i :: 0 <= i < |s| ==> IsDigit(s[i])
  }

  function DigitValue(c: char): nat
    requires IsDigit(c)
  {
    c as int - '0' as int
  }

  function DigitChar(d: nat): (c: char)
    requires d < 10
    ensures IsDigit(c) && DigitValue(c) == d
  {
    (d + '0' as int) as char
  }

  function Value(s: string): nat
    requires AllDigits(s)
  {
    if s == "" then 0 else 10 * Value(s[..|s| - 1]) + DigitValue(s[|s| - 1])
  }

  function Print(n: nat): (s: string)
    ensures s != "" && AllDigits(s)
  {
    if n < 10 then [DigitChar(n)] else Print(n / 10) + [DigitChar(n % 10)]
  }

  /** An optional plus sign, then at least one digit; out of range is an error. */
  function ParseU64(s: string): Option<U64> {
    var digits := if s != "" && s[0] == '+' then s[1..] else s;
    if digits != "" && AllDigits(digits) && Value(digits) < TWO_64 then Some(Value(digits)) else None
  }

  /** The characters with the Unicode White_Space property. */
  predicate IsSpace(c: char) {
    var n := c as int;
    || 0x9 <= n <= 0xD || n == 0x20 || n == 0x85 || n == 0xA0 || n == 0x1680 || 0x2000 <= n <= 0x200A
    || n == 0x2028 || n == 0x2029 || n == 0x202F || n == 0x205F || n == 0x3000
  }

  function TrimStart(s: string): string {
    if s != "" && IsSpace(s[0]) then TrimStart(s[1..]) else s
  }

  function TrimEnd(s: string): string {
    if s != "" && IsSpace(s[|s| - 1]) then TrimEnd(s[..|s| - 1]) else s
  }

  /** A release build multiplies modulo 2^64. */
  function Times(n: Option<U64>, unit: nat): Option<U64> {
    if n.Some? then Some(n.value * unit % TWO_64) else None
  }

  function ParseDuration(text: string): Option<U64> {
    var s := TrimEnd(TrimStart(text));
    if s != "" && s[|s| - 1] == 'm' then Times(ParseU64(s[..|s| - 1]), 60)
    else if s != "" && s[|s| - 1] == 'h' then Times(ParseU64(s[..|s| - 1]), 3600)
    else if s != "" && s[|s| - 1] == 's' then ParseU64(s[..|s| - 1])
    else ParseU64(s)
  }

  // ── Printing and parsing undo each other ──

  lemma {:induction false} ValueOfPrint(n: nat)
    ensures Value(Print(n)) == n
  {
    if n >= 10 {
      var front := Print(n / 10);
      assert (front + [DigitChar(n % 10)])[..|front|] == front;
      ValueOfPrint(n / 10);
    }
  }

  /** Digits without a leading zero are what printing gives back. */
  lemma {:induction false} PrintOfValue(s: string)
    requires s != "" && AllDigits(s) && (|s| > 1 ==> s[0] != '0')
    ensures Print(Value(s)) == s
    ensures |s| > 1 ==> Value(s) >= 10
  {
    var front, d := s[..|s| - 1], DigitValue(s[|s| - 1]);
    assert s == front + [s[|s| - 1]];
    if front != "" {
      PrintOfValue(front);
      LeadingDigit(front);
      assert Value(s) / 10 == Value(front) && Value(s) % 10 == d;
      assert DigitChar(d) == s[|s| - 1];
    } else {
      assert s == [DigitChar(d)];
    }
  }

  lemma {:induction false} LeadingDigit(s: string)
    requires s != "" && AllDigits(s) && s[0] != '0'
    ensures Value(s) > 0
  {
    if |s| > 1 { LeadingDigit(s[..|s| - 1]); }
  }

  lemma ParsePrinted(n: U64)
    ensures ParseU64(Print(n)) == Some(n)
  {
    ValueOfPrint(n);
    assert IsDigit(Print(n)[0]);
  }

  /** A plus sign is allowed, once. */
  lemma PlusAllowed(n: U64)
    ensures ParseU64("+" + Print(n)) == Some(n) && ParseU64("++" + Print(n)) == None
  {
    ValueOfPrint(n);
    var one, two := "+" + Print(n), "++" + Print(n);
    assert one[1..] == Print(n);
    assert two[1..] == one && one[0] == '+' && !AllDigits(one);
  }

  lemma TrimNothing(s: string)
    requires s != "" && !IsSpace(s[0]) && !IsSpace(s[|s| - 1])
    ensures TrimEnd(TrimStart(s)) == s
  {
  }

  predicate AllSpaces(s: string) {
    forall i :: 0 <= i < |s| ==> IsSpace(s[i])
  }

  lemma {:induction false} TrimStartSkips(pre: string, s: string)
    requires AllSpaces(pre) && (s == "" || !IsSpace(s[0]))
    ensures TrimStart(pre + s) == s
  {
    hide IsSpace;
    if pre != "" {
      assert (pre + s)[1..] == pre[1..] + s;
      TrimStartSkips(pre[1..], s);
    } else {
      assert pre + s == s;
    }
  }

  lemma {:induction false} TrimEndSkips(s: string, post: string)
    requires AllSpaces(post) && (s == "" || !IsSpace(s[|s| - 1]))
    ensures TrimEnd(s + post) == s
  {
    hide IsSpace;
    if post != "" {
      var last := |post| - 1;
      assert (s + post)[..|s| + last] == s + post[..last];
      TrimEndSkips(s, post[..last]);
    } else {
      assert s + post == s;
    }
  }

  /** White space around a duration does not matter. */
  lemma SpacesIgnored(pre: string, s: string, post: string)
    requires AllSpaces(pre) && AllSpaces(post)
    requires s != "" && !IsSpace(s[0]) && !IsSpace(s[|s| - 1])
    ensures ParseDuration(pre + s + post) == ParseDuration(s)
  {
    hide IsSpace, ParseU64, Times;
    assert pre + s + post == pre + (s + post);
    TrimStartSkips(pre, s + post);
    TrimEndSkips(s, post);
    TrimNothing(s);
  }

  lemma ParseWithUnit(n: U64, unit: char)
    requires unit == 's' || unit == 'm' || unit == 'h'
    ensures ParseDuration(Print(n) + [unit])
            == if unit == 's' then Some(n) else Times(Some(n), if unit == 'm' then 60 else 3600)
  {
    hide TrimStart, TrimEnd, ParseU64, Print, Times, IsSpace;
    var s := Print(n) + [unit];
    assert IsDigit(s[0]) && s[|s| - 1] == unit;
    NotSpace(s[0]);
    UnitNotSpace(unit);
    TrimNothing(s);
    assert s[..|s| - 1] == Print(n);
    ParsePrinted(n);
  }

  lemma NotSpace(c: char)
    requires IsDigit(c)
    ensures !IsSpace(c) && c != 's' && c != 'm' && c != 'h'
  {
  }

  lemma UnitNotSpace(unit: char)
    requires unit == 's' || unit == 'm' || unit == 'h'
    ensures !IsSpace(unit)
  {
  }

  /** Seconds always come back; minutes and hours exactly when the product fits in 64 bits. */
  lemma DurationRoundTrip(n: U64)
    ensures ParseDuration(Print(n) + "s") == Some(n) && ParseDuration(Print(n)) == Some(n)
    ensures ParseDuration(Print(n) + "m") == Some(60 * n) <==> 60 * n < TWO_64
    ensures ParseDuration(Print(n) + "h") == Some(3600 * n) <==> 3600 * n < TWO_64
  {
    hide TrimStart, TrimEnd, ParseU64, Print, IsSpace;
    ParseWithUnit(n, 's');
    ParseWithUnit(n, 'm');
    ParseWithUnit(n, 'h');
    var s := Print(n);
    assert s + "s" == s + ['s'] && s + "m" == s + ['m'] && s + "h" == s + ['h'];
    NotSpace(s[0]);
    NotSpace(s[|s| - 1]);
    TrimNothing(s);
    ParsePrinted(n);
  }

  // ── Windows of the impact map ──

  datatype TimeWindows = TimeWindows(baselineTime: int, baselineRate: string, chaosTime: int, chaosRate: string)

  /** Whole seconds between two instants, truncated toward zero, but at least one. */
  function ChaosSeconds(started: int, completed: int): nat {
    var secs := if completed >= started then (completed - started) / NANOS else 0;
    if secs >= 1 then secs else 1
  }

  function CalculateTimeWindows(started: int, completed: int, baselineWindow: string): Option<TimeWindows> {
    match ParseDuration(baselineWindow)
    case None => None
    case Some(secs) =>
      Some(TimeWindows(started, Print(secs) + "s", completed, Print(ChaosSeconds(started, completed)) + "s"))
  }

  /** The rate windows handed to the metric queries read back as the seconds they were made from. */
  lemma RateWindowsReadBack(started: int, completed: int, window: string)
    requires ParseDuration(window).Some? && ChaosSeconds(started, completed) < TWO_64
    ensures var w := CalculateTimeWindows(started, completed, window).value;
            && ParseDuration(w.baselineRate) == ParseDuration(window)
            && ParseDuration(w.chaosRate) == Some(ChaosSeconds(started, completed))
            && w.baselineTime == started && w.chaosTime == completed
  {
    DurationRoundTrip(ParseDuration(window).value);
    DurationRoundTrip(ChaosSeconds(started, completed));
  }

  /** The chaos rate window ends with the chaos and starts within a second of it, never before it, unless it lasted under a second. */
  lemma ChaosRateWindowInside(started: int, completed: int)
    ensures completed - started >= NANOS <==> started <= completed - ChaosSeconds(started, completed) * NANOS
    ensures completed - started >= NANOS ==> completed - ChaosSeconds(started, completed) * NANOS < started + NANOS
    ensures completed - started < NANOS ==> ChaosSeconds(started, completed) == 1
  {
  }

  // ── Query times of the analysis ──

  const MAX_DELTA_SECS := (TWO_63 - 1) / 1000

  /** Half the window as a signed number of seconds, truncated toward zero. */
  function HalfWindow(window: U64): int {
    var w := AsI64(window);
    if w >= 0 then w / 2 else -((-w) / 2)
  }

  /** `None` where building the time difference panics. */
  function BaselineTime(started: int, window: U64): Option<int> {
    var half := HalfWindow(window);
    if -MAX_DELTA_SECS <= half <= MAX_DELTA_SECS then Some(started - half * NANOS) else None
  }

  function ChaosTime(started: int, completed: int): int {
    var d := completed - started;
    started + if d >= 0 then d / 2 else -((-d) / 2)
  }

  /** When it is computed at all, the baseline query time lies in the baseline window unless the cast turned negative. */
  lemma BaselineTimeInWindow(started: int, window: U64)
    requires BaselineTime(started, window).Some?
    ensures started - window * NANOS <= BaselineTime(started, window).value <= started <==>
            window < TWO_63 || window == TWO_64 - 1
  {
  }

  /** Below 2^63 seconds it is the middle of that window, to the whole second. */
  lemma BaselineTimeIsMidpoint(started: int, window: U64)
    requires window < TWO_63 && BaselineTime(started, window).Some?
    ensures 0 <= window * NANOS - 2 * (started - BaselineTime(started, window).value) <= NANOS
  {
  }

  /** The chaos query time lies in the chaos window, in its middle, to the nanosecond. */
  lemma ChaosTimeInWindow(started: int, completed: int)
    requires started <= completed
    ensures started <= ChaosTime(started, completed) <= completed
    ensures 0 <= (completed - started) - 2 * (ChaosTime(started, completed) - started) <= 1
  {
  }
}
