/**
 `fluxDuration`: an int64 count of nanoseconds is rounded to seconds and printed as a Flux duration
 literal.  The machine arithmetic is modelled with its wrap-around; what the text means is defined by
 a parser for the literals of the Flux language specification ("Lexical elements", "Duration
 literals"), restricted to the units of fixed length.
 */
module FluxDuration {
  import opened Collections

  const SECOND := 1_000_000_000
  const MINUTE := 60 * SECOND
  const HOUR := 60 * MINUTE
  const MIN64 := -0x8000_0000_0000_0000
  const MAX64 := 0x7FFF_FFFF_FFFF_FFFF

  type int64 = x: int | MIN64 <= x <= MAX64

  /** Durations at least this far from zero round to a number of seconds that int64 nanoseconds
      cannot hold. */
  const LIMIT := 9_223_372_036_500_000_000

  function Wrap(x: int): int64 {
    var m := (x - MIN64) % 0x1_0000_0000_0000_0000;
    m + MIN64
  }

  /** Go's integer division truncates toward zero. */
  function Quot(a: int, b: int): int
    requires b > 0
  {
    if a >= 0 then a / b else -((-a) / b)
  }

  function Rem(a: int, b: int): int
    requires b > 0
  {
    a - Quot(a, b) * b
  }

  /** `time.Duration.Round(time.Second)`, with its overflow checks. */
  function Round(d: int64): int64 {
    var r := Rem(d, SECOND);
    if d < 0 then
      if -r + -r < SECOND then d - r
      else
        var up := Wrap(d - SECOND - r);
        if up < d then up else MIN64
    else if r + r < SECOND then d - r
    else
      var up := Wrap(d + SECOND - r);
      if up > d then up else MAX64
  }

  // ---------------------------------------------------------------- printing

  function Digit(n: nat): char
    requires n < 10
  {
    '0' + n as char
  }

  function Digits(n: nat): string {
    if n < 10 then [Digit(n)] else Digits(n / 10) + [Digit(n % 10)]
  }

  function Part(n: int, unit: string): string {
    if n > 0 then Digits(n) + unit else ""
  }

  function Hours(a: int): int { Quot(a, HOUR) }

  function Minutes(a: int): int { Quot(a - Hours(a) * HOUR, MINUTE) }

  function Seconds(a: int): int { Quot(a - Hours(a) * HOUR - Minutes(a) * MINUTE, SECOND) }

  function Parts(h: int, m: int, s: int): string { Part(h, "h") + Part(m, "m") + Part(s, "s") }

  function Magnitude(rounded: int): int { if rounded < 0 then Wrap(-rounded) else rounded }

  function Sign(rounded: int): string { if rounded < 0 then "-" else "" }

  function Clock(a: int): string { Parts(Hours(a), Minutes(a), Seconds(a)) }

  /** Sign, hours, minutes and seconds of the rounded duration. */
  function Text(d: int64): string {
    if Round(d) == 0 then "0s" else Sign(Round(d)) + Clock(Magnitude(Round(d)))
  }

  /** One guarded `Fprintf` into the builder. */
  method AppendPart(text: string, n: int, unit: string) returns (longer: string)
    ensures longer == text + Part(n, unit)
  {
    longer := text;
    if n > 0 {
      longer := longer + (Digits(n) + unit);
    }
  }

  /** The second half of `fluxDuration`: hours, minutes and seconds are split off in turn. */
  method AppendClock(text: string, duration: int) returns (longer: string)
    ensures longer == text + Clock(duration)
  {
    var d := duration;
    var h := Quot(d, HOUR);
    d := d - h * HOUR;
    var m := Quot(d, MINUTE);
    d := d - m * MINUTE;
    var s := Quot(d, SECOND);
    longer := AppendPart(text, h, "h");
    longer := AppendPart(longer, m, "m");
    longer := AppendPart(longer, s, "s");
    assert longer == text + Parts(h, m, s);
  }

  method FluxDurationText(duration: int64) returns (text: string)
    ensures text == Text(duration)
  {
    var d: int := Round(duration);
    if d == 0 {
      return "0s";
    }
    text := "";
    if d < 0 {
      text := "-";
      d := Wrap(-d);
    }
    text := AppendClock(text, d);
  }

  // ---------------------------------------------------------------- reading

  predicate IsDigit(c: char) { '0' <= c <= '9' }

  function LeadingDigits(s: string): nat {
    if s == "" || !IsDigit(s[0]) then 0 else 1 + LeadingDigits(s[1..])
  }

  function DigitValue(c: char): nat
    requires IsDigit(c)
  {
    c as int - '0' as int
  }

  function Value(s: string): nat
    requires forall c :: c in s ==> IsDigit(c)
  {
    if s == "" then 0 else 10 * Value(s[..|s| - 1]) + DigitValue(s[|s| - 1])
  }

  /** The unit a text starts with, longest match first: its length in characters and nanoseconds.
      Calendar units (`y`, `mo`) have no fixed length and are not read. */
  function Unit(s: string): Option<(nat, int)> {
    if s == "" then None
    else
      var first, second := s[0], if |s| > 1 then s[1] else ' ';
      if first == 'm' then
        if second == 'o' then None else if second == 's' then Some((2, 1_000_000)) else Some((1, 60_000_000_000))
      else if (first == 'u' || first == '\U{00B5}') && second == 's' then Some((2, 1000))
      else if first == 'n' && second == 's' then Some((2, 1))
      else if first == 'w' then Some((1, 604_800_000_000_000))
      else if first == 'd' then Some((1, 86_400_000_000_000))
      else if first == 'h' then Some((1, 3_600_000_000_000))
      else if first == 's' then Some((1, 1_000_000_000))
      else None
  }

  lemma {:induction false} LeadingDigitsAre(s: string)
    ensures LeadingDigits(s) <= |s|
    ensures forall c :: c in s[..LeadingDigits(s)] ==> IsDigit(c)
  {
    if s != "" && IsDigit(s[0]) {
      LeadingDigitsAre(s[1..]);
      var k := LeadingDigits(s[1..]);
      assert s[..k + 1] == [s[0]] + s[1..][..k];
    }
  }

  function Terms(s: string): Option<int>
    decreases |s|
  {
    if s == "" then Some(0)
    else
      LeadingDigitsAre(s);
      var k := LeadingDigits(s);
      var rest := s[k..];
      if k == 0 || Unit(rest) == None then None
      else
        var (length, size) := Unit(rest).value;
        match Terms(rest[length..])
        case None => None
        case Some(more) => Some(Value(s[..k]) * size + more)
  }

  function Unsigned(s: string): Option<int> { if s == "" then None else Terms(s) }

  /** A duration literal with an optional sign, in nanoseconds. */
  function Parse(s: string): Option<int> {
    if s != "" && s[0] == '-' then
      match Unsigned(s[1..])
      case Some(n) => Some(-n)
      case None => None
    else Unsigned(s)
  }

  // ---------------------------------------------------------------- what is printed reads back

  /** The nearest whole second, halves away from zero, over the integers. */
  function RoundHalfAway(d: int): int {
    if d >= 0 then (d + 500_000_000) / 1_000_000_000 * 1_000_000_000
    else -((-d + 500_000_000) / 1_000_000_000 * 1_000_000_000)
  }

  lemma {:induction false} DigitsRead(n: nat)
    ensures Digits(n) != "" && (forall c :: c in Digits(n) ==> IsDigit(c)) && Value(Digits(n)) == n
    ensures n > 0 ==> Digits(n)[0] != '0'
  {
    if n >= 10 {
      DigitsRead(n / 10);
      var front := Digits(n / 10);
      assert Digits(n)[..|front|] == front;
    } else {
      assert Digits(n)[..0] == "";
    }
  }

  lemma {:induction false} DigitsThenRest(digits: string, rest: string)
    requires (forall c :: c in digits ==> IsDigit(c)) && (rest == "" || !IsDigit(rest[0]))
    ensures LeadingDigits(digits + rest) == |digits|
  {
    if digits == "" {
      assert digits + rest == rest;
    } else {
      assert (digits + rest)[1..] == digits[1..] + rest;
      DigitsThenRest(digits[1..], rest);
    }
  }

  predicate UnitSize(unit: string, size: int) {
    (unit == "h" && size == HOUR) || (unit == "m" && size == MINUTE) || (unit == "s" && size == SECOND)
  }

  /** A text of terms that is empty or begins with a digit. */
  predicate Reads(text: string, value: int) {
    Terms(text) == Some(value) && (text == "" || IsDigit(text[0]))
  }

  lemma TermReads(n: nat, unit: string, size: int, tail: string, value: int)
    requires Reads(tail, value) && UnitSize(unit, size)
    ensures Reads(Digits(n) + (unit + tail), n * size + value)
  {
    DigitsRead(n);
    var digits, rest := Digits(n), unit + tail;
    DigitsThenRest(digits, rest);
    UnitOfRest(unit, tail);
    var text := digits + rest;
    assert text[..|digits|] == digits && text[|digits|..] == rest && rest[1..] == tail;
    assert text[0] == digits[0] && digits[0] in digits;
  }

  /** One printed part in front of a text that reads. */
  lemma PartReads(n: nat, unit: string, size: int, tail: string, value: int, text: string, total: int)
    requires Reads(tail, value) && UnitSize(unit, size)
    requires text == Part(n, unit) + tail && total == n * size + value
    ensures Reads(text, total) && (n > 0 || tail != "" ==> text != "")
  {
    PartIs(n, unit, tail);
    if n > 0 {
      TermReads(n, unit, size, tail, value);
    } else {
      assert text == tail && total == value;
    }
  }

  lemma PartIs(n: nat, unit: string, tail: string)
    ensures Part(n, unit) + tail == if n == 0 then tail else Digits(n) + (unit + tail)
    ensures n > 0 ==> Part(n, unit) + tail != ""
  {
  }

  lemma UnitOfRest(unit: string, tail: string)
    requires unit == "h" || unit == "m" || unit == "s"
    requires tail == "" || IsDigit(tail[0])
    ensures Unit(unit + tail) == Some((1, if unit == "h" then HOUR else if unit == "m" then MINUTE else SECOND))
  {
    var s := unit + tail;
    assert s[0] == unit[0];
    assert |s| > 1 ==> IsDigit(s[1]);
  }

  lemma MinutesRead(m: nat, s: nat, short: string, text: string, total: int)
    requires short == Part(s, "s") && text == Part(m, "m") + short
    requires total == m * MINUTE + s * SECOND
    ensures Reads(text, total) && (m + s > 0 ==> text != "")
  {
    assert short == short + "";
    PartReads(s, "s", SECOND, "", 0, short, s * SECOND);
    PartReads(m, "m", MINUTE, short, s * SECOND, text, total);
  }

  lemma PartsRead(h: nat, m: nat, s: nat, short: string, longer: string, text: string, total: int)
    requires h + m + s > 0 && total == h * HOUR + m * MINUTE + s * SECOND
    requires short == Part(s, "s") && longer == Part(m, "m") + short && text == Part(h, "h") + longer
    ensures Reads(text, total) && text != ""
  {
    var value := m * MINUTE + s * SECOND;
    MinutesRead(m, s, short, longer, value);
    PartReads(h, "h", HOUR, longer, value, text, total);
  }

  /** A clock text reads as its whole seconds. */
  lemma ClockReads(a: int)
    requires a >= SECOND
    ensures Reads(Clock(a), a / SECOND * SECOND) && Clock(a) != ""
  {
    var h, m, s := Hours(a), Minutes(a), Seconds(a);
    PartsOf(a);
    var short := Part(s, "s");
    var longer := Part(m, "m") + short;
    assert Clock(a) == Part(h, "h") + longer;
    PartsRead(h, m, s, short, longer, Clock(a), a / SECOND * SECOND);
  }

  /** The parts, and the whole seconds they make up. */
  lemma PartsOf(a: int)
    requires 0 <= a
    ensures Hours(a) >= 0 && 0 <= Minutes(a) < 60 && 0 <= Seconds(a) < 60
    ensures a / SECOND * SECOND == Hours(a) * HOUR + Minutes(a) * MINUTE + Seconds(a) * SECOND
  {
    var b := a - Hours(a) * HOUR;
    assert 0 <= b < HOUR;
    var c := b - Minutes(a) * MINUTE;
    assert 0 <= c < MINUTE;
    assert a / SECOND == Hours(a) * 3600 + Minutes(a) * 60 + c / SECOND;
  }

  lemma SignedReads(rounded: int, text: string)
    requires rounded != 0 && Reads(text, if rounded < 0 then -rounded else rounded) && text != ""
    ensures Parse(Sign(rounded) + text) == Some(rounded)
  {
    assert ("-" + text)[1..] == text;
    assert "" + text == text;
  }

  /** Below the limit Go's Round is the mathematical one. */
  lemma RoundIsExact(d: int64)
    requires -LIMIT < d < LIMIT
    ensures Round(d) == RoundHalfAway(d)
  {
    var a := if d < 0 then -d else d;
    var q, r := a / SECOND, a % SECOND;
    assert a == q * SECOND + r;
    if r + r < SECOND {
      assert (a + SECOND / 2) / SECOND == q;
    } else {
      assert (a + SECOND / 2) / SECOND == q + 1;
    }
  }

  /** At and beyond it Round saturates. */
  lemma RoundSaturates(d: int64)
    requires d <= -LIMIT || d >= LIMIT
    ensures Round(d) == if d < 0 then MIN64 else MAX64
  {
  }

  /** Round trip, exactly where it holds: the text of an int64 reads back as the duration rounded half
      away from zero if and only if the rounded value is representable. */
  lemma TextReadsBack(d: int)
    requires -0x8000_0000_0000_0000 <= d <= 0x7FFF_FFFF_FFFF_FFFF
    ensures Parse(Text(d)) == Some(RoundHalfAway(d)) <==> -9_223_372_036_500_000_000 < d < 9_223_372_036_500_000_000
  {
    if -LIMIT < d < LIMIT {
      RoundIsExact(d);
      TextOfExact(d);
    } else {
      RoundSaturates(d);
      if d < 0 {
        TextOfBottom(d);
      } else {
        TextOfTop(d, Round(d));
        TopRounds(d);
      }
    }
  }

  /** The rounded value: a whole number of seconds, within half a second of d, a tie going away from
      zero; no other number is. */
  lemma RoundedIsNearest(d: int, r: int)
    ensures r == RoundHalfAway(d) <==>
              r % 1_000_000_000 == 0
              && if d >= 0 then -1_000_000_000 < 2 * (r - d) <= 1_000_000_000
                 else -1_000_000_000 <= 2 * (r - d) < 1_000_000_000
  {
    var a := if d >= 0 then d else -d;
    var q := (a + 500_000_000) / 1_000_000_000;
    var k := r / 1_000_000_000;
    assert q * 1_000_000_000 <= a + 500_000_000 < q * 1_000_000_000 + 1_000_000_000;
  }

  lemma RoundedFits(d: int) returns (q: nat)
    requires -LIMIT < d < LIMIT
    ensures RoundHalfAway(d) == (if d < 0 then -1 else 1) * q * 1_000_000_000
    ensures MIN64 < RoundHalfAway(d) <= MAX64
  {
    q := ((if d >= 0 then d else -d) + SECOND / 2) / SECOND;
    assert q <= 9_223_372_036;
  }

  /** Toward zero to whole seconds. */
  function Truncated(a: int): int {
    if a < 0 then -(-a / SECOND * SECOND) else a / SECOND * SECOND
  }

  lemma MagnitudeFits(rounded: int)
    requires MIN64 < rounded <= MAX64
    ensures Magnitude(rounded) == if rounded < 0 then -rounded else rounded
  {
  }

  lemma MagnitudeReads(rounded: int)
    requires rounded >= SECOND || rounded <= -SECOND
    requires MIN64 < rounded <= MAX64
    ensures Parse(Sign(rounded) + Clock(Magnitude(rounded))) == Some(Truncated(rounded))
  {
    MagnitudeFits(rounded);
    var a := Magnitude(rounded);
    ClockReads(a);
    SignedClockReads(rounded, Clock(a), a / SECOND * SECOND);
  }

  lemma SignedClockReads(rounded: int, text: string, whole: int)
    requires whole > 0 && Reads(text, whole) && text != ""
    ensures Parse(Sign(rounded) + text) == Some(if rounded < 0 then -whole else whole)
  {
    SignedReads(if rounded < 0 then -whole else whole, text);
  }

  lemma TextReads(d: int64)
    requires Round(d) >= SECOND || MIN64 < Round(d) <= -SECOND
    ensures Parse(Text(d)) == Some(Truncated(Round(d)))
  {
    MagnitudeReads(Round(d));
  }

  lemma RoundedIsWhole(d: int)
    ensures Truncated(RoundHalfAway(d)) == RoundHalfAway(d)
    ensures RoundHalfAway(d) == 0 || RoundHalfAway(d) >= SECOND || RoundHalfAway(d) <= -SECOND
  {
  }

  lemma TextOfExact(d: int64)
    requires Round(d) == RoundHalfAway(d) && -LIMIT < d < LIMIT
    ensures Parse(Text(d)) == Some(RoundHalfAway(d))
  {
    var _ := RoundedFits(d);
    RoundedIsWhole(d);
    if Round(d) == 0 {
      PartsReadZero();
    } else {
      TextReads(d);
    }
  }

  lemma PartsReadZero()
    ensures Parse("0s") == Some(0)
  {
    assert LeadingDigits("s") == 0;
    assert "0s"[1..] == "s";
    assert "0s"[..1] == "0" && "0"[..0] == "";
    assert "s"[1..] == "";
    assert Value("0") == 0;
    assert Terms("") == Some(0);
    assert Unit("s") == Some((1, SECOND));
  }

  lemma TopRounds(d: int64)
    requires d >= LIMIT
    ensures RoundHalfAway(d) == 9_223_372_037 * SECOND && Truncated(MAX64) == 9_223_372_036 * SECOND
  {
  }

  /** Near the top the literal is a second short. */
  lemma TextOfTop(d: int64, rounded: int)
    requires d >= LIMIT && Round(d) == rounded == MAX64
    ensures Parse(Text(d)) == Some(Truncated(rounded))
  {
    TextReads(d);
  }

  /** Near the bottom it is a lone minus sign, which is no literal. */
  lemma TextOfBottom(d: int64)
    requires d <= -LIMIT && Round(d) == MIN64
    ensures Text(d) == "-" && Parse(Text(d)) == None
  {
    assert Magnitude(MIN64) == MIN64;
    assert Hours(MIN64) <= 0 && Minutes(MIN64) <= 0 && Seconds(MIN64) <= 0;
    assert "-"[1..] == "";
  }

  /** One printed part: a number without leading zeros and its unit, or nothing for zero. */
  ghost predicate IsPart(text: string, n: nat, unit: char) {
    if n == 0 then text == ""
    else
      && |text| > 1 && text[|text| - 1] == unit && text[0] != '0'
      && (forall c :: c in text[..|text| - 1] ==> IsDigit(c))
      && Value(text[..|text| - 1]) == n
  }

  lemma PartShape(n: nat, unit: char)
    ensures IsPart(Part(n, [unit]), n, unit)
  {
    if n > 0 {
      DigitsRead(n);
      var text := Part(n, [unit]);
      assert text[..|text| - 1] == Digits(n);
    }
  }

  lemma ClockOf(d: int) returns (h: nat, m: nat, s: nat)
    requires -LIMIT < d < LIMIT
    ensures m < 60 && s < 60
    ensures RoundHalfAway(d) == (if d < 0 then -1 else 1) * (h * 3600 + m * 60 + s) * 1_000_000_000
    ensures Text(d) == if h + m + s == 0 then "0s" else (if d < 0 then "-" else "") + Parts(h, m, s)
  {
    RoundIsExact(d);
    var q := RoundedFits(d);
    var a := q * SECOND;
    PartsOf(a);
    h, m, s := Hours(a), Minutes(a), Seconds(a);
    MagnitudeFits(RoundHalfAway(d));
    assert a / SECOND == q == h * 3600 + m * 60 + s;
  }

  /** The shape: hours, minutes and seconds in this order, each without leading zeros and left out if
      zero; minutes and seconds below sixty; "0s" for nothing; and a range that passed the one-hour
      check still prints at most one hour. */
  lemma TextShape(d: int) returns (h: nat, m: nat, s: nat, parts: (string, string, string))
    requires -9_223_372_036_500_000_000 < d < 9_223_372_036_500_000_000
    ensures m < 60 && s < 60
    ensures RoundHalfAway(d) == (if d < 0 then -1 else 1) * (h * 3600 + m * 60 + s) * 1_000_000_000
    ensures IsPart(parts.0, h, 'h') && IsPart(parts.1, m, 'm') && IsPart(parts.2, s, 's')
    ensures Text(d) == if h + m + s == 0 then "0s" else (if d < 0 then "-" else "") + (parts.0 + parts.1 + parts.2)
    ensures -1_000_000_000 <= 2 * (RoundHalfAway(d) - d) <= 1_000_000_000
    ensures d <= 3_600_000_000_000 ==> RoundHalfAway(d) <= 3_600_000_000_000
  {
    h, m, s := ClockOf(d);
    RoundedIsNearest(d, RoundHalfAway(d));
    parts := (Part(h, "h"), Part(m, "m"), Part(s, "s"));
    PartShape(h, 'h');
    PartShape(m, 'm');
    PartShape(s, 's');
  }

  /** Different rounded durations print differently. */
  lemma TextIsInjective(d: int, e: int)
    requires -9_223_372_036_500_000_000 < d < 9_223_372_036_500_000_000
    requires -9_223_372_036_500_000_000 < e < 9_223_372_036_500_000_000
    requires Text(d) == Text(e)
    ensures RoundHalfAway(d) == RoundHalfAway(e)
  {
    TextReadsBack(d);
    TextReadsBack(e);
  }
}
