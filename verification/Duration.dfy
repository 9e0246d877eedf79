/** The App Check token lifetime codec: milliseconds to protobuf duration text and back. */
module DurationCodec {
  import opened Clock
  import opened Text

  const TWO_63 := 0x8000_0000_0000_0000

  datatype Parsed = Millis(ms: int) | Invalid

  /** Seconds, and nine fractional digits when there is a positive remainder. */
  function MillisecondsToDurationString(ms: int): string {
    var seconds := TruncDiv(ms, 1000);
    var nanos := (ms - seconds * 1000) * 1_000_000;
    if nanos <= 0 then SignedDecimal(seconds) + "s"
    else
      PowNine();
      SignedDecimal(seconds) + "." + Padded(nanos, 9) + "s"
  }

  function ParseDurationToMillis(duration: string): Parsed {
    match ParseDuration(duration)
    case Amount(d) => Millis(TruncDiv(d, 1_000_000))
    case NotADuration => Invalid
  }

  datatype Amount = Amount(nanos: int) | NotADuration

  /** Signed text made of number-and-unit groups, as `time.ParseDuration` reads it. */
  function ParseDuration(s: string): Amount {
    var signed := s != "" && (s[0] == '-' || s[0] == '+');
    var neg := signed && s[0] == '-';
    var body := if signed then s[1..] else s;
    if body == "0" then Amount(0)
    else if body == "" then NotADuration
    else
      match Groups(body, 0)
      case NotADuration => NotADuration
      case Amount(d) => if neg then Amount(-d) else if d > TWO_63 - 1 then NotADuration else Amount(d)
  }

  /** Adds the groups of `s` to the magnitude `d` read so far. */
  function Groups(s: string, d: nat): (r: Amount)
    ensures r.Amount? ==> r.nanos >= 0
    decreases |s|
  {
    if s == "" then Amount(d)
    else
      match FirstGroup(s)
      case NoGroup => NotADuration
      case Group(amount, rest) => if d + amount > TWO_63 then NotADuration else Groups(rest, d + amount)
  }

  datatype Group = Group(amount: nat, rest: string) | NoGroup

  /** One number with its unit. */
  function FirstGroup(s: string): (g: Group)
    requires s != ""
    ensures g.Group? ==> |g.rest| < |s|
  {
    if !(s[0] == '.' || IsDigit(s[0])) then NoGroup
    else
      var n := DigitSpan(s);
      if n < |s| && s[n] == '.' then
        var tail := s[n + 1..];
        var m := DigitSpan(tail);
        if n == 0 && m == 0 then NoGroup
        else WithUnit(NatOf(s[..n]), Fraction(tail[..m], 0, 1), tail[m..])
      else
        WithUnit(NatOf(s[..n]), (0, 1), s[n..])
  }

  /** A whole part, a fraction (digits over their power of ten) and the text their unit starts. */
  function WithUnit(v: nat, fraction: (nat, nat), rest: string): (g: Group)
    requires fraction.1 > 0
    ensures g.Group? ==> |g.rest| < |rest|
  {
    var u := UnitSpan(rest);
    var unit := UnitNanos(rest[..u]);
    if v > TWO_63 || unit == 0 || v > TWO_63 / unit then NoGroup
    else
      var amount := v * unit + Scaled(fraction.0, unit, fraction.1);
      if fraction.0 > 0 && amount > TWO_63 then NoGroup else Group(amount, rest[u..])
  }

  function Scaled(f: nat, unit: nat, scale: nat): (r: nat)
    requires scale > 0
  {
    assert f * unit >= 0;
    f * unit / scale
  }

  lemma ScaledBySame(f: nat, unit: nat)
    requires unit > 0
    ensures f * unit / unit == f
  {
    MultipleMod(f, unit);
    var x := f * unit;
    assert x == (x / unit) * unit;
    MultipleBound(f - x / unit, unit);
  }

  /** Digits after the point, with their power of ten; digits that no longer fit are ignored. */
  function Fraction(digits: string, x: nat, scale: nat): (r: (nat, nat))
    requires AllDigits(digits) && scale > 0
    ensures r.1 > 0
    decreases |digits|
  {
    if digits == "" || x > (TWO_63 - 1) / 10 then (x, scale)
    else
      var y := x * 10 + DigitValue(digits[0]);
      if y > TWO_63 then (x, scale) else Fraction(digits[1..], y, scale * 10)
  }

  function UnitSpan(s: string): (n: nat)
    ensures n <= |s|
  {
    if s == "" || s[0] == '.' || IsDigit(s[0]) then 0 else 1 + UnitSpan(s[1..])
  }

  /** Nanoseconds in a unit; zero for a name that is not one. */
  function UnitNanos(u: string): nat {
    if u == "ns" then 1
    else if u == "us" then 1_000
    else if u == "ms" then MILLISECOND
    else if u == "s" then SECOND
    else if u == "m" then MINUTE
    else if u == "h" then HOUR
    else 0
  }

  lemma PowNine()
    ensures Pow10(9) == 1_000_000_000
  {
    assert Pow10(3) == 1_000;
    assert Pow10(6) == 1_000_000;
  }

  /** Reading at most nine digits one at a time gives the number they denote, over its power of ten. */
  lemma {:induction false} FractionIsNat(done: string, digits: string)
    requires AllDigits(done) && AllDigits(digits) && |done| + |digits| <= 9
    ensures Fraction(digits, NatOf(done), Pow10(|done|)) == (NatOf(done + digits), Pow10(|done| + |digits|))
    decreases |digits|
  {
    NatOfBound(done);
    PowGrows(|done|, 9);
    PowNine();
    if digits == "" {
      assert done + digits == done;
    } else {
      var done' := done + digits[..1];
      assert done'[..|done|] == done;
      assert done' + digits[1..] == done + digits;
      FractionIsNat(done', digits[1..]);
    }
  }

  lemma NineDigits(digits: string)
    requires AllDigits(digits) && |digits| == 9
    ensures NatOf(digits) < SECOND && Fraction(digits, 0, 1) == (NatOf(digits), SECOND)
  {
    hide Fraction, NatOf, Pow10;
    NatOfBound(digits);
    PowNine();
    NoDigits();
    FractionIsNat("", digits);
    assert "" + digits == digits;
  }

  lemma NoDigits()
    ensures NatOf("") == 0 && Pow10(0) == 1
  {
  }

  lemma NatOfBound(s: string)
    requires AllDigits(s)
    ensures NatOf(s) < Pow10(|s|)
  {}

  lemma PowGrows(j: nat, k: nat)
    requires j <= k
    ensures Pow10(j) <= Pow10(k)
  {}

  function SecondsAmount(seconds: nat, nanos: nat): Amount {
    if seconds * SECOND + nanos <= TWO_63 then Amount(seconds * SECOND + nanos) else NotADuration
  }

  lemma OneUnit(v: nat, fraction: (nat, nat))
    requires fraction.1 > 0 && fraction.0 < SECOND && (fraction.0 == 0 || fraction.1 == SECOND)
    ensures var g := WithUnit(v, fraction, "s");
      if v * SECOND + fraction.0 <= TWO_63 then g == Group(v * SECOND + fraction.0, "")
      else g.NoGroup? || (g.amount > TWO_63 && g.rest == "")
  {
    assert UnitSpan("s") == 1 && "s"[..1] == "s" && "s"[1..] == "";
    ScaledBySame(fraction.0, SECOND);
    assert Scaled(fraction.0, SECOND, fraction.1) == fraction.0;
  }

  /** A whole number of seconds. */
  lemma WholeGroup(seconds: nat)
    ensures Groups(Decimal(seconds) + "s", 0) == SecondsAmount(seconds, 0)
  {
    DigitSpanOfPrefix(Decimal(seconds), "s");
    OneUnit(seconds, (0, 1));
  }

  /** Seconds with nine fractional digits. */
  lemma FractionalGroup(seconds: nat, digits: string)
    requires AllDigits(digits) && |digits| == 9
    ensures Groups(Decimal(seconds) + "." + digits + "s", 0) == SecondsAmount(seconds, NatOf(digits))
  {
    hide WithUnit, Decimal, NatOf, Pow10, Fraction;
    var whole := Decimal(seconds);
    var s := whole + "." + digits + "s";
    DigitSpanOfPrefix(whole, "." + digits + "s");
    assert s == whole + ("." + digits + "s");
    assert s[|whole| + 1..] == digits + "s";
    DigitSpanOfPrefix(digits, "s");
    NineDigits(digits);
    OneUnit(seconds, (NatOf(digits), SECOND));
    assert FirstGroup(s) == WithUnit(seconds, (NatOf(digits), SECOND), "s");
  }

  /** Unsigned text that starts with a digit and ends in a unit is read as its groups. */
  lemma UnsignedText(text: string)
    requires text != "" && IsDigit(text[0]) && text[|text| - 1] == 's'
    ensures ParseDuration(text) == var a := Groups(text, 0);
      if a.Amount? && a.nanos > TWO_63 - 1 then NotADuration else a
  {}

  lemma NegativeText(text: string)
    requires text != "" && IsDigit(text[0]) && text[|text| - 1] == 's'
    ensures ParseDuration("-" + text) == var a := Groups(text, 0);
      if a.Amount? then Amount(-a.nanos) else a
  {
    assert ("-" + text)[1..] == text;
  }

  /** The millisecond counts that survive printing and parsing. */
  predicate Representable(ms: int) {
    0 <= ms <= 9_223_372_036_854 || (-9_223_372_036_000 <= ms < 0 && ms % 1000 == 0)
  }

  /** A count that is not negative is read back exactly, until its nanoseconds leave 64 bits. */
  lemma ParseOfPrintedPositive(ms: nat)
    ensures ParseDurationToMillis(MillisecondsToDurationString(ms))
         == if ms <= 9_223_372_036_854 then Millis(ms) else Invalid
  {
    hide Groups, Padded, Decimal, Pow10, NatOf;
    var seconds, nanos := ms / 1000, (ms - ms / 1000 * 1000) * 1_000_000;
    if nanos == 0 {
      WholeGroup(seconds);
      UnsignedText(Decimal(seconds) + "s");
    } else {
      PowNine();
      var digits := Padded(nanos, 9);
      FractionalGroup(seconds, digits);
      UnsignedText(Decimal(seconds) + "." + digits + "s");
    }
    assert seconds * SECOND + nanos == ms * 1_000_000;
  }

  /** Below zero the milliseconds that do not fill a second are not printed. */
  lemma ParseOfPrintedNegative(ms: int)
    requires ms < 0
    ensures ParseDurationToMillis(MillisecondsToDurationString(ms))
         == if (-ms) / 1000 <= 9_223_372_036 then Millis(-((-ms) / 1000 * 1000)) else Invalid
  {
    hide Groups, Decimal, NatOf;
    var seconds := (-ms) / 1000;
    var text := Decimal(seconds) + "s";
    WholeGroup(seconds);
    UnsignedText(text);
    NegativeText(text);
    assert MillisecondsToDurationString(ms) == if seconds == 0 then text else "-" + text;
  }

  /** Printing then parsing returns the same count exactly for the representable ones. */
  lemma RoundTripExactly(ms: int)
    ensures ParseDurationToMillis(MillisecondsToDurationString(ms)) == Millis(ms) <==> Representable(ms)
  {
    hide ParseDurationToMillis, MillisecondsToDurationString;
    if ms >= 0 { ParseOfPrintedPositive(ms); } else { ParseOfPrintedNegative(ms); }
  }

  // ----- Units -----

  /** The names of units, and how many nanoseconds each is. */
  predicate UnitIs(unit: string, nanos: nat) {
    || (unit == "ns" && nanos == 1) || (unit == "us" && nanos == 1_000) || (unit == "ms" && nanos == 1_000_000)
    || (unit == "s" && nanos == 1_000_000_000) || (unit == "m" && nanos == 60 * 1_000_000_000)
    || (unit == "h" && nanos == 3_600 * 1_000_000_000)
  }

  /** A number of one unit is read as that many nanoseconds, with its sign, as far as they fit in 64 bits. */
  lemma NumberOfUnits(n: nat, unit: string, nanos: nat)
    requires UnitIs(unit, nanos) && n * nanos <= MAX_INT64
    ensures ParseDuration(Decimal(n) + unit) == Amount(n * nanos)
    ensures ParseDuration("-" + Decimal(n) + unit) == Amount(-(n * nanos))
  {
    hide UnitIs, Groups, ParseDuration;
    var s := Decimal(n) + unit;
    NumberOfUnitsGroup(n, unit, nanos);
    UnitHasNoDigits(unit, nanos);
    assert |s| > 1 && s[0] == Decimal(n)[0];
    hide Decimal;
    assert "-" + Decimal(n) + unit == "-" + s;
    SignAside(s);
  }

  /** Text that starts with a digit, with and without a minus. */
  lemma SignAside(s: string)
    requires |s| > 1 && IsDigit(s[0]) && Groups(s, 0).Amount? && Groups(s, 0).nanos <= MAX_INT64
    ensures ParseDuration(s) == Groups(s, 0) && ParseDuration("-" + s) == Amount(-Groups(s, 0).nanos)
  {
    hide Groups;
    assert ("-" + s)[1..] == s && ("-" + s)[0] == '-';
    assert s != "0" && s != "";
  }

  lemma UnitHasNoDigits(unit: string, nanos: nat)
    requires UnitIs(unit, nanos)
    ensures UnitSpan(unit) == |unit| && unit != "" && !IsDigit(unit[0]) && unit[0] != '.'
    ensures UnitNanos(unit) == nanos > 0
  {
    assert |unit| <= 2;
    if |unit| == 2 { assert unit[1..][1..] == ""; }
  }

  lemma NumberOfUnitsGroup(n: nat, unit: string, nanos: nat)
    requires UnitIs(unit, nanos) && n * nanos <= MAX_INT64
    ensures Groups(Decimal(n) + unit, 0) == Amount(n * nanos)
  {
    hide UnitIs, UnitNanos, DigitSpan, UnitSpan, Decimal, NatOf;
    var s := Decimal(n) + unit;
    UnitHasNoDigits(unit, nanos);
    DigitSpanOfPrefix(Decimal(n), unit);
    FitsUnit(n, nanos);
    assert unit[..|unit|] == unit && unit[|unit|..] == "";
    assert Fraction("", 0, 1) == (0, 1);
    hide Fraction;
    assert WithUnit(n, (0, 1), unit) == Group(n * nanos, "");
    assert FirstGroup(s) == WithUnit(n, (0, 1), unit);
    assert Groups("", n * nanos) == Amount(n * nanos);
  }

  lemma FitsUnit(n: nat, nanos: nat)
    requires nanos > 0 && n * nanos <= MAX_INT64
    ensures n <= TWO_63 && n <= TWO_63 / nanos && Scaled(0, nanos, 1) == 0
  {
    if n > 0 && nanos > 1 { MultipleBound(nanos - 1, n); }
    assert n * nanos == (nanos - 1) * n + n;
    var q := TWO_63 / nanos;
    assert TWO_63 < (q + 1) * nanos;
    if n > q + 1 { MultipleBound(n - q - 1, nanos); }
    assert n * nanos == (q + 1) * nanos + (n - q - 1) * nanos;
  }

  /** A lone zero needs no unit. */
  lemma LoneZero()
    ensures ParseDuration("0") == ParseDuration("-0") == ParseDuration("+0") == Amount(0)
  {
    hide Groups;
    assert "-0"[1..] == "0" && "+0"[1..] == "0";
  }

  /** Any other text without a number and its unit is no duration. */
  lemma Refused(s: string)
    requires s == "" || !(s[0] in {'-', '+', '.'} || IsDigit(s[0]))
    ensures ParseDuration(s) == ParseDuration("-" + s) == ParseDuration("+" + s) == NotADuration
  {
    assert ("-" + s)[1..] == s && ("+" + s)[1..] == s;
    assert s != "0";
  }

  /** A number must be followed by a unit. */
  lemma NoUnit(n: nat, rest: string)
    requires n > 0 && (rest == "" || !IsDigit(rest[0])) && UnitNanos(rest[..UnitSpan(rest)]) == 0 && !("." <= rest)
    ensures ParseDuration(Decimal(n) + rest) == NotADuration
  {
    hide NatOf;
    var s := Decimal(n) + rest;
    DigitSpanOfPrefix(Decimal(n), rest);
    assert s[|Decimal(n)|..] == rest;
    assert s[0] == Decimal(n)[0];
  }
}
