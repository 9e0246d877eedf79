/**
Text as the gateway handles it: sequences of one-byte characters. Case mapping
and trimming cover the ASCII letters and the ASCII white space.
*/
module Text {

  predicate IsDigit(c: char) {
    '0' <= c <= '9'
  }

  predicate AllDigits(s: string) {
    forall i :: 0 <= i < |s| ==> IsDigit(s[i])
  }

  function DigitChar(d: nat): (c: char)
    requires d < 10
    ensures IsDigit(c) && DigitValue(c) == d
  {
    '0' + (d as char)
  }

  function DigitValue(c: char): (d: nat)
    requires IsDigit(c)
    ensures d < 10
  {
    c as int - '0' as int
  }

  /** The number a digit string denotes. */
  function NatOf(s: string): nat
    requires AllDigits(s)
  {
    if s == "" then 0 else NatOf(s[..|s| - 1]) * 10 + DigitValue(s[|s| - 1])
  }

  /** Decimal text without leading zeros, as `%d` prints it. */
  function Decimal(n: nat): (s: string)
    ensures s != "" && AllDigits(s) && NatOf(s) == n
  {
    if n < 10 then [DigitChar(n)] else Decimal(n / 10) + [DigitChar(n % 10)]
  }

  /** Decimal text of a possibly negative number. */
  function SignedDecimal(n: int): string {
    if n < 0 then "-" + Decimal(-n) else Decimal(n)
  }

  /** Exactly `width` digits with leading zeros, as `%0<width>d` prints a number that fits. */
  function Padded(n: nat, width: nat): (s: string)
    requires n < Pow10(width)
    ensures |s| == width && AllDigits(s) && NatOf(s) == n
  {
    if width == 0 then "" else Padded(n / 10, width - 1) + [DigitChar(n % 10)]
  }

  function Pow10(k: nat): (p: nat)
    ensures p > 0
  {
    if k == 0 then 1 else 10 * Pow10(k - 1)
  }

  /** How many leading characters are digits. */
  function DigitSpan(s: string): (n: nat)
    ensures n <= |s| && AllDigits(s[..n])
    ensures n < |s| ==> !IsDigit(s[n])
  {
    if s == "" || !IsDigit(s[0]) then 0
    else
      var n := DigitSpan(s[1..]);
      assert forall i :: 1 <= i <= n ==> s[i] == s[1..][..n][i - 1];
      n + 1
  }

  /** Digits followed by something that is not a digit are split exactly there. */
  lemma {:induction false} DigitSpanOfPrefix(digits: string, rest: string)
    requires AllDigits(digits)
    requires rest == "" || !IsDigit(rest[0])
    ensures DigitSpan(digits + rest) == |digits|
    ensures (digits + rest)[..|digits|] == digits && (digits + rest)[|digits|..] == rest
  {
    DigitSpanStep(digits + rest);
    hide DigitSpan;
    if digits == "" {
      assert digits + rest == rest;
    } else {
      DigitSpanOfPrefix(digits[1..], rest);
      assert (digits + rest)[1..] == digits[1..] + rest;
    }
  }

  lemma DigitSpanStep(s: string)
    ensures DigitSpan(s) == if s == "" || !IsDigit(s[0]) then 0 else DigitSpan(s[1..]) + 1
  {
  }

  predicate IsSpace(c: char) {
    c == ' ' || '\t' <= c <= '\r'
  }

  /** `strings.TrimSpace`. */
  function TrimSpace(s: string): (t: string)
    ensures t == "" || (!IsSpace(t[0]) && !IsSpace(t[|t| - 1]))
    ensures |t| <= |s|
  {
    if s == "" then ""
    else if IsSpace(s[0]) then TrimSpace(s[1..])
    else if IsSpace(s[|s| - 1]) then TrimSpace(s[..|s| - 1])
    else s
  }

  function UpperChar(c: char): char {
    if 'a' <= c <= 'z' then c - 'a' + 'A' else c
  }

  function LowerChar(c: char): char {
    if 'A' <= c <= 'Z' then c - 'A' + 'a' else c
  }

  /** `strings.ToUpper` and `strings.ToLower`, character by character. */
  function ToUpper(s: string): string {
    seq(|s|, i requires 0 <= i < |s| => UpperChar(s[i]))
  }

  function ToLower(s: string): string {
    seq(|s|, i requires 0 <= i < |s| => LowerChar(s[i]))
  }

  lemma TrimmedStays(t: string)
    requires t == "" || (!IsSpace(t[0]) && !IsSpace(t[|t| - 1]))
    ensures TrimSpace(t) == t
  {
  }

  /** Trimming and case folding settle after one application. */
  lemma TrimUpperSettles(s: string)
    ensures TrimSpace(TrimSpace(s)) == TrimSpace(s)
    ensures ToUpper(TrimSpace(ToUpper(TrimSpace(s)))) == ToUpper(TrimSpace(s))
    ensures ToLower(TrimSpace(ToLower(TrimSpace(s)))) == ToLower(TrimSpace(s))
  {
    var t := TrimSpace(s);
    var u, l := ToUpper(t), ToLower(t);
    TrimmedStays(t);
    assert t != "" ==> IsSpace(u[0]) == IsSpace(t[0]) && IsSpace(u[|u| - 1]) == IsSpace(t[|t| - 1]);
    assert t != "" ==> IsSpace(l[0]) == IsSpace(t[0]) && IsSpace(l[|l| - 1]) == IsSpace(t[|t| - 1]);
    assert ToUpper(u) == u;
    assert ToLower(l) == l;
    TrimmedStays(u);
    TrimmedStays(l);
    hide TrimSpace, ToUpper, ToLower, IsSpace;
  }

  predicate White(c: char) {
    c == ' ' || 9 <= c as int <= 13
  }

  predicate AllWhite(s: string) {
    forall i :: 0 <= i < |s| ==> White(s[i])
  }

  /** Trimming takes white space off both ends, and nothing else; what is left neither starts nor ends with any. */
  lemma {:induction false} TrimSpaceTrims(s: string) returns (before: string, after: string)
    ensures s == before + TrimSpace(s) + after
    ensures AllWhite(before) && AllWhite(after)
    ensures TrimSpace(s) != "" ==> !White(TrimSpace(s)[0]) && !White(TrimSpace(s)[|TrimSpace(s)| - 1])
  {
    TrimStep(s);
    hide TrimSpace, AllWhite, White;
    before, after := "", "";
    if s != "" && White(s[0]) {
      before, after := TrimSpaceTrims(s[1..]);
      MoreWhite(before, s[0]);
      before := [s[0]] + before;
    } else if s != "" && White(s[|s| - 1]) {
      before, after := TrimSpaceTrims(s[..|s| - 1]);
      MoreWhite(after, s[|s| - 1]);
      after := after + [s[|s| - 1]];
    } else {
      assert AllWhite("") by { NoneWhite(); }
    }
  }

  lemma NoneWhite()
    ensures AllWhite("")
  {
  }

  lemma MoreWhite(s: string, c: char)
    requires AllWhite(s) && White(c)
    ensures AllWhite([c] + s) && AllWhite(s + [c])
  {
  }

  lemma TrimStep(s: string)
    ensures TrimSpace(s) == if s == "" then "" else if White(s[0]) then TrimSpace(s[1..])
      else if White(s[|s| - 1]) then TrimSpace(s[..|s| - 1]) else s
  {
  }

  predicate IsUpper(c: char) {
    65 <= c as int <= 90
  }

  predicate IsLower(c: char) {
    97 <= c as int <= 122
  }

  /** Case mapping changes letters of the other case, by the same distance, and nothing else. */
  lemma CaseMapping(s: string, i: nat)
    requires i < |s|
    ensures |ToLower(s)| == |ToUpper(s)| == |s|
    ensures ToLower(s)[i] as int == s[i] as int + if IsUpper(s[i]) then 32 else 0
    ensures ToUpper(s)[i] as int == s[i] as int - if IsLower(s[i]) then 32 else 0
  {
  }

  /** Folding to upper case tells apart what folding to lower case does. */
  lemma SameFolded(s: string, t: string)
    ensures ToUpper(s) == ToUpper(t) <==> ToLower(s) == ToLower(t)
  {
    if |s| == |t| {
      forall i | 0 <= i < |s| ensures ToUpper(s)[i] == ToUpper(t)[i] <==> ToLower(s)[i] == ToLower(t)[i] {
        SameFoldedChar(s[i], t[i]);
      }
    } else {
      assert |ToUpper(s)| != |ToUpper(t)| && |ToLower(s)| != |ToLower(t)|;
    }
  }

  lemma SameFoldedChar(c: char, d: char)
    ensures UpperChar(c) == UpperChar(d) <==> LowerChar(c) == LowerChar(d)
  {
    assert UpperChar(c) as int == c as int - if 'a' <= c <= 'z' then 32 else 0;
    assert UpperChar(d) as int == d as int - if 'a' <= d <= 'z' then 32 else 0;
    assert LowerChar(c) as int == c as int + if 'A' <= c <= 'Z' then 32 else 0;
    assert LowerChar(d) as int == d as int + if 'A' <= d <= 'Z' then 32 else 0;
  }

  predicate StandsAt(part: string, s: string, i: int) {
    0 <= i <= |s| - |part| && s[i..i + |part|] == part
  }

  /** `part` stands somewhere in `s`. */
  predicate Occurs(part: string, s: string) {
    exists i :: 0 <= i <= |s| && StandsAt(part, s, i)
  }

  lemma ContainsExactly(s: string, part: string)
    ensures Contains(s, part) <==> Occurs(part, s)
  {
    if i :| 0 <= i <= |s| - |part| && s[i..][..|part|] == part {
      assert s[i..][..|part|] == s[i..i + |part|];
      assert StandsAt(part, s, i);
    }
    if i :| 0 <= i <= |s| && StandsAt(part, s, i) {
      assert s[i..][..|part|] == s[i..i + |part|];
    }
  }

  lemma PartIsWithin(part: string, s: string, c: char)
    requires Occurs(part, s) && c in part
    ensures c in s
  {
    var i :| 0 <= i <= |s| && StandsAt(part, s, i);
    var j :| 0 <= j < |part| && part[j] == c;
    assert s[i..i + |part|][j] == s[i + j];
  }

  /** A text that lacks one of its characters has no room for a part. */
  lemma LacksPart(part: string, s: string, c: char)
    requires c in part && c !in s
    ensures !Occurs(part, s)
  {
    if Occurs(part, s) { PartIsWithin(part, s, c); }
  }

  predicate Contains(s: string, part: string) {
    exists i :: 0 <= i <= |s| - |part| && s[i..][..|part|] == part
  }

  predicate HasPrefix(s: string, prefix: string) {
    prefix <= s
  }

  /** The first `max` bytes of a text that is longer than that. */
  function Truncate(value: string, max: int): (t: string)
    ensures t <= value
    ensures max > 0 ==> |t| <= max
  {
    if max <= 0 || |value| <= max then value else value[..max]
  }
}
