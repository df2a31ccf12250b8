/** Amounts as decimal strings and as base units (packages/shared/src/money/index.ts:9-31). */
module Money {
  import opened Options

  const DECIMALS: nat := 6
  const SCALE: nat := 1_000_000

  // ---------- numbers as text ----------

  function DigitChar(d: nat): char
    requires d < 10
  {
    "0123456789"[d]
  }

  function Digits(n: nat): string {
    if n < 10 then [DigitChar(n)] else Digits(n / 10) + [DigitChar(n % 10)]
  }

  /** `toString()`. */
  function ToText(n: int): string {
    if n < 0 then "-" + Digits(-n) else Digits(n)
  }

  /** The value of one digit, in bases up to sixteen. */
  function CharValue(c: char): nat {
    if '0' <= c <= '9' then c as nat - '0' as nat
    else if 'a' <= c <= 'f' then c as nat - 'a' as nat + 10
    else if 'A' <= c <= 'F' then c as nat - 'A' as nat + 10
    else 16
  }

  /** A sequence of digits of a base, read on from `acc`. */
  function ReadIn(s: string, base: nat, acc: nat): Option<nat> {
    if s == "" then Some(acc)
    else if CharValue(s[0]) < base then ReadIn(s[1..], base, acc * base + CharValue(s[0]))
    else None
  }

  predicate IsSpace(c: char) {
    c == ' ' || c == '\t' || c == '\n' || c == '\r' || c == '\U{000B}' || c == '\U{000C}' || c == '\U{00A0}'
  }

  function TrimLeft(s: string): string {
    if s != "" && IsSpace(s[0]) then TrimLeft(s[1..]) else s
  }

  function TrimRight(s: string): string {
    if s != "" && IsSpace(s[|s| - 1]) then TrimRight(s[..|s| - 1]) else s
  }

  /** The base a literal's prefix asks for. */
  function PrefixBase(s: string): Option<nat> {
    if |s| <= 2 || s[0] != '0' then None
    else if s[1] == 'x' || s[1] == 'X' then Some(16)
    else if s[1] == 'o' || s[1] == 'O' then Some(8)
    else if s[1] == 'b' || s[1] == 'B' then Some(2)
    else None
  }

  /** `BigInt(string)`; `None` is a thrown SyntaxError. */
  function BigIntOf(s: string): Option<int> {
    var t := TrimRight(TrimLeft(s));
    if t == "" then Some(0)
    else if PrefixBase(t).Some? then Widened(ReadIn(t[2..], PrefixBase(t).value, 0), false)
    else if t[0] == '-' || t[0] == '+' then
      if |t| == 1 then None else Widened(ReadIn(t[1..], 10, 0), t[0] == '-')
    else Widened(ReadIn(t, 10, 0), false)
  }

  function Widened(n: Option<nat>, negative: bool): Option<int> {
    if n.None? then None else Some(if negative then -(n.value as int) else n.value as int)
  }

  // ---------- the two functions ----------

  /** Division and remainder of big integers truncate toward zero. */
  function Quotient(u: int): int {
    if u >= 0 then u / SCALE else -((-u) / SCALE)
  }

  function Remainder(u: int): int {
    if u >= 0 then u % SCALE else -((-u) % SCALE)
  }

  function Zeros(n: nat): (z: string)
    ensures |z| == n && forall i :: 0 <= i < n ==> z[i] == '0'
  {
    if n == 0 then "" else Zeros(n - 1) + "0"
  }

  function PadStart(s: string): (p: string)
    ensures |p| >= DECIMALS
  {
    if |s| >= DECIMALS then s else Zeros(DECIMALS - |s|) + s
  }

  /** `replace(/0+$/, '')`. */
  function WithoutTrailingZeros(s: string): string {
    if s != "" && s[|s| - 1] == '0' then WithoutTrailingZeros(s[..|s| - 1]) else s
  }

  function FormatAmount(u: int): string {
    var fraction := WithoutTrailingZeros(PadStart(ToText(Remainder(u))));
    if fraction == "" then ToText(Quotient(u)) else ToText(Quotient(u)) + "." + fraction
  }

  /** The part of a string before its first dot, and the part after it, if there is one. */
  function BeforeDot(s: string): string {
    if s == "" || s[0] == '.' then "" else [s[0]] + BeforeDot(s[1..])
  }

  function AfterDot(s: string): Option<string> {
    if s == "" then None else if s[0] == '.' then Some(s[1..]) else AfterDot(s[1..])
  }

  /** The first two parts of `split('.')`; further parts are dropped. */
  function Fraction(s: string): string {
    var rest := AfterDot(s);
    if rest.None? then "" else BeforeDot(rest.value)
  }

  function Padded(fraction: string): string {
    (fraction + Zeros(DECIMALS))[..DECIMALS]
  }

  function ParseAmount(s: string): Option<int> {
    var whole := BigIntOf(BeforeDot(s));
    var fraction := BigIntOf(Padded(Fraction(s)));
    if whole.None? || fraction.None? then None else Some(whole.value * SCALE + fraction.value)
  }

  // ---------- reading back digits ----------

  predicate IsDigit(c: char) {
    '0' <= c <= '9'
  }

  predicate AllDigits(s: string) {
    forall i :: 0 <= i < |s| ==> IsDigit(s[i])
  }

  lemma DigitBack(d: nat)
    requires d < 10
    ensures IsDigit(DigitChar(d)) && CharValue(DigitChar(d)) == d
  {
  }

  lemma {:induction false} DigitsAre(n: nat)
    ensures AllDigits(Digits(n)) && |Digits(n)| >= 1
    ensures n > 0 ==> exists i :: 0 <= i < |Digits(n)| && Digits(n)[i] != '0'
  {
    if n >= 10 {
      DigitsAre(n / 10);
      DigitBack(n % 10);
      var i :| 0 <= i < |Digits(n / 10)| && Digits(n / 10)[i] != '0';
      assert Digits(n)[i] != '0';
    } else {
      DigitBack(n);
      assert Digits(n)[0] == DigitChar(n);
    }
  }

  lemma {:induction false} ReadSnoc(s: string, c: char, acc: nat)
    requires AllDigits(s) && IsDigit(c)
    ensures ReadIn(s, 10, acc).Some?
    ensures ReadIn(s + [c], 10, acc) == Some(ReadIn(s, 10, acc).value * 10 + CharValue(c))
    decreases |s|
  {
    if s != "" {
      ReadSnoc(s[1..], c, acc * 10 + CharValue(s[0]));
      assert (s + [c])[1..] == s[1..] + [c];
    } else {
      assert (s + [c])[1..] == "";
    }
  }

  lemma {:induction false} DigitsBack(n: nat)
    ensures ReadIn(Digits(n), 10, 0) == Some(n)
  {
    DigitsAre(n);
    DigitBack(n % 10);
    if n >= 10 {
      DigitsBack(n / 10);
      DigitsAre(n / 10);
      ReadSnoc(Digits(n / 10), DigitChar(n % 10), 0);
    } else {
      assert Digits(n)[1..] == "";
    }
  }

  lemma {:induction false} LeadingZeros(n: nat, s: string)
    ensures ReadIn(Zeros(n) + s, 10, 0) == ReadIn(s, 10, 0)
  {
    if n > 0 {
      LeadingZeros(n - 1, "0" + s);
      assert Zeros(n) + s == Zeros(n - 1) + ("0" + s);
      assert ("0" + s)[1..] == s;
    } else {
      assert Zeros(0) + s == s;
    }
  }

  lemma Trims(s: string)
    requires s != "" && !IsSpace(s[0]) && !IsSpace(s[|s| - 1])
    ensures TrimRight(TrimLeft(s)) == s
  {
  }

  /** Digits, with or without a minus sign, read as the number they say. */
  lemma PlainNumber(s: string)
    requires s != "" && AllDigits(s)
    ensures BigIntOf(s) == Widened(ReadIn(s, 10, 0), false)
    ensures BigIntOf("-" + s) == Widened(ReadIn(s, 10, 0), true)
  {
    Trims(s);
    Trims("-" + s);
    assert ("-" + s)[1..] == s;
    hide TrimLeft, TrimRight, ReadIn;
  }

  lemma NumberBack(n: int)
    ensures BigIntOf(ToText(n)) == Some(n)
    ensures forall i :: 0 <= i < |ToText(n)| ==> ToText(n)[i] != '.'
  {
    var m: nat := if n < 0 then -n else n;
    DigitsAre(m);
    DigitsBack(m);
    PlainNumber(Digits(m));
    hide BigIntOf, Digits, ReadIn;
  }

  // ---------- splitting and padding back ----------

  lemma {:induction false} SplitBack(whole: string, fraction: string)
    requires forall i :: 0 <= i < |whole| ==> whole[i] != '.'
    ensures BeforeDot(whole) == whole && AfterDot(whole).None?
    ensures BeforeDot(whole + "." + fraction) == whole && AfterDot(whole + "." + fraction) == Some(fraction)
    decreases |whole|
  {
    var s := whole + "." + fraction;
    if whole != "" {
      SplitBack(whole[1..], fraction);
      assert s[1..] == whole[1..] + "." + fraction;
      assert whole == [whole[0]] + whole[1..];
    } else {
      assert s[1..] == fraction;
    }
  }

  lemma {:induction false} TrailingZeros(s: string)
    ensures |WithoutTrailingZeros(s)| <= |s|
    ensures s == WithoutTrailingZeros(s) + Zeros(|s| - |WithoutTrailingZeros(s)|)
    decreases |s|
  {
    if s != "" && s[|s| - 1] == '0' {
      var front := s[..|s| - 1];
      TrailingZeros(front);
      assert s == front + "0";
    }
  }

  /** Stripping trailing zeros and padding again restores the first six places. */
  lemma PaddedBack(s: string)
    requires |s| >= DECIMALS
    ensures Padded(WithoutTrailingZeros(s)) == s[..DECIMALS]
  {
    hide WithoutTrailingZeros, Zeros;
    TrailingZeros(s);
    SamePlaces(s, WithoutTrailingZeros(s));
  }

  lemma SamePlaces(s: string, t: string)
    requires |s| >= DECIMALS && |t| <= |s| && s == t + Zeros(|s| - |t|)
    ensures Padded(t) == s[..DECIMALS]
  {
    hide Zeros;
    forall i | 0 <= i < DECIMALS ensures Padded(t)[i] == s[i] {
      PlaceOf(t, DECIMALS, i);
      PlaceOf(t, |s| - |t|, i);
    }
  }

  lemma PlaceOf(t: string, n: nat, i: nat)
    requires i < |t| + n
    ensures (t + Zeros(n))[i] == if i < |t| then t[i] else '0'
  {
    hide Zeros;
  }

  /** A string without dots has no fraction part, and one with a dot has what follows it. */
  lemma PartsBack(whole: string, fraction: string)
    requires forall i :: 0 <= i < |whole| ==> whole[i] != '.'
    requires forall i :: 0 <= i < |fraction| ==> fraction[i] != '.'
    ensures BeforeDot(whole) == whole && Fraction(whole) == ""
    ensures BeforeDot(whole + "." + fraction) == whole && Fraction(whole + "." + fraction) == fraction
  {
    hide BeforeDot, AfterDot;
    SplitBack(whole, fraction);
    SplitBack(fraction, "");
  }

  /** The padded fraction has no dot, and neither has what is left of it without its trailing zeros. */
  lemma NoDots(n: int)
    ensures var f := WithoutTrailingZeros(PadStart(ToText(n))); forall i :: 0 <= i < |f| ==> f[i] != '.'
  {
    hide WithoutTrailingZeros, Zeros, ToText, BigIntOf;
    NumberBack(n);
    var p := PadStart(ToText(n));
    TrailingZeros(p);
    var f := WithoutTrailingZeros(p);
    forall i | 0 <= i < |f| ensures f[i] != '.' { assert f[i] == p[i]; }
  }

  /** What parsing a formatted amount comes to: its whole part, and the first six places of its padded fraction. */
  lemma ParseFormatted(u: int)
    ensures ParseAmount(FormatAmount(u)) ==
      var fraction := BigIntOf(PadStart(ToText(Remainder(u)))[..DECIMALS]);
      if fraction.None? then None else Some(Quotient(u) * SCALE + fraction.value)
  {
    hide ToText, BigIntOf, PadStart, WithoutTrailingZeros, BeforeDot, Fraction, Quotient, Remainder, Padded;
    var padded := PadStart(ToText(Remainder(u)));
    NumberBack(Quotient(u));
    PaddedBack(padded);
    NoDots(Remainder(u));
    PartsBack(ToText(Quotient(u)), WithoutTrailingZeros(padded));
  }

  // ---------- the round trip ----------

  lemma {:induction false} DigitsLength(n: nat, k: nat)
    requires k > 0
    ensures |Digits(n)| <= k <==> n < Power(k)
  {
    if n >= 10 && k > 1 { DigitsLength(n / 10, k - 1); }
    PowerPositive(k - 1);
  }

  function Power(k: nat): nat {
    if k == 0 then 1 else 10 * Power(k - 1)
  }

  lemma {:induction false} PowerPositive(k: nat)
    ensures Power(k) >= 1
  {
    if k > 0 { PowerPositive(k - 1); }
  }

  lemma DigitCounts(r: nat)
    ensures |Digits(r)| <= 4 <==> r < 10_000
    ensures |Digits(r)| <= 5 <==> r < 100_000
    ensures |Digits(r)| <= 6 <==> r < 1_000_000
  {
    DigitsLength(r, 4);
    DigitsLength(r, 5);
    DigitsLength(r, 6);
    assert Power(3) == 1000 && Power(4) == 10_000 && Power(5) == 100_000 && Power(6) == 1_000_000;
  }

  /** A remainder of a non-negative amount, padded, reads as itself. */
  lemma PositiveFraction(r: nat)
    requires r < SCALE
    ensures BigIntOf(PadStart(ToText(r))[..DECIMALS]) == Some(r)
  {
    var d := Digits(r);
    DigitCounts(r);
    DigitsAre(r);
    DigitsBack(r);
    var padded := Zeros(DECIMALS - |d|) + d;
    LeadingZeros(DECIMALS - |d|, d);
    assert PadStart(d) == padded && padded[..DECIMALS] == padded;
    assert AllDigits(padded);
    PlainNumber(padded);
    hide Digits, BigIntOf, Zeros, ReadIn;
  }

  /** Every non-negative amount survives formatting and parsing. */
  lemma RoundTrip(u: nat)
    ensures ParseAmount(FormatAmount(u)) == Some(u)
  {
    hide BigIntOf, PadStart, ToText, ParseAmount, FormatAmount;
    ParseFormatted(u);
    PositiveFraction(u % SCALE);
  }

  /** Reading stops at a character that is no digit. */
  lemma {:induction false} NotDigits(s: string, i: nat, acc: nat)
    requires i < |s| && CharValue(s[i]) >= 10
    ensures ReadIn(s, 10, acc).None?
    decreases i
  {
    if i > 0 && CharValue(s[0]) < 10 { NotDigits(s[1..], i - 1, acc * 10 + CharValue(s[0])); }
  }

  /** A sign behind padding zeros is no number. */
  lemma SmallFraction(r: int)
    requires 0 < r < 10_000
    ensures BigIntOf(PadStart(ToText(-r))[..DECIMALS]).None?
  {
    hide Digits, ReadIn, Zeros, TrimLeft, TrimRight;
    var d := Digits(r);
    DigitCounts(r);
    DigitsAre(r);
    var k := DECIMALS - 1 - |d|;
    var padded := Zeros(k) + ("-" + d);
    assert PadStart(ToText(-r)) == padded && padded[..DECIMALS] == padded;
    assert padded[0] == '0' && padded[k] == '-' && IsDigit(padded[|padded| - 1]);
    assert padded[1] == '0' || padded[1] == '-';
    Trims(padded);
    NotDigits(padded, k, 0);
  }

  /** A sign and five digits fit the six places exactly. */
  lemma FiveDigitFraction(r: int)
    requires 10_000 <= r < 100_000
    ensures BigIntOf(PadStart(ToText(-r))[..DECIMALS]) == Some(-r)
  {
    var d := Digits(r);
    DigitCounts(r);
    DigitsAre(r);
    DigitsBack(r);
    PlainNumber(d);
    assert ("-" + d)[..DECIMALS] == "-" + d;
    hide Digits, BigIntOf, ReadIn;
  }

  /** Six digits lose the last one to the sign. */
  lemma SixDigitFraction(r: int)
    requires 100_000 <= r < SCALE
    ensures BigIntOf(PadStart(ToText(-r))[..DECIMALS]) == Some(-(r / 10))
  {
    var d := Digits(r);
    DigitCounts(r);
    DigitsAre(r / 10);
    DigitsBack(r / 10);
    PlainNumber(Digits(r / 10));
    assert d == Digits(r / 10) + [DigitChar(r % 10)];
    assert ("-" + d)[..DECIMALS] == "-" + Digits(r / 10);
    hide Digits, BigIntOf, ReadIn;
  }

  /** Formatting is for display, and of negative amounts only some survive it: those of whole units, and those whose
      fraction has exactly five significant places. Shorter fractions do not parse, longer ones parse as another
      amount. */
  lemma NegativeRoundTrip(u: int)
    requires u < 0
    ensures var r := (-u) % SCALE;
      && (ParseAmount(FormatAmount(u)) == Some(u) <==> r == 0 || 10_000 <= r < 100_000)
      && (ParseAmount(FormatAmount(u)).None? <==> 0 < r < 10_000)
  {
    hide BigIntOf, PadStart, ToText, ParseAmount, FormatAmount;
    var r := (-u) % SCALE;
    ParseFormatted(u);
    if r == 0 {
      PositiveFraction(0);
    } else if r < 10_000 {
      SmallFraction(r);
    } else if r < 100_000 {
      FiveDigitFraction(r);
    } else {
      SixDigitFraction(r);
    }
  }
}
