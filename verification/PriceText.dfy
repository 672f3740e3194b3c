/**
 * Price text across three packages: the admin form that accepts and normalises it, the API that parses it, and the shop
 * that prints it. Numbers are exact: beyond 2^53 the source rounds, but such values are far above every accepted price.
 */
module PriceText {
  import opened Basics

  const MAX_PRICE_MINOR: int := 2_147_483_647

  predicate IsDigit(c: char) { '0' <= c <= '9' }

  predicate AllDigits(s: string) { forall i :: 0 <= i < |s| ==> IsDigit(s[i]) }

  function DigitValue(c: char): (d: int)
    requires IsDigit(c)
    ensures 0 <= d <= 9
  {
    c as int - '0' as int
  }

  function DigitChar(d: int): (c: char)
    requires 0 <= d <= 9
    ensures IsDigit(c) && DigitValue(c) == d
  {
    ('0' as int + d) as char
  }

  /** The number a digit string denotes. */
  function Number(s: string): (n: nat)
    requires AllDigits(s)
  {
    if s == "" then 0 else Number(s[..|s| - 1]) * 10 + DigitValue(s[|s| - 1])
  }

  /** Decimal digits without leading zeros. */
  function ToDigits(n: nat): (s: string)
    ensures |s| >= 1 && AllDigits(s)
  {
    if n < 10 then [DigitChar(n)] else ToDigits(n / 10) + [DigitChar(n % 10)]
  }

  /** `0|[1-9]\d*` */
  predicate IsWhole(s: string) {
    AllDigits(s) && |s| >= 1 && (s == "0" || s[0] != '0')
  }

  /** The text before and after the first point; no point leaves the second part empty. */
  function PointAt(s: string): (i: nat)
    ensures i <= |s|
    ensures i < |s| ==> s[i] == '.'
    ensures forall k :: 0 <= k < i ==> s[k] != '.'
  {
    if s == "" || s[0] == '.' then 0 else 1 + PointAt(s[1..])
  }

  function WholeOf(s: string): string { s[..PointAt(s)] }

  function FractionOf(s: string): string {
    if PointAt(s) == |s| then "" else s[PointAt(s) + 1..]
  }

  // ----- The form -----

  /** `^(?:0|[1-9]\d*)(?:[.]\d{1,2})?$` */
  predicate IsMoney(s: string) {
    && IsWhole(WholeOf(s))
    && AllDigits(FractionOf(s))
    && (PointAt(s) < |s| ==> 1 <= |FractionOf(s)| <= 2)
  }

  /** The fraction padded to two digits. */
  function Cents(s: string): (c: string)
    requires IsMoney(s)
    ensures |c| == 2 && AllDigits(c)
  {
    (FractionOf(s) + "00")[..2]
  }

  function DecimalToMinor(s: string): nat
    requires IsMoney(s)
  {
    Number(WholeOf(s)) * 100 + Number(Cents(s))
  }

  function NormalizeMoney(s: string): string
    requires IsMoney(s)
  {
    WholeOf(s) + "." + Cents(s)
  }

  /** The price check of `validate`, on the trimmed text. */
  predicate FormAccepts(s: string) {
    IsMoney(s) && 0 < DecimalToMinor(s) <= MAX_PRICE_MINOR
  }

  // ----- The API -----

  /** `^(0|[1-9]\d{0,7})\.(\d{1,2})$` */
  predicate MatchesApiPattern(s: string) {
    && IsWhole(WholeOf(s)) && |WholeOf(s)| <= 8
    && PointAt(s) < |s|
    && AllDigits(FractionOf(s)) && 1 <= |FractionOf(s)| <= 2
  }

  function PadEnd(s: string, length: nat): string
    decreases length - |s|
  {
    if |s| >= length then s else PadEnd(s + "0", length)
  }

  lemma {:induction false} PadEndDigits(s: string, length: nat)
    requires AllDigits(s)
    ensures AllDigits(PadEnd(s, length))
    ensures |s| <= length ==> |PadEnd(s, length)| == length
    decreases length - |s|
  {
    if |s| < length { PadEndDigits(s + "0", length); }
  }

  function ParseEurMinor(s: string): Option<int> {
    if !MatchesApiPattern(s) then None
    else
      PadEndDigits(FractionOf(s), 2);
      var minor := Number(WholeOf(s)) * 100 + Number(PadEnd(FractionOf(s), 2));
      if minor <= 0 || minor > MAX_PRICE_MINOR then None else Some(minor)
  }

  // ----- The shop -----

  function PadStart(s: string, length: nat): (r: string)
    decreases length - |s|
  {
    if |s| >= length then s else PadStart("0" + s, length)
  }

  lemma {:induction false} PadStartLength(s: string, length: nat)
    ensures |PadStart(s, length)| == if |s| >= length then |s| else length
    decreases length - |s|
  {
    if |s| < length { PadStartLength("0" + s, length); }
  }

  function MinorUnitsToDecimalString(minor: int, fractionDigits: nat): string {
    var sign := if minor < 0 then "-" else "";
    var digits := PadStart(ToDigits(if minor < 0 then -minor else minor), fractionDigits + 1);
    if fractionDigits == 0 then sign + digits
    else
      PadStartLength(ToDigits(if minor < 0 then -minor else minor), fractionDigits + 1);
      var start := |digits| - fractionDigits;
      sign + digits[..start] + "." + digits[start..]
  }

  // ----- Digits and numbers -----

  lemma {:induction false} NumberOfDigits(n: nat)
    ensures Number(ToDigits(n)) == n
  {
    if n >= 10 {
      NumberOfDigits(n / 10);
      var s := ToDigits(n);
      assert s[..|s| - 1] == ToDigits(n / 10);
    } else {
      var s := ToDigits(n);
      assert s[..|s| - 1] == "";
    }
  }

  lemma {:induction false} WholeIsPositive(w: string)
    requires IsWhole(w) && w != "0"
    ensures Number(w) >= 1
  {
    var last := |w| - 1;
    if last == 0 {
      assert w[..0] == "";
    } else {
      assert w[..last][0] == w[0];
      WholeIsPositive(w[..last]);
    }
  }

  /** A whole number without leading zeros is what its value prints. */
  lemma {:induction false} DigitsOfNumber(w: string)
    requires IsWhole(w)
    ensures ToDigits(Number(w)) == w
  {
    var last := |w| - 1;
    assert w == w[..last] + [w[last]];
    if last == 0 {
      assert w[..0] == "";
    } else {
      assert w[..last][0] == w[0] && w[..last] != "0";
      DigitsOfNumber(w[..last]);
      WholeIsPositive(w[..last]);
    }
  }

  lemma NumberOfTwo(g: string)
    requires |g| == 2 && AllDigits(g)
    ensures Number(g) == DigitValue(g[0]) * 10 + DigitValue(g[1])
  {
    assert g[..1][..0] == "";
    assert g[..1] == [g[0]];
    assert Number(g[..1]) == DigitValue(g[0]);
  }

  lemma PointBeforeCents(m: nat, w: string, g: string)
    requires PadStart(ToDigits(m), 3) == w + g && |g| == 2
    ensures MinorUnitsToDecimalString(m, 2) == w + "." + g
  {
    var digits := w + g;
    assert digits[..|digits| - 2] == w && digits[|digits| - 2..] == g;
  }

  lemma SameDigit(c: char)
    requires IsDigit(c)
    ensures DigitChar(DigitValue(c)) == c
  {
  }

  lemma LargeDigits(w: string, g: string)
    requires IsWhole(w) && w != "0" && |g| == 2 && AllDigits(g)
    ensures ToDigits(Number(w) * 100 + Number(g)) == w + g
  {
    NumberOfTwo(g);
    WholeIsPositive(w);
    DigitsOfNumber(w);
    SameDigit(g[0]);
    SameDigit(g[1]);
    hide Number, ToDigits, DigitChar, DigitValue;
    LargePrice(Number(w), DigitValue(g[0]), DigitValue(g[1]));
    assert Number(w) * 100 + Number(g) == Number(w) * 100 + DigitValue(g[0]) * 10 + DigitValue(g[1]);
    assert g == [g[0]] + [g[1]];
    assert w + [g[0]] + [g[1]] == w + g;
  }

  /** Printing a price puts its last two digits after the point. */
  lemma PrintedPrice(w: string, g: string)
    requires IsWhole(w) && |g| == 2 && AllDigits(g)
    ensures MinorUnitsToDecimalString(Number(w) * 100 + Number(g), 2) == w + "." + g
  {
    if w == "0" {
      SmallPrice(g);
    } else {
      LargeDigits(w, g);
      hide Number, ToDigits;
      PointBeforeCents(Number(w) * 100 + Number(g), w, g);
    }
  }

  lemma LargePrice(n: nat, a: int, b: int)
    requires n >= 1 && 0 <= a <= 9 && 0 <= b <= 9
    ensures ToDigits(n * 100 + a * 10 + b) == ToDigits(n) + [DigitChar(a)] + [DigitChar(b)]
  {
    var m := n * 100 + a * 10 + b;
    assert m / 10 == n * 10 + a && m % 10 == b;
    assert (n * 10 + a) / 10 == n && (n * 10 + a) % 10 == a;
  }

  lemma SmallPrice(g: string)
    requires |g| == 2 && AllDigits(g)
    ensures MinorUnitsToDecimalString(Number("0") * 100 + Number(g), 2) == "0" + "." + g
  {
    NumberOfTwo(g);
    assert Number("0") == 0 by { assert "0"[..0] == ""; }
    SmallDigits(g);
    PointBeforeCents(Number(g), "0", g);
  }

  lemma SmallDigits(g: string)
    requires |g| == 2 && AllDigits(g)
    ensures PadStart(ToDigits(Number(g)), 3) == "0" + g
  {
    NumberOfTwo(g);
    var a, b := DigitValue(g[0]), DigitValue(g[1]);
    assert DigitChar(a) == g[0] && DigitChar(b) == g[1] && g == [g[0]] + [g[1]];
    if a == 0 {
      assert ToDigits(b) == [g[1]];
      assert PadStart([g[1]], 3) == PadStart("0" + [g[1]], 3) == PadStart("0" + ("0" + [g[1]]), 3);
      assert "0" + ("0" + [g[1]]) == "0" + g;
    } else {
      assert Number(g) / 10 == a && Number(g) % 10 == b;
      assert ToDigits(a) == [g[0]];
      assert PadStart(g, 3) == PadStart("0" + g, 3);
    }
  }

  // ----- The three packages agree -----

  /** What the form sends is what the shop would print for the same amount, for every money text. */
  lemma NormalizedIsPrinted(s: string)
    requires IsMoney(s)
    ensures NormalizeMoney(s) == MinorUnitsToDecimalString(DecimalToMinor(s), 2)
  {
    PrintedPrice(WholeOf(s), Cents(s));
  }

  lemma PartsOf(w: string, g: string)
    requires AllDigits(w)
    ensures WholeOf(w + "." + g) == w && FractionOf(w + "." + g) == g && PointAt(w + "." + g) == |w|
  {
    PointAfter(w, g);
  }

  lemma {:induction false} PointAfter(w: string, g: string)
    requires AllDigits(w)
    ensures PointAt(w + "." + g) == |w|
  {
    var s := w + "." + g;
    if w != "" {
      assert s[1..] == w[1..] + "." + g;
      assert IsDigit(w[0]);
      PointAfter(w[1..], g);
    }
  }

  lemma {:induction false} LongWholeIsLarge(w: string, k: nat)
    requires IsWhole(w) && w != "0" && |w| > k
    ensures Number(w) >= Power(k)
  {
    if k == 0 {
      WholeIsPositive(w);
    } else {
      var last := |w| - 1;
      assert w[..last][0] == w[0];
      LongWholeIsLarge(w[..last], k - 1);
    }
  }

  function Power(k: nat): nat { if k == 0 then 1 else 10 * Power(k - 1) }

  /**
   * Any text of the form passes the API after normalising exactly when the form accepts it, with the same minor units.
   */
  lemma FormAndApiAgree(s: string)
    requires IsMoney(s)
    ensures ParseEurMinor(NormalizeMoney(s)) == if FormAccepts(s) then Some(DecimalToMinor(s)) else None
  {
    var w, g := WholeOf(s), Cents(s);
    var sent := NormalizeMoney(s);
    PartsOf(w, g);
    assert PadEnd(g, 2) == g;
    if |w| > 8 {
      assert w != "0";
      LongWholeIsLarge(w, 8);
      assert Power(8) == 100_000_000 by { PowerEight(); }
    }
  }

  lemma PowerEight()
    ensures Power(8) == 100_000_000
  {
    assert Power(4) == 10_000;
    assert Power(6) == 1_000_000;
  }

  /** Printing any accepted amount and reading it back, in the form or in the API, gives that amount. */
  lemma PrintedPriceReadsBack(n: int)
    requires 1 <= n <= MAX_PRICE_MINOR
    ensures var text := MinorUnitsToDecimalString(n, 2);
            && FormAccepts(text) && DecimalToMinor(text) == n
            && ParseEurMinor(text) == Some(n)
            && NormalizeMoney(text) == text
  {
    var w, g := ToDigits(n / 100), [DigitChar(n % 100 / 10)] + [DigitChar(n % 10)];
    NumberOfDigits(n / 100);
    NumberOfTwo(g);
    WholeDigits(n / 100);
    assert n % 100 / 10 * 10 + n % 10 == n % 100 by { TensAndUnits(n % 100); }
    PrintedPrice(w, g);
    var text := MinorUnitsToDecimalString(n, 2);
    assert text == w + "." + g;
    PartsOf(w, g);
    assert (g + "00")[..2] == g;
    FormAndApiAgree(text);
  }

  lemma TensAndUnits(cents: nat)
    ensures cents / 10 * 10 + cents % 10 == cents
  {
  }

  lemma {:induction false} WholeDigits(n: nat)
    ensures IsWhole(ToDigits(n))
    ensures n >= 1 ==> ToDigits(n)[0] != '0'
  {
    if n >= 10 {
      WholeDigits(n / 10);
      assert ToDigits(n)[0] == ToDigits(n / 10)[0];
    }
  }

  /** Two texts the form accepts are the same price exactly when they normalise to the same text. */
  lemma NormalFormIsCanonical(s: string, t: string)
    requires IsMoney(s) && IsMoney(t)
    ensures DecimalToMinor(s) == DecimalToMinor(t) <==> NormalizeMoney(s) == NormalizeMoney(t)
  {
    NormalizedIsPrinted(s);
    NormalizedIsPrinted(t);
    PartsOf(WholeOf(s), Cents(s));
    PartsOf(WholeOf(t), Cents(t));
  }
}
