// ledger/src/core/domain/value-objects/Money.ts: amounts in minor units, read from and printed as
// decimal text. Digit counts are unbounded (the source uses bigint).

module Moneys {
  import opened Prelude

  datatype Money = Money(units: nat, currency: string)

  datatype MoneyError = InvalidDecimalFormat | InvalidCurrency

  predicate IsDigit(c: char) {
    '0' <= c <= '9'
  }

  predicate AllDigits(s: string) {
    forall i :: 0 <= i < |s| ==> IsDigit(s[i])
  }

  predicate ValidCurrency(c: string) {
    |c| == 3 && forall i :: 0 <= i < 3 ==> 'A' <= c[i] <= 'Z'
  }

  /** `BigInt(text)` on a string of digits. */
  function ParseNat(s: string): nat
    requires AllDigits(s)
  {
    if s == "" then 0 else ParseNat(s[..|s| - 1]) * 10 + (s[|s| - 1] as int - '0' as int)
  }

  function DigitChar(d: nat): (c: char)
    requires d < 10
    ensures IsDigit(c) && c as int - '0' as int == d
  {
    '0' + d as char
  }

  /** `n.toString()` on a bigint. */
  function PrintNat(n: nat): string {
    if n < 10 then [DigitChar(n)] else PrintNat(n / 10) + [DigitChar(n % 10)]
  }

  /** Position of the first '.', or the length when there is none. */
  function DotIndex(s: string): (i: nat)
    ensures i <= |s|
    ensures i < |s| ==> s[i] == '.'
    ensures forall k :: 0 <= k < i ==> s[k] != '.'
  {
    if s == "" || s[0] == '.' then 0 else 1 + DotIndex(s[1..])
  }

  /** The text before the dot and the text after it; the latter is absent when there is no dot. */
  function Split(s: string): (string, Option<string>) {
    var dot := DotIndex(s);
    if dot == |s| then (s, None) else (s[..dot], Some(s[dot + 1..]))
  }

  /** padEnd(2, "0"), for the one or two decimals the format admits. */
  function PadDecimals(s: string): string {
    if |s| == 0 then "00" else if |s| == 1 then s + "0" else s
  }

  function FromDecimal(amount: string, currency: string): Result<Money, MoneyError> {
    var (whole, frac) := Split(amount);
    if whole == "" || !AllDigits(whole) || (frac.Some? && (!AllDigits(frac.value) || !(1 <= |frac.value| <= 2))) then
      Err(InvalidDecimalFormat)
    else if !ValidCurrency(currency) then
      Err(InvalidCurrency)
    else
      var decimals := PadDecimals(if frac.None? then "" else frac.value);
      Ok(Money(ParseNat(whole) * 100 + ParseNat(decimals), currency))
  }

  /** The two decimals, as printed. */
  function Cents(n: nat): string
    requires n < 100
  {
    var cents := PrintNat(n);
    if |cents| < 2 then "0" + cents else cents
  }

  function ToString(m: Money): string {
    PrintNat(m.units / 100) + "." + Cents(m.units % 100)
  }

  // ---- what the texts mean ----

  /** No redundant leading zero. */
  predicate IsPlainNumeral(s: string) {
    s != "" && AllDigits(s) && (|s| == 1 || s[0] != '0')
  }

  /** A plain numeral, a dot, two digits: the one spelling the ledger prints. */
  ghost predicate IsCanonicalAmount(s: string) {
    exists whole: string, frac: string :: s == whole + "." + frac && IsPlainNumeral(whole) && |frac| == 2 && AllDigits(frac)
  }

  /** The regular expression the factory tests: digits, then optionally a dot and one or two digits. */
  ghost predicate IsDecimal(s: string) {
    || (s != "" && AllDigits(s))
    || (exists whole: string, frac: string ::
          s == whole + "." + frac && whole != "" && AllDigits(whole) && 1 <= |frac| <= 2 && AllDigits(frac))
  }

  lemma {:induction false} SplitAtDot(whole: string, frac: string)
    requires AllDigits(whole)
    ensures Split(whole + "." + frac) == (whole, Some(frac))
  {
    var s := whole + "." + frac;
    var dot := DotIndex(s);
    assert s[|whole|] == '.';
    assert forall k :: 0 <= k < |whole| ==> IsDigit(s[k]);
    assert s[..dot] == whole && s[dot + 1..] == frac;
  }

  lemma {:induction false} PrintNatIsPlain(n: nat)
    ensures IsPlainNumeral(PrintNat(n)) && ParseNat(PrintNat(n)) == n
    ensures n < 100 ==> |PrintNat(n)| <= 2
    ensures n != 0 ==> PrintNat(n)[0] != '0'
  {
    if n >= 10 {
      PrintNatIsPlain(n / 10);
      var p := PrintNat(n);
      assert p[..|p| - 1] == PrintNat(n / 10);
    } else {
      assert PrintNat(n)[..0] == "";
    }
  }

  lemma {:induction false} PlainNumeralIsPrinted(s: string)
    requires IsPlainNumeral(s)
    ensures PrintNat(ParseNat(s)) == s
    ensures |s| > 1 ==> ParseNat(s) >= 10
  {
    var init, d := s[..|s| - 1], s[|s| - 1] as int - '0' as int;
    if |s| == 1 {
      assert ParseNat(init) == 0;
    } else {
      assert init[0] == s[0];
      PlainNumeralIsPrinted(init);
      if |init| == 1 {
        assert init[..0] == "" && ParseNat(init) == init[0] as int - '0' as int;
      }
      assert ParseNat(init) > 0;
      assert ParseNat(s) / 10 == ParseNat(init) && ParseNat(s) % 10 == d;
      assert s == init + [s[|s| - 1]];
    }
  }

  lemma {:induction false} ParsePair(frac: string)
    requires |frac| == 2 && AllDigits(frac)
    ensures ParseNat(frac) == (frac[0] as int - '0' as int) * 10 + (frac[1] as int - '0' as int)
  {
    var init := frac[..1];
    assert init[..0] == "";
    assert ParseNat(init) == init[0] as int - '0' as int;
  }

  /** Two digits are determined by their value. */
  lemma {:induction false} PairIsPrinted(frac: string)
    requires |frac| == 2 && AllDigits(frac)
    ensures ParseNat(frac) < 100
    ensures frac == Cents(ParseNat(frac))
  {
    ParsePair(frac);
    var n := ParseNat(frac);
    var a, b := frac[0] as int - '0' as int, frac[1] as int - '0' as int;
    assert n / 10 == a && n % 10 == b;
    assert frac == [frac[0], frac[1]];
    assert DigitChar(b) == frac[1] && DigitChar(a) == frac[0];
    assert PrintNat(a) == [DigitChar(a)];
    if n >= 10 {
      assert PrintNat(n) == [DigitChar(a)] + [DigitChar(b)];
    } else {
      assert a == 0 && PrintNat(n) == [DigitChar(b)];
    }
  }

  /** The factory accepts exactly the decimal texts, given an ISO currency. */
  lemma {:induction false} FromDecimalAcceptsExactlyDecimals(s: string, currency: string)
    ensures FromDecimal(s, currency).Ok? <==> IsDecimal(s) && ValidCurrency(currency)
  {
    var (whole, frac) := Split(s);
    if frac.Some? {
      assert s == whole + "." + frac.value;
    }
    if IsDecimal(s) && !(s != "" && AllDigits(s)) {
      var w: string, f: string :| s == w + "." + f && w != "" && AllDigits(w) && 1 <= |f| <= 2 && AllDigits(f);
      SplitAtDot(w, f);
    } else if s != "" && AllDigits(s) {
      DigitsHaveNoDot(s);
    }
  }

  lemma {:induction false} DigitsHaveNoDot(s: string)
    requires AllDigits(s)
    ensures DotIndex(s) == |s|
  {
    if s != "" {
      assert IsDigit(s[0]);
      DigitsHaveNoDot(s[1..]);
    }
  }

  lemma {:induction false} CentsReadBack(n: nat)
    requires n < 100
    ensures |Cents(n)| == 2 && AllDigits(Cents(n)) && ParseNat(Cents(n)) == n
  {
    PrintNatIsPlain(n);
    var cents := PrintNat(n);
    if |cents| == 1 {
      assert cents[..0] == "";
    } else {
      ParsePair(cents);
    }
    ParsePair(Cents(n));
  }

  /** Reading back what was printed gives the same amount. */
  lemma {:induction false} ReadingBackWhatWasPrinted(m: Money)
    requires ValidCurrency(m.currency)
    ensures FromDecimal(ToString(m), m.currency) == Ok(m)
    ensures IsCanonicalAmount(ToString(m))
  {
    var whole, frac := PrintNat(m.units / 100), Cents(m.units % 100);
    PrintNatIsPlain(m.units / 100);
    CentsReadBack(m.units % 100);
    SplitAtDot(whole, frac);
    assert ToString(m) == whole + "." + frac;
  }

  /** Printing a canonical text that was read gives that very text. */
  lemma {:induction false} CanonicalTextsArePrintedVerbatim(s: string, currency: string)
    requires IsCanonicalAmount(s) && ValidCurrency(currency)
    ensures FromDecimal(s, currency).Ok? && ToString(FromDecimal(s, currency).value) == s
  {
    var whole: string, frac: string :| s == whole + "." + frac && IsPlainNumeral(whole) && |frac| == 2 && AllDigits(frac);
    PartsAreRead(whole, frac, currency);
    PartsArePrinted(whole, frac, currency);
  }

  lemma {:induction false} PartsAreRead(whole: string, frac: string, currency: string)
    requires whole != "" && AllDigits(whole) && |frac| == 2 && AllDigits(frac) && ValidCurrency(currency)
    ensures FromDecimal(whole + "." + frac, currency) == Ok(Money(ParseNat(whole) * 100 + ParseNat(frac), currency))
  {
    SplitAtDot(whole, frac);
  }

  lemma {:induction false} PartsArePrinted(whole: string, frac: string, currency: string)
    requires IsPlainNumeral(whole) && |frac| == 2 && AllDigits(frac)
    ensures ToString(Money(ParseNat(whole) * 100 + ParseNat(frac), currency)) == whole + "." + frac
  {
    PlainNumeralIsPrinted(whole);
    PairIsPrinted(frac);
    HundredsAndRest(ParseNat(whole), ParseNat(frac));
  }

  lemma {:induction false} HundredsAndRest(n: nat, r: nat)
    requires r < 100
    ensures (n * 100 + r) / 100 == n && (n * 100 + r) % 100 == r
  {
  }

  /** What is printed for an accepted text is the only canonical text that reads as the same amount. */
  lemma {:induction false} PrintedTextIsTheUniqueCanonicalSpelling(s: string, currency: string, t: string)
    requires FromDecimal(s, currency).Ok?
    ensures IsCanonicalAmount(ToString(FromDecimal(s, currency).value))
    ensures FromDecimal(ToString(FromDecimal(s, currency).value), currency) == FromDecimal(s, currency)
    ensures IsCanonicalAmount(t) && FromDecimal(t, currency) == FromDecimal(s, currency)
            <==> t == ToString(FromDecimal(s, currency).value)
  {
    ReadingBackWhatWasPrinted(FromDecimal(s, currency).value);
    if IsCanonicalAmount(t) {
      CanonicalTextsArePrintedVerbatim(t, currency);
    }
  }

  /** Amounts print alike exactly when they are the same number of units. */
  lemma {:induction false} ToStringIsInjective(a: Money, b: Money)
    ensures ToString(a) == ToString(b) <==> a.units == b.units
  {
    ReadingBackWhatWasPrinted(Money(a.units, "BRL"));
    ReadingBackWhatWasPrinted(Money(b.units, "BRL"));
  }

  // ---- the other spellings ----

  lemma {:induction false} LeadingZerosCountNothing(s: string)
    requires AllDigits(s)
    ensures ParseNat("0" + s) == ParseNat(s)
  {
    if s == "" {
      assert "0" + s == "0" && "0"[..0] == "";
    } else {
      LeadingZerosCountNothing(s[..|s| - 1]);
      assert ("0" + s)[..|s|] == "0" + s[..|s| - 1];
    }
  }

  lemma {:induction false} NoDecimalsAreTwoZeros(whole: string, currency: string)
    requires whole != "" && AllDigits(whole) && ValidCurrency(currency)
    ensures FromDecimal(whole, currency).Ok? && FromDecimal(whole, currency) == FromDecimal(whole + "." + "00", currency)
  {
    DigitsHaveNoDot(whole);
    PartsAreRead(whole, "00", currency);
  }

  lemma {:induction false} OneDecimalCountsTenths(whole: string, d: char, currency: string)
    requires whole != "" && AllDigits(whole) && IsDigit(d) && ValidCurrency(currency)
    ensures FromDecimal(whole + "." + [d], currency).Ok?
    ensures FromDecimal(whole + "." + [d], currency) == FromDecimal(whole + "." + [d, '0'], currency)
  {
    SplitAtDot(whole, [d]);
    assert [d] + "0" == [d, '0'];
    PartsAreRead(whole, [d, '0'], currency);
  }

  /**
   * Every accepted spelling denotes what its longest one does: an amount without decimals is one with two zeros, one
   * decimal counts tenths, and leading zeros count nothing.
   */
  lemma {:induction false} SpellingsOfOneAmount(whole: string, d: char, frac: string, currency: string)
    requires whole != "" && AllDigits(whole) && IsDigit(d) && |frac| == 2 && AllDigits(frac) && ValidCurrency(currency)
    ensures FromDecimal(whole, currency).Ok? && FromDecimal(whole, currency) == FromDecimal(whole + "." + "00", currency)
    ensures FromDecimal(whole + "." + [d], currency).Ok?
    ensures FromDecimal(whole + "." + [d], currency) == FromDecimal(whole + "." + [d, '0'], currency)
    ensures FromDecimal("0" + whole + "." + frac, currency) == FromDecimal(whole + "." + frac, currency)
  {
    NoDecimalsAreTwoZeros(whole, currency);
    OneDecimalCountsTenths(whole, d, currency);
    PartsAreRead(whole, frac, currency);
    PartsAreRead("0" + whole, frac, currency);
    LeadingZerosCountNothing(whole);
  }
}
