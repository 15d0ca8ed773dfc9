/** src/internal/amount.ts: decimal amount strings to integer minor units and
    back, in exact integer arithmetic. */
module Amount {
  import opened Errors
  import opened Text
  import opened Records
  import opened Runtime

  const DefaultExponent: nat := 2

  /** CURRENCY_EXPONENTS. */
  const CurrencyExponents: Entries<nat> := [("ZAR", 2), ("USD", 2), ("EUR", 2), ("GBP", 2), ("NGN", 2)]

  /** Number.MAX_SAFE_INTEGER, 2^53 - 1. */
  const MaxSafeInteger: nat := 9007199254740991

  const InvalidNumber := "Amount must be a valid number"
  const TooLarge := "Amount is too large"
  const NotAnInteger := "Amount in minor units must be an integer"
  const TooManyDecimals := "Amount has too many decimal places"

  /** An amount as the callers pass it: a string, or another JavaScript value given
      by the text `String(value)` renders it as. */
  datatype AmountInput = AmountText(text: string) | AmountRendered(rendered: string)

  /** resolveExponent (src/internal/amount.ts:11-15). */
  function ResolveExponent(currency: Option<string>): nat {
    if currency.None? || currency.value == "" then DefaultExponent
    else Get(CurrencyExponents, ToUpper(currency.value)).GetOr(DefaultExponent)
  }

  /** The text normalizeAmountString starts from: a string trimmed, anything else rendered. */
  function RawText(value: AmountInput): string {
    match value
    case AmountText(t) => Trim(t)
    case AmountRendered(r) => r
  }

  predicate HasExponentMark(raw: string) { 'e' in raw || 'E' in raw }

  /** normalizeAmountString (src/internal/amount.ts:17-38). Text in scientific
      notation goes through JavaScript's Number, which the host provides. */
  function NormalizeAmountString(value: AmountInput, exponent: Option<nat>, h: Host): (r: Result<string>)
    ensures !HasExponentMark(RawText(value)) ==>
      (r.Ok? <==> RawText(value) != "") && (r.Ok? ==> r.value == RawText(value))
    ensures r.Err? ==> r.error == Plain(InvalidNumber)
  {
    var raw := RawText(value);
    if raw == "" then Err(Plain(InvalidNumber))
    else if HasExponentMark(raw) then
      var numeric := match exponent
        case None => h.scientificToString(raw)
        case Some(e) => h.scientificToFixed(raw, e);
      match numeric
      case None => Err(Plain(InvalidNumber))
      case Some(text) => Ok(text)
    else Ok(raw)
  }

  /** assertNonNegative (src/internal/amount.ts:40-44). */
  function AssertNonNegative(raw: string): (r: Outcome)
    ensures r.Fail? <==> |raw| > 0 && raw[0] == '-'
    ensures r.Fail? ==> r.error == Plain(InvalidNumber)
  {
    if StartsWith(raw, "-") then Fail(Plain(InvalidNumber)) else Pass
  }

  /** ensureSafeInteger (src/internal/amount.ts:46-52); below the cap `Number(value)` is exact. */
  function EnsureSafeInteger(value: nat): (r: Result<nat>)
    ensures r.Ok? <==> value <= MaxSafeInteger
    ensures r.Ok? ==> r.value == value
    ensures r.Err? ==> r.error == Plain(TooLarge)
  {
    if value > MaxSafeInteger then Err(Plain(TooLarge)) else Ok(value)
  }

  /** The regular expression /^[0-9]+(\.[0-9]+)?$/: the `.`-separated parts are
      one or two non-empty digit strings. */
  predicate IsDecimal(s: string) {
    var parts := Split(s, '.');
    IsDigits(parts[0]) && (|parts| == 1 || (|parts| == 2 && IsDigits(parts[1])))
  }

  /** `whole` of `const [whole, fracRaw = ""] = raw.split(".")`. */
  function WholePart(s: string): (w: string)
    requires IsDecimal(s)
    ensures IsDigits(w)
  {
    Split(s, '.')[0]
  }

  /** `fracRaw` of the same destructuring. */
  function FractionPart(s: string): (f: string)
    requires IsDecimal(s)
    ensures AllDigits(f)
  {
    var parts := Split(s, '.');
    if |parts| > 1 then parts[1] else ""
  }

  /** The exact value of a decimal string. */
  function DecimalValue(s: string): real
    requires IsDecimal(s)
  {
    DigitsValue(WholePart(s)) as real + DigitsValue(FractionPart(s)) as real / Pow10(|FractionPart(s)|) as real
  }

  lemma DigitsHaveNoDot(s: string)
    requires AllDigits(s)
    ensures '.' !in s && '-' !in s && 'e' !in s && 'E' !in s
  {
  }

  /** A digit string is a decimal string without a fraction. */
  lemma IntegerIsDecimal(a: string)
    requires IsDigits(a)
    ensures IsDecimal(a) && WholePart(a) == a && FractionPart(a) == ""
  {
    DigitsHaveNoDot(a);
    SplitWithoutSeparator(a, '.');
  }

  /** Two digit strings around a `.` form a decimal string with those parts. */
  lemma FractionIsDecimal(a: string, b: string)
    requires IsDigits(a) && IsDigits(b)
    ensures IsDecimal(a + ['.'] + b) && WholePart(a + ['.'] + b) == a && FractionPart(a + ['.'] + b) == b
  {
    DigitsHaveNoDot(a);
    DigitsHaveNoDot(b);
    SplitAtSeparator(a, '.', b);
    SplitWithoutSeparator(b, '.');
  }

  /** Every decimal string is one of those two forms. */
  lemma DecimalForms(s: string)
    requires IsDecimal(s)
    ensures s == WholePart(s) || s == WholePart(s) + ['.'] + FractionPart(s)
    ensures '.' !in WholePart(s) && '-' !in s && 'e' !in s && 'E' !in s
    ensures s != "" && !StartsWith(s, "-")
  {
    var w := WholePart(s);
    DigitsHaveNoDot(w);
    JoinSplit(s, '.');
    if |Split(s, '.')| == 1 {
      assert s == w;
    } else {
      var f := FractionPart(s);
      DigitsHaveNoDot(f);
      assert Join([w, f], ".") == w + "." + f;
      assert s == w + ['.'] + f;
    }
    assert s[0] == w[0];
  }

  /** parseMinorUnits (src/internal/amount.ts:54-64). */
  function ParseMinorUnits(amount: AmountInput, h: Host): Result<nat> {
    var raw :- NormalizeAmountString(amount, None, h);
    :- AssertNonNegative(raw);
    if '.' in raw then Err(Plain(NotAnInteger))
    else if !IsDigits(raw) then Err(Plain(InvalidNumber))
    else EnsureSafeInteger(DigitsValue(raw))
  }

  /** toMinorUnits (src/internal/amount.ts:66-86). */
  function ToMinorUnits(amount: AmountInput, currency: Option<string>, h: Host): Result<nat> {
    var exponent := ResolveExponent(currency);
    var raw :- NormalizeAmountString(amount, Some(exponent), h);
    :- AssertNonNegative(raw);
    DecimalToMinorUnits(raw, exponent)
  }

  /** The part of toMinorUnits after the sign check (src/internal/amount.ts:73-85):
      the pattern test, the split at `.`, the padding and the exact sum. */
  function DecimalToMinorUnits(raw: string, exponent: nat): Result<nat> {
    if !IsDecimal(raw) then Err(Plain(InvalidNumber))
    else
      var whole, fracRaw := WholePart(raw), FractionPart(raw);
      if |fracRaw| > exponent then Err(Plain(TooManyDecimals))
      else
        var fraction := PadEndZeros(fracRaw, exponent);
        var base := DigitsValue(if whole == "" then "0" else whole) * Pow10(exponent);
        var minor := base + DigitsValue(if fraction == "" then "0" else fraction);
        EnsureSafeInteger(minor)
  }

  /** fromMinorUnits (src/internal/amount.ts:88-95), with exact division. */
  function FromMinorUnits(amount: AmountInput, currency: Option<string>, h: Host): Result<real> {
    var exponent := ResolveExponent(currency);
    var minor :- ParseMinorUnits(amount, h);
    Ok(minor as real / Pow10(exponent) as real)
  }

  // ---------------------------------------------------------------------------
  // Properties

  lemma {:induction false} TableExponents(key: string)
    ensures Get(CurrencyExponents, key).Some? ==> Get(CurrencyExponents, key).value == 2
  {
  }

  /** Every tabled currency, in any letter case, and every other or absent
      currency has exponent 2. */
  lemma ResolveExponentIsTwo(currency: Option<string>)
    ensures ResolveExponent(currency) == 2
  {
    if currency.Some? && currency.value != "" {
      TableExponents(ToUpper(currency.value));
    }
  }

  lemma PadValue(f: string, e: nat)
    requires AllDigits(f) && |f| <= e
    ensures AllDigits(PadEndZeros(f, e))
    ensures DigitsValue(PadEndZeros(f, e)) == DigitsValue(f) * Pow10(e - |f|)
  {
    if |f| < e {
      DigitsValueConcat(f, Zeros(e - |f|));
      ZerosValue(e - |f|);
    }
  }

  /** The digits of a decimal string with its point moved `e` places right. */
  function ShiftPoint(t: string, e: nat): (r: string)
    requires IsDecimal(t) && |FractionPart(t)| <= e
    ensures IsDigits(r) && |r| == |WholePart(t)| + e
  {
    PadValue(FractionPart(t), e);
    AllDigitsConcat(WholePart(t), PadEndZeros(FractionPart(t), e));
    WholePart(t) + PadEndZeros(FractionPart(t), e)
  }

  /** Whole digits followed by at most two fraction digits padded to two read as
      the value in hundredths. */
  lemma PaddedHundredths(w: string, f: string)
    requires AllDigits(w) && AllDigits(f) && |f| <= 2
    ensures AllDigits(w + PadEndZeros(f, 2))
    ensures DigitsValue(w + PadEndZeros(f, 2)) as real
      == (DigitsValue(w) as real + DigitsValue(f) as real / Pow10(|f|) as real) * 100.0
  {
    PadValue(f, 2);
    DigitsValueConcat(w, PadEndZeros(f, 2));
    assert Pow10(2) == 100 && Pow10(1) == 10 && Pow10(0) == 1;
  }

  /** Moving the point two places is the decimal value in hundredths. */
  lemma ShiftPointHundredths(t: string)
    requires IsDecimal(t) && |FractionPart(t)| <= 2
    ensures DigitsValue(ShiftPoint(t, 2)) as real == DecimalValue(t) * 100.0
  {
    PaddedHundredths(WholePart(t), FractionPart(t));
  }

  /** For any exponent: exactly the decimal strings with at most `exponent`
      fraction digits whose shifted digits fit below the cap are accepted, giving
      those digits' value; each rejection carries its own message. */
  lemma DecimalToMinorUnitsSpec(t: string, e: nat)
    ensures !IsDecimal(t) ==> DecimalToMinorUnits(t, e) == Err(Plain(InvalidNumber))
    ensures IsDecimal(t) && |FractionPart(t)| > e ==> DecimalToMinorUnits(t, e) == Err(Plain(TooManyDecimals))
    ensures IsDecimal(t) && |FractionPart(t)| <= e ==>
      DecimalToMinorUnits(t, e) == EnsureSafeInteger(DigitsValue(ShiftPoint(t, e)))
  {
    if IsDecimal(t) && |FractionPart(t)| <= e {
      var w, f := WholePart(t), FractionPart(t);
      PadValue(f, e);
      DigitsValueConcat(w, PadEndZeros(f, e));
      assert DigitsValue("0") == 0;
    }
  }

  /** toMinorUnits on text without an exponent mark is the decimal conversion of
      the trimmed text at exponent 2; empty text and a leading `-` are rejected
      first as "a valid number", and no decimal string is either. */
  lemma ToMinorUnitsOfText(s: string, currency: Option<string>, h: Host)
    requires !HasExponentMark(Trim(s))
    ensures ToMinorUnits(AmountText(s), currency, h) ==
      if Trim(s) == "" || StartsWith(Trim(s), "-") then Err(Plain(InvalidNumber))
      else DecimalToMinorUnits(Trim(s), 2)
    ensures IsDecimal(Trim(s)) ==> ToMinorUnits(AmountText(s), currency, h) == DecimalToMinorUnits(Trim(s), 2)
  {
    ResolveExponentIsTwo(currency);
    if IsDecimal(Trim(s)) {
      DecimalForms(Trim(s));
    }
  }

  /** toMinorUnits on a string without an exponent mark: exactly the decimal
      strings whose fraction has at most two digits and whose digits, with the
      point moved two places, fit below the cap are accepted, giving the value of
      those digits; each rejection carries its own message. */
  lemma ToMinorUnitsSpec(s: string, currency: Option<string>, h: Host)
    requires !HasExponentMark(Trim(s))
    ensures var r := ToMinorUnits(AmountText(s), currency, h);
      && (!IsDecimal(Trim(s)) ==> r == Err(Plain(InvalidNumber)))
      && (IsDecimal(Trim(s)) && |FractionPart(Trim(s))| > 2 ==> r == Err(Plain(TooManyDecimals)))
      && (IsDecimal(Trim(s)) && |FractionPart(Trim(s))| <= 2 ==>
            (r.Ok? <==> DigitsValue(ShiftPoint(Trim(s), 2)) <= MaxSafeInteger)
            && (r.Err? ==> r.error == Plain(TooLarge))
            && (r.Ok? ==> r.value == DigitsValue(ShiftPoint(Trim(s), 2))))
  {
    ToMinorUnitsOfText(s, currency, h);
    DecimalToMinorUnitsSpec(Trim(s), 2);
  }

  /** An accepted amount's minor units are its exact decimal value in hundredths. */
  lemma ToMinorUnitsExact(s: string, currency: Option<string>, h: Host)
    requires !HasExponentMark(Trim(s))
    requires ToMinorUnits(AmountText(s), currency, h).Ok?
    ensures IsDecimal(Trim(s))
    ensures ToMinorUnits(AmountText(s), currency, h).value as real == DecimalValue(Trim(s)) * 100.0
  {
    ToMinorUnitsSpec(s, currency, h);
    var t := Trim(s);
    ExactHundredths(ToMinorUnits(AmountText(s), currency, h).value, DigitsValue(ShiftPoint(t, 2)), t);
  }

  lemma ExactHundredths(m: nat, d: nat, t: string)
    requires IsDecimal(t) && |FractionPart(t)| <= 2 && d == DigitsValue(ShiftPoint(t, 2)) && m == d
    ensures m as real == DecimalValue(t) * 100.0
  {
    ShiftPointHundredths(t);
  }

  /** Text with a leading `-`, after trimming, is rejected before any parsing, "-0" included. */
  lemma NegativeRejected(s: string, currency: Option<string>, h: Host)
    requires !HasExponentMark(Trim(s)) && StartsWith(Trim(s), "-")
    ensures ToMinorUnits(AmountText(s), currency, h) == Err(Plain(InvalidNumber))
    ensures ParseMinorUnits(AmountText(s), h) == Err(Plain(InvalidNumber))
  {
  }

  lemma MinusZeroRejected(currency: Option<string>, h: Host)
    ensures ToMinorUnits(AmountText("-0"), currency, h) == Err(Plain(InvalidNumber))
  {
    assert IsTrimmed("-0");
    TrimOfTrimmed("-0");
    NegativeRejected("-0", currency, h);
  }

  lemma TwoDigitsValue(a: char, b: char)
    requires IsDigit(a) && IsDigit(b)
    ensures AllDigits([a, b]) && DigitsValue([a, b]) == DigitValue(a) * 10 + DigitValue(b)
  {
    assert [a, b][..1] == [a];
    assert DigitsValue([a]) == DigitValue(a);
    assert DigitsValue([a, b]) == DigitsValue([a]) * 10 + DigitValue(b);
  }

  /** The examples "25.00" -> 2500 and "25.5" -> 2550, spelled out as a literal argument. */
  lemma ToMinorUnitsExample(s: string, w: string, f: string, currency: Option<string>, h: Host)
    requires w == "25" && (f == "00" || f == "5") && s == w + ['.'] + f
    ensures ToMinorUnits(AmountText(s), currency, h) == Ok(if f == "00" then 2500 else 2550)
  {
    TwoDigitsValue('2', '5');
    FractionIsDecimal(w, f);
    assert IsTrimmed(s) by {
      assert s[0] == '2' && s[|s| - 1] == f[|f| - 1];
    }
    TrimOfTrimmed(s);
    ToMinorUnitsOfText(s, currency, h);
    PadValue(f, 2);
    if f == "00" {
      TwoDigitsValue('0', '0');
    } else {
      assert PadEndZeros(f, 2) == "50";
      TwoDigitsValue('5', '0');
    }
  }

  /** parseMinorUnits on a string without an exponent mark: a digit string below
      the cap gives its integer value; a `.` (after the sign check) is
      "must be an integer"; anything else non-digit is "a valid number". */
  lemma ParseMinorUnitsSpec(s: string, h: Host)
    requires !HasExponentMark(Trim(s))
    ensures var r := ParseMinorUnits(AmountText(s), h);
      && (r.Ok? <==> IsDigits(Trim(s)) && DigitsValue(Trim(s)) <= MaxSafeInteger)
      && (r.Ok? ==> r.value == DigitsValue(Trim(s)))
      && (!StartsWith(Trim(s), "-") && '.' in Trim(s) ==> r == Err(Plain(NotAnInteger)))
      && ('.' !in Trim(s) && !IsDigits(Trim(s)) ==> r == Err(Plain(InvalidNumber)))
      && (IsDigits(Trim(s)) && DigitsValue(Trim(s)) > MaxSafeInteger ==> r == Err(Plain(TooLarge)))
  {
  }

  /** fromMinorUnits undoes toMinorUnits: the minor units of an accepted decimal
      string, rendered as a number, convert back to the exact decimal value. */
  lemma FromMinorUnitsInverts(s: string, currency: Option<string>, h: Host)
    requires !HasExponentMark(Trim(s))
    requires ToMinorUnits(AmountText(s), currency, h).Ok?
    ensures FromMinorUnits(AmountRendered(NatToString(ToMinorUnits(AmountText(s), currency, h).value)), currency, h)
      == Ok(DecimalValue(Trim(s)))
  {
    var m := ToMinorUnits(AmountText(s), currency, h).value;
    ToMinorUnitsExact(s, currency, h);
    ResolveExponentIsTwo(currency);
    var text := NatToString(m);
    NatToStringValue(m);
    assert !HasExponentMark(text) && '.' !in text && !StartsWith(text, "-") by {
      assert forall i | 0 <= i < |text| :: IsDigit(text[i]);
    }
    assert ParseMinorUnits(AmountRendered(text), h) == Ok(m);
    Hundredths(m, DecimalValue(Trim(s)));
  }

  lemma Hundredths(m: nat, v: real)
    requires m as real == v * 100.0
    ensures m as real / Pow10(2) as real == v
  {
    assert Pow10(2) == 100;
  }
}
