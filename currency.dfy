/** src/internal/currency.ts: currency normalisation and the ZAR-only rule of
    Ozow and Payfast. */
module Currency {
  import opened Errors
  import opened Text
  import opened Types

  const DefaultCurrency := "ZAR"

  /** normalizeCurrency (src/internal/currency.ts:6-13): the trimmed input if it
      is not blank, else the fallback as given; blank both ways is ZAR; the
      result is uppercased. */
  function NormalizeCurrency(input: Option<string>, fallback: string): string {
    var trimmed := if input.Some? then Trim(input.value) else "";
    var raw := if trimmed != "" then trimmed else fallback;
    if raw == "" then DefaultCurrency else ToUpper(raw)
  }

  /** Blank: absent, or nothing but white space. */
  predicate Blank(input: Option<string>) {
    input.None? || Trim(input.value) == ""
  }

  lemma NormalizeCurrencySpec(input: Option<string>, fallback: string)
    ensures !Blank(input) ==> NormalizeCurrency(input, fallback) == ToUpper(Trim(input.value))
    ensures Blank(input) && fallback != "" ==> NormalizeCurrency(input, fallback) == ToUpper(fallback)
    ensures Blank(input) && fallback == "" ==> NormalizeCurrency(input, fallback) == "ZAR"
  {
  }

  /** Normalising a normalised currency changes nothing, whatever the second
      fallback, provided the first fallback was trimmed (the callers pass "ZAR").
      An untrimmed fallback such as " usd" normalises to " USD", which a second
      pass trims. */
  lemma {:induction false} NormalizeCurrencyIdempotent(input: Option<string>, fallback: string, fallback2: string)
    requires IsTrimmed(fallback)
    ensures NormalizeCurrency(Some(NormalizeCurrency(input, fallback)), fallback2) == NormalizeCurrency(input, fallback)
  {
    var r := NormalizeCurrency(input, fallback);
    var raw := if !Blank(input) then Trim(input.value) else fallback;
    if raw == "" {
      assert r == "ZAR";
      assert IsTrimmed(r);
      TrimOfTrimmed(r);
      assert ToUpper(r) == r;
    } else {
      assert r == ToUpper(raw);
      if !Blank(input) {
        TrimIsTrimmed(input.value);
      }
      assert IsTrimmed(raw);
      TrimOfTrimmed(raw);
      TrimToUpper(raw);
      assert Trim(r) == r;
      assert |r| == |raw|;
      ToUpperIdempotent(raw);
    }
  }

  lemma UntrimmedFallbackExample(fallback: string)
    requires fallback == " usd"
    ensures NormalizeCurrency(None, fallback) == " USD"
    ensures NormalizeCurrency(Some(NormalizeCurrency(None, fallback)), fallback) == "USD"
  {
    assert ToUpper(fallback) == " USD";
    var u := ToUpper(fallback);
    assert IsWhiteSpace(u[0]);
    assert TrimStart(u) == TrimStart(u[1..]);
    assert u[1..] == "USD";
    assert TrimStart(u[1..]) == "USD";
    assert TrimEnd("USD") == "USD";
    assert ToUpper("USD") == "USD";
  }

  /** The message assertProviderCurrency throws. */
  function ZarOnlyMessage(provider: Provider, currency: string): string {
    provider.Name() + " only supports ZAR. Received: " + currency + ". Set currency: \"ZAR\"."
  }

  /** assertProviderCurrency (src/internal/currency.ts:15-27). */
  function AssertProviderCurrency(provider: Provider, currency: string): (r: Outcome)
    ensures r.Fail? <==> provider != Paystack && currency != "ZAR"
    ensures r.Fail? ==> r.error == Coded(UnsupportedCurrencyCode, ZarOnlyMessage(provider, currency))
  {
    if (provider == Ozow || provider == Payfast) && currency != DefaultCurrency then
      Fail(Coded(UnsupportedCurrencyCode, ZarOnlyMessage(provider, currency)))
    else Pass
  }

  /** The comparison is exact: a lower-case "zar" is rejected for Ozow. */
  lemma AssertProviderCurrencyIsCaseSensitive(zar: string)
    requires zar == "zar"
    ensures AssertProviderCurrency(Ozow, zar).Fail?
  {
    assert zar[0] != 'Z';
  }
}
