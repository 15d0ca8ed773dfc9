/** src/providers/capabilities.ts: what each provider supports and requires,
    and the guards that consult the table. */
module Capabilities {
  import opened Errors
  import opened Text
  import opened Types

  /** ProviderCapabilities, flattened: an absent member is None, and every
      guard reads None as false. */
  datatype ProviderCapabilities = ProviderCapabilities(
    currencies: Option<seq<string>>,
    requiresCustomerEmail: Option<bool>,
    verify: Option<bool>,
    webhooks: Option<bool>,
    subscriptions: Option<bool>,
    plans: Option<bool>)

  /** providerCapabilities (src/providers/capabilities.ts:17-47). */
  function CapabilitiesOf(provider: Provider): ProviderCapabilities {
    match provider
    case Ozow => ProviderCapabilities(Some(["ZAR"]), None, Some(true), Some(true), Some(false), Some(false))
    case Payfast => ProviderCapabilities(Some(["ZAR"]), None, Some(false), Some(true), Some(false), Some(false))
    case Paystack => ProviderCapabilities(None, Some(true), Some(true), Some(true), Some(true), Some(true))
  }

  /** Truthiness of an optional flag. */
  predicate Truthy(flag: Option<bool>) {
    flag == Some(true)
  }

  /** The table as test/capabilities.test.ts reads it: Ozow and Payfast take ZAR
      only and Paystack lists no currencies; only Paystack requires an email and
      supports subscriptions and plans; every provider has webhooks and all but
      Payfast support verification. */
  lemma CapabilityTable(provider: Provider)
    ensures CapabilitiesOf(provider).currencies == (if provider == Paystack then None else Some(["ZAR"]))
    ensures Truthy(CapabilitiesOf(provider).requiresCustomerEmail) <==> provider == Paystack
    ensures Truthy(CapabilitiesOf(provider).verify) <==> provider != Payfast
    ensures Truthy(CapabilitiesOf(provider).webhooks)
    ensures Truthy(CapabilitiesOf(provider).subscriptions) <==> provider == Paystack
    ensures Truthy(CapabilitiesOf(provider).plans) <==> provider == Paystack
  {
  }

  /** requireSubscriptionSupport (src/providers/capabilities.ts:49-56). */
  function RequireSubscriptionSupport(provider: Provider): (r: Outcome)
    ensures r.Pass? <==> provider == Paystack
    ensures r.Fail? ==> r.error == Coded(UnsupportedCapabilityCode, "subscriptions are not supported for " + provider.Name())
  {
    if Truthy(CapabilitiesOf(provider).subscriptions) then Pass
    else Fail(Coded(UnsupportedCapabilityCode, "subscriptions are not supported for " + provider.Name()))
  }

  /** requirePlanSupport (src/providers/capabilities.ts:58-65). */
  function RequirePlanSupport(provider: Provider): (r: Outcome)
    ensures r.Pass? <==> provider == Paystack
    ensures r.Fail? ==> r.error == Coded(UnsupportedCapabilityCode, "subscription plans are not supported for " + provider.Name())
  {
    if Truthy(CapabilitiesOf(provider).plans) then Pass
    else Fail(Coded(UnsupportedCapabilityCode, "subscription plans are not supported for " + provider.Name()))
  }

  /** `supported.map((value) => value.toUpperCase())`. */
  function UpperAll(values: seq<string>): (r: seq<string>)
    ensures |r| == |values| && forall i | 0 <= i < |values| :: r[i] == ToUpper(values[i])
  {
    seq(|values|, i requires 0 <= i < |values| => ToUpper(values[i]))
  }

  /** requireSupportedCurrency (src/providers/capabilities.ts:67-77). */
  function RequireSupportedCurrency(provider: Provider, currency: string): (r: Outcome)
    ensures var list := CapabilitiesOf(provider).currencies;
      r.Pass? <==> (list.None? || |list.value| == 0
        || exists i | 0 <= i < |list.value| :: ToUpper(list.value[i]) == ToUpper(currency))
    ensures r.Fail? ==> r.error == CurrencyNotSupported(provider.Name(), currency, CapabilitiesOf(provider).currencies.value)
  {
    var supported := CapabilitiesOf(provider).currencies;
    if supported.None? || |supported.value| == 0 then Pass
    else if ToUpper(currency) !in UpperAll(supported.value) then
      Fail(CurrencyNotSupported(provider.Name(), currency, supported.value))
    else Pass
  }

  /** With the table filled in: Paystack accepts every currency, Ozow and Payfast
      exactly those that uppercase to ZAR. */
  lemma RequireSupportedCurrencyByProvider(provider: Provider, currency: string)
    ensures provider == Paystack ==> RequireSupportedCurrency(provider, currency).Pass?
    ensures provider != Paystack ==> (RequireSupportedCurrency(provider, currency).Pass? <==> ToUpper(currency) == "ZAR")
  {
    if provider != Paystack {
      var list := CapabilitiesOf(provider).currencies.value;
      assert list == ["ZAR"];
      assert ToUpper(list[0]) == "ZAR";
    }
  }

  /** requireCustomerEmail (src/providers/capabilities.ts:79-91). */
  function RequireCustomerEmail(provider: Provider, email: Option<string>): (r: Result<string>)
    ensures !Truthy(CapabilitiesOf(provider).requiresCustomerEmail) ==> r == Ok(email.GetOr(""))
    ensures Truthy(CapabilitiesOf(provider).requiresCustomerEmail) ==>
      (r.Ok? <==> Present(email)) && (r.Ok? ==> r.value == email.value)
      && (r.Err? ==> r.error == MissingField("customer.email"))
  {
    if !Truthy(CapabilitiesOf(provider).requiresCustomerEmail) then Ok(email.GetOr(""))
    else if !Present(email) then Err(MissingField("customer.email"))
    else Ok(email.value)
  }

  /** Only Paystack insists on an email; the others pass it through, "" for none. */
  lemma RequireCustomerEmailByProvider(provider: Provider, email: Option<string>)
    ensures provider != Paystack ==> RequireCustomerEmail(provider, email) == Ok(email.GetOr(""))
    ensures provider == Paystack ==> (RequireCustomerEmail(provider, email).Ok? <==> Present(email))
  {
  }
}
