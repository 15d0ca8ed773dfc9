/** src/providers/adapters.ts: the webhook event normalisers of the three
    providers, the case-insensitive header lookup, the prelude and status mapping
    of the payment lookups, the parseWebhook compositions and the adapter
    registry. */
module Adapters {
  import opened Errors
  import opened Text
  import opened Records
  import opened Types
  import opened Runtime
  import opened Guards
  import opened Amount
  import opened Encoding
  import opened Form
  import opened Capabilities
  import OzowCore = Ozow
  import PayfastCore = Payfast
  import PaystackCore = Paystack

  /** parseWebhookPayload (src/providers/adapters.ts:26-29): the form body as a
      record, the last occurrence of a key winning. */
  function ParseWebhookPayload(rawBody: string): Result<Entries<string>> {
    var pairs :- ParseFormEncoded(rawBody);
    Ok(PairsToRecord(pairs))
  }

  // ---------------------------------------------------------------------------
  // Payfast and Ozow events

  /** mapPayfastEvent (src/providers/adapters.ts:31-51). */
  function MapPayfastEvent(payload: Entries<string>): WebhookEvent {
    var status := ToUpper(Get(payload, "payment_status").GetOr(""));
    var kind := if status == "COMPLETE" then PaymentCompleted
      else if status == "CANCELLED" then PaymentCancelled
      else PaymentFailed;
    var gross := Get(payload, "amount_gross");
    WebhookEvent(kind, PaymentData(
      Payfast,
      Get(payload, "m_payment_id").GetOr(""),
      Get(payload, "pf_payment_id"),
      if Present(gross) then Some(DecimalText(gross.value)) else None,
      if Present(gross) then Some("ZAR") else None,
      FormRecord(payload)))
  }

  /** The event kind follows payment_status whatever its letter case; the
      reference is m_payment_id (or ""), the provider reference pf_payment_id,
      and an amount and the currency ZAR come together, exactly when
      amount_gross is non-empty. */
  lemma MapPayfastEventSpec(payload: Entries<string>)
    ensures var e := MapPayfastEvent(payload);
      var status := ToUpper(Get(payload, "payment_status").GetOr(""));
      var gross := Get(payload, "amount_gross");
      && (e.kind == PaymentCompleted <==> status == "COMPLETE")
      && (e.kind == PaymentCancelled <==> status == "CANCELLED")
      && (e.kind == PaymentFailed <==> status != "COMPLETE" && status != "CANCELLED")
      && e.data.PaymentData? && e.data.provider == Payfast
      && e.data.reference == Get(payload, "m_payment_id").GetOr("")
      && e.data.providerRef == Get(payload, "pf_payment_id")
      && (e.data.currency == Some("ZAR") <==> Present(gross))
      && (e.data.currency.None? <==> !Present(gross))
      && (e.data.amount.Some? <==> Present(gross))
      && (Present(gross) ==> e.data.amount == Some(DecimalText(gross.value)))
      && e.data.raw == FormRecord(payload)
  {
  }

  /** A lower-case "complete" or "cancelled" status is read as its upper-case form. */
  lemma PayfastEventIgnoresCase(payload: Entries<string>, status: string)
    ensures MapPayfastEvent(Put(payload, "payment_status", status)).kind ==
            MapPayfastEvent(Put(payload, "payment_status", ToUpper(status))).kind
  {
    GetPut(payload, "payment_status", status, "payment_status");
    GetPut(payload, "payment_status", ToUpper(status), "payment_status");
    ToUpperIdempotent(status);
  }

  /** mapOzowEvent (src/providers/adapters.ts:53-73). */
  function MapOzowEvent(payload: Entries<string>): WebhookEvent {
    var status := ToLower(Get(payload, "Status").GetOr(""));
    var kind := if status == "complete" then PaymentCompleted
      else if status == "cancelled" then PaymentCancelled
      else PaymentFailed;
    var amount := Get(payload, "Amount");
    WebhookEvent(kind, PaymentData(
      Ozow,
      Get(payload, "TransactionReference").GetOr(""),
      Get(payload, "TransactionId"),
      if Present(amount) then Some(DecimalText(amount.value)) else None,
      Get(payload, "CurrencyCode"),
      FormRecord(payload)))
  }

  /** The event kind follows Status whatever its letter case; the reference is
      TransactionReference (or ""), the currency is CurrencyCode as received, and
      an amount is present exactly when Amount is non-empty. */
  lemma MapOzowEventSpec(payload: Entries<string>)
    ensures var e := MapOzowEvent(payload);
      var status := ToLower(Get(payload, "Status").GetOr(""));
      && (e.kind == PaymentCompleted <==> status == "complete")
      && (e.kind == PaymentCancelled <==> status == "cancelled")
      && (e.kind == PaymentFailed <==> status != "complete" && status != "cancelled")
      && e.data.PaymentData? && e.data.provider == Ozow
      && e.data.reference == Get(payload, "TransactionReference").GetOr("")
      && e.data.providerRef == Get(payload, "TransactionId")
      && e.data.currency == Get(payload, "CurrencyCode")
      && (e.data.amount.Some? <==> Present(Get(payload, "Amount")))
      && e.data.raw == FormRecord(payload)
  {
  }

  /** An upper-case "COMPLETE" or "CANCELLED" status is read as its lower-case form. */
  lemma OzowEventIgnoresCase(payload: Entries<string>, status: string)
    ensures MapOzowEvent(Put(payload, "Status", status)).kind ==
            MapOzowEvent(Put(payload, "Status", ToUpper(status))).kind
  {
    GetPut(payload, "Status", status, "Status");
    GetPut(payload, "Status", ToUpper(status), "Status");
    ToLowerToUpper(status);
  }

  // ---------------------------------------------------------------------------
  // Paystack events

  /** The Paystack names of the six subscription and invoice events
      (src/providers/adapters.ts:138-157), keyed by the canonical type. */
  function PaystackEventName(kind: EventType): Option<string> {
    match kind
    case SubscriptionCreated => Some("subscription.create")
    case SubscriptionDisabled => Some("subscription.disable")
    case SubscriptionNotRenewing => Some("subscription.not_renew")
    case InvoiceCreated => Some("invoice.create")
    case InvoiceUpdated => Some("invoice.update")
    case InvoicePaymentFailed => Some("invoice.payment_failed")
    case _ => None
  }

  /** The canonical subscription or invoice type of a lower-cased Paystack event name. */
  function SubscriptionKind(eventType: string): Option<EventType> {
    if eventType == "subscription.create" then Some(SubscriptionCreated)
    else if eventType == "subscription.disable" then Some(SubscriptionDisabled)
    else if eventType == "subscription.not_renew" then Some(SubscriptionNotRenewing)
    else if eventType == "invoice.create" then Some(InvoiceCreated)
    else if eventType == "invoice.update" then Some(InvoiceUpdated)
    else if eventType == "invoice.payment_failed" then Some(InvoicePaymentFailed)
    else None
  }

  /** Each of the six names maps to the canonical type whose Paystack name it is,
      and no other name maps to a subscription or invoice type. */
  lemma SubscriptionKindNames(eventType: string, kind: EventType)
    ensures SubscriptionKind(eventType) == Some(kind) <==> PaystackEventName(kind) == Some(eventType)
  {
  }

  /** An amount as fromMinorUnits receives it: a string, or a number's text. */
  function AmountOf(value: Primitive): AmountInput {
    match value
    case Str(s) => AmountText(s)
    case Num(text) => AmountRendered(text)
    case Bool(_) => AmountRendered(ToStringValue(value))
  }

  /** The event amount: none when the payload has none, otherwise
      fromMinorUnits(amount, currency), which may throw. */
  function EventAmountOf(amount: Option<Primitive>, currency: Option<string>, h: Host): Result<Option<EventAmount>> {
    if amount.None? then Ok(None)
    else
      var major :- FromMinorUnits(AmountOf(amount.value), currency, h);
      Ok(Some(MajorUnits(major)))
  }

  /** `a?.b ?? c`. */
  function Either(nested: Option<string>, flat: Option<string>): Option<string> {
    if nested.Some? then nested else flat
  }

  const NoEventData := PaystackEventData(None, None, None, None, None, None, None, None, None, None, None, None, None)

  /** The lower-cased `String(payload.event ?? "")`. */
  function PaystackEventType(payload: PaystackPayload): string {
    ToLower(if payload.event.Some? then ToStringValue(payload.event.value) else "")
  }

  /** The event currency: `String(data.currency)` when it is truthy. */
  function EventCurrency(data: PaystackEventData): Option<string> {
    if data.currency.Some? && TruthyValue(data.currency.value) then Some(ToStringValue(data.currency.value)) else None
  }

  /** mapPaystackEvent (src/providers/adapters.ts:132-230). */
  function MapPaystackEvent(payload: PaystackPayload, h: Host): Result<WebhookEvent> {
    var eventType := PaystackEventType(payload);
    var data := payload.data.GetOr(NoEventData);
    var currency := EventCurrency(data);
    var amount :- EventAmountOf(data.amount, currency, h);
    var subscription := SubscriptionKind(eventType);
    if subscription.Some? then
      Ok(WebhookEvent(subscription.value, SubscriptionData(
        Paystack,
        Either(data.nestedSubscriptionCode, data.subscriptionCode),
        Either(data.nestedCustomerCode, data.customerCode),
        Either(data.nestedPlanCode, data.planCode),
        Either(data.nestedInvoiceCode, data.invoiceCode),
        data.status, amount, currency, JsonBody(payload))))
    else
      Ok(WebhookEvent(
        if eventType == "charge.success" then PaymentCompleted else PaymentFailed,
        PaymentData(
          Paystack,
          if data.reference.Some? then ToStringValue(data.reference.value) else "",
          if data.id.Some? && TruthyValue(data.id.value) then Some(ToStringValue(data.id.value)) else None,
          amount, currency, JsonBody(payload))))
  }

  /** Only an amount fromMinorUnits refuses makes the mapping throw. A
      subscription or invoice name gives its canonical type and the nested codes
      before the flat ones; any other name is payment.completed for
      charge.success and payment.failed otherwise. The amount is absent exactly
      when the payload has none. */
  lemma MapPaystackEventSpec(payload: PaystackPayload, h: Host)
    ensures var data := payload.data.GetOr(NoEventData);
      var r := MapPaystackEvent(payload, h);
      var t := PaystackEventType(payload);
      && (r.Err? <==> data.amount.Some? && FromMinorUnits(AmountOf(data.amount.value), EventCurrency(data), h).Err?)
      && (r.Ok? ==> r.value.data.currency == EventCurrency(data))
      && (r.Ok? ==> r.value.data.provider == Paystack && r.value.data.raw == JsonBody(payload))
      && (r.Ok? ==> (r.value.data.amount.None? <==> data.amount.None?))
      && (r.Ok? && SubscriptionKind(t).Some? ==>
            && PaystackEventName(r.value.kind) == Some(t)
            && r.value.data.SubscriptionData?
            && r.value.data.subscriptionCode == Either(data.nestedSubscriptionCode, data.subscriptionCode)
            && r.value.data.customerCode == Either(data.nestedCustomerCode, data.customerCode)
            && r.value.data.planCode == Either(data.nestedPlanCode, data.planCode)
            && r.value.data.invoiceCode == Either(data.nestedInvoiceCode, data.invoiceCode)
            && r.value.data.status == data.status)
      && (r.Ok? && SubscriptionKind(t).None? ==>
            && r.value.data.PaymentData?
            && (r.value.kind == PaymentCompleted <==> t == "charge.success")
            && (r.value.kind == PaymentFailed <==> t != "charge.success"))
  {
    var data := payload.data.GetOr(NoEventData);
    var t := PaystackEventType(payload);
    if SubscriptionKind(t).Some? {
      SubscriptionKindNames(t, SubscriptionKind(t).value);
    }
  }

  /** A decimal amount string in minor units, without an exponent mark, becomes
      that many hundredths of the major unit. */
  lemma PaystackEventAmount(payload: PaystackPayload, h: Host, s: string)
    requires payload.data.Some? && payload.data.value.amount == Some(Str(s))
    requires !HasExponentMark(Trim(s)) && IsDigits(Trim(s)) && DigitsValue(Trim(s)) <= MaxSafeInteger
    ensures MapPaystackEvent(payload, h).Ok?
    ensures MapPaystackEvent(payload, h).value.data.amount == Some(MajorUnits(DigitsValue(Trim(s)) as real / 100.0))
  {
    var currency := EventCurrency(payload.data.value);
    ParseMinorUnitsSpec(s, h);
    ResolveExponentIsTwo(currency);
    assert FromMinorUnits(AmountText(s), currency, h) == Ok(DigitsValue(Trim(s)) as real / 100.0);
  }

  /** Upper-casing the event name changes neither whether the mapping throws nor
      the event type. */
  lemma PaystackEventIgnoresCase(payload: PaystackPayload, h: Host, name: string)
    ensures var upper := MapPaystackEvent(PaystackPayload(Some(Str(ToUpper(name))), payload.data), h);
      var plain := MapPaystackEvent(PaystackPayload(Some(Str(name)), payload.data), h);
      (upper.Ok? <==> plain.Ok?) && (upper.Ok? ==> upper.value.kind == plain.value.kind)
  {
    ToLowerToUpper(name);
    assert PaystackEventType(PaystackPayload(Some(Str(ToUpper(name))), payload.data)) ==
           PaystackEventType(PaystackPayload(Some(Str(name)), payload.data));
  }

  // ---------------------------------------------------------------------------
  // Header lookup

  /** What a header entry yields: a string as it is, the first element of a
      list (undefined for an empty one), or undefined. */
  function HeaderText(value: HeaderValue): Option<string> {
    match value
    case Single(s) => Some(s)
    case Multiple(values) => if |values| > 0 then Some(values[0]) else None
    case Undefined => None
  }

  /** The value of the first entry whose lower-cased name is `lowerKey`. */
  function FirstHeader(entries: Entries<HeaderValue>, lowerKey: string): Option<string>
    decreases |entries|
  {
    if |entries| == 0 then None
    else if ToLower(entries[0].0) == lowerKey then HeaderText(entries[0].1)
    else FirstHeader(entries[1..], lowerKey)
  }

  /** The header lookup resolveHeader performs. */
  function HeaderLookup(headers: Option<Entries<HeaderValue>>, key: string): Option<string> {
    if headers.None? then None else FirstHeader(headers.value, ToLower(key))
  }

  /** resolveHeader (src/providers/adapters.ts:232-244). */
  method ResolveHeader(headers: Option<Entries<HeaderValue>>, key: string) returns (r: Option<string>)
    ensures r == HeaderLookup(headers, key)
  {
    if headers.None? {
      return None;
    }
    var entries := headers.value;
    var lowerKey := ToLower(key);
    for i := 0 to |entries|
      invariant FirstHeader(entries[i..], lowerKey) == FirstHeader(entries, lowerKey)
    {
      assert entries[i..][1..] == entries[i + 1..];
      var (headerKey, value) := entries[i];
      if ToLower(headerKey) != lowerKey {
        continue;
      }
      match value
      case Multiple(values) =>
        return if |values| > 0 then Some(values[0]) else None;
      case Single(s) =>
        return Some(s);
      case Undefined =>
        return None;
    }
    return None;
  }

  /** The lookup takes the first entry whose name matches without regard to
      letter case (even when that entry is undefined), and finds nothing when no
      name matches or there are no headers. */
  lemma {:induction false} FirstHeaderSpec(entries: Entries<HeaderValue>, key: string, i: nat)
    requires i < |entries| && ToLower(entries[i].0) == ToLower(key)
    requires forall j | 0 <= j < i :: ToLower(entries[j].0) != ToLower(key)
    ensures HeaderLookup(Some(entries), key) == HeaderText(entries[i].1)
    decreases i
  {
    if i > 0 {
      FirstHeaderSpec(entries[1..], key, i - 1);
    }
  }

  lemma {:induction false} NoHeaderMatches(entries: Entries<HeaderValue>, key: string)
    requires forall j | 0 <= j < |entries| :: ToLower(entries[j].0) != ToLower(key)
    ensures HeaderLookup(Some(entries), key).None?
    ensures HeaderLookup(None, key).None?
    decreases |entries|
  {
    if |entries| > 0 {
      NoHeaderMatches(entries[1..], key);
    }
  }

  /** The name asked for may be written in any case. */
  lemma HeaderLookupIgnoresCase(headers: Option<Entries<HeaderValue>>, key: string)
    ensures HeaderLookup(headers, ToUpper(key)) == HeaderLookup(headers, key)
  {
    ToLowerToUpper(key);
  }

  // ---------------------------------------------------------------------------
  // Payment lookups

  /** One element of the array Ozow's GetTransactionByReference returns, reduced
      to the members the adapter reads. */
  datatype OzowTransaction = OzowTransaction(status: Option<Primitive>, transactionId: Option<string>)

  /** The request verifyOzowPaymentByReference sends, before the query string
      is serialised. */
  datatype OzowLookup = OzowLookup(url: string, query: Entries<string>, apiKey: string)

  const OzowLookupLive := "https://api.ozow.com"
  const OzowLookupStaging := "https://stagingapi.ozow.com"

  /** The guards and request of verifyOzowPaymentByReference
      (src/providers/adapters.ts:249-274). */
  function OzowLookupRequest(input: ProviderVerifyInput): Result<OzowLookup> {
    if !Present(input.secrets.siteCode) then Err(MissingField("secrets.siteCode"))
    else if !Present(input.secrets.apiKey) then Err(MissingField("secrets.apiKey"))
    else
      var baseUrl := if input.testMode then OzowLookupStaging else OzowLookupLive;
      var query := [("siteCode", input.secrets.siteCode.value), ("transactionReference", input.reference)];
      Ok(OzowLookup(baseUrl + "/GetTransactionByReference",
        if input.testMode then query + [("isTest", "true")] else query,
        input.secrets.apiKey.value))
  }

  /** The site code is checked before the API key; an accepted lookup goes to
      the staging host exactly in test mode, where it also carries isTest=true. */
  lemma OzowLookupRequestSpec(input: ProviderVerifyInput)
    ensures var r := OzowLookupRequest(input);
      && (!Present(input.secrets.siteCode) ==> r == Err(MissingField("secrets.siteCode")))
      && (Present(input.secrets.siteCode) && !Present(input.secrets.apiKey) ==> r == Err(MissingField("secrets.apiKey")))
      && (r.Ok? <==> Present(input.secrets.siteCode) && Present(input.secrets.apiKey))
      && (r.Ok? ==>
            && r.value.url == (if input.testMode then OzowLookupStaging else OzowLookupLive) + "/GetTransactionByReference"
            && Get(r.value.query, "siteCode") == input.secrets.siteCode
            && Get(r.value.query, "transactionReference") == Some(input.reference)
            && (Get(r.value.query, "isTest") == Some("true") <==> input.testMode)
            && r.value.apiKey == input.secrets.apiKey.value)
  {
    if Present(input.secrets.siteCode) && Present(input.secrets.apiKey) {
      var query := [("siteCode", input.secrets.siteCode.value), ("transactionReference", input.reference)];
      GetConcat(query, [("isTest", "true")], "isTest");
      GetConcat(query, [("isTest", "true")], "siteCode");
      GetConcat(query, [("isTest", "true")], "transactionReference");
      assert Keys(query) == ["siteCode", "transactionReference"];
      GetSomeIffKey(query, "isTest");
    }
  }

  /** The status of an Ozow transaction (src/providers/adapters.ts:281-290):
      `String(Status ?? "")` lower-cased; complete is paid, cancelled and error
      are failed, any other non-empty text pending, and none unknown. */
  function OzowLookupStatus(status: Option<Primitive>): PaymentStatus {
    var text := ToLower(if status.Some? then ToStringValue(status.value) else "");
    if text == "complete" then Paid
    else if text == "cancelled" || text == "error" then Failed
    else if text != "" then Pending
    else Unknown
  }

  /** The result for the response body: its first element when it is an array
      (src/providers/adapters.ts:281-297). */
  function OzowVerification(body: Option<seq<OzowTransaction>>): VerificationResult {
    var transaction := if body.Some? && |body.value| > 0 then Some(body.value[0]) else None;
    VerificationResult(Ozow,
      OzowLookupStatus(if transaction.Some? then transaction.value.status else None),
      if transaction.Some? then transaction.value.transactionId else None)
  }

  /** Each status comes from its own lower-cased texts, whatever the letter case
      Ozow used; a body that is not a non-empty array is unknown. */
  lemma OzowLookupStatusSpec(status: Option<Primitive>)
    ensures var text := ToLower(if status.Some? then ToStringValue(status.value) else "");
      && (OzowLookupStatus(status) == Paid <==> text == "complete")
      && (OzowLookupStatus(status) == Failed <==> text == "cancelled" || text == "error")
      && (OzowLookupStatus(status) == Pending <==> text !in ["", "complete", "cancelled", "error"])
      && (OzowLookupStatus(status) == Unknown <==> text == "")
    ensures forall body: Option<seq<OzowTransaction>> | body.None? || body == Some([]) ::
      OzowVerification(body) == VerificationResult(Ozow, Unknown, None)
  {
    assert ToLower("") == "";
  }

  lemma OzowLookupStatusIgnoresCase(s: string)
    ensures OzowLookupStatus(Some(Str(ToUpper(s)))) == OzowLookupStatus(Some(Str(s)))
  {
    ToLowerToUpper(s);
  }

  /** The request verifyPaystackPayment sends. */
  datatype PaystackLookup = PaystackLookup(url: string, authorization: string)

  /** The guard of verifyPaystackPaymentByReference and the request of
      verifyPaystackPayment (src/providers/adapters.ts:300-309,
      src/providers/paystack.ts:120-131). */
  function PaystackLookupRequest(input: ProviderVerifyInput): Result<PaystackLookup> {
    if !Present(input.secrets.paystackSecretKey) then Err(MissingField("secrets.paystackSecretKey"))
    else Ok(PaystackLookup(PaystackCore.PaystackBaseUrl + "/transaction/verify/" + EncodeUriComponent(input.reference),
      "Bearer " + input.secrets.paystackSecretKey.value))
  }

  /** A missing secret key fails before the request; otherwise the reference
      travels URI-encoded, so it adds no path segment or query of its own. */
  lemma PaystackLookupRequestSpec(input: ProviderVerifyInput)
    ensures var r := PaystackLookupRequest(input);
      && (r.Err? <==> !Present(input.secrets.paystackSecretKey))
      && (r.Err? ==> r.error == MissingField("secrets.paystackSecretKey"))
      && (r.Ok? ==> r.value.authorization == "Bearer " + input.secrets.paystackSecretKey.value)
      && (r.Ok? ==> var suffix := EncodeUriComponent(input.reference);
            && r.value.url == "https://api.paystack.co/transaction/verify/" + suffix
            && '/' !in suffix && '?' !in suffix && '#' !in suffix)
  {
    EncodedReserved(input.reference);
  }

  /** encodeURIComponent leaves only unreserved characters and escapes. */
  lemma {:induction false} EncodedChars(s: string)
    ensures forall i | 0 <= i < |EncodeUriComponent(s)| :: IsEncodedChar(EncodeUriComponent(s)[i])
    decreases |s|
  {
    if |s| > 0 {
      EncodedChars(s[1..]);
      var u := EncodeUriChar(s[0]);
      var r := EncodeUriComponent(s[1..]);
      if !IsUnreserved(s[0]) {
        PercentBytesShape(Utf8(s[0]));
      }
      assert forall i | 0 <= i < |u| :: IsEncodedChar(u[i]);
      EncodedCharsConcat(u, r);
    }
  }

  lemma EncodedReserved(s: string)
    ensures '/' !in EncodeUriComponent(s) && '?' !in EncodeUriComponent(s) && '#' !in EncodeUriComponent(s)
  {
    EncodedChars(s);
  }

  // ---------------------------------------------------------------------------
  // parseWebhook

  /** The input parsePayfastWebhook hands verifyPayfastWebhook: the body, the
      headers and the passphrase (src/providers/adapters.ts:76-83). */
  function PayfastVerifyInput(input: WebhookInput): WebhookVerifyInput {
    WebhookVerifyInput(Payfast, Some(input.rawBody), None, input.headers, None, input.secrets.passphrase, None)
  }

  /** The input parseOzowWebhook hands verifyOzowWebhook: the body, the headers
      and the private key (src/providers/adapters.ts:94-101). */
  function OzowVerifyInput(input: WebhookInput): WebhookVerifyInput {
    WebhookVerifyInput(Ozow, Some(input.rawBody), None, input.headers, input.secrets.privateKey, None, None)
  }

  /** parsePayfastWebhook (src/providers/adapters.ts:75-91). */
  function ParsePayfastWebhook(input: WebhookInput, h: Host): Result<WebhookParseResult> {
    var verified :- PayfastCore.PayfastVerdict(PayfastVerifyInput(input), h);
    var payload :- ParseWebhookPayload(input.rawBody);
    Ok(WebhookParseResult(verified.isValid, MapPayfastEvent(payload), FormRecord(payload)))
  }

  /** parseOzowWebhook (src/providers/adapters.ts:93-109). */
  function ParseOzowWebhook(input: WebhookInput, h: Host): Result<WebhookParseResult> {
    var verified :- OzowCore.VerifyOzowWebhook(OzowVerifyInput(input), h);
    var payload :- ParseWebhookPayload(input.rawBody);
    Ok(WebhookParseResult(verified.isValid, MapOzowEvent(payload), FormRecord(payload)))
  }

  /** parsePaystackWebhook (src/providers/adapters.ts:111-130); `parsed` is what
      JSON.parse makes of the body, None when it throws. */
  function ParsePaystackWebhook(input: WebhookInput, parsed: Option<PaystackPayload>, h: Host): Result<WebhookParseResult> {
    var signature := HeaderLookup(input.headers, "x-paystack-signature");
    var secretKey := input.secrets.paystackSecretKey.GetOr("");
    var isValid := PaystackCore.VerifyPaystackWebhook(input.rawBody, signature, secretKey, h);
    if parsed.None? then Err(JsonMalformed)
    else
      var event :- MapPaystackEvent(parsed.value, h);
      Ok(WebhookParseResult(isValid, event, JsonBody(parsed.value)))
  }

  /** The Payfast result throws only when the body does not decode, so an
      invalid signature still yields the mapped event, flagged by the verifier's
      verdict. */
  lemma ParsePayfastWebhookSpec(input: WebhookInput, h: Host)
    ensures var r := ParsePayfastWebhook(input, h);
      && (r.Ok? <==> ParseWebhookPayload(input.rawBody).Ok?)
      && (r.Err? ==> r.error == ParseWebhookPayload(input.rawBody).error)
      && (r.Ok? ==>
            var payload := ParseWebhookPayload(input.rawBody).value;
            && PayfastCore.PayfastVerdict(PayfastVerifyInput(input), h).Ok?
            && r.value.isValid == PayfastCore.PayfastVerdict(PayfastVerifyInput(input), h).value.isValid
            && r.value.event == MapPayfastEvent(payload)
            && r.value.raw == FormRecord(payload))
  {
  }

  /** Likewise for Ozow: only a body that does not decode throws, whatever the
      secrets; otherwise the event is mapped and flagged by the verifier. */
  lemma ParseOzowWebhookSpec(input: WebhookInput, h: Host)
    ensures var r := ParseOzowWebhook(input, h);
      && (r.Ok? <==> ParseWebhookPayload(input.rawBody).Ok?)
      && (r.Err? ==> r.error == ParseWebhookPayload(input.rawBody).error)
      && (r.Ok? ==>
            var payload := ParseWebhookPayload(input.rawBody).value;
            && OzowCore.VerifyOzowWebhook(OzowVerifyInput(input), h).Ok?
            && r.value.isValid == OzowCore.VerifyOzowWebhook(OzowVerifyInput(input), h).value.isValid
            && r.value.event == MapOzowEvent(payload)
            && r.value.raw == FormRecord(payload))
  {
  }

  /** The Paystack result throws only when the body is not JSON or its amount is
      refused; its flag is true exactly when the x-paystack-signature header
      (any letter case) is the non-empty HMAC of the body under the secret key,
      the empty key when none is configured. */
  lemma ParsePaystackWebhookSpec(input: WebhookInput, parsed: Option<PaystackPayload>, h: Host)
    ensures var r := ParsePaystackWebhook(input, parsed, h);
      && (parsed.None? ==> r == Err(JsonMalformed))
      && (r.Ok? <==> parsed.Some? && MapPaystackEvent(parsed.value, h).Ok?)
      && (r.Ok? ==>
            var signature := HeaderLookup(input.headers, "x-paystack-signature");
            var digest := h.hmacSha512Hex(input.secrets.paystackSecretKey.GetOr(""), input.rawBody);
            && (r.value.isValid <==> signature == Some(digest) && digest != "")
            && r.value.event == MapPaystackEvent(parsed.value, h).value
            && r.value.raw == JsonBody(parsed.value))
  {
  }

  /** The parseWebhook member of each adapter. */
  function ParseWebhook(provider: Provider, input: WebhookInput, parsed: Option<PaystackPayload>, h: Host): Result<WebhookParseResult> {
    match provider
    case Ozow => ParseOzowWebhook(input, h)
    case Payfast => ParsePayfastWebhook(input, h)
    case Paystack => ParsePaystackWebhook(input, parsed, h)
  }

  /** Every event an adapter produces names that adapter's provider, and a form
      event keeps the decoded record as its raw payload. */
  lemma ParseWebhookProvider(provider: Provider, input: WebhookInput, parsed: Option<PaystackPayload>, h: Host)
    requires ParseWebhook(provider, input, parsed, h).Ok?
    ensures ParseWebhook(provider, input, parsed, h).value.event.data.provider == provider
    ensures ParseWebhook(provider, input, parsed, h).value.event.data.raw == ParseWebhook(provider, input, parsed, h).value.raw
  {
    ParsePayfastWebhookSpec(input, h);
    ParseOzowWebhookSpec(input, h);
    if provider == Paystack {
      MapPaystackEventSpec(parsed.value, h);
    }
  }

  // ---------------------------------------------------------------------------
  // Registry

  /** A ProviderAdapter, reduced to its id and which optional members it has;
      createPayment and parseWebhook are there for every provider. */
  datatype ProviderAdapter = ProviderAdapter(id: Provider, hasVerifyPayment: bool, hasCreatePlan: bool, hasCreateSubscription: bool)

  /** providerAdapters (src/providers/adapters.ts:311-339). */
  const ProviderAdapters: Entries<ProviderAdapter> := [
    ("ozow", ProviderAdapter(Ozow, true, false, false)),
    ("payfast", ProviderAdapter(Payfast, false, false, false)),
    ("paystack", ProviderAdapter(Paystack, true, true, true))]

  /** The registry has one adapter per provider, under the provider's name and
      with that id, and its optional members are exactly what the capability
      table promises: verifyPayment where verify is supported, createPlan and
      createSubscription where plans and subscriptions are. */
  lemma RegistryMatchesCapabilities(provider: Provider)
    ensures Get(ProviderAdapters, provider.Name()).Some?
    ensures var a := Get(ProviderAdapters, provider.Name()).value;
      && a.id == provider
      && (a.hasVerifyPayment <==> Truthy(CapabilitiesOf(provider).verify))
      && (a.hasCreatePlan <==> Truthy(CapabilitiesOf(provider).plans))
      && (a.hasCreateSubscription <==> Truthy(CapabilitiesOf(provider).subscriptions))
  {
    GetFirst(ProviderAdapters, 0);
    GetFirst(ProviderAdapters, 1);
    GetFirst(ProviderAdapters, 2);
  }
}
