/** src/providers/paystack.ts: the amount Paystack is sent, the transaction
    initialisation payload with its collision checks, the webhook signature check
    and the status of a verified transaction. The network calls are not modelled;
    the HMAC is the host's. */
module Paystack {
  import opened Errors
  import opened Text
  import opened Records
  import opened Types
  import opened Runtime
  import opened Guards
  import opened Amount

  /** PAYSTACK_BASE_URL (src/providers/paystack.ts:12). */
  const PaystackBaseUrl := "https://api.paystack.co"

  // ---------------------------------------------------------------------------
  // The amount

  /** resolvePaystackAmount (src/providers/paystack.ts:14-20): minor units as
      given when amountUnit is "minor", else the major amount converted with the
      currency's exponent. */
  function ResolvePaystackAmount(input: PaymentRequest, h: Host): Result<nat> {
    if input.amountUnit.GetOr(Major) == Minor then ParseMinorUnits(AmountText(input.amount), h)
    else ToMinorUnits(AmountText(input.amount), input.currency, h)
  }

  /** On text without an exponent mark: in minor units, a digit string below the
      cap is taken as it is; in major units (the default), a decimal string with
      at most two decimals is taken with the point moved two places. */
  lemma ResolvePaystackAmountSpec(input: PaymentRequest, h: Host)
    requires !HasExponentMark(Trim(input.amount))
    ensures var r := ResolvePaystackAmount(input, h);
      var s := Trim(input.amount);
      && (input.amountUnit == Some(Minor) ==>
            (r.Ok? <==> IsDigits(s) && DigitsValue(s) <= MaxSafeInteger) && (r.Ok? ==> r.value == DigitsValue(s)))
      && (input.amountUnit != Some(Minor) ==>
            (r.Ok? <==> IsDecimal(s) && |FractionPart(s)| <= 2 && DigitsValue(ShiftPoint(s, 2)) <= MaxSafeInteger)
            && (r.Ok? ==> r.value == DigitsValue(ShiftPoint(s, 2))))
  {
    ParseMinorUnitsSpec(input.amount, h);
    ToMinorUnitsSpec(input.amount, input.currency, h);
  }

  // ---------------------------------------------------------------------------
  // The initialisation payload

  /** A payload value: the caller's strings, the integer amount, the channel
      list, the metadata record, or a providerData primitive. */
  datatype PaystackValue =
    | Text(s: string)
    | Integer(n: nat)
    | ChannelList(channels: seq<string>)
    | Metadata(record: Entries<string>)
    | Given(value: Primitive)

  /** The members every plain object inherits from Object.prototype, for which
      `key in payload` holds although the payload never set them. */
  const InheritedKeys: seq<string> := [
    "constructor", "hasOwnProperty", "isPrototypeOf", "propertyIsEnumerable",
    "toLocaleString", "toString", "valueOf", "__proto__",
    "__defineGetter__", "__defineSetter__", "__lookupGetter__", "__lookupSetter__"]

  /** `key in payload`, prototype chain included. */
  predicate InPayload(payload: Entries<PaystackValue>, key: string) {
    key in Keys(payload) || key in InheritedKeys
  }

  /** The channels providerOptions gives (`options?.channels`; an array, even an
      empty one, is truthy). */
  function OptionChannels(input: PaymentRequest): Option<seq<string>> {
    if input.providerOptions.Some? then input.providerOptions.value.channels else None
  }

  /** callback_url, set when `input.urls?.returnUrl` is truthy. */
  function CallbackUrl(input: PaymentRequest): Option<PaystackValue> {
    if input.urls.Some? && Present(input.urls.value.returnUrl) then Some(Text(input.urls.value.returnUrl.value)) else None
  }

  /** channels, set when providerOptions has a channel list. */
  function ChannelsValue(input: PaymentRequest): Option<PaystackValue> {
    if OptionChannels(input).Some? then Some(ChannelList(OptionChannels(input).value)) else None
  }

  /** metadata, set when the request has a metadata record. */
  function MetadataValue(input: PaymentRequest): Option<PaystackValue> {
    if input.metadata.Some? then Some(Metadata(input.metadata.value)) else None
  }

  /** `if (value) payload[key] = value`. */
  function PutSome(r: Entries<PaystackValue>, key: string, value: Option<PaystackValue>): Entries<PaystackValue> {
    if value.Some? then Put(r, key, value.value) else r
  }

  /** The core fields, then callback_url, channels and metadata when their
      sources are set (src/providers/paystack.ts:41-61). */
  function PaystackCorePayload(input: PaymentRequest, email: string, amount: nat): Entries<PaystackValue> {
    var core := [("email", Text(email)), ("amount", Integer(amount)),
                 ("currency", Text(input.currency.GetOr("ZAR"))), ("reference", Text(input.reference))];
    PutSome(PutSome(PutSome(core, "callback_url", CallbackUrl(input)), "channels", ChannelsValue(input)), "metadata", MetadataValue(input))
  }

  /** The guards of makePaystackPayment (src/providers/paystack.ts:31-40): the
      secret key, then the customer's email, then the amount. */
  function PaystackPrelude(input: PaymentRequest, h: Host): Result<Entries<PaystackValue>> {
    var secretKey :- RequireValue(input.secrets.paystackSecretKey, "secrets.paystackSecretKey");
    var email := if input.customer.Some? then input.customer.value.email else None;
    if !Present(email) then Err(MissingField("customer.email"))
    else
      var amount :- ResolvePaystackAmount(input, h);
      Ok(PaystackCorePayload(input, email.value, amount))
  }

  /** The error invalidProviderData(message) throws: a StashError with code
      invalid_provider_data. */
  function InvalidProviderData(message: string): Error {
    Coded(InvalidProviderDataCode, message)
  }

  /** The providerData loop (src/providers/paystack.ts:67-73), entry by entry in
      insertion order: a null or undefined value is skipped, a key the payload
      already has (or inherits) throws, anything else is added. */
  function MergePaystackData(payload: Entries<PaystackValue>, data: ProviderData): Result<Entries<PaystackValue>>
    decreases |data|
  {
    if |data| == 0 then Ok(payload)
    else
      var prev :- MergePaystackData(payload, data[..|data| - 1]);
      var (key, value) := data[|data| - 1];
      if value.None? then Ok(prev)
      else if InPayload(prev, key) then Err(InvalidProviderData("providerData overlaps core fields: " + key))
      else Ok(Put(prev, key, Given(value.value)))
  }

  /** `options?.channels && "channels" in input.providerData`: the key counts even
      when its value is undefined. */
  predicate ChannelsClash(input: PaymentRequest) {
    OptionChannels(input).Some? && input.providerData.Some? && "channels" in Keys(input.providerData.value)
  }

  /** The body makePaystackPayment posts (src/providers/paystack.ts:31-74), or the
      first error it throws. */
  function PaystackPayload(input: PaymentRequest, h: Host): Result<Entries<PaystackValue>> {
    var core :- PaystackPrelude(input, h);
    if input.providerData.None? then Ok(core)
    else if ChannelsClash(input) then Err(InvalidProviderData("providerData overlaps providerOptions: channels"))
    else MergePaystackData(core, input.providerData.value)
  }

  /** What makePaystackPayment sends to `${PAYSTACK_BASE_URL}/transaction/initialize`. */
  datatype PaystackInitRequest = PaystackInitRequest(url: string, authorization: string, body: Entries<PaystackValue>)

  /** makePaystackPayment up to the `fetch` (src/providers/paystack.ts:28-84). */
  method PreparePaystackPayment(input: PaymentRequest, h: Host) returns (r: Result<PaystackInitRequest>)
    ensures r.Ok? <==> PaystackPayload(input, h).Ok?
    ensures PaystackPayload(input, h).Err? ==> r == Err(PaystackPayload(input, h).error)
    ensures r.Ok? ==>
      && r.value.url == PaystackBaseUrl + "/transaction/initialize"
      && r.value.authorization == "Bearer " + input.secrets.paystackSecretKey.value
      && r.value.body == PaystackPayload(input, h).value
  {
    var secretKey :- RequireValue(input.secrets.paystackSecretKey, "secrets.paystackSecretKey");
    var email := if input.customer.Some? then input.customer.value.email else None;
    if !Present(email) {
      return Err(MissingField("customer.email"));
    }
    var amount :- ResolvePaystackAmount(input, h);
    var currency := input.currency.GetOr("ZAR");
    var options := input.providerOptions;
    var payload: Entries<PaystackValue> := [("email", Text(email.value)), ("amount", Integer(amount)),
                                            ("currency", Text(currency)), ("reference", Text(input.reference))];
    if input.urls.Some? && Present(input.urls.value.returnUrl) {
      payload := Put(payload, "callback_url", Text(input.urls.value.returnUrl.value));
    }
    if options.Some? && options.value.channels.Some? {
      payload := Put(payload, "channels", ChannelList(options.value.channels.value));
    }
    if input.metadata.Some? {
      payload := Put(payload, "metadata", Metadata(input.metadata.value));
    }
    assert payload == PaystackCorePayload(input, email.value, amount);
    assert PaystackPrelude(input, h) == Ok(payload);
    if input.providerData.Some? {
      if options.Some? && options.value.channels.Some? && "channels" in Keys(input.providerData.value) {
        return Err(InvalidProviderData("providerData overlaps providerOptions: channels"));
      }
      payload :- MergePaystackProviderData(payload, input.providerData.value);
    }
    return Ok(PaystackInitRequest(PaystackBaseUrl + "/transaction/initialize", "Bearer " + secretKey, payload));
  }

  /** The providerData loop of makePaystackPayment (src/providers/paystack.ts:67-73). */
  method MergePaystackProviderData(payload: Entries<PaystackValue>, data: ProviderData) returns (r: Result<Entries<PaystackValue>>)
    ensures r == MergePaystackData(payload, data)
  {
    var merged := payload;
    for i := 0 to |data|
      invariant MergePaystackData(payload, data[..i]) == Ok(merged)
    {
      var (key, value) := data[i];
      assert data[..i + 1][..i] == data[..i];
      if value.None? {
        continue;
      }
      if key in Keys(merged) || key in InheritedKeys {
        MergePaystackDataPrefixErr(payload, data, i + 1);
        return Err(InvalidProviderData("providerData overlaps core fields: " + key));
      }
      merged := Put(merged, key, Given(value.value));
    }
    assert data[..|data|] == data;
    return Ok(merged);
  }

  /** Once a prefix of providerData fails, the whole merge fails the same way. */
  lemma {:induction false} MergePaystackDataPrefixErr(payload: Entries<PaystackValue>, data: ProviderData, n: nat)
    requires n <= |data| && MergePaystackData(payload, data[..n]).Err?
    ensures MergePaystackData(payload, data) == MergePaystackData(payload, data[..n])
    decreases |data| - n
  {
    if n < |data| {
      assert data[..n + 1][..n] == data[..n];
      MergePaystackDataPrefixErr(payload, data, n + 1);
    } else {
      assert data[..n] == data;
    }
  }

  // ---------------------------------------------------------------------------
  // Properties of the payload

  /** The entries the providerData loop adds, in order: every entry whose value is
      neither null nor undefined. */
  function GivenEntries(data: ProviderData): Entries<PaystackValue>
    decreases |data|
  {
    if |data| == 0 then []
    else
      var prev := GivenEntries(data[..|data| - 1]);
      var (key, value) := data[|data| - 1];
      if value.None? then prev else prev + [(key, Given(value.value))]
  }

  /** The added entries have distinct keys, none of which the payload has or
      inherits. */
  predicate AddsFreshKeys(payload: Entries<PaystackValue>, added: Entries<PaystackValue>) {
    DistinctKeys(added) && forall i | 0 <= i < |added| :: !InPayload(payload, added[i].0)
  }

  /** The loop succeeds exactly when the non-null entries bring keys that are new
      and distinct; it then appends them after the payload's own fields, and
      otherwise names a non-null key of providerData. */
  lemma {:induction false} MergePaystackDataSpec(payload: Entries<PaystackValue>, data: ProviderData)
    ensures MergePaystackData(payload, data).Ok? <==> AddsFreshKeys(payload, GivenEntries(data))
    ensures MergePaystackData(payload, data).Ok? ==> MergePaystackData(payload, data).value == payload + GivenEntries(data)
    ensures MergePaystackData(payload, data).Err? ==>
      exists i | 0 <= i < |data| :: data[i].1.Some? &&
        MergePaystackData(payload, data).error == InvalidProviderData("providerData overlaps core fields: " + data[i].0)
    decreases |data|
  {
    if |data| > 0 {
      var p := data[..|data| - 1];
      var (key, value) := data[|data| - 1];
      MergePaystackDataSpec(payload, p);
      var g := GivenEntries(p);
      if value.Some? {
        var g' := g + [(key, Given(value.value))];
        assert GivenEntries(data) == g';
        assert forall i | 0 <= i < |g| :: g'[i] == g[i];
        assert AddsFreshKeys(payload, g') ==> AddsFreshKeys(payload, g);
        var prev := MergePaystackData(payload, p);
        if prev.Ok? {
          AppendGivenStep(payload, g, key, Given(value.value));
          assert data[|data| - 1].1.Some?;
        } else {
          var i :| 0 <= i < |p| && p[i].1.Some? && prev.error == InvalidProviderData("providerData overlaps core fields: " + p[i].0);
          assert data[i] == p[i];
        }
      } else {
        assert GivenEntries(data) == g;
        if MergePaystackData(payload, p).Err? {
          var i :| 0 <= i < |p| && p[i].1.Some? &&
            MergePaystackData(payload, p).error == InvalidProviderData("providerData overlaps core fields: " + p[i].0);
          assert data[i] == p[i];
        }
      }
    }
  }

  /** One step of the loop over fresh entries: the next key is accepted exactly
      when it keeps the added keys fresh, and it is then appended. */
  lemma AppendGivenStep(payload: Entries<PaystackValue>, g: Entries<PaystackValue>, key: string, v: PaystackValue)
    requires AddsFreshKeys(payload, g)
    ensures !InPayload(payload + g, key) <==> AddsFreshKeys(payload, g + [(key, v)])
    ensures !InPayload(payload + g, key) ==> Put(payload + g, key, v) == payload + (g + [(key, v)])
  {
    var g' := g + [(key, v)];
    assert forall i | 0 <= i < |g| :: g'[i] == g[i];
    assert g'[|g|] == (key, v);
    KeysConcat(payload, g);
    KeysOf(g);
    if !InPayload(payload + g, key) {
      PutAppends(payload + g, key, v);
      assert payload + g + [(key, v)] == payload + g';
      assert forall i | 0 <= i < |g| :: g[i].0 != key;
    } else if key in Keys(payload) || key in InheritedKeys {
      assert InPayload(payload, g'[|g|].0);
    } else {
      var i :| 0 <= i < |g| && g[i].0 == key;
      assert g'[i].0 == g'[|g|].0;
    }
  }

  // Facts about `Keys`, stated for the proof of AppendGivenStep; they model nothing
  // on their own.

  lemma KeysConcat(a: Entries<PaystackValue>, b: Entries<PaystackValue>)
    ensures Keys(a + b) == Keys(a) + Keys(b)
  {
  }

  lemma KeysOf(g: Entries<PaystackValue>)
    ensures |Keys(g)| == |g| && forall i | 0 <= i < |g| :: Keys(g)[i] == g[i].0
    ensures forall key :: key in Keys(g) <==> exists i | 0 <= i < |g| :: g[i].0 == key
  {
  }

  /** providerData sets `key` to a value that is neither null nor undefined. */
  predicate GivesKey(data: Option<ProviderData>, key: string) {
    data.Some? && exists i | 0 <= i < |data.value| :: data.value[i].0 == key && data.value[i].1.Some?
  }

  /** Every non-null entry of providerData is among the added entries, and every
      added key is one providerData gives. */
  lemma {:induction false} GivenEntriesSpec(data: ProviderData)
    ensures forall i | 0 <= i < |data| && data[i].1.Some? :: (data[i].0, Given(data[i].1.value)) in GivenEntries(data)
    ensures forall j | 0 <= j < |GivenEntries(data)| :: GivesKey(Some(data), GivenEntries(data)[j].0)
    decreases |data|
  {
    if |data| > 0 {
      var p := data[..|data| - 1];
      GivenEntriesSpec(p);
      assert forall i | 0 <= i < |p| :: data[i] == p[i];
      var g := GivenEntries(p);
      var n := |data| - 1;
      forall j | 0 <= j < |GivenEntries(data)|
        ensures GivesKey(Some(data), GivenEntries(data)[j].0)
      {
        if j < |g| {
          assert GivenEntries(data)[j] == g[j];
          assert GivesKey(Some(p), g[j].0);
          var i :| 0 <= i < |p| && p[i].0 == g[j].0 && p[i].1.Some?;
          assert data[i] == p[i];
        } else {
          assert data[n].1.Some? && GivenEntries(data)[j].0 == data[n].0;
        }
      }
    }
  }

  lemma GetPutSome(r: Entries<PaystackValue>, key: string, value: Option<PaystackValue>, other: string)
    ensures Get(PutSome(r, key, value), other) == if other == key && value.Some? then value else Get(r, other)
  {
    if value.Some? {
      GetPut(r, key, value.value, other);
    }
  }

  /** The four core fields hold the email, the amount, the currency (ZAR by
      default) and the reference; each optional field holds its source's value
      when that is set and is absent otherwise. */
  lemma PaystackCorePayloadGet(input: PaymentRequest, email: string, amount: nat)
    ensures var core := PaystackCorePayload(input, email, amount);
      && Get(core, "email") == Some(Text(email))
      && Get(core, "amount") == Some(Integer(amount))
      && Get(core, "currency") == Some(Text(input.currency.GetOr("ZAR")))
      && Get(core, "reference") == Some(Text(input.reference))
      && Get(core, "callback_url") == CallbackUrl(input)
      && Get(core, "channels") == ChannelsValue(input)
      && Get(core, "metadata") == MetadataValue(input)
  {
    var core := [("email", Text(email)), ("amount", Integer(amount)),
                 ("currency", Text(input.currency.GetOr("ZAR"))), ("reference", Text(input.reference))];
    GetFirst(core, 0);
    GetFirst(core, 1);
    GetFirst(core, 2);
    GetFirst(core, 3);
    CoreKeyGet(input, email, amount, "email");
    CoreKeyGet(input, email, amount, "amount");
    CoreKeyGet(input, email, amount, "currency");
    CoreKeyGet(input, email, amount, "reference");
    CoreKeyGet(input, email, amount, "callback_url");
    CoreKeyGet(input, email, amount, "channels");
    CoreKeyGet(input, email, amount, "metadata");
  }

  lemma CoreKeyGet(input: PaymentRequest, email: string, amount: nat, key: string)
    ensures var core := [("email", Text(email)), ("amount", Integer(amount)),
                         ("currency", Text(input.currency.GetOr("ZAR"))), ("reference", Text(input.reference))];
      Get(PaystackCorePayload(input, email, amount), key) ==
        if key == "metadata" then MetadataValue(input)
        else if key == "channels" then ChannelsValue(input)
        else if key == "callback_url" then CallbackUrl(input)
        else Get(core, key)
  {
    var core := [("email", Text(email)), ("amount", Integer(amount)),
                 ("currency", Text(input.currency.GetOr("ZAR"))), ("reference", Text(input.reference))];
    var p1 := PutSome(core, "callback_url", CallbackUrl(input));
    var p2 := PutSome(p1, "channels", ChannelsValue(input));
    GetPutSome(p2, "metadata", MetadataValue(input), key);
    GetPutSome(p1, "channels", ChannelsValue(input), key);
    GetPutSome(core, "callback_url", CallbackUrl(input), key);
    if key == "callback_url" || key == "channels" || key == "metadata" {
      assert Get(core, key).None? by {
        GetSomeIffKey(core, key);
        assert Keys(core) == ["email", "amount", "currency", "reference"];
      }
    }
  }

  /** What makePaystackPayment throws, in the order it checks: the secret key,
      the customer's email, the amount, the channels overlap, then a colliding
      providerData key; with no error, the payload. */
  lemma PaystackPayloadErrors(input: PaymentRequest, h: Host)
    ensures var r := PaystackPayload(input, h);
      var email := if input.customer.Some? then input.customer.value.email else None;
      && (!Present(input.secrets.paystackSecretKey) ==> r == Err(MissingField("secrets.paystackSecretKey")))
      && (Present(input.secrets.paystackSecretKey) && !Present(email) ==> r == Err(MissingField("customer.email")))
      && (Present(input.secrets.paystackSecretKey) && Present(email) && ResolvePaystackAmount(input, h).Err? ==>
            r == Err(ResolvePaystackAmount(input, h).error))
      && (PaystackPrelude(input, h).Ok? && input.providerData.Some? && ChannelsClash(input) ==>
            r == Err(InvalidProviderData("providerData overlaps providerOptions: channels")))
      && (PaystackPrelude(input, h).Ok? && !ChannelsClash(input) ==>
            (r.Ok? <==> input.providerData.None? || AddsFreshKeys(PaystackPrelude(input, h).value, GivenEntries(input.providerData.value))))
  {
    if PaystackPrelude(input, h).Ok? && input.providerData.Some? {
      MergePaystackDataSpec(PaystackPrelude(input, h).value, input.providerData.value);
    }
  }

  /** An accepted payload is the core fields followed by providerData's non-null
      entries, so providerData only ever adds fields. */
  lemma PaystackPayloadShape(input: PaymentRequest, h: Host)
    requires PaystackPayload(input, h).Ok?
    ensures Present(input.secrets.paystackSecretKey) && input.customer.Some? && Present(input.customer.value.email)
    ensures ResolvePaystackAmount(input, h).Ok? && !ChannelsClash(input)
    ensures var body := PaystackPayload(input, h).value;
      var core := PaystackCorePayload(input, input.customer.value.email.value, ResolvePaystackAmount(input, h).value);
      && PaystackPrelude(input, h) == Ok(core)
      && (input.providerData.None? ==> body == core)
      && (input.providerData.Some? ==>
            AddsFreshKeys(core, GivenEntries(input.providerData.value)) && body == core + GivenEntries(input.providerData.value))
  {
    if input.providerData.Some? {
      MergePaystackDataSpec(PaystackPrelude(input, h).value, input.providerData.value);
    }
  }

  /** Appending entries that bring only new keys keeps every existing field, and
      a key that is neither existing nor given by providerData stays absent. */
  lemma AppendGivenGet(core: Entries<PaystackValue>, data: ProviderData, key: string)
    requires AddsFreshKeys(core, GivenEntries(data))
    ensures key in Keys(core) ==> Get(core + GivenEntries(data), key) == Get(core, key)
    ensures key !in Keys(core) && !GivesKey(Some(data), key) ==> Get(core + GivenEntries(data), key).None?
  {
    var g := GivenEntries(data);
    GivenEntriesSpec(data);
    GetConcat(core, g, key);
    GetSomeIffKey(g, key);
  }

  /** In an accepted payload the core fields and the request's optional fields
      read back as placed, and an optional field with neither source stays
      absent. */
  lemma PaystackPayloadFields(input: PaymentRequest, h: Host)
    requires PaystackPayload(input, h).Ok?
    ensures Present(input.secrets.paystackSecretKey) && input.customer.Some? && Present(input.customer.value.email)
    ensures ResolvePaystackAmount(input, h).Ok?
    ensures var body := PaystackPayload(input, h).value;
      && Get(body, "email") == Some(Text(input.customer.value.email.value))
      && Get(body, "amount") == Some(Integer(ResolvePaystackAmount(input, h).value))
      && Get(body, "currency") == Some(Text(input.currency.GetOr("ZAR")))
      && Get(body, "reference") == Some(Text(input.reference))
      && (CallbackUrl(input).Some? ==> Get(body, "callback_url") == CallbackUrl(input))
      && (ChannelsValue(input).Some? ==> Get(body, "channels") == ChannelsValue(input))
      && (MetadataValue(input).Some? ==> Get(body, "metadata") == MetadataValue(input))
      && (CallbackUrl(input).None? && !GivesKey(input.providerData, "callback_url") ==> Get(body, "callback_url").None?)
      && (ChannelsValue(input).None? && !GivesKey(input.providerData, "channels") ==> Get(body, "channels").None?)
      && (MetadataValue(input).None? && !GivesKey(input.providerData, "metadata") ==> Get(body, "metadata").None?)
  {
    PaystackPayloadShape(input, h);
    var email := input.customer.value.email.value;
    var amount := ResolvePaystackAmount(input, h).value;
    var core := PaystackCorePayload(input, email, amount);
    PaystackCorePayloadGet(input, email, amount);
    if input.providerData.Some? {
      var data := input.providerData.value;
      FieldsKept(core, data, "email");
      FieldsKept(core, data, "amount");
      FieldsKept(core, data, "currency");
      FieldsKept(core, data, "reference");
      FieldsKept(core, data, "callback_url");
      FieldsKept(core, data, "channels");
      FieldsKept(core, data, "metadata");
    }
  }

  lemma FieldsKept(core: Entries<PaystackValue>, data: ProviderData, key: string)
    requires AddsFreshKeys(core, GivenEntries(data))
    ensures Get(core, key).Some? ==> Get(core + GivenEntries(data), key) == Get(core, key)
    ensures Get(core, key).None? && !GivesKey(Some(data), key) ==> Get(core + GivenEntries(data), key).None?
  {
    GetSomeIffKey(core, key);
    AppendGivenGet(core, data, key);
  }

  /** Each non-null entry of providerData reaches the payload under its own key. */
  lemma PaystackPayloadData(input: PaymentRequest, h: Host, i: nat)
    requires PaystackPayload(input, h).Ok? && input.providerData.Some?
    requires i < |input.providerData.value| && input.providerData.value[i].1.Some?
    ensures Get(PaystackPayload(input, h).value, input.providerData.value[i].0) == Some(Given(input.providerData.value[i].1.value))
  {
    PaystackPayloadFields(input, h);
    var data := input.providerData.value;
    var core := PaystackPrelude(input, h).value;
    MergePaystackDataSpec(core, data);
    GivenEntriesSpec(data);
    var g := GivenEntries(data);
    var entry := (data[i].0, Given(data[i].1.value));
    var j :| 0 <= j < |g| && g[j] == entry;
    GetFirst(g, j);
    GetConcat(core, g, data[i].0);
    assert data[i].0 !in Keys(core) by {
      assert !InPayload(core, g[j].0);
    }
  }

  /** A providerData key named like a member of Object.prototype is refused
      although the payload never set it. */
  lemma InheritedKeyRefused(input: PaymentRequest, h: Host, value: Primitive)
    requires PaystackPrelude(input, h).Ok? && !ChannelsClash(input)
    requires input.providerData == Some([("toString", Some(value))])
    ensures PaystackPayload(input, h) == Err(InvalidProviderData("providerData overlaps core fields: toString"))
  {
    InheritedKeyMerge(PaystackPrelude(input, h).value, value);
  }

  lemma InheritedKeyMerge(core: Entries<PaystackValue>, value: Primitive)
    ensures MergePaystackData(core, [("toString", Some(value))]) == Err(InvalidProviderData("providerData overlaps core fields: toString"))
  {
    var data := [("toString", Some(value))];
    assert data[..0] == [];
    assert MergePaystackData(core, data[..0]) == Ok(core);
    assert |data| == 1 && data[|data| - 1] == ("toString", Some(value));
    assert InheritedKeys[5] == "toString";
    assert InPayload(core, "toString");
    var prev := MergePaystackData(core, data[..|data| - 1]);
    assert prev == Ok(core);
    assert data[|data| - 1].1.Some?;
    assert InPayload(prev.value, data[|data| - 1].0);
    assert MergePaystackData(core, data) == Err(InvalidProviderData("providerData overlaps core fields: " + data[|data| - 1].0));
    assert "providerData overlaps core fields: " + "toString" == "providerData overlaps core fields: toString";
  }

  /** A providerData "channels" key is refused next to providerOptions.channels
      even when its value is undefined, which the loop would have skipped. */
  lemma UndefinedChannelsRefused(input: PaymentRequest, h: Host)
    requires PaystackPrelude(input, h).Ok? && OptionChannels(input).Some?
    requires input.providerData == Some([("channels", None)])
    ensures PaystackPayload(input, h) == Err(InvalidProviderData("providerData overlaps providerOptions: channels"))
    ensures MergePaystackData(PaystackPrelude(input, h).value, input.providerData.value).Ok?
  {
    var data := input.providerData.value;
    assert Keys(data) == ["channels"];
    assert data[..0] == [];
  }

  // ---------------------------------------------------------------------------
  // Webhook signature

  /** verifyPaystackWebhook (src/providers/paystack.ts:107-118): an absent or
      empty header is refused; otherwise the header must equal the hex HMAC-SHA512
      of the raw body under the secret key, character for character. */
  function VerifyPaystackWebhook(rawBody: string, header: Option<string>, secretKey: string, h: Host): bool {
    if !Present(header) then false else h.hmacSha512Hex(secretKey, rawBody) == header.value
  }

  /** The header carrying the body's digest is accepted; any other header, an
      upper-cased digest that differs from it among them, is refused, and so is a
      missing one. */
  lemma PaystackWebhookSpec(rawBody: string, header: Option<string>, secretKey: string, h: Host)
    ensures var digest := h.hmacSha512Hex(secretKey, rawBody);
      && (digest != "" ==> VerifyPaystackWebhook(rawBody, Some(digest), secretKey, h))
      && (header != Some(digest) ==> !VerifyPaystackWebhook(rawBody, header, secretKey, h))
      && (ToUpper(digest) != digest ==> !VerifyPaystackWebhook(rawBody, Some(ToUpper(digest)), secretKey, h))
      && (header.None? ==> !VerifyPaystackWebhook(rawBody, header, secretKey, h))
  {
  }

  // ---------------------------------------------------------------------------
  // Verified transaction

  /** The status of a verified transaction (src/providers/paystack.ts:140-148):
      `String(data.status ?? "")` lower-cased; success is paid, failed is failed,
      abandoned is pending, anything else unknown. */
  function PaystackStatus(status: Option<Primitive>): PaymentStatus {
    var text := ToLower(if status.Some? then ToStringValue(status.value) else "");
    if text == "success" then Paid
    else if text == "failed" then Failed
    else if text == "abandoned" then Pending
    else Unknown
  }

  /** The result verifyPaystackPayment returns for the transaction data
      (src/providers/paystack.ts:140-155): the mapped status, and the id as text
      when it is truthy. */
  function PaystackVerification(status: Option<Primitive>, id: Option<Primitive>): VerificationResult {
    VerificationResult(Paystack, PaystackStatus(status),
      if id.Some? && TruthyValue(id.value) then Some(ToStringValue(id.value)) else None)
  }

  /** Each status comes from exactly one lower-cased text, whatever the letter
      case the API used, and an absent status is unknown. */
  lemma PaystackStatusSpec(status: Option<Primitive>)
    ensures var text := ToLower(if status.Some? then ToStringValue(status.value) else "");
      && (PaystackStatus(status) == Paid <==> text == "success")
      && (PaystackStatus(status) == Failed <==> text == "failed")
      && (PaystackStatus(status) == Pending <==> text == "abandoned")
      && (PaystackStatus(status) == Unknown <==> text !in ["success", "failed", "abandoned"])
    ensures status.None? ==> PaystackStatus(status) == Unknown
  {
  }

  /** Upper-casing the status text does not change the mapped status. */
  lemma PaystackStatusIgnoresCase(s: string)
    ensures PaystackStatus(Some(Str(ToUpper(s)))) == PaystackStatus(Some(Str(s)))
  {
    ToLowerToUpper(s);
  }

  /** The provider reference is the id's text exactly when the id is truthy: a
      numeric id 0, an empty string or false gives none. */
  lemma PaystackVerificationRef(status: Option<Primitive>, id: Option<Primitive>)
    ensures PaystackVerification(status, id).provider == Paystack
    ensures PaystackVerification(status, id).providerRef.Some? <==> id.Some? && TruthyValue(id.value)
    ensures id == Some(Num("0")) || id == Some(Str("")) || id == Some(Bool(false)) || id.None? ==>
      PaystackVerification(status, id).providerRef.None?
    ensures forall text | text != "" :: PaystackVerification(status, Some(Str(text))).providerRef == Some(text)
  {
  }
}
