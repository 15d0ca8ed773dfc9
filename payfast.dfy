/** src/providers/payfast.ts: the Payfast redirect form, its MD5 signature and
    the verification of Payfast ITN (instant transaction notification) bodies.
    The digest is the host's MD5. */
module Payfast {
  import opened Errors
  import opened Text
  import opened Records
  import opened Types
  import opened Runtime
  import opened Guards
  import opened Encoding
  import opened Form

  // ---------------------------------------------------------------------------
  // Field tables

  /** PAYFAST_ORDER (src/providers/payfast.ts:12-51): the form fields in signing order. */
  const PayfastOrder: seq<string> := [
    "merchant_id", "merchant_key", "return_url", "cancel_url", "notify_url",
    "fica_id_number", "name_first", "name_last", "email_address", "cell_number",
    "m_payment_id", "amount", "item_name", "item_description",
    "custom_int1", "custom_int2", "custom_int3", "custom_int4", "custom_int5",
    "custom_str1", "custom_str2", "custom_str3", "custom_str4", "custom_str5",
    "email_confirmation", "confirmation_address", "payment_method",
    "subscription_type", "billing_date", "recurring_amount", "frequency", "cycles",
    "subscription_notify_email", "subscription_notify_webhook", "subscription_notify_buyer",
    "setup", "token", "return"]

  /** PAYFAST_ALLOWED_FIELDS.has(key) (src/providers/payfast.ts:53). */
  predicate IsPayfastAllowed(key: string) {
    key in PayfastOrder || key == "signature"
  }

  /** PAYFAST_SIGNATURE_EXCLUSIONS.has(key) (src/providers/payfast.ts:54). */
  predicate ExcludedFromSignature(key: string) {
    key == "signature" || key == "setup"
  }

  /** PAYFAST_ENDPOINTS (src/providers/payfast.ts:56-59). */
  const PayfastLiveEndpoint := "https://www.payfast.co.za/eng/process"
  const PayfastSandboxEndpoint := "https://sandbox.payfast.co.za/eng/process"

  /** The form fields filled from metadata, `custom_str${index + 1}`. */
  const CustomStrKeys: seq<string> := ["custom_str1", "custom_str2", "custom_str3", "custom_str4", "custom_str5"]

  // ---------------------------------------------------------------------------
  // The signature

  /** Whether `key` enters the signature: not excluded, and its value present and
      not "" (src/providers/payfast.ts:131-133). */
  predicate Signed(fields: Entries<string>, key: string) {
    !ExcludedFromSignature(key) && Get(fields, key).Some? && Get(fields, key).value != ""
  }

  /** The `key=value` pairs of the pre-image, taken along `keys` in order, each
      value trimmed and then encoded. */
  function SignatureSegments(fields: Entries<string>, keys: seq<string>): seq<string>
    decreases |keys|
  {
    if |keys| == 0 then []
    else
      var key := keys[|keys| - 1];
      SignatureSegments(fields, keys[..|keys| - 1]) +
        (if Signed(fields, key) then [key + "=" + EncodePayfastValue(Trim(Get(fields, key).value))] else [])
  }

  /** `&passphrase=...` with the trimmed passphrase, when one is given (src/providers/payfast.ts:138-140). */
  function PassphraseSuffix(passphrase: Option<string>): string {
    if Present(passphrase) then "&passphrase=" + EncodePayfastValue(Trim(passphrase.value)) else ""
  }

  /** The signature pre-image of the form. */
  function PayfastSignatureInput(fields: Entries<string>, passphrase: Option<string>): string {
    Join(SignatureSegments(fields, PayfastOrder), "&") + PassphraseSuffix(passphrase)
  }

  /** buildPayfastSignature (src/providers/payfast.ts:124-143). */
  method BuildPayfastSignature(fields: Entries<string>, passphrase: Option<string>, h: Host) returns (signature: string)
    ensures signature == h.md5Hex(PayfastSignatureInput(fields, passphrase))
  {
    var pairs: seq<string> := [];
    for i := 0 to |PayfastOrder|
      invariant pairs == SignatureSegments(fields, PayfastOrder[..i])
    {
      var key := PayfastOrder[i];
      assert PayfastOrder[..i + 1][..i] == PayfastOrder[..i];
      if ExcludedFromSignature(key) {
        continue;
      }
      var value := Get(fields, key);
      if value.None? || value.value == "" {
        continue;
      }
      pairs := pairs + [key + "=" + EncodePayfastValue(Trim(value.value))];
    }
    assert PayfastOrder[..|PayfastOrder|] == PayfastOrder;
    var paramString := Join(pairs, "&");
    if Present(passphrase) {
      paramString := paramString + "&passphrase=" + EncodePayfastValue(Trim(passphrase.value));
      assert paramString == Join(pairs, "&") + PassphraseSuffix(passphrase);
    } else {
      assert paramString == Join(pairs, "&") + PassphraseSuffix(passphrase);
    }
    signature := h.md5Hex(paramString);
  }

  lemma {:induction false} SignatureSegmentsAgree(p: Entries<string>, q: Entries<string>, keys: seq<string>)
    requires forall i | 0 <= i < |keys| :: Signed(p, keys[i]) == Signed(q, keys[i])
    requires forall i | 0 <= i < |keys| :: Signed(p, keys[i]) ==> Get(p, keys[i]) == Get(q, keys[i])
    ensures SignatureSegments(p, keys) == SignatureSegments(q, keys)
    decreases |keys|
  {
    if |keys| > 0 {
      var init := keys[..|keys| - 1];
      assert forall i | 0 <= i < |init| :: init[i] == keys[i];
      SignatureSegmentsAgree(p, q, init);
    }
  }

  /** Setting `signature`, `setup` or a key outside PAYFAST_ORDER leaves the
      pre-image unchanged; in particular adding the signature to the form does
      not change what it signs. */
  lemma SignatureIgnoresUnsignedKey(fields: Entries<string>, key: string, value: string, passphrase: Option<string>)
    requires ExcludedFromSignature(key) || key !in PayfastOrder
    ensures PayfastSignatureInput(Put(fields, key, value), passphrase) == PayfastSignatureInput(fields, passphrase)
  {
    var q := Put(fields, key, value);
    forall i | 0 <= i < |PayfastOrder|
      ensures Signed(q, PayfastOrder[i]) == Signed(fields, PayfastOrder[i])
      ensures Get(q, PayfastOrder[i]) == Get(fields, PayfastOrder[i]) || ExcludedFromSignature(PayfastOrder[i])
    {
      GetPut(fields, key, value, PayfastOrder[i]);
    }
    SignatureSegmentsAgree(q, fields, PayfastOrder);
  }

  /** Values are trimmed before encoding: surrounding white space does not change
      the signature. */
  lemma SignatureTrimsValues(fields: Entries<string>, key: string, value: string, passphrase: Option<string>)
    requires key in PayfastOrder && Trim(value) != ""
    ensures PayfastSignatureInput(Put(fields, key, value), passphrase) == PayfastSignatureInput(Put(fields, key, Trim(value)), passphrase)
  {
    var p, q := Put(fields, key, value), Put(fields, key, Trim(value));
    TrimIdempotent(value);
    forall i | 0 <= i < |PayfastOrder|
      ensures Signed(p, PayfastOrder[i]) == Signed(q, PayfastOrder[i])
      ensures Signed(p, PayfastOrder[i]) && Signed(q, PayfastOrder[i]) ==> Trim(Get(p, PayfastOrder[i]).value) == Trim(Get(q, PayfastOrder[i]).value)
    {
      GetPut(fields, key, value, PayfastOrder[i]);
      GetPut(fields, key, Trim(value), PayfastOrder[i]);
    }
    SignatureSegmentsTrimAgree(p, q, PayfastOrder);
  }

  lemma {:induction false} SignatureSegmentsTrimAgree(p: Entries<string>, q: Entries<string>, keys: seq<string>)
    requires forall i | 0 <= i < |keys| :: Signed(p, keys[i]) == Signed(q, keys[i])
    requires forall i | 0 <= i < |keys| :: Signed(p, keys[i]) && Signed(q, keys[i]) ==> Trim(Get(p, keys[i]).value) == Trim(Get(q, keys[i]).value)
    ensures SignatureSegments(p, keys) == SignatureSegments(q, keys)
    decreases |keys|
  {
    if |keys| > 0 {
      var init := keys[..|keys| - 1];
      assert forall i | 0 <= i < |init| :: init[i] == keys[i];
      SignatureSegmentsTrimAgree(p, q, init);
    }
  }

  /** An absent, empty or white-space-only passphrase... the last one is truthy,
      so it still appends `&passphrase=` with nothing after it. */
  lemma PassphraseSuffixSpec(passphrase: Option<string>)
    ensures !Present(passphrase) ==> PassphraseSuffix(passphrase) == ""
    ensures Present(passphrase) && Trim(passphrase.value) == "" ==> PassphraseSuffix(passphrase) == "&passphrase="
    ensures Present(passphrase) ==> StartsWith(PassphraseSuffix(passphrase), "&passphrase=")
  {
    if Present(passphrase) && Trim(passphrase.value) == "" {
      EncodeKeepsUnreserved("");
    }
  }

  // ---------------------------------------------------------------------------
  // The form fields

  /** The keys of a Payfast form, all of them PAYFAST_ORDER fields. */
  predicate InPayfastOrder(fields: Entries<string>) {
    forall k | k in Keys(fields) :: k in PayfastOrder
  }

  lemma PutInOrder(fields: Entries<string>, key: string, value: string)
    requires InPayfastOrder(fields) && key in PayfastOrder
    ensures InPayfastOrder(Put(fields, key, value))
  {
    PutKeys(fields, key, value);
  }

  /** `(input.currency ?? "ZAR").toUpperCase()` (src/providers/payfast.ts:64):
      uppercased, but not trimmed. */
  function PayfastCurrency(currency: Option<string>): string {
    ToUpper(currency.GetOr("ZAR"))
  }

  /** `input.providerData?.[key] ?? undefined`: a null value reads as undefined. */
  function ProviderValue(data: Option<ProviderData>, key: string): Option<Primitive> {
    if data.Some? && Get(data.value, key).Some? then Get(data.value, key).value else None
  }

  /** item_name (src/providers/payfast.ts:87-95): providerData.item_name rendered
      as a string, else the description (even an empty one), else the reference. */
  function ItemNameOf(input: PaymentRequest): string {
    var given := ProviderValue(input.providerData, "item_name");
    if given.Some? then ToStringValue(given.value) else input.description.GetOr(input.reference)
  }

  /** item_description (src/providers/payfast.ts:88, 97-101): only from providerData. */
  function ItemDescriptionOf(input: PaymentRequest): Option<string> {
    var given := ProviderValue(input.providerData, "item_description");
    if given.Some? then Some(ToStringValue(given.value)) else None
  }

  /** The redirect URLs (src/providers/payfast.ts:75-77). */
  function PayfastUrlFields(fields: Entries<string>, urls: Option<Urls>): Entries<string> {
    if urls.None? then fields
    else
      var u := urls.value;
      var f1 := if Present(u.returnUrl) then Put(fields, "return_url", u.returnUrl.value) else fields;
      var f2 := if Present(u.cancelUrl) then Put(f1, "cancel_url", u.cancelUrl.value) else f1;
      if Present(u.notifyUrl) then Put(f2, "notify_url", u.notifyUrl.value) else f2
  }

  /** The customer fields (src/providers/payfast.ts:79-82). */
  function PayfastCustomerFields(fields: Entries<string>, customer: Option<Customer>): Entries<string> {
    if customer.None? then fields
    else
      var c := customer.value;
      var f1 := if Present(c.firstName) then Put(fields, "name_first", c.firstName.value) else fields;
      var f2 := if Present(c.lastName) then Put(f1, "name_last", c.lastName.value) else f1;
      var f3 := if Present(c.email) then Put(f2, "email_address", c.email.value) else f2;
      if Present(c.phone) then Put(f3, "cell_number", c.phone.value) else f3
  }

  /** item_name, then item_description when providerData gives one (src/providers/payfast.ts:87-101). */
  function PayfastItemNames(fields: Entries<string>, input: PaymentRequest): Entries<string> {
    var item := Put(fields, "item_name", ItemNameOf(input));
    if ItemDescriptionOf(input).Some? then Put(item, "item_description", ItemDescriptionOf(input).value) else item
  }

  /** The item fields (src/providers/payfast.ts:84-101). */
  function PayfastItemFields(fields: Entries<string>, input: PaymentRequest, amount: string): Entries<string> {
    PayfastItemNames(Put(Put(fields, "m_payment_id", input.reference), "amount", amount), input)
  }

  /** The record up to the metadata (src/providers/payfast.ts:70-101). */
  function PayfastBaseFields(input: PaymentRequest, merchantId: string, merchantKey: string, amount: string): Entries<string> {
    var contact := PayfastCustomerFields(PayfastUrlFields([("merchant_id", merchantId), ("merchant_key", merchantKey)], input.urls), input.customer);
    PayfastItemFields(contact, input, amount)
  }

  /** The checks of normalizePayfastFields and the record they lead to
      (src/providers/payfast.ts:62-101): the merchant id, the merchant key, the
      currency, then the amount. */
  function PayfastPrelude(input: PaymentRequest, h: Host): Result<Entries<string>> {
    var merchantId :- RequireValue(input.secrets.merchantId, "secrets.merchantId");
    var merchantKey :- RequireValue(input.secrets.merchantKey, "secrets.merchantKey");
    if PayfastCurrency(input.currency) != "ZAR" then Err(Plain("Payfast only supports ZAR amounts"))
    else
      var amount :- FormatAmount(input.amount, h);
      Ok(PayfastBaseFields(input, merchantId, merchantKey, amount))
  }

  /** Everything normalizePayfastFields writes before the providerData merge
      (src/providers/payfast.ts:62-108). */
  function PayfastFieldsBeforeData(input: PaymentRequest, h: Host): Result<Entries<string>> {
    var base :- PayfastPrelude(input, h);
    var shown := MetadataShown(input.metadata);
    Ok(PutValues(base, CustomStrKeys, shown, |shown|))
  }

  /** The providerData merge (src/providers/payfast.ts:110-119), entry by entry in
      insertion order: a key outside PAYFAST_ORDER and `signature` throws, a null
      or undefined value and a `signature` are skipped, anything else overwrites. */
  function MergePayfastData(fields: Entries<string>, data: ProviderData): Result<Entries<string>>
    decreases |data|
  {
    if |data| == 0 then Ok(fields)
    else
      var prev :- MergePayfastData(fields, data[..|data| - 1]);
      var (key, value) := data[|data| - 1];
      if !IsPayfastAllowed(key) then Err(Plain("Unsupported Payfast field: " + key))
      else if value.None? || key == "signature" then Ok(prev)
      else Ok(Put(prev, key, ToStringValue(value.value)))
  }

  /** The record normalizePayfastFields returns (src/providers/payfast.ts:61-122),
      or the first error it throws. */
  function PayfastFields(input: PaymentRequest, h: Host): Result<Entries<string>> {
    var fields :- PayfastFieldsBeforeData(input, h);
    if input.providerData.None? then Ok(fields) else MergePayfastData(fields, input.providerData.value)
  }

  /** normalizePayfastFields (src/providers/payfast.ts:61-122). */
  method NormalizePayfastFields(input: PaymentRequest, h: Host) returns (r: Result<Entries<string>>)
    ensures r == PayfastFields(input, h)
  {
    var merchantId :- RequireValue(input.secrets.merchantId, "secrets.merchantId");
    var merchantKey :- RequireValue(input.secrets.merchantKey, "secrets.merchantKey");
    var currency := ToUpper(input.currency.GetOr("ZAR"));
    if currency != "ZAR" {
      return Err(Plain("Payfast only supports ZAR amounts"));
    }
    var fields: Entries<string> := [("merchant_id", merchantId), ("merchant_key", merchantKey)];
    fields := WritePayfastUrls(fields, input.urls);
    fields := WritePayfastCustomer(fields, input.customer);
    fields := Put(fields, "m_payment_id", input.reference);
    var amount :- FormatAmount(input.amount, h);
    fields := Put(fields, "amount", amount);
    fields := WritePayfastItem(fields, input);
    assert PayfastPrelude(input, h) == Ok(fields);
    fields := WritePayfastMetadata(fields, input.metadata);
    assert PayfastFieldsBeforeData(input, h) == Ok(fields);
    if input.providerData.Some? {
      fields :- MergePayfastProviderData(fields, input.providerData.value);
    }
    return Ok(fields);
  }

  /** The redirect URLs of normalizePayfastFields (src/providers/payfast.ts:75-77). */
  method WritePayfastUrls(fields: Entries<string>, urls: Option<Urls>) returns (r: Entries<string>)
    ensures r == PayfastUrlFields(fields, urls)
  {
    r := fields;
    if urls.Some? {
      var u := urls.value;
      if Present(u.returnUrl) {
        r := Put(r, "return_url", u.returnUrl.value);
      }
      if Present(u.cancelUrl) {
        r := Put(r, "cancel_url", u.cancelUrl.value);
      }
      if Present(u.notifyUrl) {
        r := Put(r, "notify_url", u.notifyUrl.value);
      }
    }
  }

  /** The customer fields of normalizePayfastFields (src/providers/payfast.ts:79-82). */
  method WritePayfastCustomer(fields: Entries<string>, customer: Option<Customer>) returns (r: Entries<string>)
    ensures r == PayfastCustomerFields(fields, customer)
  {
    r := fields;
    if customer.Some? {
      var c := customer.value;
      if Present(c.firstName) {
        r := Put(r, "name_first", c.firstName.value);
      }
      if Present(c.lastName) {
        r := Put(r, "name_last", c.lastName.value);
      }
      if Present(c.email) {
        r := Put(r, "email_address", c.email.value);
      }
      if Present(c.phone) {
        r := Put(r, "cell_number", c.phone.value);
      }
    }
  }

  /** item_name and item_description (src/providers/payfast.ts:87-101), written
      after m_payment_id and amount. */
  method WritePayfastItem(fields: Entries<string>, input: PaymentRequest) returns (r: Entries<string>)
    ensures r == PayfastItemNames(fields, input)
  {
    var providerItemName := ProviderValue(input.providerData, "item_name");
    var providerItemDescription := ProviderValue(input.providerData, "item_description");
    var itemName := if providerItemName.Some? then ToStringValue(providerItemName.value)
                    else input.description.GetOr(input.reference);
    r := Put(fields, "item_name", itemName);
    if providerItemDescription.Some? {
      r := Put(r, "item_description", ToStringValue(providerItemDescription.value));
    }
  }

  /** The metadata `forEach` (src/providers/payfast.ts:103-108). */
  method WritePayfastMetadata(fields: Entries<string>, metadata: Option<Entries<string>>) returns (r: Entries<string>)
    ensures r == PutValues(fields, CustomStrKeys, MetadataShown(metadata), |MetadataShown(metadata)|)
  {
    r := fields;
    if metadata.Some? {
      var entries := MetadataShown(metadata);
      for index := 0 to |entries|
        invariant r == PutValues(fields, CustomStrKeys, entries, index)
      {
        r := Put(r, CustomStrKeys[index], entries[index].1);
      }
    }
  }

  /** The providerData loop (src/providers/payfast.ts:110-119). */
  method MergePayfastProviderData(fields: Entries<string>, data: ProviderData) returns (r: Result<Entries<string>>)
    ensures r == MergePayfastData(fields, data)
  {
    var merged := fields;
    for i := 0 to |data|
      invariant MergePayfastData(fields, data[..i]) == Ok(merged)
    {
      var (key, value) := data[i];
      assert data[..i + 1][..i] == data[..i];
      if !IsPayfastAllowed(key) {
        MergePayfastDataPrefixErr(fields, data, i + 1);
        return Err(Plain("Unsupported Payfast field: " + key));
      }
      if value.None? {
        continue;
      }
      if key == "signature" {
        continue;
      }
      merged := Put(merged, key, ToStringValue(value.value));
    }
    assert data[..|data|] == data;
    return Ok(merged);
  }

  /** Once a prefix of providerData fails, the whole merge fails the same way. */
  lemma {:induction false} MergePayfastDataPrefixErr(fields: Entries<string>, data: ProviderData, n: nat)
    requires n <= |data| && MergePayfastData(fields, data[..n]).Err?
    ensures MergePayfastData(fields, data) == MergePayfastData(fields, data[..n])
    decreases |data| - n
  {
    if n < |data| {
      assert data[..n + 1][..n] == data[..n];
      MergePayfastDataPrefixErr(fields, data, n + 1);
    } else {
      assert data[..n] == data;
    }
  }

  // ---------------------------------------------------------------------------
  // What the merge does

  /** The merge fails exactly when some key is outside PAYFAST_ORDER and
      `signature`, naming the first one. */
  lemma MergePayfastDataErrors(fields: Entries<string>, data: ProviderData)
    ensures MergePayfastData(fields, data).Err? <==> exists i | 0 <= i < |data| :: !IsPayfastAllowed(data[i].0)
    ensures MergePayfastData(fields, data).Err? ==>
      exists i | 0 <= i < |data| ::
        && !IsPayfastAllowed(data[i].0)
        && (forall j | 0 <= j < i :: IsPayfastAllowed(data[j].0))
        && MergePayfastData(fields, data).error == Plain("Unsupported Payfast field: " + data[i].0)
  {
    MergePayfastDataFails(fields, data);
    MergePayfastDataFirstError(fields, data);
    if MergePayfastData(fields, data).Err? {
      var i :| FirstUnsupported(data, i) && MergePayfastData(fields, data).error == Plain("Unsupported Payfast field: " + data[i].0);
      assert 0 <= i < |data|;
    }
  }

  lemma {:induction false} MergePayfastDataFails(fields: Entries<string>, data: ProviderData)
    ensures MergePayfastData(fields, data).Err? <==> exists i | 0 <= i < |data| :: !IsPayfastAllowed(data[i].0)
    decreases |data|
  {
    if |data| > 0 {
      MergePayfastDataFails(fields, data[..|data| - 1]);
      AllPayfastAllowedSnoc(data);
    }
  }

  /** Every providerData key is allowed. */
  predicate AllPayfastAllowed(data: ProviderData) {
    forall i | 0 <= i < |data| :: IsPayfastAllowed(data[i].0)
  }

  lemma AllPayfastAllowedSnoc(data: ProviderData)
    requires |data| > 0
    ensures AllPayfastAllowed(data) <==> AllPayfastAllowed(data[..|data| - 1]) && IsPayfastAllowed(data[|data| - 1].0)
  {
    var init := data[..|data| - 1];
    assert forall i | 0 <= i < |init| :: init[i] == data[i];
  }

  /** data[i] is the first pair whose key is not allowed. */
  predicate FirstUnsupported(data: ProviderData, i: int) {
    0 <= i < |data| && !IsPayfastAllowed(data[i].0) && forall j | 0 <= j < i :: IsPayfastAllowed(data[j].0)
  }

  lemma FirstUnsupportedExtends(data: ProviderData, n: nat, i: int)
    requires n <= |data| && FirstUnsupported(data[..n], i)
    ensures FirstUnsupported(data, i) && data[i] == data[..n][i]
  {
    assert forall j | 0 <= j <= i :: data[..n][j] == data[j];
  }

  lemma {:induction false} MergePayfastDataFirstError(fields: Entries<string>, data: ProviderData)
    ensures MergePayfastData(fields, data).Err? ==>
      exists i :: FirstUnsupported(data, i) && MergePayfastData(fields, data).error == Plain("Unsupported Payfast field: " + data[i].0)
    decreases |data|
  {
    if |data| > 0 {
      var n := |data| - 1;
      var prev := MergePayfastData(fields, data[..n]);
      if prev.Err? {
        MergePayfastDataFirstError(fields, data[..n]);
        var i :| FirstUnsupported(data[..n], i) && prev.error == Plain("Unsupported Payfast field: " + data[..n][i].0);
        FirstUnsupportedExtends(data, n, i);
        assert MergePayfastData(fields, data) == prev;
      } else if !IsPayfastAllowed(data[n].0) {
        MergePayfastDataFails(fields, data[..n]);
        assert forall j | 0 <= j < n :: data[..n][j] == data[j];
        assert FirstUnsupported(data, n);
      }
    }
  }

  /** providerData pairs with a null or undefined value never reach the form, and
      neither does a `signature`: */
  predicate NotSetBy(data: Option<ProviderData>, key: string) {
    data.None? || key == "signature" || forall i | 0 <= i < |data.value| :: data.value[i].0 == key ==> data.value[i].1.None?
  }

  /** a key no pair sets keeps its value. */
  lemma {:induction false} MergePayfastDataKeeps(fields: Entries<string>, data: ProviderData, key: string)
    requires NotSetBy(Some(data), key) && MergePayfastData(fields, data).Ok?
    ensures Get(MergePayfastData(fields, data).value, key) == Get(fields, key)
    decreases |data|
  {
    if |data| > 0 {
      var init := data[..|data| - 1];
      assert forall i | 0 <= i < |init| :: init[i] == data[i];
      MergePayfastDataKeeps(fields, init, key);
      var (k, v) := data[|data| - 1];
      if v.Some? && k != "signature" {
        GetPut(MergePayfastData(fields, init).value, k, ToStringValue(v.value), key);
      }
    }
  }

  /** A pair with a value overwrites its key with the value rendered as a string. */
  lemma {:induction false} MergePayfastDataSets(fields: Entries<string>, data: ProviderData, i: nat)
    requires DistinctKeys(data) && i < |data| && data[i].1.Some? && data[i].0 != "signature"
    requires MergePayfastData(fields, data).Ok?
    ensures Get(MergePayfastData(fields, data).value, data[i].0) == Some(ToStringValue(data[i].1.value))
    decreases |data|
  {
    var init := data[..|data| - 1];
    var (k, v) := data[|data| - 1];
    if i < |init| {
      assert forall j | 0 <= j < |init| :: init[j] == data[j];
      assert DistinctKeys(init);
      MergePayfastDataSets(fields, init, i);
      assert k != data[i].0;
      if v.Some? && k != "signature" {
        GetPut(MergePayfastData(fields, init).value, k, ToStringValue(v.value), data[i].0);
      }
    } else {
      GetPut(MergePayfastData(fields, init).value, k, ToStringValue(v.value), data[i].0);
    }
  }

  /** The merge writes PAYFAST_ORDER fields only: `signature` passes the allow-list
      but is skipped. */
  lemma {:induction false} MergePayfastDataInOrder(fields: Entries<string>, data: ProviderData)
    requires InPayfastOrder(fields) && MergePayfastData(fields, data).Ok?
    ensures InPayfastOrder(MergePayfastData(fields, data).value)
    decreases |data|
  {
    if |data| > 0 {
      var init := data[..|data| - 1];
      MergePayfastDataInOrder(fields, init);
      var (k, v) := data[|data| - 1];
      if v.Some? && k != "signature" {
        PutInOrder(MergePayfastData(fields, init).value, k, ToStringValue(v.value));
      }
    }
  }

  // ---------------------------------------------------------------------------
  // What each stage writes

  lemma PayfastUrlFieldsGet(fields: Entries<string>, urls: Option<Urls>, key: string)
    ensures key != "return_url" && key != "cancel_url" && key != "notify_url" ==>
      Get(PayfastUrlFields(fields, urls), key) == Get(fields, key)
    ensures urls.Some? && Present(urls.value.returnUrl) && key == "return_url" ==> Get(PayfastUrlFields(fields, urls), key) == urls.value.returnUrl
    ensures urls.Some? && Present(urls.value.cancelUrl) && key == "cancel_url" ==> Get(PayfastUrlFields(fields, urls), key) == urls.value.cancelUrl
    ensures urls.Some? && Present(urls.value.notifyUrl) && key == "notify_url" ==> Get(PayfastUrlFields(fields, urls), key) == urls.value.notifyUrl
  {
    if urls.Some? {
      var u := urls.value;
      var f1 := if Present(u.returnUrl) then Put(fields, "return_url", u.returnUrl.value) else fields;
      var f2 := if Present(u.cancelUrl) then Put(f1, "cancel_url", u.cancelUrl.value) else f1;
      GetPut(fields, "return_url", u.returnUrl.GetOr(""), key);
      GetPut(f1, "cancel_url", u.cancelUrl.GetOr(""), key);
      GetPut(f2, "notify_url", u.notifyUrl.GetOr(""), key);
    }
  }

  // Facts about the literal PAYFAST_ORDER list, proved once so the proofs that use
  // them do not search the list; they model nothing on their own.

  /** The URL, contact and item keys are PAYFAST_ORDER fields. */
  lemma UrlKeysInOrder()
    ensures "return_url" in PayfastOrder && "cancel_url" in PayfastOrder && "notify_url" in PayfastOrder
  {
    assert PayfastOrder[2] == "return_url";
    assert PayfastOrder[3] == "cancel_url";
    assert PayfastOrder[4] == "notify_url";
  }

  lemma CustomerKeysInOrder()
    ensures "name_first" in PayfastOrder && "name_last" in PayfastOrder && "email_address" in PayfastOrder && "cell_number" in PayfastOrder
  {
    assert PayfastOrder[6] == "name_first";
    assert PayfastOrder[7] == "name_last";
    assert PayfastOrder[8] == "email_address";
    assert PayfastOrder[9] == "cell_number";
  }

  lemma ItemKeysInOrder()
    ensures "m_payment_id" in PayfastOrder && "amount" in PayfastOrder && "item_name" in PayfastOrder && "item_description" in PayfastOrder
  {
    assert PayfastOrder[10] == "m_payment_id";
    assert PayfastOrder[11] == "amount";
    assert PayfastOrder[12] == "item_name";
    assert PayfastOrder[13] == "item_description";
  }

  lemma PayfastUrlFieldsInOrder(fields: Entries<string>, urls: Option<Urls>)
    requires InPayfastOrder(fields)
    ensures InPayfastOrder(PayfastUrlFields(fields, urls))
  {
    if urls.Some? {
      var u := urls.value;
      var f1 := if Present(u.returnUrl) then Put(fields, "return_url", u.returnUrl.value) else fields;
      var f2 := if Present(u.cancelUrl) then Put(f1, "cancel_url", u.cancelUrl.value) else f1;
      UrlKeysInOrder();
      PutInOrder(fields, "return_url", u.returnUrl.GetOr(""));
      PutInOrder(f1, "cancel_url", u.cancelUrl.GetOr(""));
      PutInOrder(f2, "notify_url", u.notifyUrl.GetOr(""));
    }
  }

  lemma PayfastCustomerFieldsGet(fields: Entries<string>, customer: Option<Customer>, key: string)
    ensures key != "name_first" && key != "name_last" && key != "email_address" && key != "cell_number" ==>
      Get(PayfastCustomerFields(fields, customer), key) == Get(fields, key)
    ensures customer.Some? && Present(customer.value.firstName) && key == "name_first" ==>
      Get(PayfastCustomerFields(fields, customer), key) == customer.value.firstName
    ensures customer.Some? && Present(customer.value.lastName) && key == "name_last" ==>
      Get(PayfastCustomerFields(fields, customer), key) == customer.value.lastName
    ensures customer.Some? && Present(customer.value.email) && key == "email_address" ==>
      Get(PayfastCustomerFields(fields, customer), key) == customer.value.email
    ensures customer.Some? && Present(customer.value.phone) && key == "cell_number" ==>
      Get(PayfastCustomerFields(fields, customer), key) == customer.value.phone
  {
    if customer.Some? {
      var c := customer.value;
      var f1 := if Present(c.firstName) then Put(fields, "name_first", c.firstName.value) else fields;
      var f2 := if Present(c.lastName) then Put(f1, "name_last", c.lastName.value) else f1;
      var f3 := if Present(c.email) then Put(f2, "email_address", c.email.value) else f2;
      GetPut(fields, "name_first", c.firstName.GetOr(""), key);
      GetPut(f1, "name_last", c.lastName.GetOr(""), key);
      GetPut(f2, "email_address", c.email.GetOr(""), key);
      GetPut(f3, "cell_number", c.phone.GetOr(""), key);
    }
  }

  lemma PayfastCustomerFieldsInOrder(fields: Entries<string>, customer: Option<Customer>)
    requires InPayfastOrder(fields)
    ensures InPayfastOrder(PayfastCustomerFields(fields, customer))
  {
    if customer.Some? {
      var c := customer.value;
      CustomerKeysInOrder();
      var f1 := fields;
      if Present(c.firstName) {
        PutInOrder(f1, "name_first", c.firstName.value);
        f1 := Put(f1, "name_first", c.firstName.value);
      }
      var f2 := f1;
      if Present(c.lastName) {
        PutInOrder(f2, "name_last", c.lastName.value);
        f2 := Put(f2, "name_last", c.lastName.value);
      }
      var f3 := f2;
      if Present(c.email) {
        PutInOrder(f3, "email_address", c.email.value);
        f3 := Put(f3, "email_address", c.email.value);
      }
      if Present(c.phone) {
        PutInOrder(f3, "cell_number", c.phone.value);
      }
    }
  }

  lemma PayfastItemFieldsGet(fields: Entries<string>, input: PaymentRequest, amount: string, key: string)
    ensures var p := PayfastItemFields(fields, input, amount);
      && (key == "m_payment_id" ==> Get(p, key) == Some(input.reference))
      && (key == "amount" ==> Get(p, key) == Some(amount))
      && (key == "item_name" ==> Get(p, key) == Some(ItemNameOf(input)))
      && (key == "item_description" && ItemDescriptionOf(input).Some? ==> Get(p, key) == ItemDescriptionOf(input))
      && (key == "item_description" && ItemDescriptionOf(input).None? ==> Get(p, key) == Get(fields, key))
      && (key != "m_payment_id" && key != "amount" && key != "item_name" && key != "item_description" ==> Get(p, key) == Get(fields, key))
  {
    var f1 := Put(fields, "m_payment_id", input.reference);
    var f2 := Put(f1, "amount", amount);
    var f3 := Put(f2, "item_name", ItemNameOf(input));
    GetPut(fields, "m_payment_id", input.reference, key);
    GetPut(f1, "amount", amount, key);
    GetPut(f2, "item_name", ItemNameOf(input), key);
    GetPut(f3, "item_description", ItemDescriptionOf(input).GetOr(""), key);
  }

  lemma PayfastItemFieldsInOrder(fields: Entries<string>, input: PaymentRequest, amount: string)
    requires InPayfastOrder(fields)
    ensures InPayfastOrder(PayfastItemFields(fields, input, amount))
  {
    var f1 := Put(fields, "m_payment_id", input.reference);
    var f2 := Put(f1, "amount", amount);
    var f3 := Put(f2, "item_name", ItemNameOf(input));
    ItemKeysInOrder();
    PutInOrder(fields, "m_payment_id", input.reference);
    PutInOrder(f1, "amount", amount);
    PutInOrder(f2, "item_name", ItemNameOf(input));
    PutInOrder(f3, "item_description", ItemDescriptionOf(input).GetOr(""));
  }

  /** The two-field literal the record starts from (src/providers/payfast.ts:70-73),
      then the URLs, the customer and the item fields. */
  lemma PayfastBaseGet(input: PaymentRequest, merchantId: string, merchantKey: string, amount: string, key: string)
    ensures var p := PayfastBaseFields(input, merchantId, merchantKey, amount);
      && (key == "merchant_id" ==> Get(p, key) == Some(merchantId))
      && (key == "merchant_key" ==> Get(p, key) == Some(merchantKey))
      && (key == "m_payment_id" ==> Get(p, key) == Some(input.reference))
      && (key == "amount" ==> Get(p, key) == Some(amount))
      && (key == "item_name" ==> Get(p, key) == Some(ItemNameOf(input)))
      && (key == "item_description" ==> Get(p, key) == ItemDescriptionOf(input))
  {
    var literal := [("merchant_id", merchantId), ("merchant_key", merchantKey)];
    assert Get(literal[1..], key) == if key == "merchant_key" then Some(merchantKey) else None;
    assert Get(literal, key) == if key == "merchant_id" then Some(merchantId) else Get(literal[1..], key);
    var withUrls := PayfastUrlFields(literal, input.urls);
    var contact := PayfastCustomerFields(withUrls, input.customer);
    PayfastUrlFieldsGet(literal, input.urls, key);
    PayfastCustomerFieldsGet(withUrls, input.customer, key);
    PayfastItemFieldsGet(contact, input, amount, key);
  }

  lemma PayfastBaseInOrder(input: PaymentRequest, merchantId: string, merchantKey: string, amount: string)
    ensures InPayfastOrder(PayfastBaseFields(input, merchantId, merchantKey, amount))
  {
    var literal := [("merchant_id", merchantId), ("merchant_key", merchantKey)];
    assert Keys(literal) == ["merchant_id", "merchant_key"];
    assert PayfastOrder[0] == "merchant_id" && PayfastOrder[1] == "merchant_key";
    var withUrls := PayfastUrlFields(literal, input.urls);
    PayfastUrlFieldsInOrder(literal, input.urls);
    PayfastCustomerFieldsInOrder(withUrls, input.customer);
    PayfastItemFieldsInOrder(PayfastCustomerFields(withUrls, input.customer), input, amount);
  }

  lemma CustomStrKeysSpec()
    ensures forall i, j | 0 <= i < j < |CustomStrKeys| :: CustomStrKeys[i] != CustomStrKeys[j]
    ensures forall i | 0 <= i < |CustomStrKeys| :: CustomStrKeys[i] in PayfastOrder
  {
    assert PayfastOrder[19..24] == CustomStrKeys;
  }

  /** The fields read back below: none of them is a custom_str field. */
  const BaseKeys: seq<string> := ["merchant_id", "merchant_key", "m_payment_id", "amount", "item_name", "item_description"]

  lemma BaseKeysNotCustom(key: string)
    requires key in BaseKeys
    ensures key !in CustomStrKeys
  {
  }

  lemma PayfastMetadataInOrder(fields: Entries<string>, metadata: Option<Entries<string>>)
    requires InPayfastOrder(fields)
    ensures var shown := MetadataShown(metadata);
      InPayfastOrder(PutValues(fields, CustomStrKeys, shown, |shown|))
  {
    var shown := MetadataShown(metadata);
    PutValuesKeys(fields, CustomStrKeys, shown, |shown|);
    CustomStrKeysSpec();
  }

  // ---------------------------------------------------------------------------
  // What normalizePayfastFields returns

  /** The errors of the checks, in the order the source throws them. */
  lemma PayfastPreludeErrors(input: PaymentRequest, h: Host)
    ensures !Present(input.secrets.merchantId) ==> PayfastFields(input, h) == Err(MissingField("secrets.merchantId"))
    ensures Present(input.secrets.merchantId) && !Present(input.secrets.merchantKey) ==>
      PayfastFields(input, h) == Err(MissingField("secrets.merchantKey"))
    ensures Present(input.secrets.merchantId) && Present(input.secrets.merchantKey) && PayfastCurrency(input.currency) != "ZAR" ==>
      PayfastFields(input, h) == Err(Plain("Payfast only supports ZAR amounts"))
    ensures var checked := Present(input.secrets.merchantId) && Present(input.secrets.merchantKey) && PayfastCurrency(input.currency) == "ZAR";
      checked && h.formatAmount(input.amount).None? ==> PayfastFields(input, h) == Err(Plain("Amount must be a valid number"))
    ensures PayfastPrelude(input, h).Ok? <==>
      && Present(input.secrets.merchantId) && Present(input.secrets.merchantKey)
      && PayfastCurrency(input.currency) == "ZAR" && h.formatAmount(input.amount).Some?
    ensures PayfastPrelude(input, h).Ok? ==>
      PayfastPrelude(input, h).value ==
        PayfastBaseFields(input, input.secrets.merchantId.value, input.secrets.merchantKey.value, h.formatAmount(input.amount).value)
  {
  }

  /** normalizePayfastFields succeeds exactly when both merchant secrets are
      given, the currency uppercases to ZAR, the amount is a finite number and
      every providerData key is a PAYFAST_ORDER field or `signature`. */
  lemma PayfastFieldsAccepts(input: PaymentRequest, h: Host)
    ensures PayfastFields(input, h).Ok? <==>
      && Present(input.secrets.merchantId) && Present(input.secrets.merchantKey)
      && PayfastCurrency(input.currency) == "ZAR" && h.formatAmount(input.amount).Some?
      && (input.providerData.Some? ==> forall i | 0 <= i < |input.providerData.value| :: IsPayfastAllowed(input.providerData.value[i].0))
  {
    var before := PayfastFieldsBeforeData(input, h);
    if before.Ok? && input.providerData.Some? {
      MergePayfastDataErrors(before.value, input.providerData.value);
    }
  }

  /** Past the checks, the first providerData key outside the allow-list is the error. */
  lemma PayfastFieldsFieldErrors(input: PaymentRequest, h: Host)
    requires PayfastPrelude(input, h).Ok? && input.providerData.Some?
    ensures PayfastFields(input, h).Err? ==>
      exists i | 0 <= i < |input.providerData.value| ::
        && !IsPayfastAllowed(input.providerData.value[i].0)
        && (forall j | 0 <= j < i :: IsPayfastAllowed(input.providerData.value[j].0))
        && PayfastFields(input, h).error == Plain("Unsupported Payfast field: " + input.providerData.value[i].0)
  {
    MergePayfastDataErrors(PayfastFieldsBeforeData(input, h).value, input.providerData.value);
  }

  /** Before the merge: only PAYFAST_ORDER fields, the merchant secrets, the
      reference, the formatted amount, the item name and description, and the
      first five metadata values as custom_str1..n. */
  lemma PayfastBeforeDataGet(input: PaymentRequest, h: Host, key: string)
    requires PayfastFieldsBeforeData(input, h).Ok?
    ensures var p := PayfastFieldsBeforeData(input, h).value;
      && InPayfastOrder(p)
      && (key == "merchant_id" ==> Get(p, key) == input.secrets.merchantId)
      && (key == "merchant_key" ==> Get(p, key) == input.secrets.merchantKey)
      && (key == "m_payment_id" ==> Get(p, key) == Some(input.reference))
      && (key == "amount" ==> Get(p, key) == h.formatAmount(input.amount))
      && (key == "item_name" ==> Get(p, key) == Some(ItemNameOf(input)))
      && (key == "item_description" ==> Get(p, key) == ItemDescriptionOf(input))
  {
    PayfastPreludeErrors(input, h);
    var id, mkey, amount := input.secrets.merchantId.value, input.secrets.merchantKey.value, h.formatAmount(input.amount).value;
    var base := PayfastBaseFields(input, id, mkey, amount);
    var shown := MetadataShown(input.metadata);
    PayfastBaseInOrder(input, id, mkey, amount);
    PayfastMetadataInOrder(base, input.metadata);
    if key in BaseKeys {
      BaseKeysNotCustom(key);
      assert key !in CustomStrKeys[..|shown|];
      CustomStrKeysSpec();
      PutValuesGet(base, CustomStrKeys, shown, |shown|, key);
      PayfastBaseGet(input, id, mkey, amount, key);
    }
  }

  lemma PayfastBeforeDataCustom(input: PaymentRequest, h: Host, i: nat)
    requires PayfastFieldsBeforeData(input, h).Ok? && i < |MetadataShown(input.metadata)|
    ensures Get(PayfastFieldsBeforeData(input, h).value, CustomStrKeys[i]) == Some(MetadataShown(input.metadata)[i].1)
  {
    var base := PayfastPrelude(input, h).value;
    var shown := MetadataShown(input.metadata);
    CustomStrKeysSpec();
    PutValuesGet(base, CustomStrKeys, shown, |shown|, CustomStrKeys[i]);
  }

  /** The form holds PAYFAST_ORDER fields only; in particular no `signature`,
      which makePayfastPayment adds. */
  lemma PayfastFieldsShape(input: PaymentRequest, h: Host)
    requires PayfastFields(input, h).Ok?
    ensures InPayfastOrder(PayfastFields(input, h).value)
    ensures Get(PayfastFields(input, h).value, "signature") == None
  {
    var before := PayfastFieldsBeforeData(input, h).value;
    PayfastBeforeDataGet(input, h, "signature");
    if input.providerData.Some? {
      MergePayfastDataInOrder(before, input.providerData.value);
    }
    InOrderHasNoSignature(PayfastFields(input, h).value);
  }

  /** `signature` is not a PAYFAST_ORDER field, so a form of those has none. */
  lemma InOrderHasNoSignature(fields: Entries<string>)
    requires InPayfastOrder(fields)
    ensures Get(fields, "signature") == None
  {
    assert "signature" !in PayfastOrder;
    GetSomeIffKey(fields, "signature");
  }

  /** A key providerData does not set keeps the value written before the merge. */
  lemma PayfastFieldsKeeps(input: PaymentRequest, h: Host, key: string)
    requires PayfastFields(input, h).Ok? && NotSetBy(input.providerData, key)
    ensures PayfastFieldsBeforeData(input, h).Ok?
    ensures Get(PayfastFields(input, h).value, key) == Get(PayfastFieldsBeforeData(input, h).value, key)
  {
    if input.providerData.Some? {
      MergePayfastDataKeeps(PayfastFieldsBeforeData(input, h).value, input.providerData.value, key);
    }
  }

  /** Unless providerData sets them: merchant_id and merchant_key are the
      secrets, m_payment_id the reference, amount the formatted amount, and
      custom_str1..n the first five metadata values in order. */
  lemma PayfastFieldsDefaults(input: PaymentRequest, h: Host, key: string)
    requires PayfastFields(input, h).Ok? && NotSetBy(input.providerData, key)
    ensures var p := PayfastFields(input, h).value;
      && (key == "merchant_id" ==> Get(p, key) == input.secrets.merchantId)
      && (key == "merchant_key" ==> Get(p, key) == input.secrets.merchantKey)
      && (key == "m_payment_id" ==> Get(p, key) == Some(input.reference))
      && (key == "amount" ==> Get(p, key) == h.formatAmount(input.amount))
      && (forall i | 0 <= i < |MetadataShown(input.metadata)| :: key == CustomStrKeys[i] ==>
            Get(p, key) == Some(MetadataShown(input.metadata)[i].1))
  {
    PayfastFieldsKeeps(input, h, key);
    PayfastBeforeDataGet(input, h, key);
    forall i | 0 <= i < |MetadataShown(input.metadata)|
      ensures Get(PayfastFieldsBeforeData(input, h).value, CustomStrKeys[i]) == Some(MetadataShown(input.metadata)[i].1)
    {
      PayfastBeforeDataCustom(input, h, i);
    }
  }

  /** Every providerData value other than a null, an undefined or a `signature`
      ends up in the form, rendered as a string, whatever was there before. */
  lemma PayfastFieldsProviderData(input: PaymentRequest, h: Host, i: nat)
    requires PayfastFields(input, h).Ok? && input.providerData.Some?
    requires DistinctKeys(input.providerData.value) && i < |input.providerData.value|
    requires input.providerData.value[i].1.Some? && input.providerData.value[i].0 != "signature"
    ensures Get(PayfastFields(input, h).value, input.providerData.value[i].0) == Some(ToStringValue(input.providerData.value[i].1.value))
  {
    MergePayfastDataSets(PayfastFieldsBeforeData(input, h).value, input.providerData.value, i);
  }

  /** item_name is providerData.item_name when it is neither null nor undefined,
      else the description (even an empty one), else the reference; and
      item_description is there only when providerData gives one. */
  lemma PayfastFieldsItem(input: PaymentRequest, h: Host)
    requires PayfastFields(input, h).Ok?
    requires input.providerData.Some? ==> DistinctKeys(input.providerData.value)
    ensures var given := ProviderValue(input.providerData, "item_name");
      var itemName := Get(PayfastFields(input, h).value, "item_name");
      && (given.Some? ==> itemName == Some(ToStringValue(given.value)))
      && (given.None? && input.description.Some? ==> itemName == input.description)
      && (given.None? && input.description.None? ==> itemName == Some(input.reference))
    ensures Get(PayfastFields(input, h).value, "item_description") == ItemDescriptionOf(input)
  {
    PayfastFieldsItemKey(input, h, "item_name");
    PayfastFieldsItemKey(input, h, "item_description");
  }

  lemma PayfastFieldsItemKey(input: PaymentRequest, h: Host, key: string)
    requires PayfastFields(input, h).Ok? && (key == "item_name" || key == "item_description")
    requires input.providerData.Some? ==> DistinctKeys(input.providerData.value)
    ensures key == "item_name" ==> Get(PayfastFields(input, h).value, key) == Some(ItemNameOf(input))
    ensures key == "item_description" ==> Get(PayfastFields(input, h).value, key) == ItemDescriptionOf(input)
  {
    PayfastBeforeDataGet(input, h, key);
    if NotSetBy(input.providerData, key) {
      PayfastFieldsKeeps(input, h, key);
    } else {
      var data := input.providerData.value;
      var i :| 0 <= i < |data| && data[i].0 == key && data[i].1.Some?;
      GetFirst(data, i);
      PayfastFieldsProviderData(input, h, i);
    }
  }

  /** The currency is uppercased but not trimmed: "zar" and an absent currency
      pass, " ZAR" and "" do not. */
  lemma PayfastCurrencyExamples(lower: string, padded: string)
    requires lower == "zar" && padded == " ZAR"
    ensures PayfastCurrency(None) == "ZAR"
    ensures PayfastCurrency(Some(lower)) == "ZAR"
    ensures PayfastCurrency(Some(padded)) != "ZAR"
    ensures PayfastCurrency(Some("")) != "ZAR"
  {
    assert ToUpper(lower) == "ZAR";
    assert |ToUpper(padded)| == 4;
  }

  // ---------------------------------------------------------------------------
  // makePayfastPayment

  /** makePayfastPayment (src/providers/payfast.ts:145-156): the normalised fields
      with the signature added, posted to the sandbox or the live endpoint. The
      signature covers the form it is posted with: recomputing it over the
      posted fields gives it back. */
  method MakePayfastPayment(input: PaymentRequest, h: Host) returns (r: Result<PaymentResponse>)
    ensures r.Ok? <==> PayfastFields(input, h).Ok?
    ensures PayfastFields(input, h).Err? ==> r == Err(PayfastFields(input, h).error)
    ensures r.Ok? ==>
      var fields := PayfastFields(input, h).value;
      var signature := h.md5Hex(PayfastSignatureInput(fields, input.secrets.passphrase));
      && r.value.provider == Payfast
      && r.value.httpMethod == HttpPost
      && r.value.redirectUrl == (if input.testMode then PayfastSandboxEndpoint else PayfastLiveEndpoint)
      && r.value.formFields == Some(Put(fields, "signature", signature))
    ensures r.Ok? ==>
      && r.value.formFields.Some?
      && Get(r.value.formFields.value, "signature") == Some(h.md5Hex(PayfastSignatureInput(r.value.formFields.value, input.secrets.passphrase)))
      && (forall k | k in Keys(r.value.formFields.value) :: IsPayfastAllowed(k))
  {
    var fields :- NormalizePayfastFields(input, h);
    var signature := BuildPayfastSignature(fields, input.secrets.passphrase, h);
    PayfastFieldsShape(input, h);
    SignatureIgnoresUnsignedKey(fields, "signature", signature, input.secrets.passphrase);
    GetPut(fields, "signature", signature, "signature");
    PutKeys(fields, "signature", signature);
    fields := Put(fields, "signature", signature);
    var redirectUrl := if input.testMode then PayfastSandboxEndpoint else PayfastLiveEndpoint;
    return Ok(PaymentResponse(Payfast, redirectUrl, HttpPost, Some(fields)));
  }

  // ---------------------------------------------------------------------------
  // verifyPayfastWebhook

  /** The received pairs the notification signature covers: those before the
      first `signature` key, in the order they came. */
  function BeforeSignature(pairs: seq<FormPair>): (r: seq<FormPair>)
    ensures |r| <= |pairs| && r == pairs[..|r|]
    ensures forall i | 0 <= i < |r| :: r[i].0 != "signature"
    ensures |r| < |pairs| ==> pairs[|r|].0 == "signature"
    decreases |pairs|
  {
    if |pairs| == 0 || pairs[0].0 == "signature" then []
    else [pairs[0]] + BeforeSignature(pairs[1..])
  }

  /** `${key}=${encodePayfastValue(value)}` per pair: the key as received, the
      decoded value encoded again. */
  function ItnSegments(pairs: seq<FormPair>): seq<string> {
    seq(|pairs|, i requires 0 <= i < |pairs| => pairs[i].0 + "=" + EncodePayfastValue(pairs[i].1))
  }

  /** `&passphrase=...` with the passphrase as given: not trimmed here
      (src/providers/payfast.ts:196-198). */
  function ItnPassphraseSuffix(passphrase: Option<string>): string {
    if Present(passphrase) then "&passphrase=" + EncodePayfastValue(passphrase.value) else ""
  }

  /** The pre-image verifyPayfastWebhook hashes. */
  function PayfastItnInput(pairs: seq<FormPair>, passphrase: Option<string>): string {
    Join(ItnSegments(BeforeSignature(pairs)), "&") + ItnPassphraseSuffix(passphrase)
  }

  /** What verifyPayfastWebhook returns (src/providers/payfast.ts:158-206): an
      empty body and a missing signature have their reasons; otherwise the
      signature the record holds is compared, ignoring case, with the host's
      MD5 of the pre-image. A body that does not decode is the decoder's error. */
  function PayfastVerdict(input: WebhookVerifyInput, h: Host): Result<WebhookVerifyResult> {
    if !Present(input.rawBody) then Ok(WebhookVerifyResult(Payfast, false, Some(RawBodyRequired)))
    else
      var pairs :- ParseFormEncoded(input.rawBody.value);
      var signature := Get(PairsToRecord(pairs), "signature");
      if !Present(signature) then Ok(WebhookVerifyResult(Payfast, false, Some(MissingSignature)))
      else
        var computed := h.md5Hex(PayfastItnInput(pairs, input.passphrase));
        Ok(WebhookVerifyResult(Payfast, ToLower(signature.value) == ToLower(computed), None))
  }

  /** verifyPayfastWebhook (src/providers/payfast.ts:158-206). */
  method VerifyPayfastWebhook(input: WebhookVerifyInput, h: Host) returns (r: Result<WebhookVerifyResult>)
    ensures r == PayfastVerdict(input, h)
  {
    if !Present(input.rawBody) {
      return Ok(WebhookVerifyResult(Payfast, false, Some(RawBodyRequired)));
    }
    var raw := input.rawBody.value;
    var pairs :- ParseFormEncoded(raw);
    var payload := PairsToRecord(pairs);
    var signature := Get(payload, "signature");
    if !Present(signature) {
      return Ok(WebhookVerifyResult(Payfast, false, Some(MissingSignature)));
    }
    var params := SignedParams(pairs);
    var paramString := Join(params, "&");
    if Present(input.passphrase) {
      paramString := paramString + "&passphrase=" + EncodePayfastValue(input.passphrase.value);
      assert paramString == Join(params, "&") + ItnPassphraseSuffix(input.passphrase);
    } else {
      assert paramString == Join(params, "&") + ItnPassphraseSuffix(input.passphrase);
    }
    var computed := h.md5Hex(paramString);
    return Ok(WebhookVerifyResult(Payfast, ToLower(signature.value) == ToLower(computed), None));
  }

  /** The loop of verifyPayfastWebhook (src/providers/payfast.ts:187-193): one
      segment per pair until the first `signature`. */
  method SignedParams(pairs: seq<FormPair>) returns (params: seq<string>)
    ensures params == ItnSegments(BeforeSignature(pairs))
  {
    params := [];
    var i := 0;
    while i < |pairs|
      invariant 0 <= i <= |pairs|
      invariant forall j | 0 <= j < i :: pairs[j].0 != "signature"
      invariant params == ItnSegments(pairs[..i])
    {
      var (key, value) := pairs[i];
      if key == "signature" {
        break;
      }
      assert ItnSegments(pairs[..i + 1]) == ItnSegments(pairs[..i]) + [key + "=" + EncodePayfastValue(value)];
      params := params + [key + "=" + EncodePayfastValue(value)];
      i := i + 1;
    }
    BeforeSignatureAt(pairs, i);
  }

  /** The loop stops at the first `signature`, or at the end. */
  lemma BeforeSignatureAt(pairs: seq<FormPair>, i: nat)
    requires i <= |pairs| && (forall j | 0 <= j < i :: pairs[j].0 != "signature")
    requires i == |pairs| || pairs[i].0 == "signature"
    ensures BeforeSignature(pairs) == pairs[..i]
  {
  }

  // ---------------------------------------------------------------------------
  // What the verdict is

  /** Each gap has its own reason: an empty or absent body first, then a missing
      or empty signature; with neither, the verdict is the case-insensitive
      comparison of the received signature with the host's MD5 of the pre-image. */
  lemma PayfastVerdictSpec(input: WebhookVerifyInput, h: Host)
    ensures !Present(input.rawBody) ==> PayfastVerdict(input, h) == Ok(WebhookVerifyResult(Payfast, false, Some(RawBodyRequired)))
    ensures Present(input.rawBody) && ParseFormEncoded(input.rawBody.value).Err? ==>
      PayfastVerdict(input, h) == Err(ParseFormEncoded(input.rawBody.value).error)
    ensures Present(input.rawBody) && ParseFormEncoded(input.rawBody.value).Ok? ==>
      var pairs := ParseFormEncoded(input.rawBody.value).value;
      var signature := Get(PairsToRecord(pairs), "signature");
      var r := PayfastVerdict(input, h);
      && r.Ok? && r.value.provider == Payfast
      && (r.value.reason == Some(MissingSignature) <==> !Present(signature))
      && (r.value.reason.None? <==> Present(signature))
      && (r.value.isValid ==> r.value.reason.None?)
      && (r.value.reason.None? ==> (r.value.isValid <==>
            ToLower(signature.value) == ToLower(h.md5Hex(PayfastItnInput(pairs, input.passphrase)))))
  {
  }

  /** Fields after the first `signature` are not signed. */
  lemma BeforeSignatureSplit(signed: seq<FormPair>, signature: string, rest: seq<FormPair>)
    requires forall i | 0 <= i < |signed| :: signed[i].0 != "signature"
    ensures BeforeSignature(signed + [("signature", signature)] + rest) == signed
  {
    var all := signed + [("signature", signature)] + rest;
    BeforeSignatureAt(all, |signed|);
    assert all[..|signed|] == signed;
  }

  /** So whatever follows the signature leaves the pre-image as it is. */
  lemma ItnIgnoresTrailingFields(signed: seq<FormPair>, signature: string, rest: seq<FormPair>, rest2: seq<FormPair>, passphrase: Option<string>)
    requires forall i | 0 <= i < |signed| :: signed[i].0 != "signature"
    ensures PayfastItnInput(signed + [("signature", signature)] + rest, passphrase) ==
            PayfastItnInput(signed + [("signature", signature)] + rest2, passphrase)
    ensures PayfastItnInput(signed + [("signature", signature)] + rest, passphrase) ==
            Join(ItnSegments(signed), "&") + ItnPassphraseSuffix(passphrase)
  {
    BeforeSignatureSplit(signed, signature, rest);
    BeforeSignatureSplit(signed, signature, rest2);
  }

  /** A genuine notification is accepted (test/payfast.test.ts:16-46): a body that
      posts some pairs, then their signature, the host's MD5 of
      `key=encode(value)` joined with `&` plus the passphrase suffix, in lower or
      upper case, then any further unsigned pairs. */
  lemma GenuineItnAccepted(input: WebhookVerifyInput, h: Host, signed: seq<FormPair>, rest: seq<FormPair>, upper: bool)
    requires forall i | 0 <= i < |signed| :: signed[i].0 != "signature"
    requires forall i | 0 <= i < |rest| :: rest[i].0 != "signature"
    requires var digest := h.md5Hex(Join(ItnSegments(signed), "&") + ItnPassphraseSuffix(input.passphrase));
      && digest != ""
      && input.rawBody == Some(EncodeForm(signed + [("signature", if upper then ToUpper(digest) else digest)] + rest))
    ensures PayfastVerdict(input, h) == Ok(WebhookVerifyResult(Payfast, true, None))
  {
    var digest := h.md5Hex(Join(ItnSegments(signed), "&") + ItnPassphraseSuffix(input.passphrase));
    var sent := if upper then ToUpper(digest) else digest;
    var all := signed + [("signature", sent)] + rest;
    SignedBodyParses(all);
    SignedBodySignature(signed, sent, rest);
    ItnIgnoresTrailingFields(signed, sent, rest, rest, input.passphrase);
    ToLowerToUpper(digest);
  }

  /** An encoded body with at least one pair is not empty, and parses back to its pairs. */
  lemma SignedBodyParses(all: seq<FormPair>)
    requires |all| > 0
    ensures EncodeForm(all) != "" && ParseFormEncoded(EncodeForm(all)) == Ok(all)
  {
    ParseEncodedForm(all);
    EncodedSegment(all[0]);
    JoinNonEmpty(EncodeSegments(all), "&");
  }

  lemma SignedBodySignature(signed: seq<FormPair>, signature: string, rest: seq<FormPair>)
    requires forall i | 0 <= i < |rest| :: rest[i].0 != "signature"
    ensures Get(PairsToRecord(signed + [("signature", signature)] + rest), "signature") == Some(signature)
  {
    var all := signed + [("signature", signature)] + rest;
    assert all[|signed|] == ("signature", signature);
    assert forall j | |signed| < j < |all| :: all[j] == rest[j - |signed| - 1];
    PairsToRecordLastWins(all, |signed|);
  }

  /** With two signatures in one body, the signed pairs end at the first one, but
      the signature compared is the last one, which pairsToRecord keeps. */
  lemma TwoSignatures(signed: seq<FormPair>, first: string, middle: seq<FormPair>, last: string)
    requires forall i | 0 <= i < |signed| :: signed[i].0 != "signature"
    requires forall i | 0 <= i < |middle| :: middle[i].0 != "signature"
    ensures var all := signed + [("signature", first)] + middle + [("signature", last)];
      && BeforeSignature(all) == signed
      && Get(PairsToRecord(all), "signature") == Some(last)
  {
    var all := signed + [("signature", first)] + middle + [("signature", last)];
    assert all == signed + [("signature", first)] + (middle + [("signature", last)]);
    BeforeSignatureSplit(signed, first, middle + [("signature", last)]);
    PairsToRecordLastWins(all, |all| - 1);
  }

  /** makePayfastPayment signs with the passphrase trimmed, verifyPayfastWebhook
      with it as given: for a passphrase with surrounding white space the two
      suffixes differ. */
  lemma PassphraseTrimDiffers(passphrase: string)
    requires passphrase != "" && Trim(passphrase) != passphrase
    ensures ItnPassphraseSuffix(Some(passphrase)) != PassphraseSuffix(Some(passphrase))
  {
    var prefix := "&passphrase=";
    var a, b := EncodePayfastValue(passphrase), EncodePayfastValue(Trim(passphrase));
    if prefix + a == prefix + b {
      assert (prefix + a)[|prefix|..] == a;
      assert (prefix + b)[|prefix|..] == b;
      DecodeEncode(passphrase);
      DecodeEncode(Trim(passphrase));
      assert false;
    }
  }
}
