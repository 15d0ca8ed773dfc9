/** src/providers/ozow.ts: the Ozow payment payload, its HashCheck pre-image and
    the verification of Ozow notifications. The digest is the host's SHA-512. */
module Ozow {
  import opened Errors
  import opened Text
  import opened Records
  import opened Types
  import opened Runtime
  import opened Guards
  import opened Currency
  import opened Form

  // ---------------------------------------------------------------------------
  // Field tables

  /** OZOW_ORDER (src/providers/ozow.ts:13-45): the request fields in hashing order,
      which is also the allow-list of providerData keys. */
  const OzowOrder: seq<string> := [
    "SiteCode", "CountryCode", "CurrencyCode", "Amount", "TransactionReference",
    "BankReference", "Optional1", "Optional2", "Optional3", "Optional4", "Optional5",
    "Customer", "CancelUrl", "ErrorUrl", "SuccessUrl", "NotifyUrl", "IsTest",
    "SelectedBankId", "BankAccountNumber", "BankAccountBranchCode", "BankAccountName",
    "BankName", "ExpiryDateUtc", "AllowVariableAmount", "VariableAmountMin",
    "VariableAmountMax", "CustomerIdentityNumber", "CustomerCellphoneNumber",
    "HashCheck", "Token", "GenerateShortUrl"]

  /** OZOW_RESPONSE_ORDER (src/providers/ozow.ts:47-61): the notification fields in hashing order. */
  const OzowResponseOrder: seq<string> := [
    "SiteCode", "TransactionId", "TransactionReference", "Amount", "Status",
    "Optional1", "Optional2", "Optional3", "Optional4", "Optional5",
    "CurrencyCode", "IsTest", "StatusMessage"]

  /** The values of OZOW_PROVIDER_OPTION_FIELDS (src/providers/ozow.ts:65-71), in order. */
  const OzowOptionFields: seq<string> := [
    "SelectedBankId", "CustomerIdentityNumber", "AllowVariableAmount",
    "VariableAmountMin", "VariableAmountMax"]

  /** OZOW_ALLOWED_FIELDS.has(key) (src/providers/ozow.ts:63). */
  predicate IsOzowAllowed(key: string) {
    key in OzowOrder
  }

  /** isOzowProviderOptionField (src/providers/ozow.ts:180-183): the option fields
      are allowed providerData keys, none of them skipped by the hash. */
  function IsOzowProviderOptionField(key: string): (r: bool)
    ensures r ==> IsOzowAllowed(key) && !SkippedByHash(key)
    ensures r <==> key in OzowOptionFields
  {
    key in OzowOptionFields
  }

  // ---------------------------------------------------------------------------
  // HashCheck

  /** The keys buildOzowHashCheck passes over whatever their value (src/providers/ozow.ts:192-194). */
  predicate SkippedByHash(key: string) {
    key == "HashCheck" || key == "Token" || key == "CustomerCellphoneNumber" || key == "GenerateShortUrl"
  }

  /** Whether the value under `key` enters the pre-image: the key is not skipped,
      its value is present and not "", and it is not an AllowVariableAmount whose
      value lowercases to "false" (src/providers/ozow.ts:192-204). */
  predicate Hashed(payload: Entries<string>, key: string) {
    && !SkippedByHash(key)
    && Get(payload, key).Some? && Get(payload, key).value != ""
    && !(key == "AllowVariableAmount" && ToLower(Get(payload, key).value) == "false")
  }

  /** The values that enter the pre-image, taken along `keys` in order. */
  function HashParts(payload: Entries<string>, keys: seq<string>): seq<string>
    decreases |keys|
  {
    if |keys| == 0 then []
    else
      var key := keys[|keys| - 1];
      HashParts(payload, keys[..|keys| - 1]) + (if Hashed(payload, key) then [Get(payload, key).value] else [])
  }

  /** The HashCheck pre-image: the hashed values joined, then the private key, lowercased. */
  function OzowHashInput(payload: Entries<string>, privateKey: string): string {
    ToLower(Concat(HashParts(payload, OzowOrder)) + privateKey)
  }

  /** buildOzowHashCheck (src/providers/ozow.ts:185-210). */
  method BuildOzowHashCheck(payload: Entries<string>, privateKey: string, h: Host) returns (hash: string)
    ensures hash == h.sha512Hex(OzowHashInput(payload, privateKey))
  {
    var parts := CollectHashParts(payload, OzowOrder);
    var concatenated := ToLower(Concat(parts) + privateKey);
    hash := h.sha512Hex(concatenated);
  }

  /** The loop of buildOzowHashCheck (src/providers/ozow.ts:191-206), over the
      keys it is given. */
  method CollectHashParts(payload: Entries<string>, keys: seq<string>) returns (parts: seq<string>)
    ensures parts == HashParts(payload, keys)
  {
    parts := [];
    var i := 0;
    while i < |keys|
      invariant 0 <= i <= |keys|
      invariant parts == HashParts(payload, keys[..i])
    {
      var key := keys[i];
      assert keys[..i + 1][..i] == keys[..i];
      i := i + 1;
      if key == "HashCheck" || key == "Token" {
        continue;
      }
      if key == "CustomerCellphoneNumber" {
        continue;
      }
      if key == "GenerateShortUrl" {
        continue;
      }
      var value := Get(payload, key);
      if value.None? || value.value == "" {
        continue;
      }
      if key == "AllowVariableAmount" && ToLower(value.value) == "false" {
        continue;
      }
      parts := parts + [ToStringValue(Str(value.value))];
    }
    assert keys[..i] == keys;
  }

  /** Two payloads that agree on whether and what each key contributes give the same parts. */
  lemma {:induction false} HashPartsAgree(p: Entries<string>, q: Entries<string>, keys: seq<string>)
    requires forall i | 0 <= i < |keys| :: Hashed(p, keys[i]) == Hashed(q, keys[i])
    requires forall i | 0 <= i < |keys| :: Hashed(p, keys[i]) ==> Get(p, keys[i]) == Get(q, keys[i])
    ensures HashParts(p, keys) == HashParts(q, keys)
    decreases |keys|
  {
    if |keys| > 0 {
      var init := keys[..|keys| - 1];
      assert forall i | 0 <= i < |init| :: init[i] == keys[i];
      HashPartsAgree(p, q, init);
    }
  }

  /** Setting a key the hash passes over (CustomerCellphoneNumber, HashCheck, Token,
      GenerateShortUrl) or a key outside OZOW_ORDER leaves the pre-image unchanged. */
  lemma HashIgnoresUnhashedKey(payload: Entries<string>, key: string, value: string, privateKey: string)
    requires SkippedByHash(key) || key !in OzowOrder
    ensures OzowHashInput(Put(payload, key, value), privateKey) == OzowHashInput(payload, privateKey)
  {
    var q := Put(payload, key, value);
    forall i | 0 <= i < |OzowOrder|
      ensures Hashed(q, OzowOrder[i]) == Hashed(payload, OzowOrder[i])
      ensures Get(q, OzowOrder[i]) == Get(payload, OzowOrder[i]) || SkippedByHash(OzowOrder[i])
    {
      GetPut(payload, key, value, OzowOrder[i]);
    }
    HashPartsAgree(q, payload, OzowOrder);
  }

  /** An AllowVariableAmount that lowercases to "false" contributes exactly what
      an empty one does: nothing. */
  lemma HashSkipsFalseVariableAmount(payload: Entries<string>, value: string, privateKey: string)
    requires ToLower(value) == "false"
    ensures OzowHashInput(Put(payload, "AllowVariableAmount", value), privateKey)
      == OzowHashInput(Put(payload, "AllowVariableAmount", ""), privateKey)
  {
    var p, q := Put(payload, "AllowVariableAmount", value), Put(payload, "AllowVariableAmount", "");
    forall i | 0 <= i < |OzowOrder|
      ensures Hashed(p, OzowOrder[i]) == Hashed(q, OzowOrder[i])
      ensures Get(p, OzowOrder[i]) == Get(q, OzowOrder[i]) || !Hashed(p, OzowOrder[i])
    {
      GetPut(payload, "AllowVariableAmount", value, OzowOrder[i]);
      GetPut(payload, "AllowVariableAmount", "", OzowOrder[i]);
    }
    HashPartsAgree(p, q, OzowOrder);
  }

  /** Every part is the non-empty value of a key of `keys` that the hash takes. */
  lemma {:induction false} HashPartsAreHashedValues(payload: Entries<string>, keys: seq<string>, j: nat)
    requires j < |HashParts(payload, keys)|
    ensures exists i | 0 <= i < |keys| :: Hashed(payload, keys[i]) && HashParts(payload, keys)[j] == Get(payload, keys[i]).value
    decreases |keys|
  {
    var init := keys[..|keys| - 1];
    var key := keys[|keys| - 1];
    if j < |HashParts(payload, init)| {
      HashPartsAreHashedValues(payload, init, j);
      var i :| 0 <= i < |init| && Hashed(payload, init[i]) && HashParts(payload, init)[j] == Get(payload, init[i]).value;
      assert keys[i] == init[i];
    } else {
      assert Hashed(payload, keys[|keys| - 1]);
    }
  }

  // ---------------------------------------------------------------------------
  // Notification verification

  /** `value.replace(/^0+/, "")`. */
  function StripLeadingZeros(s: string): (r: string)
    ensures |r| <= |s| && (|r| > 0 ==> r[0] != '0')
    decreases |s|
  {
    if |s| > 0 && s[0] == '0' then StripLeadingZeros(s[1..]) else s
  }

  /** The `normalize` of verifyOzowWebhook (src/providers/ozow.ts:306). */
  function NormalizeHash(s: string): string {
    ToLower(StripLeadingZeros(s))
  }

  lemma {:induction false} StripLeadingZerosToUpper(s: string)
    ensures StripLeadingZeros(ToUpper(s)) == ToUpper(StripLeadingZeros(s))
    decreases |s|
  {
    if |s| > 0 {
      assert ToUpper(s)[1..] == ToUpper(s[1..]);
      if s[0] == '0' {
        StripLeadingZerosToUpper(s[1..]);
      }
    }
  }

  lemma {:induction false} StripLeadingZerosPrefix(n: nat, s: string)
    ensures StripLeadingZeros(Zeros(n) + s) == StripLeadingZeros(s)
    decreases n
  {
    if n > 0 {
      assert (Zeros(n) + s)[0] == '0';
      assert (Zeros(n) + s)[1..] == Zeros(n - 1) + s;
      StripLeadingZerosPrefix(n - 1, s);
    } else {
      assert Zeros(n) + s == s;
    }
  }

  /** The comparison ignores letter case and leading zeros. */
  lemma NormalizeHashIgnores(n: nat, s: string)
    ensures NormalizeHash(Zeros(n) + s) == NormalizeHash(s)
    ensures NormalizeHash(ToUpper(s)) == NormalizeHash(s)
  {
    StripLeadingZerosPrefix(n, s);
    StripLeadingZerosToUpper(s);
    ToLowerToUpper(StripLeadingZeros(s));
  }

  /** The payload reduce of verifyOzowWebhook (src/providers/ozow.ts:275-282):
      null and undefined values are dropped, the rest rendered as strings. */
  function DropNullish(acc: Entries<string>, data: ProviderData): Entries<string>
    decreases |data|
  {
    if |data| == 0 then acc
    else
      var (key, value) := data[0];
      DropNullish(if value.None? then acc else Put(acc, key, ToStringValue(value.value)), data[1..])
  }

  /** The record verifyOzowWebhook checks (src/providers/ozow.ts:266-283): the
      form-decoded raw body when there is one, else the given payload, else none.
      A malformed body throws the decoder's error. */
  function OzowReceivedPayload(input: WebhookVerifyInput): Result<Option<Entries<string>>> {
    if Present(input.rawBody) then
      var pairs :- ParseFormEncoded(input.rawBody.value);
      Ok(Some(PairsToRecord(pairs)))
    else if input.payload.Some? then Ok(Some(DropNullish([], input.payload.value)))
    else Ok(None)
  }

  /** `payload.HashCheck || payload.hashCheck`. */
  function ReceivedHash(payload: Entries<string>): Option<string> {
    if Present(Get(payload, "HashCheck")) then Get(payload, "HashCheck") else Get(payload, "hashCheck")
  }

  /** The notification pre-image: the OZOW_RESPONSE_ORDER values (missing as ""),
      then the private key, lowercased (src/providers/ozow.ts:302-303). */
  function OzowResponseInput(payload: Entries<string>, privateKey: string): string {
    ToLower(Concat(seq(|OzowResponseOrder|, i requires 0 <= i < |OzowResponseOrder| => Get(payload, OzowResponseOrder[i]).GetOr(""))) + privateKey)
  }

  /** verifyOzowWebhook (src/providers/ozow.ts:254-312). */
  function VerifyOzowWebhook(input: WebhookVerifyInput, h: Host): Result<WebhookVerifyResult> {
    if !Present(input.privateKey) then Ok(WebhookVerifyResult(Ozow, false, Some(MissingPrivateKey)))
    else
      var payload :- OzowReceivedPayload(input);
      if payload.None? then Ok(WebhookVerifyResult(Ozow, false, Some(MissingPayload)))
      else
        var received := ReceivedHash(payload.value);
        if !Present(received) then Ok(WebhookVerifyResult(Ozow, false, Some(MissingHashCheck)))
        else
          var computed := h.sha512Hex(OzowResponseInput(payload.value, input.privateKey.value));
          Ok(WebhookVerifyResult(Ozow, NormalizeHash(received.value) == NormalizeHash(computed), None))
  }

  /** Each gap has its own reason, in this order: the private key, then the
      payload, then the received hash; with none of them the verdict is the
      normalised comparison of the received hash with the host's SHA-512 of the
      pre-image. A raw body that does not decode is the decoder's error. */
  lemma VerifyOzowWebhookSpec(input: WebhookVerifyInput, h: Host)
    ensures !Present(input.privateKey) ==> VerifyOzowWebhook(input, h) == Ok(WebhookVerifyResult(Ozow, false, Some(MissingPrivateKey)))
    ensures Present(input.privateKey) && OzowReceivedPayload(input).Err? ==>
      VerifyOzowWebhook(input, h) == Err(OzowReceivedPayload(input).error)
    ensures Present(input.privateKey) && OzowReceivedPayload(input) == Ok(None) ==>
      VerifyOzowWebhook(input, h) == Ok(WebhookVerifyResult(Ozow, false, Some(MissingPayload)))
    ensures Present(input.privateKey) && OzowReceivedPayload(input).Ok? && OzowReceivedPayload(input).value.Some? ==>
      var payload := OzowReceivedPayload(input).value.value;
      var r := VerifyOzowWebhook(input, h);
      && r.Ok? && r.value.provider == Ozow
      && (r.value.reason == Some(MissingHashCheck) <==> !Present(ReceivedHash(payload)))
      && (r.value.reason.None? <==> Present(ReceivedHash(payload)))
      && (r.value.reason.None? ==> (r.value.isValid <==>
            NormalizeHash(ReceivedHash(payload).value) == NormalizeHash(h.sha512Hex(OzowResponseInput(payload, input.privateKey.value)))))
      && (r.value.isValid ==> r.value.reason.None?)
  {
  }

  /** Without a raw body, the payload is read as given, nullish values dropped, and
      with no payload at all the reason is missingPayload. */
  lemma OzowReceivedPayloadSpec(input: WebhookVerifyInput)
    ensures !Present(input.rawBody) && input.payload.Some? ==> OzowReceivedPayload(input) == Ok(Some(DropNullish([], input.payload.value)))
    ensures !Present(input.rawBody) && input.payload.None? ==> OzowReceivedPayload(input) == Ok(None)
    ensures Present(input.rawBody) ==> OzowReceivedPayload(input).Ok? == ParseFormEncoded(input.rawBody.value).Ok?
  {
  }

  /** A notification whose HashCheck is the SHA-512 of its own pre-image under the
      merchant's private key is accepted, whatever the digest function, even with
      the hash upper-cased or zero-padded in transit (test/ozow.test.ts:46-92). */
  lemma GenuineOzowNotificationAccepted(input: WebhookVerifyInput, h: Host, n: nat, upper: bool)
    requires Present(input.privateKey)
    requires OzowReceivedPayload(input).Ok? && OzowReceivedPayload(input).value.Some?
    requires var payload := OzowReceivedPayload(input).value.value;
      var digest := h.sha512Hex(OzowResponseInput(payload, input.privateKey.value));
      Get(payload, "HashCheck") == Some(Zeros(n) + (if upper then ToUpper(digest) else digest))
    requires h.sha512Hex(OzowResponseInput(OzowReceivedPayload(input).value.value, input.privateKey.value)) != ""
    ensures VerifyOzowWebhook(input, h) == Ok(WebhookVerifyResult(Ozow, true, None))
  {
    var payload := OzowReceivedPayload(input).value.value;
    var digest := h.sha512Hex(OzowResponseInput(payload, input.privateKey.value));
    var sent := if upper then ToUpper(digest) else digest;
    assert |sent| == |digest|;
    assert Present(ReceivedHash(payload));
    NormalizeHashIgnores(n, sent);
    NormalizeHashIgnores(0, digest);
  }

  // ---------------------------------------------------------------------------
  // Payload assembly

  /** The keys buildOzowPayload writes, all of them OZOW_ORDER fields. */
  predicate KeysAllowed(payload: Entries<string>) {
    forall k | k in Keys(payload) :: IsOzowAllowed(k)
  }

  lemma PutAllowed(payload: Entries<string>, key: string, value: string)
    requires KeysAllowed(payload) && IsOzowAllowed(key)
    ensures KeysAllowed(Put(payload, key, value))
  {
    PutKeys(payload, key, value);
  }

  /** The first of `fields` that is a key of providerData; a key whose value is
      undefined counts, as it does for the `in` operator. */
  function FirstOverlap(fields: seq<string>, data: Option<ProviderData>): (r: Option<string>)
    ensures r.Some? ==> r.value in fields && data.Some? && r.value in Keys(data.value)
    ensures r.None? ==> data.None? || forall i | 0 <= i < |fields| :: fields[i] !in Keys(data.value)
    decreases |fields|
  {
    if data.None? || |fields| == 0 then None
    else if fields[0] in Keys(data.value) then Some(fields[0])
    else FirstOverlap(fields[1..], data)
  }

  /** What applyOzowProviderOptions leaves in the payload (src/providers/ozow.ts:143-178). */
  function OzowOptionsApplied(payload: Entries<string>, options: Option<ProviderOptions>, data: Option<ProviderData>): Result<Entries<string>> {
    if options.None? then Ok(payload)
    else
      var overlap := FirstOverlap(OzowOptionFields, data);
      if overlap.Some? then Err(Plain("providerData overlaps providerOptions: " + overlap.value))
      else OzowOptionValues(payload, options.value)
  }

  /** The option fields written once no overlap was found (src/providers/ozow.ts:156-177). */
  function OzowOptionValues(payload: Entries<string>, o: ProviderOptions): Result<Entries<string>> {
    var p1 := if Present(o.selectedBankId) then Put(payload, "SelectedBankId", o.selectedBankId.value) else payload;
    var p2 := if Present(o.customerIdentityNumber) then Put(p1, "CustomerIdentityNumber", o.customerIdentityNumber.value) else p1;
    var p3 := if o.allowVariableAmount.Some? then Put(p2, "AllowVariableAmount", if o.allowVariableAmount.value then "true" else "false") else p2;
    if o.allowVariableAmount == Some(true) then
      if o.variableAmountMin.None? then Err(Plain("variableAmountMin is required when allowVariableAmount is true"))
      else if o.variableAmountMax.None? then Err(Plain("variableAmountMax is required when allowVariableAmount is true"))
      else Ok(Put(Put(p3, "VariableAmountMin", o.variableAmountMin.value), "VariableAmountMax", o.variableAmountMax.value))
    else Ok(p3)
  }

  /** applyOzowProviderOptions (src/providers/ozow.ts:143-178). The record it
      mutates is passed in and the updated record returned. */
  method ApplyOzowProviderOptions(payload: Entries<string>, options: Option<ProviderOptions>, data: Option<ProviderData>)
    returns (r: Result<Entries<string>>)
    ensures r == OzowOptionsApplied(payload, options, data)
  {
    if options.None? {
      return Ok(payload);
    }
    var i := 0;
    while i < |OzowOptionFields|
      invariant 0 <= i <= |OzowOptionFields|
      invariant FirstOverlap(OzowOptionFields, data) == FirstOverlap(OzowOptionFields[i..], data)
    {
      var fieldKey := OzowOptionFields[i];
      if data.Some? && fieldKey in Keys(data.value) {
        return Err(Plain("providerData overlaps providerOptions: " + fieldKey));
      }
      assert OzowOptionFields[i..][1..] == OzowOptionFields[i + 1..];
      i := i + 1;
    }
    assert FirstOverlap(OzowOptionFields, data) == None;
    var o := options.value;
    var result := payload;
    if Present(o.selectedBankId) {
      result := Put(result, "SelectedBankId", o.selectedBankId.value);
    }
    if Present(o.customerIdentityNumber) {
      result := Put(result, "CustomerIdentityNumber", o.customerIdentityNumber.value);
    }
    if o.allowVariableAmount.Some? {
      result := Put(result, "AllowVariableAmount", if o.allowVariableAmount.value then "true" else "false");
    }
    if o.allowVariableAmount == Some(true) {
      if o.variableAmountMin.None? {
        return Err(Plain("variableAmountMin is required when allowVariableAmount is true"));
      }
      if o.variableAmountMax.None? {
        return Err(Plain("variableAmountMax is required when allowVariableAmount is true"));
      }
      result := Put(result, "VariableAmountMin", o.variableAmountMin.value);
      result := Put(result, "VariableAmountMax", o.variableAmountMax.value);
    }
    return Ok(result);
  }

  /** Options that applyOzowProviderOptions accepts: none at all, or no option
      field among the providerData keys and, with allowVariableAmount true, both
      bounds given. */
  predicate OptionsAccepted(options: Option<ProviderOptions>, data: Option<ProviderData>) {
    options.None? ||
    (FirstOverlap(OzowOptionFields, data).None? &&
     (options.value.allowVariableAmount == Some(true) ==>
        options.value.variableAmountMin.Some? && options.value.variableAmountMax.Some?))
  }

  /** The options fail exactly when an option field is also a providerData key, or
      allowVariableAmount is true without both bounds, with the first of these
      messages that applies. */
  lemma OzowOptionsErrors(payload: Entries<string>, options: Option<ProviderOptions>, data: Option<ProviderData>)
    ensures OzowOptionsApplied(payload, options, data).Ok? <==> OptionsAccepted(options, data)
    ensures options.None? ==> OzowOptionsApplied(payload, options, data) == Ok(payload)
    ensures options.Some? && data.Some? && (exists i | 0 <= i < |OzowOptionFields| :: OzowOptionFields[i] in Keys(data.value)) ==>
      && FirstOverlap(OzowOptionFields, data).Some?
      && OzowOptionsApplied(payload, options, data) == Err(Plain("providerData overlaps providerOptions: " + FirstOverlap(OzowOptionFields, data).value))
    ensures options.Some? && FirstOverlap(OzowOptionFields, data).None? && options.value.allowVariableAmount == Some(true) ==>
      && (options.value.variableAmountMin.None? ==>
            OzowOptionsApplied(payload, options, data) == Err(Plain("variableAmountMin is required when allowVariableAmount is true")))
      && (options.value.variableAmountMin.Some? && options.value.variableAmountMax.None? ==>
            OzowOptionsApplied(payload, options, data) == Err(Plain("variableAmountMax is required when allowVariableAmount is true")))
  {
  }

  /** Accepted options write each option field as the source does and leave every
      other key alone. */
  lemma OzowOptionsFields(payload: Entries<string>, options: Option<ProviderOptions>, data: Option<ProviderData>, key: string)
    requires options.Some? && OzowOptionsApplied(payload, options, data).Ok?
    ensures var r, o := OzowOptionsApplied(payload, options, data).value, options.value;
      && (key !in OzowOptionFields ==> Get(r, key) == Get(payload, key))
      && (key == "SelectedBankId" ==> Get(r, key) == if Present(o.selectedBankId) then o.selectedBankId else Get(payload, key))
      && (key == "CustomerIdentityNumber" ==> Get(r, key) == if Present(o.customerIdentityNumber) then o.customerIdentityNumber else Get(payload, key))
      && (key == "AllowVariableAmount" ==>
            Get(r, key) == if o.allowVariableAmount.Some? then Some(if o.allowVariableAmount.value then "true" else "false") else Get(payload, key))
      && (key == "VariableAmountMin" ==> Get(r, key) == if o.allowVariableAmount == Some(true) then o.variableAmountMin else Get(payload, key))
      && (key == "VariableAmountMax" ==> Get(r, key) == if o.allowVariableAmount == Some(true) then o.variableAmountMax else Get(payload, key))
  {
    var o := options.value;
    var p1 := if Present(o.selectedBankId) then Put(payload, "SelectedBankId", o.selectedBankId.value) else payload;
    var p2 := if Present(o.customerIdentityNumber) then Put(p1, "CustomerIdentityNumber", o.customerIdentityNumber.value) else p1;
    var p3 := if o.allowVariableAmount.Some? then Put(p2, "AllowVariableAmount", if o.allowVariableAmount.value then "true" else "false") else p2;
    GetPut(payload, "SelectedBankId", o.selectedBankId.GetOr(""), key);
    GetPut(p1, "CustomerIdentityNumber", o.customerIdentityNumber.GetOr(""), key);
    GetPut(p2, "AllowVariableAmount", if o.allowVariableAmount == Some(true) then "true" else "false", key);
    if o.allowVariableAmount == Some(true) {
      var p4 := Put(p3, "VariableAmountMin", o.variableAmountMin.value);
      GetPut(p3, "VariableAmountMin", o.variableAmountMin.value, key);
      GetPut(p4, "VariableAmountMax", o.variableAmountMax.value, key);
    }
  }

  /** A fact about the literal OZOW_ORDER list, proved once so the proofs that use it
      do not search the list; it models nothing on its own. */
  lemma OptionFieldsAllowed()
    ensures IsOzowAllowed("SelectedBankId") && IsOzowAllowed("CustomerIdentityNumber")
    ensures IsOzowAllowed("AllowVariableAmount")
    ensures IsOzowAllowed("VariableAmountMin") && IsOzowAllowed("VariableAmountMax")
  {
  }

  lemma OzowOptionsKeepAllowed(payload: Entries<string>, options: Option<ProviderOptions>, data: Option<ProviderData>)
    requires KeysAllowed(payload) && OzowOptionsApplied(payload, options, data).Ok?
    ensures KeysAllowed(OzowOptionsApplied(payload, options, data).value)
  {
    if options.Some? {
      OptionFieldsAllowed();
      var o := options.value;
      var p1 := payload;
      if Present(o.selectedBankId) {
        PutAllowed(payload, "SelectedBankId", o.selectedBankId.value);
        p1 := Put(payload, "SelectedBankId", o.selectedBankId.value);
      }
      var p2 := p1;
      if Present(o.customerIdentityNumber) {
        PutAllowed(p1, "CustomerIdentityNumber", o.customerIdentityNumber.value);
        p2 := Put(p1, "CustomerIdentityNumber", o.customerIdentityNumber.value);
      }
      var p3 := p2;
      if o.allowVariableAmount.Some? {
        var flag := if o.allowVariableAmount.value then "true" else "false";
        PutAllowed(p2, "AllowVariableAmount", flag);
        p3 := Put(p2, "AllowVariableAmount", flag);
      }
      if o.allowVariableAmount == Some(true) {
        PutAllowed(p3, "VariableAmountMin", o.variableAmountMin.value);
        PutAllowed(Put(p3, "VariableAmountMin", o.variableAmountMin.value), "VariableAmountMax", o.variableAmountMax.value);
        assert OzowOptionsApplied(payload, options, data).value ==
          Put(Put(p3, "VariableAmountMin", o.variableAmountMin.value), "VariableAmountMax", o.variableAmountMax.value);
      } else {
        assert OzowOptionsApplied(payload, options, data).value == p3;
      }
    }
  }

  /** The providerData merge of buildOzowPayload (src/providers/ozow.ts:126-138),
      entry by entry in insertion order: a key outside OZOW_ORDER throws, a null or
      undefined value and a HashCheck are skipped, anything else overwrites. (The
      overlap test at lines 133-135 never fires, see BuildOzowPayload.) */
  function MergeOzowData(payload: Entries<string>, data: ProviderData): Result<Entries<string>>
    decreases |data|
  {
    if |data| == 0 then Ok(payload)
    else
      var prev :- MergeOzowData(payload, data[..|data| - 1]);
      var (key, value) := data[|data| - 1];
      if !IsOzowAllowed(key) then Err(Plain("Unsupported Ozow field: " + key))
      else if value.None? || key == "HashCheck" then Ok(prev)
      else Ok(Put(prev, key, ToStringValue(value.value)))
  }

  /** The merge fails exactly when some key is outside OZOW_ORDER, naming the first one. */
  lemma MergeOzowDataErrors(payload: Entries<string>, data: ProviderData)
    ensures MergeOzowData(payload, data).Err? <==> exists i | 0 <= i < |data| :: !IsOzowAllowed(data[i].0)
    ensures MergeOzowData(payload, data).Err? ==>
      exists i | 0 <= i < |data| ::
        && !IsOzowAllowed(data[i].0)
        && (forall j | 0 <= j < i :: IsOzowAllowed(data[j].0))
        && MergeOzowData(payload, data).error == Plain("Unsupported Ozow field: " + data[i].0)
  {
    MergeOzowDataFails(payload, data);
    MergeOzowDataFirstError(payload, data);
    if MergeOzowData(payload, data).Err? {
      var i :| FirstUnsupported(data, i) && MergeOzowData(payload, data).error == Plain("Unsupported Ozow field: " + data[i].0);
      assert 0 <= i < |data|;
    }
  }

  lemma {:induction false} MergeOzowDataFails(payload: Entries<string>, data: ProviderData)
    ensures MergeOzowData(payload, data).Err? <==> exists i | 0 <= i < |data| :: !IsOzowAllowed(data[i].0)
    decreases |data|
  {
    if |data| > 0 {
      MergeOzowDataFails(payload, data[..|data| - 1]);
      AllOzowAllowedSnoc(data);
    }
  }

  /** Every providerData key is an OZOW_ORDER field. */
  predicate AllOzowAllowed(data: ProviderData) {
    forall i | 0 <= i < |data| :: IsOzowAllowed(data[i].0)
  }

  lemma AllOzowAllowedSnoc(data: ProviderData)
    requires |data| > 0
    ensures AllOzowAllowed(data) <==> AllOzowAllowed(data[..|data| - 1]) && IsOzowAllowed(data[|data| - 1].0)
  {
    var init := data[..|data| - 1];
    assert forall i | 0 <= i < |init| :: init[i] == data[i];
  }

  /** data[i] is the first pair whose key is outside OZOW_ORDER. */
  predicate FirstUnsupported(data: ProviderData, i: int) {
    0 <= i < |data| && !IsOzowAllowed(data[i].0) && forall j | 0 <= j < i :: IsOzowAllowed(data[j].0)
  }

  lemma FirstUnsupportedExtends(data: ProviderData, n: nat, i: int)
    requires n <= |data| && FirstUnsupported(data[..n], i)
    ensures FirstUnsupported(data, i) && data[i] == data[..n][i]
  {
    assert forall j | 0 <= j <= i :: data[..n][j] == data[j];
  }

  lemma {:induction false} MergeOzowDataFirstError(payload: Entries<string>, data: ProviderData)
    ensures MergeOzowData(payload, data).Err? ==>
      exists i :: FirstUnsupported(data, i) && MergeOzowData(payload, data).error == Plain("Unsupported Ozow field: " + data[i].0)
    decreases |data|
  {
    if |data| > 0 {
      var n := |data| - 1;
      var prev := MergeOzowData(payload, data[..n]);
      if prev.Err? {
        MergeOzowDataFirstError(payload, data[..n]);
        var i :| FirstUnsupported(data[..n], i) && prev.error == Plain("Unsupported Ozow field: " + data[..n][i].0);
        FirstUnsupportedExtends(data, n, i);
        assert MergeOzowData(payload, data) == prev;
      } else if !IsOzowAllowed(data[n].0) {
        MergeOzowDataFails(payload, data[..n]);
        assert forall j | 0 <= j < n :: data[..n][j] == data[j];
        assert FirstUnsupported(data, n);
      }
    }
  }

  /** providerData pairs with a null or undefined value never reach the payload,
      and neither does a HashCheck: */
  predicate NotSetBy(data: Option<ProviderData>, key: string) {
    data.None? || key == "HashCheck" || forall i | 0 <= i < |data.value| :: data.value[i].0 == key ==> data.value[i].1.None?
  }

  /** a key no pair sets keeps its value. */
  lemma {:induction false} MergeOzowDataKeeps(payload: Entries<string>, data: ProviderData, key: string)
    requires NotSetBy(Some(data), key) && MergeOzowData(payload, data).Ok?
    ensures Get(MergeOzowData(payload, data).value, key) == Get(payload, key)
    decreases |data|
  {
    if |data| > 0 {
      var init := data[..|data| - 1];
      assert forall i | 0 <= i < |init| :: init[i] == data[i];
      MergeOzowDataKeeps(payload, init, key);
      var (k, v) := data[|data| - 1];
      if v.Some? && k != "HashCheck" {
        GetPut(MergeOzowData(payload, init).value, k, ToStringValue(v.value), key);
      }
    }
  }

  /** A pair with a value overwrites its key with the value rendered as a string. */
  lemma {:induction false} MergeOzowDataSets(payload: Entries<string>, data: ProviderData, i: nat)
    requires DistinctKeys(data) && i < |data| && data[i].1.Some? && data[i].0 != "HashCheck"
    requires MergeOzowData(payload, data).Ok?
    ensures Get(MergeOzowData(payload, data).value, data[i].0) == Some(ToStringValue(data[i].1.value))
    decreases |data|
  {
    var init := data[..|data| - 1];
    var (k, v) := data[|data| - 1];
    if i < |init| {
      assert forall j | 0 <= j < |init| :: init[j] == data[j];
      assert DistinctKeys(init);
      MergeOzowDataSets(payload, init, i);
      assert k != data[i].0;
      if v.Some? && k != "HashCheck" {
        GetPut(MergeOzowData(payload, init).value, k, ToStringValue(v.value), data[i].0);
      }
    } else {
      GetPut(MergeOzowData(payload, init).value, k, ToStringValue(v.value), data[i].0);
    }
  }

  lemma {:induction false} MergeOzowDataKeepsAllowed(payload: Entries<string>, data: ProviderData)
    requires KeysAllowed(payload) && MergeOzowData(payload, data).Ok?
    ensures KeysAllowed(MergeOzowData(payload, data).value)
    decreases |data|
  {
    if |data| > 0 {
      var init := data[..|data| - 1];
      MergeOzowDataKeepsAllowed(payload, init);
      var (k, v) := data[|data| - 1];
      if v.Some? && k != "HashCheck" {
        PutAllowed(MergeOzowData(payload, init).value, k, ToStringValue(v.value));
      }
    }
  }

  /** The payload keys filled from metadata, `Optional${index + 1}`. */
  const OptionalKeys: seq<string> := ["Optional1", "Optional2", "Optional3", "Optional4", "Optional5"]

  lemma OptionalKeysDistinct()
    ensures forall i, j | 0 <= i < j < |OptionalKeys| :: OptionalKeys[i] != OptionalKeys[j]
  {
  }

  lemma OptionalKeyNotFilledLater(i: nat)
    requires i < |OptionalKeys|
    ensures OptionalKeys[i] !in ["Customer", "CustomerCellphoneNumber", "CancelUrl", "ErrorUrl", "SuccessUrl", "NotifyUrl", "IsTest"]
  {
  }

  lemma PutOptionalsKeepAllowed(payload: Entries<string>, entries: Entries<string>, n: nat)
    requires n <= |entries| && n <= |OptionalKeys| && KeysAllowed(payload)
    ensures KeysAllowed(PutValues(payload, OptionalKeys, entries, n))
  {
    PutValuesKeys(payload, OptionalKeys, entries, n);
  }

  /** `[firstName, lastName].filter(Boolean).join(" ")`. */
  function FullName(c: Customer): string {
    Join((if Present(c.firstName) then [c.firstName.value] else []) + (if Present(c.lastName) then [c.lastName.value] else []), " ")
  }

  /** The full name is both names separated by one space, either name alone, or
      empty when neither is given. */
  lemma FullNameSpec(c: Customer)
    ensures Present(c.firstName) && Present(c.lastName) ==> FullName(c) == c.firstName.value + " " + c.lastName.value
    ensures Present(c.firstName) && !Present(c.lastName) ==> FullName(c) == c.firstName.value
    ensures !Present(c.firstName) && Present(c.lastName) ==> FullName(c) == c.lastName.value
    ensures FullName(c) == "" <==> !Present(c.firstName) && !Present(c.lastName)
  {
    if Present(c.firstName) && Present(c.lastName) {
      var parts := [c.firstName.value] + [c.lastName.value];
      assert parts[1..] == [c.lastName.value];
      assert Join(parts, " ") == parts[0] + " " + Join(parts[1..], " ");
    }
  }

  /** The customer fields of buildOzowPayload (src/providers/ozow.ts:107-117). */
  function CustomerFields(payload: Entries<string>, customer: Option<Customer>): Entries<string> {
    if customer.None? then payload
    else
      var c := customer.value;
      var p1 := if FullName(c) != "" then Put(payload, "Customer", FullName(c)) else payload;
      if Present(c.phone) then Put(p1, "CustomerCellphoneNumber", c.phone.value) else p1
  }

  /** The redirect URLs of buildOzowPayload (src/providers/ozow.ts:119-122):
      returnUrl is written as SuccessUrl. */
  function UrlFields(payload: Entries<string>, urls: Option<Urls>): Entries<string> {
    if urls.None? then payload
    else
      var u := urls.value;
      var p1 := if Present(u.cancelUrl) then Put(payload, "CancelUrl", u.cancelUrl.value) else payload;
      var p2 := if Present(u.errorUrl) then Put(p1, "ErrorUrl", u.errorUrl.value) else p1;
      var p3 := if Present(u.returnUrl) then Put(p2, "SuccessUrl", u.returnUrl.value) else p2;
      if Present(u.notifyUrl) then Put(p3, "NotifyUrl", u.notifyUrl.value) else p3
  }

  lemma CustomerFieldsGet(payload: Entries<string>, customer: Option<Customer>, key: string)
    ensures key != "Customer" && key != "CustomerCellphoneNumber" ==> Get(CustomerFields(payload, customer), key) == Get(payload, key)
    ensures customer.Some? && FullName(customer.value) != "" && key == "Customer" ==>
      Get(CustomerFields(payload, customer), key) == Some(FullName(customer.value))
    ensures customer.Some? && Present(customer.value.phone) && key == "CustomerCellphoneNumber" ==>
      Get(CustomerFields(payload, customer), key) == customer.value.phone
  {
    if customer.Some? {
      var c := customer.value;
      var p1 := if FullName(c) != "" then Put(payload, "Customer", FullName(c)) else payload;
      GetPut(payload, "Customer", FullName(c), key);
      GetPut(p1, "CustomerCellphoneNumber", c.phone.GetOr(""), key);
    }
  }

  /** The customer and URL keys are OZOW_ORDER fields: a fact about the literal list,
      proved once; it models nothing on its own. */
  lemma FillKeysAllowed()
    ensures IsOzowAllowed("Customer") && IsOzowAllowed("CustomerCellphoneNumber")
    ensures IsOzowAllowed("CancelUrl") && IsOzowAllowed("ErrorUrl")
    ensures IsOzowAllowed("SuccessUrl") && IsOzowAllowed("NotifyUrl")
  {
    assert OzowOrder[11] == "Customer";
    assert OzowOrder[12] == "CancelUrl";
    assert OzowOrder[13] == "ErrorUrl";
    assert OzowOrder[14] == "SuccessUrl";
    assert OzowOrder[15] == "NotifyUrl";
    assert OzowOrder[27] == "CustomerCellphoneNumber";
  }

  lemma CustomerFieldsAllowed(payload: Entries<string>, customer: Option<Customer>)
    requires KeysAllowed(payload)
    ensures KeysAllowed(CustomerFields(payload, customer))
  {
    if customer.Some? {
      var c := customer.value;
      var p1 := if FullName(c) != "" then Put(payload, "Customer", FullName(c)) else payload;
      FillKeysAllowed();
      if FullName(c) != "" { PutAllowed(payload, "Customer", FullName(c)); }
      if Present(c.phone) { PutAllowed(p1, "CustomerCellphoneNumber", c.phone.value); }
    }
  }

  lemma UrlFieldsGet(payload: Entries<string>, urls: Option<Urls>, key: string)
    ensures key !in ["CancelUrl", "ErrorUrl", "SuccessUrl", "NotifyUrl"] ==> Get(UrlFields(payload, urls), key) == Get(payload, key)
    ensures urls.Some? && Present(urls.value.returnUrl) && key == "SuccessUrl" ==> Get(UrlFields(payload, urls), key) == urls.value.returnUrl
    ensures urls.Some? && Present(urls.value.notifyUrl) && key == "NotifyUrl" ==> Get(UrlFields(payload, urls), key) == urls.value.notifyUrl
  {
    if urls.Some? {
      var u := urls.value;
      var p1 := if Present(u.cancelUrl) then Put(payload, "CancelUrl", u.cancelUrl.value) else payload;
      var p2 := if Present(u.errorUrl) then Put(p1, "ErrorUrl", u.errorUrl.value) else p1;
      var p3 := if Present(u.returnUrl) then Put(p2, "SuccessUrl", u.returnUrl.value) else p2;
      GetPut(payload, "CancelUrl", u.cancelUrl.GetOr(""), key);
      GetPut(p1, "ErrorUrl", u.errorUrl.GetOr(""), key);
      GetPut(p2, "SuccessUrl", u.returnUrl.GetOr(""), key);
      GetPut(p3, "NotifyUrl", u.notifyUrl.GetOr(""), key);
    }
  }

  lemma UrlFieldsAllowed(payload: Entries<string>, urls: Option<Urls>)
    requires KeysAllowed(payload)
    ensures KeysAllowed(UrlFields(payload, urls))
  {
    if urls.Some? {
      var u := urls.value;
      var p1 := if Present(u.cancelUrl) then Put(payload, "CancelUrl", u.cancelUrl.value) else payload;
      var p2 := if Present(u.errorUrl) then Put(p1, "ErrorUrl", u.errorUrl.value) else p1;
      var p3 := if Present(u.returnUrl) then Put(p2, "SuccessUrl", u.returnUrl.value) else p2;
      FillKeysAllowed();
      if Present(u.cancelUrl) { PutAllowed(payload, "CancelUrl", u.cancelUrl.value); }
      if Present(u.errorUrl) { PutAllowed(p1, "ErrorUrl", u.errorUrl.value); }
      if Present(u.returnUrl) { PutAllowed(p2, "SuccessUrl", u.returnUrl.value); }
      if Present(u.notifyUrl) { PutAllowed(p3, "NotifyUrl", u.notifyUrl.value); }
    }
  }

  /** Once a prefix of providerData fails, the whole merge fails the same way. */
  lemma {:induction false} MergeOzowDataPrefixErr(payload: Entries<string>, data: ProviderData, n: nat)
    requires n <= |data| && MergeOzowData(payload, data[..n]).Err?
    ensures MergeOzowData(payload, data) == MergeOzowData(payload, data[..n])
    decreases |data| - n
  {
    if n < |data| {
      assert data[..n + 1][..n] == data[..n];
      MergeOzowDataPrefixErr(payload, data, n + 1);
    } else {
      assert data[..n] == data;
    }
  }

  /** `providerData?.BankReference ?? description ?? reference` (src/providers/ozow.ts:93-95):
      a null or undefined BankReference falls through, an empty description does not. */
  function BankReferenceOf(input: PaymentRequest): Primitive {
    var given := if input.providerData.Some? then Get(input.providerData.value, "BankReference") else None;
    if given.Some? && given.value.Some? then given.value.value
    else if input.description.Some? then Str(input.description.value)
    else Str(input.reference)
  }

  /** The five fields of the initial literal, then BankReference (src/providers/ozow.ts:85-95). */
  function OzowBasePayload(input: PaymentRequest, siteCode: string, currency: string, amount: string): Entries<string> {
    Put([("SiteCode", siteCode), ("CountryCode", "ZA"), ("CurrencyCode", currency), ("Amount", amount),
         ("TransactionReference", input.reference)],
        "BankReference", ToStringValue(BankReferenceOf(input)))
  }

  /** The checks and the initial record of buildOzowPayload (src/providers/ozow.ts:79-95). */
  function OzowPrelude(input: PaymentRequest, h: Host): Result<Entries<string>> {
    var siteCode :- RequireValue(input.secrets.siteCode, "secrets.siteCode");
    var currency := NormalizeCurrency(input.currency, "ZAR");
    :- AssertProviderCurrency(Ozow, currency);
    var amount :- FormatAmount(input.amount, h);
    Ok(OzowBasePayload(input, siteCode, currency, amount))
  }

  /** The metadata, customer, URL and IsTest fields (src/providers/ozow.ts:100-124). */
  function OzowFillFields(input: PaymentRequest, payload: Entries<string>): Entries<string> {
    var shown := MetadataShown(input.metadata);
    var withUrls := UrlFields(CustomerFields(PutValues(payload, OptionalKeys, shown, |shown|), input.customer), input.urls);
    Put(withUrls, "IsTest", if input.testMode then "true" else "false")
  }

  /** Everything buildOzowPayload writes before the providerData merge
      (src/providers/ozow.ts:79-124), or the first error it throws. */
  function OzowPayloadBeforeData(input: PaymentRequest, h: Host): Result<Entries<string>> {
    var base :- OzowPrelude(input, h);
    var withOptions :- OzowOptionsApplied(base, input.providerOptions, input.providerData);
    Ok(OzowFillFields(input, withOptions))
  }

  /** The record buildOzowPayload returns (src/providers/ozow.ts:78-141), or the first error it throws. */
  function OzowPayload(input: PaymentRequest, h: Host): Result<Entries<string>> {
    var payload :- OzowPayloadBeforeData(input, h);
    if input.providerData.None? then Ok(payload) else MergeOzowData(payload, input.providerData.value)
  }

  /** buildOzowPayload (src/providers/ozow.ts:78-141). */
  method BuildOzowPayload(input: PaymentRequest, h: Host) returns (r: Result<Entries<string>>)
    ensures r == OzowPayload(input, h)
  {
    var siteCode :- RequireValue(input.secrets.siteCode, "secrets.siteCode");
    var currency := NormalizeCurrency(input.currency, "ZAR");
    var country := "ZA";
    :- AssertProviderCurrency(Ozow, currency);
    var amount :- FormatAmount(input.amount, h);
    var payload: Entries<string> := [("SiteCode", siteCode), ("CountryCode", country), ("CurrencyCode", currency),
                                     ("Amount", amount), ("TransactionReference", input.reference)];
    var bankReference := BankReferenceOf(input);
    payload := Put(payload, "BankReference", ToStringValue(bankReference));
    assert OzowPrelude(input, h) == Ok(payload);
    var providerOptions := input.providerOptions;
    payload :- ApplyOzowProviderOptions(payload, providerOptions, input.providerData);
    payload := WriteOzowMetadata(payload, input.metadata);
    if input.customer.Some? {
      var fullName := FullName(input.customer.value);
      if fullName != "" {
        payload := Put(payload, "Customer", fullName);
      }
      if Present(input.customer.value.phone) {
        payload := Put(payload, "CustomerCellphoneNumber", input.customer.value.phone.value);
      }
    }
    if input.urls.Some? {
      var urls := input.urls.value;
      if Present(urls.cancelUrl) {
        payload := Put(payload, "CancelUrl", urls.cancelUrl.value);
      }
      if Present(urls.errorUrl) {
        payload := Put(payload, "ErrorUrl", urls.errorUrl.value);
      }
      if Present(urls.returnUrl) {
        payload := Put(payload, "SuccessUrl", urls.returnUrl.value);
      }
      if Present(urls.notifyUrl) {
        payload := Put(payload, "NotifyUrl", urls.notifyUrl.value);
      }
    }
    payload := Put(payload, "IsTest", if input.testMode then "true" else "false");
    assert OzowPayloadBeforeData(input, h) == Ok(payload);
    if input.providerData.Some? {
      payload :- MergeOzowProviderData(payload, input.providerData.value, providerOptions);
    }
    return Ok(payload);
  }

  /** The metadata `forEach` of buildOzowPayload (src/providers/ozow.ts:100-105). */
  method WriteOzowMetadata(payload: Entries<string>, metadata: Option<Entries<string>>) returns (r: Entries<string>)
    ensures r == PutValues(payload, OptionalKeys, MetadataShown(metadata), |MetadataShown(metadata)|)
  {
    r := payload;
    if metadata.Some? {
      var entries := MetadataShown(metadata);
      for index := 0 to |entries|
        invariant r == PutValues(payload, OptionalKeys, entries, index)
      {
        r := Put(r, OptionalKeys[index], entries[index].1);
      }
    }
  }

  /** The providerData loop of buildOzowPayload (src/providers/ozow.ts:126-138).
      Its caller has already passed applyOzowProviderOptions, so with options given
      no providerData key is an option field, and the overlap branch is dead. */
  method MergeOzowProviderData(payload: Entries<string>, data: ProviderData, providerOptions: Option<ProviderOptions>)
    returns (r: Result<Entries<string>>)
    requires providerOptions.Some? ==> FirstOverlap(OzowOptionFields, Some(data)).None?
    ensures r == MergeOzowData(payload, data)
  {
    var merged := payload;
    for i := 0 to |data|
      invariant MergeOzowData(payload, data[..i]) == Ok(merged)
    {
      var (key, value) := data[i];
      assert data[..i + 1][..i] == data[..i];
      assert key in Keys(data) by {
        assert Keys(data)[i] == key;
      }
      if !IsOzowAllowed(key) {
        MergeOzowDataPrefixErr(payload, data, i + 1);
        return Err(Plain("Unsupported Ozow field: " + key));
      }
      if value.None? {
        continue;
      }
      if key == "HashCheck" {
        continue;
      }
      if providerOptions.Some? && IsOzowProviderOptionField(key) {
        // Unreachable under the requires: applyOzowProviderOptions
        // (src/providers/ozow.ts:150-154) has already refused such a key.
        assert false;
      }
      merged := Put(merged, key, ToStringValue(value.value));
    }
    assert data[..|data|] == data;
    return Ok(merged);
  }

  // ---------------------------------------------------------------------------
  // What the payload is

  /** buildOzowPayload succeeds exactly when the site code is given, the currency
      normalises to ZAR, the amount is a finite number, the options are accepted
      and every providerData key is an OZOW_ORDER field. */
  lemma OzowPayloadAccepts(input: PaymentRequest, h: Host)
    ensures OzowPayload(input, h).Ok? <==>
      && Present(input.secrets.siteCode)
      && NormalizeCurrency(input.currency, "ZAR") == "ZAR"
      && h.formatAmount(input.amount).Some?
      && OptionsAccepted(input.providerOptions, input.providerData)
      && (input.providerData.Some? ==> forall i | 0 <= i < |input.providerData.value| :: IsOzowAllowed(input.providerData.value[i].0))
  {
    OzowPayloadSteps(input, h);
    var prelude := OzowPrelude(input, h);
    if prelude.Ok? {
      var applied := OzowOptionsApplied(prelude.value, input.providerOptions, input.providerData);
      OzowOptionsErrors(prelude.value, input.providerOptions, input.providerData);
      if applied.Ok? && input.providerData.Some? {
        MergeOzowDataFails(OzowFillFields(input, applied.value), input.providerData.value);
      }
    }
  }

  /** buildOzowPayload succeeds when each of its three stages does. */
  lemma OzowPayloadSteps(input: PaymentRequest, h: Host)
    ensures OzowPrelude(input, h).Ok? <==>
      Present(input.secrets.siteCode) && NormalizeCurrency(input.currency, "ZAR") == "ZAR" && h.formatAmount(input.amount).Some?
    ensures OzowPayload(input, h).Ok? <==>
      && OzowPrelude(input, h).Ok?
      && OzowOptionsApplied(OzowPrelude(input, h).value, input.providerOptions, input.providerData).Ok?
      && (input.providerData.Some? ==>
            MergeOzowData(OzowFillFields(input, OzowOptionsApplied(OzowPrelude(input, h).value, input.providerOptions, input.providerData).value),
                          input.providerData.value).Ok?)
    ensures OzowPrelude(input, h).Ok? && OzowOptionsApplied(OzowPrelude(input, h).value, input.providerOptions, input.providerData).Err? ==>
      OzowPayload(input, h) == Err(OzowOptionsApplied(OzowPrelude(input, h).value, input.providerOptions, input.providerData).error)
  {
  }

  /** The errors of the checks, in the order the source throws them. */
  lemma OzowPreludeErrors(input: PaymentRequest, h: Host)
    ensures !Present(input.secrets.siteCode) ==> OzowPayload(input, h) == Err(MissingField("secrets.siteCode"))
    ensures var currency := NormalizeCurrency(input.currency, "ZAR");
      Present(input.secrets.siteCode) && currency != "ZAR" ==>
        OzowPayload(input, h) == Err(Coded(UnsupportedCurrencyCode, ZarOnlyMessage(Ozow, currency)))
    ensures Present(input.secrets.siteCode) && NormalizeCurrency(input.currency, "ZAR") == "ZAR" && h.formatAmount(input.amount).None? ==>
      OzowPayload(input, h) == Err(Plain("Amount must be a valid number"))
    ensures OzowPrelude(input, h).Ok? <==>
      Present(input.secrets.siteCode) && NormalizeCurrency(input.currency, "ZAR") == "ZAR" && h.formatAmount(input.amount).Some?
    ensures OzowPrelude(input, h).Ok? ==>
      OzowPrelude(input, h).value == OzowBasePayload(input, input.secrets.siteCode.value, "ZAR", h.formatAmount(input.amount).value)
  {
  }

  /** Past the checks, the options' errors come next. */
  lemma OzowPayloadOptionErrors(input: PaymentRequest, h: Host)
    requires OzowPrelude(input, h).Ok? && input.providerOptions.Some?
    ensures FirstOverlap(OzowOptionFields, input.providerData).Some? ==>
      OzowPayload(input, h) == Err(Plain("providerData overlaps providerOptions: " + FirstOverlap(OzowOptionFields, input.providerData).value))
    ensures var o := input.providerOptions.value;
      FirstOverlap(OzowOptionFields, input.providerData).None? && o.allowVariableAmount == Some(true) && o.variableAmountMin.None? ==>
        OzowPayload(input, h) == Err(Plain("variableAmountMin is required when allowVariableAmount is true"))
    ensures var o := input.providerOptions.value;
      FirstOverlap(OzowOptionFields, input.providerData).None? && o.allowVariableAmount == Some(true) &&
      o.variableAmountMin.Some? && o.variableAmountMax.None? ==>
        OzowPayload(input, h) == Err(Plain("variableAmountMax is required when allowVariableAmount is true"))
  {
    OzowPayloadSteps(input, h);
    OzowOptionsErrors(OzowPrelude(input, h).value, input.providerOptions, input.providerData);
  }

  /** Past the options, the first providerData key outside OZOW_ORDER is the error. */
  lemma OzowPayloadFieldErrors(input: PaymentRequest, h: Host)
    requires OzowPayloadBeforeData(input, h).Ok? && input.providerData.Some?
    ensures OzowPayload(input, h).Err? <==> exists i | 0 <= i < |input.providerData.value| :: !IsOzowAllowed(input.providerData.value[i].0)
    ensures OzowPayload(input, h).Err? ==>
      exists i | 0 <= i < |input.providerData.value| ::
        && !IsOzowAllowed(input.providerData.value[i].0)
        && (forall j | 0 <= j < i :: IsOzowAllowed(input.providerData.value[j].0))
        && OzowPayload(input, h).error == Plain("Unsupported Ozow field: " + input.providerData.value[i].0)
  {
    MergeOzowDataErrors(OzowPayloadBeforeData(input, h).value, input.providerData.value);
  }

  /** The initial record holds the checked site code, "ZA", the currency, the
      formatted amount, the reference and the bank reference, and nothing else. */
  lemma OzowBaseGet(input: PaymentRequest, siteCode: string, currency: string, amount: string, key: string)
    ensures var p := OzowBasePayload(input, siteCode, currency, amount);
      && KeysAllowed(p)
      && Get(p, key) == (
           if key == "SiteCode" then Some(siteCode)
           else if key == "CountryCode" then Some("ZA")
           else if key == "CurrencyCode" then Some(currency)
           else if key == "Amount" then Some(amount)
           else if key == "TransactionReference" then Some(input.reference)
           else if key == "BankReference" then Some(ToStringValue(BankReferenceOf(input)))
           else None)
  {
    var literal := [("SiteCode", siteCode), ("CountryCode", "ZA"), ("CurrencyCode", currency), ("Amount", amount),
                    ("TransactionReference", input.reference)];
    GetPut(literal, "BankReference", ToStringValue(BankReferenceOf(input)), key);
    assert Get(literal[4..], key) == if key == "TransactionReference" then Some(input.reference) else None;
    assert Get(literal[3..], key) == if key == "Amount" then Some(amount) else Get(literal[4..], key);
    assert Get(literal[2..], key) == if key == "CurrencyCode" then Some(currency) else Get(literal[3..], key);
    assert Get(literal[1..], key) == if key == "CountryCode" then Some("ZA") else Get(literal[2..], key);
    assert Get(literal, key) == if key == "SiteCode" then Some(siteCode) else Get(literal[1..], key);
    assert Keys(literal) == ["SiteCode", "CountryCode", "CurrencyCode", "Amount", "TransactionReference"];
    PutAllowed(literal, "BankReference", ToStringValue(BankReferenceOf(input)));
  }

  /** The keys the metadata, customer, URL and IsTest steps may write. */
  const FillKeys: seq<string> := OptionalKeys + ["Customer", "CustomerCellphoneNumber", "CancelUrl", "ErrorUrl", "SuccessUrl", "NotifyUrl", "IsTest"]

  /** They are all OZOW_ORDER fields, and the stages write nothing else. */
  lemma OzowFillFieldsKeys(input: PaymentRequest, payload: Entries<string>, key: string)
    ensures KeysAllowed(payload) ==> KeysAllowed(OzowFillFields(input, payload))
    ensures key !in FillKeys ==> Get(OzowFillFields(input, payload), key) == Get(payload, key)
  {
    var shown := MetadataShown(input.metadata);
    var withMetadata := PutValues(payload, OptionalKeys, shown, |shown|);
    var withCustomer := CustomerFields(withMetadata, input.customer);
    var withUrls := UrlFields(withCustomer, input.urls);
    if key !in FillKeys {
      assert key !in OptionalKeys[..|shown|];
      OptionalKeysDistinct();
      PutValuesGet(payload, OptionalKeys, shown, |shown|, key);
      CustomerFieldsGet(withMetadata, input.customer, key);
      UrlFieldsGet(withCustomer, input.urls, key);
      GetPut(withUrls, "IsTest", if input.testMode then "true" else "false", key);
    }
    if KeysAllowed(payload) {
      PutOptionalsKeepAllowed(payload, shown, |shown|);
      CustomerFieldsAllowed(withMetadata, input.customer);
      UrlFieldsAllowed(withCustomer, input.urls);
      PutAllowed(withUrls, "IsTest", if input.testMode then "true" else "false");
    }
  }

  /** IsTest is "true" or "false" as testMode says. */
  lemma OzowFillFieldsIsTest(input: PaymentRequest, payload: Entries<string>)
    ensures Get(OzowFillFields(input, payload), "IsTest") == Some(if input.testMode then "true" else "false")
  {
    var shown := MetadataShown(input.metadata);
    var withUrls := UrlFields(CustomerFields(PutValues(payload, OptionalKeys, shown, |shown|), input.customer), input.urls);
    GetPut(withUrls, "IsTest", if input.testMode then "true" else "false", "IsTest");
  }

  /** The i-th of the first five metadata values is Optional{i+1}. */
  lemma OzowFillFieldsOptional(input: PaymentRequest, payload: Entries<string>, i: nat)
    requires i < |MetadataShown(input.metadata)|
    ensures Get(OzowFillFields(input, payload), OptionalKeys[i]) == Some(MetadataShown(input.metadata)[i].1)
  {
    var key := OptionalKeys[i];
    var shown := MetadataShown(input.metadata);
    var withMetadata := PutValues(payload, OptionalKeys, shown, |shown|);
    OptionalKeysDistinct();
    PutValuesGet(payload, OptionalKeys, shown, |shown|, key);
    assert Get(withMetadata, key) == Some(shown[i].1);
    OptionalKeyNotFilledLater(i);
    var withCustomer := CustomerFields(withMetadata, input.customer);
    CustomerFieldsGet(withMetadata, input.customer, key);
    var withUrls := UrlFields(withCustomer, input.urls);
    UrlFieldsGet(withCustomer, input.urls, key);
    assert Get(withUrls, key) == Some(shown[i].1);
    GetPut(withUrls, "IsTest", if input.testMode then "true" else "false", key);
  }

  /** The fields of the initial record, and HashCheck, which none of the
      later steps writes. */
  const BaseKeys: seq<string> := ["SiteCode", "CountryCode", "CurrencyCode", "Amount", "TransactionReference", "BankReference", "HashCheck"]

  lemma BaseKeysNotRewritten(key: string)
    requires key in BaseKeys
    ensures key !in FillKeys && key !in OzowOptionFields
  {
  }

  /** Before the merge, the initial fields still hold what the checks produced. */
  lemma OzowBeforeDataKeeps(input: PaymentRequest, h: Host, key: string)
    requires OzowPayloadBeforeData(input, h).Ok? && key in BaseKeys
    ensures OzowPrelude(input, h).Ok?
    ensures Get(OzowPayloadBeforeData(input, h).value, key) == Get(OzowPrelude(input, h).value, key)
    ensures KeysAllowed(OzowPayloadBeforeData(input, h).value)
  {
    var base := OzowPrelude(input, h).value;
    var withOptions := OzowOptionsApplied(base, input.providerOptions, input.providerData).value;
    BaseKeysNotRewritten(key);
    if input.providerOptions.Some? {
      OzowOptionsFields(base, input.providerOptions, input.providerData, key);
    }
    OzowPreludeErrors(input, h);
    OzowBaseGet(input, input.secrets.siteCode.value, "ZAR", h.formatAmount(input.amount).value, key);
    OzowOptionsKeepAllowed(base, input.providerOptions, input.providerData);
    OzowFillFieldsKeys(input, withOptions, key);
  }

  /** The fields written before the merge, read back from that record. */
  lemma OzowBeforeDataGet(input: PaymentRequest, h: Host, key: string)
    requires OzowPayloadBeforeData(input, h).Ok?
    ensures var p := OzowPayloadBeforeData(input, h).value;
      && KeysAllowed(p)
      && (key == "HashCheck" ==> Get(p, key) == None)
      && (key == "SiteCode" ==> Get(p, key) == input.secrets.siteCode)
      && (key == "CountryCode" ==> Get(p, key) == Some("ZA"))
      && (key == "CurrencyCode" ==> Get(p, key) == Some("ZAR"))
      && (key == "Amount" ==> Get(p, key) == h.formatAmount(input.amount))
      && (key == "TransactionReference" ==> Get(p, key) == Some(input.reference))
      && (key == "BankReference" ==> Get(p, key) == Some(ToStringValue(BankReferenceOf(input))))
  {
    OzowBeforeDataKeeps(input, h, "SiteCode");
    if key in BaseKeys {
      OzowBeforeDataKeeps(input, h, key);
      OzowPreludeErrors(input, h);
      OzowBaseGet(input, input.secrets.siteCode.value, "ZAR", h.formatAmount(input.amount).value, key);
    }
  }

  /** IsTest and the Optional values, read back before the merge. */
  lemma OzowBeforeDataFilled(input: PaymentRequest, h: Host)
    requires OzowPayloadBeforeData(input, h).Ok?
    ensures var p := OzowPayloadBeforeData(input, h).value;
      && Get(p, "IsTest") == Some(if input.testMode then "true" else "false")
      && (forall i | 0 <= i < |MetadataShown(input.metadata)| :: Get(p, OptionalKeys[i]) == Some(MetadataShown(input.metadata)[i].1))
  {
    var base := OzowPrelude(input, h).value;
    var withOptions := OzowOptionsApplied(base, input.providerOptions, input.providerData).value;
    OzowFillFieldsIsTest(input, withOptions);
    forall i | 0 <= i < |MetadataShown(input.metadata)|
      ensures Get(OzowFillFields(input, withOptions), OptionalKeys[i]) == Some(MetadataShown(input.metadata)[i].1)
    {
      OzowFillFieldsOptional(input, withOptions, i);
    }
  }

  /** The merged payload holds only OZOW_ORDER fields and never a HashCheck:
      makeOzowPayment adds that one. */
  lemma OzowPayloadShape(input: PaymentRequest, h: Host)
    requires OzowPayload(input, h).Ok?
    ensures KeysAllowed(OzowPayload(input, h).value)
    ensures Get(OzowPayload(input, h).value, "HashCheck") == None
  {
    var before := OzowPayloadBeforeData(input, h).value;
    OzowBeforeDataGet(input, h, "HashCheck");
    if input.providerData.Some? {
      MergeOzowDataKeepsAllowed(before, input.providerData.value);
      MergeOzowDataKeeps(before, input.providerData.value, "HashCheck");
    }
  }

  /** A key providerData does not set keeps the value buildOzowPayload wrote. */
  lemma OzowPayloadKeeps(input: PaymentRequest, h: Host, key: string)
    requires OzowPayload(input, h).Ok? && NotSetBy(input.providerData, key)
    ensures OzowPayloadBeforeData(input, h).Ok?
    ensures Get(OzowPayload(input, h).value, key) == Get(OzowPayloadBeforeData(input, h).value, key)
  {
    if input.providerData.Some? {
      MergeOzowDataKeeps(OzowPayloadBeforeData(input, h).value, input.providerData.value, key);
    }
  }

  /** Unless providerData sets them: SiteCode is the site code, CountryCode "ZA",
      CurrencyCode "ZAR", Amount the formatted amount, TransactionReference the
      reference, IsTest "true" or "false", and Optional1..n the first five
      metadata values in order. */
  lemma OzowPayloadDefaults(input: PaymentRequest, h: Host, key: string)
    requires OzowPayload(input, h).Ok? && NotSetBy(input.providerData, key)
    ensures var p := OzowPayload(input, h).value;
      && (key == "SiteCode" ==> Get(p, key) == input.secrets.siteCode)
      && (key == "CountryCode" ==> Get(p, key) == Some("ZA"))
      && (key == "CurrencyCode" ==> Get(p, key) == Some("ZAR"))
      && (key == "Amount" ==> Get(p, key) == h.formatAmount(input.amount))
      && (key == "TransactionReference" ==> Get(p, key) == Some(input.reference))
      && (key == "IsTest" ==> Get(p, key) == Some(if input.testMode then "true" else "false"))
      && (forall i | 0 <= i < |MetadataShown(input.metadata)| :: key == OptionalKeys[i] ==>
            Get(p, key) == Some(MetadataShown(input.metadata)[i].1))
  {
    OzowPayloadKeeps(input, h, key);
    OzowBeforeDataGet(input, h, key);
    OzowBeforeDataFilled(input, h);
  }

  /** Every providerData value other than a null, an undefined or a HashCheck ends
      up in the payload, rendered as a string, whatever was there before. */
  lemma OzowPayloadProviderData(input: PaymentRequest, h: Host, i: nat)
    requires OzowPayload(input, h).Ok? && input.providerData.Some?
    requires DistinctKeys(input.providerData.value) && i < |input.providerData.value|
    requires input.providerData.value[i].1.Some? && input.providerData.value[i].0 != "HashCheck"
    ensures Get(OzowPayload(input, h).value, input.providerData.value[i].0) == Some(ToStringValue(input.providerData.value[i].1.value))
  {
    MergeOzowDataSets(OzowPayloadBeforeData(input, h).value, input.providerData.value, i);
  }

  /** So a providerData CurrencyCode replaces the checked "ZAR": the currency rule
      only looks at the request's currency. */
  lemma ProviderDataOverridesCurrency(input: PaymentRequest, h: Host, currency: string)
    requires input.providerData == Some([("CurrencyCode", Some(Str(currency)))])
    requires OzowPayload(input, h).Ok?
    ensures NormalizeCurrency(input.currency, "ZAR") == "ZAR"
    ensures Get(OzowPayload(input, h).value, "CurrencyCode") == Some(currency)
  {
    OzowPayloadProviderData(input, h, 0);
  }

  /** BankReference is providerData.BankReference when it is neither null nor
      undefined, else the description (even an empty one), else the reference. */
  lemma OzowPayloadBankReference(input: PaymentRequest, h: Host)
    requires OzowPayload(input, h).Ok?
    requires input.providerData.Some? ==> DistinctKeys(input.providerData.value)
    ensures Get(OzowPayload(input, h).value, "BankReference") == Some(ToStringValue(BankReferenceOf(input)))
    ensures var given := if input.providerData.Some? then Get(input.providerData.value, "BankReference") else None;
      var bankReference := Get(OzowPayload(input, h).value, "BankReference");
      && (given.Some? && given.value.Some? ==> bankReference == Some(ToStringValue(given.value.value)))
      && (!(given.Some? && given.value.Some?) && input.description.Some? ==> bankReference == input.description)
      && (!(given.Some? && given.value.Some?) && input.description.None? ==> bankReference == Some(input.reference))
  {
    OzowBeforeDataGet(input, h, "BankReference");
    if NotSetBy(input.providerData, "BankReference") {
      OzowPayloadKeeps(input, h, "BankReference");
    } else {
      var data := input.providerData.value;
      var i :| 0 <= i < |data| && data[i].0 == "BankReference" && data[i].1.Some?;
      GetFirst(data, i);
      OzowPayloadProviderData(input, h, i);
    }
  }

  // ---------------------------------------------------------------------------
  // makeOzowPayment, up to the request it sends

  /** OZOW_ENDPOINTS (src/providers/ozow.ts:73-76). */
  const OzowLiveEndpoint := "https://api.ozow.com/PostPaymentRequest"
  const OzowSandboxEndpoint := "https://stagingapi.ozow.com/PostPaymentRequest"

  /** The POST makeOzowPayment sends: the endpoint, the ApiKey header and the JSON body. */
  datatype OzowPaymentRequest = OzowPaymentRequest(endpoint: string, apiKey: string, body: Entries<string>)

  /** makeOzowPayment up to the `fetch` (src/providers/ozow.ts:212-221): the
      secrets are checked, the payload built and signed. The signature covers the
      payload it is stored in: recomputing it over the body sent gives it back, so
      a receiver holding the private key can check it. */
  method PrepareOzowPayment(input: PaymentRequest, h: Host) returns (r: Result<OzowPaymentRequest>)
    ensures !Present(input.secrets.apiKey) ==> r == Err(MissingField("secrets.apiKey"))
    ensures Present(input.secrets.apiKey) && !Present(input.secrets.privateKey) ==> r == Err(MissingField("secrets.privateKey"))
    ensures Present(input.secrets.apiKey) && Present(input.secrets.privateKey) && OzowPayload(input, h).Err? ==>
      r == Err(OzowPayload(input, h).error)
    ensures r.Ok? <==> Present(input.secrets.apiKey) && Present(input.secrets.privateKey) && OzowPayload(input, h).Ok?
    ensures r.Ok? ==>
      var payload, privateKey := OzowPayload(input, h).value, input.secrets.privateKey.value;
      && r.value.apiKey == input.secrets.apiKey.value
      && r.value.endpoint == (if input.testMode then OzowSandboxEndpoint else OzowLiveEndpoint)
      && r.value.body == Put(payload, "HashCheck", h.sha512Hex(OzowHashInput(payload, privateKey)))
      && Get(r.value.body, "HashCheck") == Some(h.sha512Hex(OzowHashInput(r.value.body, privateKey)))
      && Keys(r.value.body) == Keys(payload) + ["HashCheck"]
  {
    var apiKey :- RequireValue(input.secrets.apiKey, "secrets.apiKey");
    var privateKey :- RequireValue(input.secrets.privateKey, "secrets.privateKey");
    var payload :- BuildOzowPayload(input, h);
    var hashCheck := BuildOzowHashCheck(payload, privateKey, h);
    var body := Put(payload, "HashCheck", hashCheck);
    HashIgnoresUnhashedKey(payload, "HashCheck", hashCheck, privateKey);
    GetPut(payload, "HashCheck", hashCheck, "HashCheck");
    OzowPayloadShape(input, h);
    GetSomeIffKey(payload, "HashCheck");
    PutKeys(payload, "HashCheck", hashCheck);
    var endpoint := if input.testMode then OzowSandboxEndpoint else OzowLiveEndpoint;
    return Ok(OzowPaymentRequest(endpoint, apiKey, body));
  }
}
