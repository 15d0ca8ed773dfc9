# Stash payment adapters in Dafny

This project models the signing and verification layer of Stash, a payment
gateway adapter for three South African and Nigerian payment providers: Ozow,
Payfast and Paystack. The model covers what that layer does before anything
goes over the network:

- **Form codec.** The Payfast value encoder, `encodePayfastValue`, is
  `encodeURIComponent` with upper-case escapes and `+` for a space. The
  decoder, `decodeFormComponent`, maps `+` to a space and then percent-decodes
  with UTF-8 validation. On top of them sit the `&`/`=` body parser and the
  last-wins fold of pairs into a record.
- **Amount conversion.** Decimal strings become integer minor units with exact
  integer arithmetic, and the rejection rules are written out: sign, format,
  too many decimals and the safe-integer cap. The reverse conversion is an
  exact rational.
- **Guards, currency and capabilities.** This covers `requireValue`,
  `toStringValue`, `normalizeCurrency`, the ZAR-only rule, the capability table
  and its guards.
- **Ozow.**
  - The payment payload, with its allow-list and option overlap checks.
  - The HashCheck pre-image and the signed request.
  - The notification check with leading-zero and case normalisation.
- **Payfast.**
  - The redirect form and its MD5 signature pre-image.
  - The signed POST form.
  - The ITN check (instant transaction notification). It rebuilds the
    parameter string from the received pairs, in the order they arrived, up to
    the first `signature`.
- **Paystack.**
  - The amount resolution.
  - The initialisation payload with its collision checks.
  - The webhook HMAC comparison and the status of a verified transaction.
- **Adapters.**
  - The webhook event normalisers and the case-insensitive header lookup.
  - The request and status mapping of the Ozow and Paystack lookups.
  - The `parse*Webhook` compositions and the adapter registry, which is shown
    to agree with the capability table.

The source has two shapes, and the model follows each:

- **State changed step by step** becomes a method with loop invariants, proved
  against a specification function. This covers the payload and form builders
  that fill a record field by field, the providerData merge loops, the
  signature loops and the header lookup.
- **Pure code** becomes functions and lemmas.

Some representation choices:

- A JavaScript record is an ordered association list (`Records.Entries`).
  Assigning a key replaces it in place or appends it. Every key is listed in
  insertion order. JavaScript lists integer-like keys first; see "## Left out".
- `throw` becomes a `Result`. An error carries the code and message the source
  gives it.
- The digests (SHA-512, MD5, HMAC-SHA512) and `Number(...).toFixed` are
  function values in a `Runtime.Host` parameter. Every property therefore holds
  whatever those functions compute.

## Model

| member | source | states |
|---|---|---|
| Guards.RequireValue | src/internal/guards.ts:3-9 | Succeeds exactly for a present, non-empty value and returns it unchanged; undefined, null and "" fail with a missing-field error naming the field |
| Guards.FormatAmount | src/internal/guards.ts:11-17 | Fails with "Amount must be a valid number" exactly when the host's `Number(value)` is not finite (no `toFixed(2)` text); otherwise gives that text |
| Guards.ToStringValueSpec | src/internal/guards.ts:19-24 | Strings and numbers render as their own text; a boolean renders as "true" exactly when true and "false" exactly when false |
| Currency.NormalizeCurrencySpec | src/internal/currency.ts:6-13 | A non-blank input gives its trimmed upper-case form; a blank input gives the upper-cased fallback, or "ZAR" when the fallback is empty |
| Currency.NormalizeCurrencyIdempotent | src/internal/currency.ts:6-13 | Normalising a normalised currency again changes nothing, whatever the second fallback, when the first fallback was trimmed |
| Currency.UntrimmedFallbackExample | src/internal/currency.ts:10-12 | With the untrimmed fallback " usd" one pass gives " USD" and a second pass "USD", so idempotence needs a trimmed fallback |
| Currency.AssertProviderCurrency | src/internal/currency.ts:15-27 | Fails exactly for Ozow or Payfast with a currency other than "ZAR", with code unsupported_currency and the source's message; never fails for Paystack |
| Currency.AssertProviderCurrencyIsCaseSensitive | src/internal/currency.ts:19-26 | "zar" is refused for Ozow: the comparison is exact |
| Capabilities.CapabilityTable | src/providers/capabilities.ts:17-47 | Ozow and Payfast list only ZAR and Paystack lists no currencies; only Paystack requires an email and supports subscriptions and plans; every provider has webhooks; all but Payfast support verification |
| Capabilities.RequireSubscriptionSupport | src/providers/capabilities.ts:49-56 | Passes exactly for Paystack; otherwise fails with unsupported_capability naming the provider |
| Capabilities.RequirePlanSupport | src/providers/capabilities.ts:58-65 | Passes exactly for Paystack; otherwise fails with unsupported_capability naming the provider |
| Capabilities.RequireSupportedCurrency | src/providers/capabilities.ts:67-77 | Passes exactly when the provider has no list, an empty list, or an entry equal to the currency ignoring case; otherwise fails with the unsupported-currency error carrying the list |
| Capabilities.RequireSupportedCurrencyByProvider | src/providers/capabilities.ts:67-77 | Paystack accepts every currency; Ozow and Payfast accept exactly the currencies that upper-case to ZAR |
| Capabilities.RequireCustomerEmail | src/providers/capabilities.ts:79-91 | Without the requirement returns `email ?? ""`; with it succeeds exactly for a non-empty email, returning it, and otherwise fails with missing field customer.email |
| Capabilities.RequireCustomerEmailByProvider | src/providers/capabilities.ts:79-91 | Ozow and Payfast return `email ?? ""`; Paystack succeeds exactly for a non-empty email |
| Amount.TableExponents | src/internal/amount.ts:3-9 | Every entry of the exponent table is 2 |
| Amount.ResolveExponentIsTwo | src/internal/amount.ts:11-15 | A tabled currency in any letter case, an untabled currency and an absent one all have exponent 2 |
| Amount.NormalizeAmountString | src/internal/amount.ts:17-38 | An amount without an exponent mark (a string trimmed, a number as `String` renders it) is refused exactly when empty and otherwise returned as that text; every refusal is "Amount must be a valid number" |
| Amount.AssertNonNegative | src/internal/amount.ts:40-44 | Fails exactly on a leading '-', with "Amount must be a valid number" |
| Amount.EnsureSafeInteger | src/internal/amount.ts:46-52 | Accepts exactly the values up to 2^53-1, unchanged; a larger value is "Amount is too large" |
| Amount.DecimalForms | src/internal/amount.ts:73-77 | A string the decimal pattern accepts is its whole part, or the whole part, '.' and the fraction, with no sign and no exponent mark |
| Amount.DecimalToMinorUnitsSpec | src/internal/amount.ts:73-85 | For any exponent: a non-decimal string is "a valid number", more fraction digits than the exponent is "too many decimal places", otherwise the digits with the point moved go through the safe-integer cap |
| Amount.ToMinorUnitsOfText | src/internal/amount.ts:66-86 | For text without an exponent mark, empty or negative text is refused first, and anything else is the decimal conversion of the trimmed text at exponent 2 |
| Amount.ToMinorUnitsSpec | src/internal/amount.ts:66-86 | For trimmed text without an exponent mark: accepts exactly the decimal strings with at most two fraction digits whose shifted digits fit the cap, and returns that value; a non-decimal, too many decimals and a value over the cap each have their own message |
| Amount.PadValue | src/internal/amount.ts:82 | Right-padding a fraction with zeros multiplies its digit value by the matching power of ten |
| Amount.PaddedHundredths | src/internal/amount.ts:82-84 | Whole digits followed by a fraction of at most two digits padded to two read as the decimal value in hundredths |
| Amount.ShiftPointHundredths | src/internal/amount.ts:82-84 | Moving the point of a decimal string two places gives its exact value times 100 |
| Amount.ToMinorUnitsExact | src/internal/amount.ts:82-85 | The minor units of an accepted amount equal its exact decimal value times 100 |
| Amount.NegativeRejected | src/internal/amount.ts:40-44 | Trimmed text starting with '-' is refused by both toMinorUnits and parseMinorUnits |
| Amount.MinusZeroRejected | src/internal/amount.ts:72 | "-0" is refused |
| Amount.ToMinorUnitsExample | src/internal/amount.ts:82-85 | "25.00" gives 2500 and "25.5" gives 2550 |
| Amount.ParseMinorUnitsSpec | src/internal/amount.ts:54-64 | Accepts exactly digit strings within the cap and returns their value; a '.' is "must be an integer", other non-digits are "a valid number", a value over the cap is "too large" |
| Amount.FromMinorUnitsInverts | src/internal/amount.ts:88-95 | fromMinorUnits of the minor units of an accepted amount, rendered as a number, is the amount's exact decimal value |
| Encoding.EncodePayfastValueByUnits | src/internal/encoding.ts:1-7 | Both rewrites act per character: the encoded value is the concatenation of the encodings of its characters |
| Encoding.UppercaseEscapesUnchanged | src/internal/encoding.ts:3 | encodeURIComponent already writes upper-case hex, so the upper-casing rewrite changes nothing |
| Encoding.ReplacePercent20Units | src/internal/encoding.ts:4 | The `%20` rewrite turns exactly the escapes of spaces into '+' |
| Encoding.EncodeKeepsUnreserved | src/internal/encoding.ts:2 | A string of unreserved characters encodes to itself |
| Encoding.EncodeSpaceAndPlus | src/internal/encoding.ts:2-4 | A space encodes to "+" and a literal "+" to "%2B" |
| Encoding.EncodedShape | src/internal/encoding.ts:1-7 | The output holds only unreserved characters, '+' and escapes `%XY` with upper-case hex, and has exactly as many '+' as the input has spaces |
| Encoding.EncodedHasNoSeparators | src/internal/encoding.ts:1-7 | An encoded value never contains '&' or '=' |
| Encoding.EncodeUrlExample | test/payfast.test.ts:8-14 | "http://example.com/a b" encodes to "http%3A%2F%2Fexample.com%2Fa+b" |
| Encoding.Utf8RoundTrip | src/internal/encoding.ts:11 | The UTF-8 bytes of a character are well-formed and decode back to that character |
| Encoding.DecodeEncode | src/internal/encoding.ts:1-12 | Round trip: decodeFormComponent(encodePayfastValue(s)) is s for every string |
| Encoding.DecodeOkMeansWellFormed | src/internal/encoding.ts:11 | When decodeURIComponent succeeds, every '%' in the input starts an escape with two hex digits |
| Encoding.DecodeRejectsMalformedEscape | src/internal/encoding.ts:9-12 | A '%' not followed by two hex digits makes decodeFormComponent throw URIError |
| Encoding.DecodeOnlyFailsMalformed | src/internal/encoding.ts:11 | The only error decodeURIComponent raises is URIError |
| Encoding.DecodePlusExamples | src/internal/encoding.ts:10 | "a+b" decodes to "a b", "%2B" to "+", and "%2" is refused |
| Form.NonEmpty | src/internal/form.ts:12 | The kept segments are non-empty segments of the input |
| Form.ParseSegments | src/internal/form.ts:13-21 | One pair per segment, each the split-and-decode of its segment; an error comes from a segment that does not decode |
| Form.ParseFormEncodedShape | src/internal/form.ts:5-22 | An empty body has no pairs; otherwise one pair per non-empty `&`-segment, in order, or the error of a segment that does not decode |
| Form.NonEmptyConcat | src/internal/form.ts:12 | Dropping empty segments keeps the order: it distributes over concatenation |
| Form.NonEmptyDropsOnlyEmpty | src/internal/form.ts:12 | An empty segment is dropped and a non-empty one is kept in place |
| Form.ParsePairWithoutEquals | src/internal/form.ts:15-17 | A segment without '=' is its decoded key with the empty value |
| Form.ParsePairAtFirstEquals | src/internal/form.ts:14-20 | A segment is split at its first '='; later '=' characters stay in the value |
| Form.ParseEncodedForm | src/internal/form.ts:5-22 | Round trip: parsing a body whose keys and values were written by encodePayfastValue gives back exactly its pairs, in order |
| Form.PairsToRecordLastWins | src/internal/form.ts:24-29 | A key maps to the value of its last occurrence in the pairs |
| Form.PairsToRecordAbsent | src/internal/form.ts:24-29 | A key that occurs in no pair is not in the record |
| Form.PairsToRecordKeys | src/internal/form.ts:24-29 | The record's keys are exactly the keys of the pairs, each once |
| Form.WebhookUtilsExample | test/webhook-utils.test.ts:27-31 | "key=one&key2=two" parses to the two pairs and gives the record {key: "one", key2: "two"} |
| Records.MetadataShown | src/providers/ozow.ts:101 | At most five metadata entries, a prefix of the metadata in its order, and all of them when there are fewer than five |
| Ozow.IsOzowProviderOptionField | src/providers/ozow.ts:180-183 | True exactly for the five option fields, each an allow-listed field that the hash does not skip |
| Ozow.BuildOzowHashCheck | src/providers/ozow.ts:185-210 | Returns the digest of the pre-image: OZOW_ORDER values that are present and non-empty (HashCheck, Token, CustomerCellphoneNumber, GenerateShortUrl and a "false" AllowVariableAmount skipped), then the private key, lowercased |
| Ozow.CollectHashParts | src/providers/ozow.ts:191-206 | The loop over the key order collects, in order, exactly the values of the keys the hash takes |
| Ozow.HashPartsAgree | src/providers/ozow.ts:191-206 | Two payloads that agree on what each key contributes give the same parts |
| Ozow.HashIgnoresUnhashedKey | src/providers/ozow.ts:191-197 | Setting a skipped key or a key outside OZOW_ORDER leaves the pre-image unchanged |
| Ozow.HashSkipsFalseVariableAmount | src/providers/ozow.ts:198-204 | An AllowVariableAmount that lowercases to "false" contributes what an empty one does: nothing |
| Ozow.HashPartsAreHashedValues | src/providers/ozow.ts:196-205 | Every part is the non-empty value of a key the hash takes |
| Ozow.StripLeadingZeros | src/providers/ozow.ts:306 | The result is no longer than the input and does not start with '0' |
| Ozow.NormalizeHashIgnores | src/providers/ozow.ts:306 | The hash comparison ignores leading zeros and letter case |
| Ozow.VerifyOzowWebhookSpec | src/providers/ozow.ts:254-312 | missingPrivateKey, then the decoder's error, then missingPayload, then missingHashCheck; with none of these the verdict is the normalised received hash equal to the normalised digest of the OZOW_RESPONSE_ORDER pre-image |
| Ozow.OzowReceivedPayloadSpec | src/providers/ozow.ts:266-283 | With no raw body the given payload is used with nullish values dropped, and with neither there is no payload; a raw body is form-decoded |
| Ozow.GenuineOzowNotificationAccepted | test/ozow.test.ts:46-92 | A notification whose HashCheck is the digest of its own pre-image is accepted, even upper-cased or zero-padded |
| Ozow.FirstOverlap | src/providers/ozow.ts:150-154 | Names an option field that is a providerData key, a key with an undefined value included; none means no option field is a key |
| Ozow.ApplyOzowProviderOptions | src/providers/ozow.ts:143-178 | The method's updated record and errors are those of the options specification |
| Ozow.OzowOptionsErrors | src/providers/ozow.ts:148-177 | Options fail exactly on an overlapping field (named, first in table order) or on allowVariableAmount true without a minimum, then without a maximum; no options leave the payload as it is |
| Ozow.OzowOptionsFields | src/providers/ozow.ts:156-177 | Accepted options set SelectedBankId and CustomerIdentityNumber when truthy, AllowVariableAmount to "true"/"false" when given, and both bounds when it is true; other keys are untouched |
| Ozow.OzowOptionsKeepAllowed | src/providers/ozow.ts:156-177 | The options write only OZOW_ORDER fields |
| Ozow.MergeOzowDataErrors | src/providers/ozow.ts:126-130 | The merge fails exactly when some providerData key is outside OZOW_ORDER, with "Unsupported Ozow field" naming the first such key |
| Ozow.MergeOzowDataPrefixErr | src/providers/ozow.ts:126-138 | Once a prefix of providerData fails, the whole merge fails with the same error |
| Ozow.MergeOzowDataKeeps | src/providers/ozow.ts:131-132 | A key that no pair sets by a non-null value (and HashCheck always) keeps its value |
| Ozow.MergeOzowDataSets | src/providers/ozow.ts:136 | A non-null pair other than HashCheck leaves its key holding the value rendered as a string |
| Ozow.MergeOzowDataKeepsAllowed | src/providers/ozow.ts:126-138 | The merge writes only OZOW_ORDER fields |
| Ozow.FullNameSpec | src/providers/ozow.ts:108-110 | The full name is both names joined by one space, either name alone, or empty exactly when neither is given |
| Ozow.CustomerFieldsGet | src/providers/ozow.ts:107-117 | Customer is the full name when non-empty and CustomerCellphoneNumber the phone when truthy; every other key is untouched |
| Ozow.UrlFieldsGet | src/providers/ozow.ts:119-122 | returnUrl is written as SuccessUrl and notifyUrl as NotifyUrl when truthy; keys other than the four URL fields are untouched |
| Ozow.BuildOzowPayload | src/providers/ozow.ts:78-141 | The method's record or first error is that of the payload specification |
| Ozow.WriteOzowMetadata | src/providers/ozow.ts:100-105 | The first five metadata values fill Optional1..n in order |
| Ozow.MergeOzowProviderData | src/providers/ozow.ts:126-138 | The loop's result is the merge specification, with the overlap branch unreachable once the options step has passed |
| Ozow.OzowPayloadAccepts | src/providers/ozow.ts:78-141 | The payload is built exactly when the site code is given, the currency normalises to ZAR, the amount formats, the options are accepted and every providerData key is allowed |
| Ozow.OzowPayloadSteps | src/providers/ozow.ts:79-138 | The payload succeeds exactly when the checks, the options and the merge each do, and an options error is the payload's error |
| Ozow.OzowPreludeErrors | src/providers/ozow.ts:79-95 | Missing site code, then a non-ZAR currency, then a non-finite amount, each with its error; with none the initial record is the five literal fields and BankReference |
| Ozow.OzowPayloadOptionErrors | src/providers/ozow.ts:143-178 | Past the checks, the options' overlap and missing-bound errors are the payload's errors |
| Ozow.OzowPayloadFieldErrors | src/providers/ozow.ts:126-130 | Past the options, the payload fails exactly on a key outside OZOW_ORDER, naming the first |
| Ozow.OzowBaseGet | src/providers/ozow.ts:85-95 | The initial record holds the site code, "ZA", the currency, the amount, the reference and the bank reference, and nothing else |
| Ozow.OzowFillFieldsKeys | src/providers/ozow.ts:100-124 | The metadata, customer, URL and IsTest steps write only their own allow-listed keys |
| Ozow.OzowFillFieldsIsTest | src/providers/ozow.ts:124 | IsTest is "true" or "false" as testMode says |
| Ozow.OzowFillFieldsOptional | src/providers/ozow.ts:100-105 | The i-th of the first five metadata values is Optional{i+1} |
| Ozow.OzowBeforeDataKeeps | src/providers/ozow.ts:97-124 | The steps after the initial record leave its fields as the checks produced them |
| Ozow.OzowBeforeDataGet | src/providers/ozow.ts:79-124 | Before the merge the initial fields read back as placed and HashCheck is absent |
| Ozow.OzowBeforeDataFilled | src/providers/ozow.ts:100-124 | Before the merge IsTest and Optional1..n read back as written |
| Ozow.OzowPayloadShape | src/providers/ozow.ts:126-140 | The returned payload holds only OZOW_ORDER fields and never a HashCheck |
| Ozow.OzowPayloadKeeps | src/providers/ozow.ts:126-138 | A key providerData does not set keeps the value written before the merge |
| Ozow.OzowPayloadDefaults | src/providers/ozow.ts:80-124 | Unless providerData sets them: SiteCode, CountryCode "ZA", CurrencyCode "ZAR", Amount, TransactionReference, IsTest and Optional1..n hold what the builder wrote |
| Ozow.OzowPayloadProviderData | src/providers/ozow.ts:126-138 | Every non-null providerData value other than HashCheck ends up in the payload as a string |
| Ozow.ProviderDataOverridesCurrency | src/providers/ozow.ts:80-138 | A providerData CurrencyCode replaces the checked "ZAR" |
| Ozow.OzowPayloadBankReference | src/providers/ozow.ts:93-95 | BankReference is providerData.BankReference when not nullish, else the description (even empty), else the reference |
| Ozow.PrepareOzowPayment | src/providers/ozow.ts:212-221 | API key, then private key, then the payload's error; on success the endpoint follows testMode, the body is the payload plus a HashCheck that recomputes over the body, and HashCheck is the one key added |
| Payfast.BuildPayfastSignature | src/providers/payfast.ts:124-143 | The loop returns the MD5 of the `key=encode(trim(value))` pairs over PAYFAST_ORDER, joined by '&', plus the passphrase suffix |
| Payfast.SignatureSegmentsAgree | src/providers/payfast.ts:130-135 | Fields that agree on what each key signs give the same pairs |
| Payfast.SignatureIgnoresUnsignedKey | src/providers/payfast.ts:130-133 | Setting `signature`, `setup` or a key outside PAYFAST_ORDER leaves the pre-image unchanged |
| Payfast.SignatureTrimsValues | src/providers/payfast.ts:134 | Surrounding white space on a value does not change the pre-image |
| Payfast.PassphraseSuffixSpec | src/providers/payfast.ts:138-140 | No suffix for an absent or empty passphrase; otherwise it starts with "&passphrase=", which a blank passphrase still appends with nothing after it |
| Payfast.NormalizePayfastFields | src/providers/payfast.ts:61-122 | The method's record or first error is that of the form specification |
| Payfast.WritePayfastUrls | src/providers/payfast.ts:75-77 | The method writes the URL fields of the specification |
| Payfast.WritePayfastCustomer | src/providers/payfast.ts:79-82 | The method writes the customer fields of the specification |
| Payfast.WritePayfastItem | src/providers/payfast.ts:87-101 | The method writes item_name and, when given, item_description as the specification says |
| Payfast.WritePayfastMetadata | src/providers/payfast.ts:103-108 | The first five metadata values fill custom_str1..n in order |
| Payfast.MergePayfastProviderData | src/providers/payfast.ts:110-119 | The loop's result is the merge specification |
| Payfast.MergePayfastDataPrefixErr | src/providers/payfast.ts:110-119 | Once a prefix of providerData fails, the whole merge fails with the same error |
| Payfast.MergePayfastDataErrors | src/providers/payfast.ts:111-114 | The merge fails exactly when a key is neither in PAYFAST_ORDER nor `signature`, with "Unsupported Payfast field" naming the first |
| Payfast.MergePayfastDataKeeps | src/providers/payfast.ts:115-116 | A key that no pair sets by a non-null value (and `signature` always) keeps its value |
| Payfast.MergePayfastDataSets | src/providers/payfast.ts:117 | A non-null pair other than `signature` leaves its key holding the value rendered as a string |
| Payfast.MergePayfastDataInOrder | src/providers/payfast.ts:110-119 | The merge writes only PAYFAST_ORDER fields |
| Payfast.PayfastUrlFieldsGet | src/providers/payfast.ts:75-77 | return_url, cancel_url and notify_url hold their truthy URLs; other keys are untouched |
| Payfast.PayfastCustomerFieldsGet | src/providers/payfast.ts:79-82 | name_first, name_last, email_address and cell_number hold their truthy values; other keys are untouched |
| Payfast.PayfastItemFieldsGet | src/providers/payfast.ts:84-101 | m_payment_id is the reference, amount the formatted amount, item_name and item_description as resolved; other keys are untouched |
| Payfast.PayfastBaseGet | src/providers/payfast.ts:70-101 | The record up to the metadata holds the merchant secrets, the reference, the amount and the item fields |
| Payfast.PayfastPreludeErrors | src/providers/payfast.ts:62-85 | Merchant id, then merchant key, then a currency that does not upper-case to ZAR, then a non-finite amount, each with its error |
| Payfast.PayfastFieldsAccepts | src/providers/payfast.ts:61-122 | The form is built exactly when both secrets are given, the currency upper-cases to ZAR, the amount formats and every providerData key is allowed |
| Payfast.PayfastFieldsFieldErrors | src/providers/payfast.ts:110-114 | Past the checks, the first providerData key outside the allow-list is the error |
| Payfast.PayfastBeforeDataGet | src/providers/payfast.ts:62-108 | Before the merge the form holds only PAYFAST_ORDER fields, and the secrets, reference, amount and item fields read back as placed |
| Payfast.PayfastBeforeDataCustom | src/providers/payfast.ts:103-108 | Before the merge custom_str{i+1} is the i-th metadata value |
| Payfast.PayfastFieldsShape | src/providers/payfast.ts:110-121 | The form holds PAYFAST_ORDER fields only, so no `signature` |
| Payfast.PayfastFieldsKeeps | src/providers/payfast.ts:110-119 | A key providerData does not set keeps the value written before the merge |
| Payfast.PayfastFieldsDefaults | src/providers/payfast.ts:70-108 | Unless providerData sets them: merchant_id, merchant_key, m_payment_id, amount and custom_str1..n hold what the builder wrote |
| Payfast.PayfastFieldsProviderData | src/providers/payfast.ts:110-119 | Every non-null providerData value other than `signature` ends up in the form as a string |
| Payfast.PayfastFieldsItem | src/providers/payfast.ts:87-101 | item_name is providerData.item_name when not nullish, else the description (even empty), else the reference; item_description only from providerData |
| Payfast.PayfastCurrencyExamples | src/providers/payfast.ts:64-68 | An absent currency and "zar" pass; " ZAR" and "" do not: the currency is upper-cased but not trimmed |
| Payfast.MakePayfastPayment | src/providers/payfast.ts:145-156 | The form's errors, or a POST to the sandbox or live URL with the form plus its signature; the signature recomputes over the posted form, and every posted key is allowed |
| Payfast.BeforeSignature | src/providers/payfast.ts:188-191 | The signed pairs are the prefix of the received pairs up to, not including, the first `signature` |
| Payfast.VerifyPayfastWebhook | src/providers/payfast.ts:158-206 | The method's verdict is the verdict specification |
| Payfast.SignedParams | src/providers/payfast.ts:187-193 | The loop gives one `key=encode(value)` per pair before the first `signature` |
| Payfast.PayfastVerdictSpec | src/providers/payfast.ts:161-205 | rawBodyRequired for an empty body, then the decoder's error, then missingSignature; otherwise valid exactly when the last received signature equals the MD5 of the pre-image, ignoring case |
| Payfast.BeforeSignatureSplit | src/providers/payfast.ts:187-193 | Pairs after the first `signature` are not signed |
| Payfast.ItnIgnoresTrailingFields | src/providers/payfast.ts:187-198 | Whatever follows the signature leaves the pre-image unchanged |
| Payfast.GenuineItnAccepted | test/payfast.test.ts:16-46 | A body of pairs, their signature in either case, and further unsigned pairs is accepted |
| Payfast.SignedBodyParses | src/providers/payfast.ts:175 | A non-empty encoded body is non-empty text and parses back to its pairs |
| Payfast.TwoSignatures | src/providers/payfast.ts:175-193 | With two signatures the signed pairs end at the first, but the signature compared is the last |
| Payfast.PassphraseTrimDiffers | src/providers/payfast.ts:196-198 | For a passphrase with surrounding white space the verifier's suffix differs from the signer's |
| Paystack.ResolvePaystackAmountSpec | src/providers/paystack.ts:14-20 | Minor units take a digit string within the cap as it is; major units (the default) take a decimal with at most two decimals, point moved two places |
| Paystack.PreparePaystackPayment | src/providers/paystack.ts:28-84 | The payload's errors, or a POST to /transaction/initialize with the Bearer secret key and the payload as body |
| Paystack.MergePaystackProviderData | src/providers/paystack.ts:67-73 | The loop's result is the merge specification |
| Paystack.MergePaystackDataPrefixErr | src/providers/paystack.ts:67-73 | Once a prefix of providerData fails, the whole merge fails with the same error |
| Paystack.MergePaystackDataSpec | src/providers/paystack.ts:67-73 | The merge succeeds exactly when the non-null entries bring distinct keys the payload neither has nor inherits, and then appends them; otherwise it names a non-null key with invalid_provider_data |
| Paystack.GivenEntriesSpec | src/providers/paystack.ts:67-72 | Every non-null providerData entry is added, and only those |
| Paystack.PaystackCorePayloadGet | src/providers/paystack.ts:41-61 | email, amount, currency ("ZAR" by default) and reference are always set; callback_url, channels and metadata exactly when their sources are |
| Paystack.PaystackPayloadErrors | src/providers/paystack.ts:31-74 | Secret key, then email, then the amount's error, then the channels clash, then a colliding key; with no clash, success exactly when the added keys are fresh |
| Paystack.PaystackPayloadShape | src/providers/paystack.ts:44-74 | An accepted payload is the core fields followed by providerData's non-null entries |
| Paystack.PaystackPayloadFields | src/providers/paystack.ts:44-74 | The core and optional fields read back as placed, and an optional field with no source stays absent |
| Paystack.PaystackPayloadData | src/providers/paystack.ts:67-73 | Each non-null providerData entry reaches the payload under its key |
| Paystack.InheritedKeyRefused | src/providers/paystack.ts:69-71 | A providerData key "toString" is refused although the payload never set it |
| Paystack.UndefinedChannelsRefused | src/providers/paystack.ts:64-66 | A providerData "channels" key is refused beside providerOptions.channels even when its value is undefined |
| Paystack.PaystackWebhookSpec | src/providers/paystack.ts:107-118 | The body's HMAC, when non-empty, is accepted; any other header, an upper-cased digest among them, and a missing header are refused |
| Paystack.PaystackStatusSpec | src/providers/paystack.ts:140-148 | Lower-cased: success is paid, failed failed, abandoned pending, anything else unknown |
| Paystack.PaystackStatusIgnoresCase | src/providers/paystack.ts:140 | Upper-casing the status does not change the result |
| Paystack.PaystackVerificationRef | src/providers/paystack.ts:150-155 | The provider reference is the id's text exactly when the id is truthy |
| Adapters.MapPayfastEventSpec | src/providers/adapters.ts:31-51 | payment_status upper-cased: COMPLETE completed, CANCELLED cancelled, else failed; reference m_payment_id or ""; amount and ZAR exactly when amount_gross is non-empty |
| Adapters.PayfastEventIgnoresCase | src/providers/adapters.ts:31-38 | The event type does not depend on the letter case of payment_status |
| Adapters.MapOzowEventSpec | src/providers/adapters.ts:53-73 | Status lower-cased: complete completed, cancelled cancelled, else failed; reference TransactionReference or ""; currency as received; amount exactly when Amount is non-empty |
| Adapters.OzowEventIgnoresCase | src/providers/adapters.ts:53-60 | The event type does not depend on the letter case of Status |
| Adapters.SubscriptionKindNames | src/providers/adapters.ts:138-157 | Each of the six subscription and invoice names maps to its canonical type, and no other name does |
| Adapters.MapPaystackEventSpec | src/providers/adapters.ts:132-230 | Throws only when fromMinorUnits refuses the amount; subscription names give their type with nested codes before flat ones; otherwise charge.success is completed and the rest failed |
| Adapters.PaystackEventAmount | src/providers/adapters.ts:211-215 | A digit-string amount within the cap becomes that many hundredths of the major unit |
| Adapters.PaystackEventIgnoresCase | src/providers/adapters.ts:135 | Upper-casing the event name changes neither whether the mapping throws nor the event type |
| Adapters.ResolveHeader | src/providers/adapters.ts:232-244 | The loop returns the header lookup specification |
| Adapters.FirstHeaderSpec | src/providers/adapters.ts:236-242 | The first entry whose name matches ignoring case decides, and an array gives its first element |
| Adapters.NoHeaderMatches | src/providers/adapters.ts:236-243 | No matching name, or no headers, gives undefined |
| Adapters.HeaderLookupIgnoresCase | src/providers/adapters.ts:237 | The name asked for may be written in any case |
| Adapters.OzowLookupRequestSpec | src/providers/adapters.ts:249-274 | Site code, then API key, must be present; the lookup goes to the staging host exactly in test mode; the query carries siteCode and transactionReference, and isTest=true exactly in test mode |
| Adapters.OzowLookupStatusSpec | src/providers/adapters.ts:281-290 | Lower-cased: complete paid, cancelled or error failed, other non-empty pending, empty unknown; a body that is not a non-empty array is unknown |
| Adapters.OzowLookupStatusIgnoresCase | src/providers/adapters.ts:282 | Upper-casing the status does not change the result |
| Adapters.PaystackLookupRequestSpec | src/providers/adapters.ts:300-309 | Only a missing secret key fails; the reference travels URI-encoded and adds no path, query or fragment |
| Adapters.EncodedChars | src/providers/paystack.ts:125 | encodeURIComponent outputs only unreserved characters and escapes |
| Adapters.EncodedReserved | src/providers/paystack.ts:125 | encodeURIComponent never outputs '/', '?' or '#' |
| Adapters.ParsePayfastWebhookSpec | src/providers/adapters.ts:75-91 | Throws only when the body does not decode; otherwise the mapped event, the record, and the verifier's flag |
| Adapters.ParseOzowWebhookSpec | src/providers/adapters.ts:93-109 | Throws only when the body does not decode; otherwise the mapped event, the record, and the verifier's flag |
| Adapters.ParsePaystackWebhookSpec | src/providers/adapters.ts:111-130 | Throws only for a body that is not JSON or a refused amount; valid exactly when the x-paystack-signature header is the non-empty HMAC of the body |
| Adapters.ParseWebhookProvider | src/providers/adapters.ts:75-130 | Every event names its adapter's provider and carries the result's raw payload |
| Adapters.RegistryMatchesCapabilities | src/providers/adapters.ts:311-339 | One adapter per provider under its name; verifyPayment, createPlan and createSubscription are present exactly where the capability table promises |

## Left out

- Network I/O is not modelled. This covers the `fetch` calls and the handling of their responses: the Ozow payment response (src/providers/ozow.ts:222-251), the Paystack initialisation response (src/providers/paystack.ts:84-104), and the response checks of both payment lookups. Only the requests they send and the mapping of the parsed bodies are modelled.
- The digests SHA-512, MD5 and HMAC-SHA512 are foreign crypto. They are uninterpreted function values in the `Runtime.Host` parameter.
- `formatAmount`'s `toFixed(2)` is a host function. Where it gives text, the model uses that text as is.
- Floating point is not modelled:
  - JavaScript numbers are carried as the text `String(n)` renders them as.
  - The scientific-notation branch of normalizeAmountString is a host function.
  - `Number(...)` in the Payfast and Ozow event mappers is kept as the decimal text it parses.
  - fromMinorUnits divides exactly on reals instead of in binary floating point.
- Buffer bodies and their UTF-8 decoding are not modelled. Every body is given as text.
- JSON.parse is not modelled. parsePaystackWebhook takes the parsed payload as a parameter, with a throw as `None`. A body that parses to `null` is not modelled.
- A Paystack payload member of an unexpected type is not modelled. The parsed payload is reduced to the members the event mapper reads.
- Key enumeration order is not modelled for integer-like keys. JavaScript's `Object.entries` lists keys such as "0" or "12" first, in ascending numeric order, and then the other keys in insertion order. The model lists all keys in insertion order. When providerData or a form body holds such a key, the order of the Paystack JSON body (`Paystack.PaystackPayloadShape`) and of a parsed form record is therefore not JavaScript's. The signed and hashed orders come from fixed key lists or from the pair list, so they are not affected.
- Form.PairsToRecord: a `__proto__` key is not modelled. In JavaScript, assigning a string to `acc["__proto__"]` goes through the prototype setter and adds no own key. The model stores it as an ordinary key, so `Form.PairsToRecordKeys` and `Form.PairsToRecordLastWins` also claim it for that key.
- Ozow.DropNullish: the same `__proto__` assignment in verifyOzowWebhook's payload reduce (src/providers/ozow.ts:275-282) is also modelled as an ordinary key. The Ozow hash reads only OZOW_ORDER keys, so the verdict is the same. The merges cannot receive that key: the Ozow and Payfast merges refuse names outside their allow-lists, and Paystack's `in` check refuses inherited names.
- Strings are sequences of Unicode scalar values, so the `URIError` that `encodeURIComponent` throws on a lone surrogate is not modelled.
- Case mapping covers ASCII letters only. `toUpperCase` and `toLowerCase` leave every other character as it is.
- null and undefined are both `None`. Where the source tells them apart, they behave the same in the code modelled.
- src/index.ts is not part of this model. It is a thin dispatch layer and imports functions that are not among the sources.
- test/ozow-status.test.ts and test/webhook-utils.test.ts:10-25 exercise those missing functions, so they are not modelled.
- createPaystackPlan and createPaystackSubscription are not part of this model. Only their presence in the registry is modelled.
- The `invalidProviderData` and `missingRequiredField` helpers of src/errors.ts are modelled by code and field, not by message wording.
- The serialisation of the Ozow lookup URL's query string is not modelled. The query is kept as ordered key/value pairs.
- The `raw` response body of a VerificationResult is not modelled.
- Payfast provider options are not modelled, because normalizePayfastFields never reads them. test/payfast.test.ts:48-100 expects a mapping of options to fields and an invalid_provider_data error. The model follows the code, which throws plain errors.
- Adapters.PaystackEventIgnoresCase: states only that the outcome and the event type agree. The `raw` payload keeps the event name as received, so the two events are not equal.
- Ozow.MergeOzowProviderData: the overlap branch at src/providers/ozow.ts:133-135 is modelled as unreachable. Its requires clause is what applyOzowProviderOptions (src/providers/ozow.ts:150-154) has already ensured for the only caller.

## Observations

These follow from the code as written. The model states them as lemmas:

- **The Ozow overlap check inside the providerData loop never fires.** When options are given, applyOzowProviderOptions has already refused every option field that is a providerData key (`Ozow.MergeOzowProviderData`).
- **providerData can overwrite checked fields.** In Ozow this includes CurrencyCode, so the ZAR rule does not bind the payload that is sent (`Ozow.ProviderDataOverridesCurrency`).
- **The Payfast signer and verifier treat the passphrase differently.** The signer trims it and the verifier does not (`Payfast.PassphraseTrimDiffers`).
- **The Payfast verifier can check one signature and sign up to another.** It signs the pairs before the first `signature`, but compares the last `signature` value (`Payfast.TwoSignatures`).
- **The Payfast currency is upper-cased but not trimmed** (`Payfast.PayfastCurrencyExamples`).
- **Paystack's collision check uses `in`.** It therefore refuses providerData keys named like Object.prototype members (`Paystack.InheritedKeyRefused`).
- **The Paystack channels clash counts an undefined providerData value** (`Paystack.UndefinedChannelsRefused`).
- **normalizeCurrency is idempotent only for a trimmed fallback** (`Currency.UntrimmedFallbackExample`).
