/** The request, response, result and event shapes of src/types.ts and
    src/providers/provider-adapter.ts. Optional members are `Option`s; a JavaScript
    number is carried by the text `String(n)` renders it as. */
module Types {
  import opened Errors
  import opened Records

  datatype Provider = Ozow | Payfast | Paystack {
    /** The provider identifier as the code spells it. */
    function Name(): string {
      match this
      case Ozow => "ozow"
      case Payfast => "payfast"
      case Paystack => "paystack"
    }
  }

  /** A JavaScript string, number or boolean. */
  datatype Primitive = Str(s: string) | Num(text: string) | Bool(b: bool)

  /** JavaScript truthiness of an optional string: present and not "". */
  predicate Present(o: Option<string>) {
    o.Some? && o.value != ""
  }

  /** JavaScript truthiness of a primitive: not "", not 0, -0 or NaN, not false. */
  predicate TruthyValue(p: Primitive) {
    match p
    case Str(s) => s != ""
    case Num(text) => text != "0" && text != "-0" && text != "NaN"
    case Bool(b) => b
  }

  /** `providerData`: an object whose values may be null or undefined (None). A key
      with an undefined value is still a key of the object. */
  type ProviderData = Entries<Option<Primitive>>

  datatype Customer = Customer(
    firstName: Option<string>,
    lastName: Option<string>,
    email: Option<string>,
    phone: Option<string>)

  datatype Urls = Urls(
    returnUrl: Option<string>,
    cancelUrl: Option<string>,
    notifyUrl: Option<string>,
    errorUrl: Option<string>)

  datatype Secrets = Secrets(
    siteCode: Option<string>,
    apiKey: Option<string>,
    privateKey: Option<string>,
    merchantId: Option<string>,
    merchantKey: Option<string>,
    passphrase: Option<string>,
    paystackSecretKey: Option<string>)

  datatype AmountUnit = Major | Minor

  /** The union PayfastProviderOptions | OzowProviderOptions | PaystackProviderOptions:
      an object any of whose members may be set. */
  datatype ProviderOptions = ProviderOptions(
    // Ozow
    selectedBankId: Option<string>,
    customerIdentityNumber: Option<string>,
    allowVariableAmount: Option<bool>,
    variableAmountMin: Option<string>,
    variableAmountMax: Option<string>,
    // Paystack
    channels: Option<seq<string>>,
    // Payfast
    paymentMethod: Option<string>,
    emailConfirmation: Option<bool>,
    confirmationAddress: Option<string>,
    mPaymentId: Option<string>,
    itemName: Option<string>,
    itemDescription: Option<string>)

  /** PaymentRequest. `amount` is the caller's decimal string; `testMode` absent is false. */
  datatype PaymentRequest = PaymentRequest(
    provider: Provider,
    amount: string,
    amountUnit: Option<AmountUnit>,
    currency: Option<string>,
    reference: string,
    description: Option<string>,
    customer: Option<Customer>,
    urls: Option<Urls>,
    metadata: Option<Entries<string>>,
    secrets: Secrets,
    providerOptions: Option<ProviderOptions>,
    testMode: bool,
    providerData: Option<ProviderData>)

  datatype HttpMethod = HttpGet | HttpPost

  /** PaymentResponse, without the members that come back from the network. */
  datatype PaymentResponse = PaymentResponse(
    provider: Provider,
    redirectUrl: string,
    httpMethod: HttpMethod,
    formFields: Option<Entries<string>>)

  /** The `reason` strings of WebhookVerifyResult. */
  datatype VerifyFailure =
    | MissingPrivateKey   // "missingPrivateKey"
    | MissingPayload      // "missingPayload"
    | MissingHashCheck    // "missingHashCheck"
    | RawBodyRequired     // "rawBodyRequired"
    | MissingSignature    // "missingSignature"

  datatype WebhookVerifyResult = WebhookVerifyResult(
    provider: Provider,
    isValid: bool,
    reason: Option<VerifyFailure>)

  /** The `status` of VerificationResult. */
  datatype PaymentStatus = Pending | Paid | Failed | Unknown

  /** VerificationResult, without the raw response body. */
  datatype VerificationResult = VerificationResult(provider: Provider, status: PaymentStatus, providerRef: Option<string>)

  /** The canonical event types of WebhookEvent and SubscriptionWebhookEvent. */
  datatype EventType =
    | PaymentCompleted | PaymentFailed | PaymentCancelled
    | SubscriptionCreated | SubscriptionDisabled | SubscriptionNotRenewing
    | InvoiceCreated | InvoiceUpdated | InvoicePaymentFailed

  /** An event amount: the text a form-encoded body gives to `Number(...)`, or an
      exact major-unit value computed from Paystack's minor units. */
  datatype EventAmount = DecimalText(text: string) | MajorUnits(value: real)

  /** The parsed JSON body of a Paystack webhook, reduced to the members the
      event mapping reads; a nested `x.y_code` is kept beside the flat `y_code`. */
  datatype PaystackEventData = PaystackEventData(
    currency: Option<Primitive>,
    amount: Option<Primitive>,
    reference: Option<Primitive>,
    id: Option<Primitive>,
    nestedSubscriptionCode: Option<string>,
    subscriptionCode: Option<string>,
    nestedCustomerCode: Option<string>,
    customerCode: Option<string>,
    nestedPlanCode: Option<string>,
    planCode: Option<string>,
    nestedInvoiceCode: Option<string>,
    invoiceCode: Option<string>,
    status: Option<string>)

  datatype PaystackPayload = PaystackPayload(event: Option<Primitive>, data: Option<PaystackEventData>)

  /** The untouched notification the event was derived from. */
  datatype RawPayload = FormRecord(fields: Entries<string>) | JsonBody(json: PaystackPayload)

  datatype EventData =
    | PaymentData(
        provider: Provider,
        reference: string,
        providerRef: Option<string>,
        amount: Option<EventAmount>,
        currency: Option<string>,
        raw: RawPayload)
    | SubscriptionData(
        provider: Provider,
        subscriptionCode: Option<string>,
        customerCode: Option<string>,
        planCode: Option<string>,
        invoiceCode: Option<string>,
        status: Option<string>,
        amount: Option<EventAmount>,
        currency: Option<string>,
        raw: RawPayload)

  datatype WebhookEvent = WebhookEvent(kind: EventType, data: EventData)

  /** WebhookVerifyInput: the raw body or an already-parsed payload, optional
      headers and the verification secrets. A Buffer body is given by its text. */
  datatype WebhookVerifyInput = WebhookVerifyInput(
    provider: Provider,
    rawBody: Option<string>,
    payload: Option<ProviderData>,
    headers: Option<Entries<HeaderValue>>,
    privateKey: Option<string>,
    passphrase: Option<string>,
    paystackSecretKey: Option<string>)

  /** A header value: a string, a list of strings, or undefined. */
  datatype HeaderValue = Single(s: string) | Multiple(values: seq<string>) | Undefined

  /** ProviderWebhookInput: the raw body, optional headers and the secrets. */
  datatype WebhookInput = WebhookInput(
    rawBody: string,
    headers: Option<Entries<HeaderValue>>,
    secrets: Secrets)

  /** ProviderVerifyInput: the reference to look up, the secrets and the mode. */
  datatype ProviderVerifyInput = ProviderVerifyInput(reference: string, secrets: Secrets, testMode: bool)

  /** ProviderWebhookResult. */
  datatype WebhookParseResult = WebhookParseResult(isValid: bool, event: WebhookEvent, raw: RawPayload)
}
