/** Errors raised by the adapter layer (src/errors.ts and the helpers that the
    providers call to build them), and the Result/Outcome wrappers that replace
    `throw` in this model. */
module Errors {

  /** The `code` of a StashError. */
  datatype ErrorCode =
    | MissingRequiredFieldCode   // "missing_required_field"
    | UnsupportedCurrencyCode    // "unsupported_currency"
    | InvalidProviderDataCode    // "invalid_provider_data"
    | InvalidSignatureCode       // "invalid_signature"
    | UnsupportedCapabilityCode  // "unsupported_capability"

  /** Everything the modelled code can throw. */
  datatype Error =
      /** missingRequiredField(field): a StashError with code missing_required_field
          that names the missing field (its wording is not part of this model). */
    | MissingField(field: string)
      /** unsupportedCurrency(provider, currency, supported): a StashError with
          code unsupported_currency naming the supported set. */
    | CurrencyNotSupported(provider: string, currency: string, supported: seq<string>)
      /** `new StashError(code, message)` written out at the throw site. */
    | Coded(code: ErrorCode, message: string)
      /** A plain `new Error(message)`. */
    | Plain(message: string)
      /** The URIError ("URI malformed") thrown by decodeURIComponent. */
    | UriMalformed
      /** The SyntaxError JSON.parse throws on a body that is not JSON. */
    | JsonMalformed
  {
    /** The StashError code, when the error is a StashError. */
    function Code(): Option<ErrorCode> {
      match this
      case MissingField(_) => Some(MissingRequiredFieldCode)
      case CurrencyNotSupported(_, _, _) => Some(UnsupportedCurrencyCode)
      case Coded(code, _) => Some(code)
      case Plain(_) => None
      case UriMalformed => None
      case JsonMalformed => None
    }
  }

  datatype Option<+T> = None | Some(value: T) {
    function GetOr(default: T): T {
      match this
      case Some(v) => v
      case None => default
    }
  }

  /** The value of a call that may throw. */
  datatype Result<+T> = Ok(value: T) | Err(error: Error) {
    predicate IsFailure() { Err? }

    function PropagateFailure<U>(): Result<U>
      requires Err?
    {
      Err(error)
    }

    function Extract(): T
      requires Ok?
    {
      value
    }
  }

  /** The outcome of a call that returns nothing but may throw. */
  datatype Outcome = Pass | Fail(error: Error) {
    predicate IsFailure() { Fail? }

    function PropagateFailure<U>(): Result<U>
      requires Fail?
    {
      Err(error)
    }
  }
}
