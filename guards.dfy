/** src/internal/guards.ts: the presence check every provider runs on its
    secrets and required inputs, and the rendering of primitive values. */
module Guards {
  import opened Errors
  import opened Types
  import opened Runtime

  /** requireValue (src/internal/guards.ts:3-9) on an optional string: undefined
      and null (both None) and the empty string fail with a missing-field error
      that names the field; any other value comes back unchanged. */
  function RequireValue(value: Option<string>, name: string): (r: Result<string>)
    ensures r.Ok? <==> Present(value)
    ensures r.Ok? ==> r.value == value.value
    ensures r.Err? ==> r.error == MissingField(name)
  {
    if value.None? || value.value == "" then Err(MissingField(name)) else Ok(value.value)
  }

  /** formatAmount (src/internal/guards.ts:11-17): the host renders the number
      with two decimals; a value that is not a finite number is an error. */
  function FormatAmount(value: string, h: Host): (r: Result<string>)
    ensures r.Err? <==> h.formatAmount(value).None?
    ensures r.Ok? ==> r.value == h.formatAmount(value).value
    ensures r.Err? ==> r.error == Plain("Amount must be a valid number")
  {
    match h.formatAmount(value)
    case None => Err(Plain("Amount must be a valid number"))
    case Some(text) => Ok(text)
  }

  /** toStringValue (src/internal/guards.ts:19-24). */
  function ToStringValue(value: Primitive): string {
    match value
    case Bool(b) => if b then "true" else "false"
    case Str(s) => s
    case Num(text) => text
  }

  /** Booleans render as "true" and "false", strings and numbers as their own text;
      so a rendered boolean reads back as the boolean it came from. */
  lemma ToStringValueSpec(value: Primitive)
    ensures value.Str? ==> ToStringValue(value) == value.s
    ensures value.Num? ==> ToStringValue(value) == value.text
    ensures value.Bool? ==> (ToStringValue(value) == "true" <==> value.b)
    ensures value.Bool? ==> (ToStringValue(value) == "false" <==> !value.b)
  {
  }
}
