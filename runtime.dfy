/** The collaborators the adapter layer calls but does not define: the digests
    of src/internal/hash.ts and node:crypto, and the floating-point formatting of
    JavaScript numbers. They are passed in as function values, so that every
    property below holds whatever these functions compute. */
module Runtime {
  import opened Errors

  datatype Host = Host(
    /** sha512Hex(input): the hex SHA-512 digest. */
    sha512Hex: string -> string,
    /** md5Hex(input): the hex MD5 digest. */
    md5Hex: string -> string,
    /** createHmac("sha512", key).update(body).digest("hex"), as (key, body) -> hex. */
    hmacSha512Hex: (string, string) -> string,
    /** formatAmount(value) of src/internal/guards.ts: `Number(value).toFixed(2)`,
        None when the number is not finite. */
    formatAmount: string -> Option<string>,
    /** `Number(raw).toFixed(exponent)` for a string in scientific notation, None
        when the number is not finite. */
    scientificToFixed: (string, nat) -> Option<string>,
    /** `String(Number(raw))` for a string in scientific notation, None when the
        number is not finite. */
    scientificToString: string -> Option<string>)
}
