/**
 * Session tokens (the JWT handler). The handler itself is not part of this
 * model: decoding is a parameter `decode: string -> Option<Claims>` of every
 * operation that reads a token, and a minted token is the record of what
 * the handler was asked to put in it.
 */
module SessionTokens {
  import opened Wrappers

  /** The claims `decode_jwt` returns: `payload.get("sub")` and `payload.get("type")`. */
  datatype Claims = Claims(sub: Option<string>, typ: Option<string>)

  /** `decode_jwt`: `None` for a token that does not decode. */
  type Decoder = string -> Option<Claims>

  datatype Kind = Access | Refresh

  /**
   * A call of `create_access_token` or `create_refresh_token`: the `sub`
   * claim asked for and the `expires_delta` in minutes (`None` when the
   * handler's own default applies).
   */
  datatype Minted = Minted(kind: Kind, sub: Option<string>, expiresMinutes: Option<int>)

  /** A token in a reply: one minted now, or one the client sent, echoed back. */
  datatype TokenValue = Issued(minted: Minted) | Echoed(text: string)

  /** The claims decode and carry a truthy `sub`. */
  predicate HasSubject(decoded: Option<Claims>) {
    decoded.Some? && decoded.value.sub.Some? && decoded.value.sub.value != ""
  }
}
