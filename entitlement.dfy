/** The per-user entitlement record kept in the auth provider's public user
    metadata: an optional credit count and an optional subscription name. */
module Entitlement {

  datatype Option<+T> = None | Some(value: T) {
    function GetOr(default: T): T {
      match this
      case Some(v) => v
      case None => default
    }
  }

  type UserId = string

  /** `publicMetadata` of one user. `None` stands for a key that is absent
      (or was cleared by writing `null`). */
  datatype Meta = Meta(credits: Option<int>, subscription: Option<string>)

  const ProTier: string := "pro"

  /** Credits awarded by a `subscription_created` event. */
  const ProCredits: int := 999999

  /** JavaScript truthiness of an optional string (an environment variable,
      a header, a JSON field): absent and "" are both falsy. */
  predicate Present(s: Option<string>) {
    s.Some? && s.value != ""
  }

  /** `Number(publicMetadata?.credits || 0)`: a missing value counts as 0. */
  function Credits(m: Meta): int {
    m.credits.GetOr(0)
  }

  /** `publicMetadata?.subscription === 'pro'` */
  predicate IsPro(m: Meta) {
    m.subscription == Some(ProTier)
  }

  /** Server configuration and the foreign computations the handlers rely
      on, which this model does not look inside. */
  datatype Config = Config(
    webhookSecret: Option<string>,        // LEMONSQUEEZY_WEBHOOK_SECRET
    geminiKey: Option<string>,            // GEMINI_API_KEY
    hmacHex: (string, string) -> string,  // hex HMAC-SHA256 of a body under a secret
    decodes: string -> bool               // whether JSON.parse accepts a text
  )

  /** The digest is what `digest('hex')` yields for HMAC-SHA256: 32 bytes
      written as 64 hexadecimal digits, whatever the secret and body. */
  ghost predicate ValidConfig(cfg: Config) {
    forall secret: string, body: string :: |cfg.hmacHex(secret, body)| == 64
  }

  /** The ledger invariant: nobody holds a negative balance. */
  ghost predicate AllNonNegative(meta: map<UserId, Meta>) {
    forall u :: u in meta ==> Credits(meta[u]) >= 0
  }
}
