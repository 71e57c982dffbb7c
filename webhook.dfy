/** The payment-provider webhook (app/api/webhooks/lemon-squeezy/route.ts):
    authenticate the delivery, then rewrite the target user's metadata
    according to the event name. */
module Webhook {
  import opened Entitlement

  /** The fields the handler reads from the decoded JSON body:
      `meta.event_name` and `meta.custom_data.user_id`. */
  datatype Payload = Payload(eventName: Option<string>, userId: Option<string>)

  /** One delivery: the raw body, the `x-signature` header, and the body
      decoded as JSON (`None` when `JSON.parse` throws). */
  datatype WebhookRequest = WebhookRequest(body: string, signature: Option<string>, payload: Option<Payload>)

  /** What the handler answers and the metadata store afterwards. */
  datatype Response = Response(status: int, meta: map<UserId, Meta>)

  datatype Event = OrderCreated | SubscriptionCreated | SubscriptionCancelled | Ignored

  function Classify(eventName: Option<string>): (e: Event)
    ensures e == OrderCreated <==> eventName == Some("order_created")
    ensures e == SubscriptionCreated <==> eventName == Some("subscription_created")
    ensures e == SubscriptionCancelled <==> eventName == Some("subscription_cancelled")
  {
    match eventName
    case Some("order_created") => OrderCreated
    case Some("subscription_created") => SubscriptionCreated
    case Some("subscription_cancelled") => SubscriptionCancelled
    case _ => Ignored
  }

  /** The metadata written for an event. `updateUserMetadata` merges the keys
      it is given into the existing metadata; writing `null` clears a key. */
  function Transition(m: Meta, e: Event): (r: Meta)
    ensures Credits(m) >= 0 ==> Credits(r) >= 0
    ensures e == Ignored ==> r == m
    ensures e != SubscriptionCreated ==> !IsPro(r) || IsPro(m)
  {
    match e
    case OrderCreated => m.(credits := Some(Credits(m) + 1))
    case SubscriptionCreated => Meta(Some(ProCredits), Some(ProTier))
    case SubscriptionCancelled => Meta(Some(0), None)
    case Ignored => m
  }

  /** The hex digest the handler computes over the raw body. */
  function Digest(cfg: Config, req: WebhookRequest): string
    requires Present(cfg.webhookSecret)
  {
    cfg.hmacHex(cfg.webhookSecret.value, req.body)
  }

  /** `req.headers.get('x-signature') || ''` */
  function Signature(req: WebhookRequest): string {
    req.signature.GetOr("")
  }

  predicate Authentic(cfg: Config, req: WebhookRequest) {
    Present(cfg.webhookSecret) && Digest(cfg, req) == Signature(req)
  }

  /** The user whose record the delivery may rewrite (a truthy `user_id`). */
  function Target(req: WebhookRequest): Option<UserId> {
    if req.payload.Some? && Present(req.payload.value.userId) then req.payload.value.userId else None
  }

  /** The handler `POST` as a function of the store before the delivery.
      A user id the auth provider does not know makes its calls throw,
      which the handler's catch turns into 500. */
  function Deliver(cfg: Config, meta: map<UserId, Meta>, req: WebhookRequest): (r: Response)
    ensures !Present(cfg.webhookSecret) ==> r == Response(500, meta)
    ensures Present(cfg.webhookSecret) && !Authentic(cfg, req) ==> r == Response(401, meta)
    ensures r.status in {200, 401, 500}
    ensures r.meta.Keys == meta.Keys
    ensures r.meta != meta ==> r.status == 200 && Authentic(cfg, req) && Target(req).Some?
    ensures forall u :: u in meta && Some(u) != Target(req) ==> r.meta[u] == meta[u]
    ensures AllNonNegative(meta) ==> AllNonNegative(r.meta)
  {
    if !Present(cfg.webhookSecret) then Response(500, meta)
    else if Digest(cfg, req) != Signature(req) then Response(401, meta)
    else if req.payload.None? then Response(500, meta)
    else
      var event := Classify(req.payload.value.eventName);
      var user := req.payload.value.userId;
      if event == Ignored || !Present(user) then Response(200, meta)
      else if user.value !in meta then Response(500, meta)
      else Response(200, meta[user.value := Transition(meta[user.value], event)])
  }

  /** An authentic delivery of `name` for a known user. */
  predicate Names(cfg: Config, meta: map<UserId, Meta>, req: WebhookRequest, name: string, u: UserId) {
    Authentic(cfg, req) && req.payload.Some? && req.payload.value.eventName == Some(name)
    && Target(req) == Some(u) && u in meta
  }

  /** `order_created` adds one credit to the previous balance (missing
      counts as 0) and leaves the subscription alone. */
  lemma OrderCreatedAddsCredit(cfg: Config, meta: map<UserId, Meta>, req: WebhookRequest, u: UserId)
    requires Names(cfg, meta, req, "order_created", u)
    ensures Deliver(cfg, meta, req).status == 200
    ensures Credits(Deliver(cfg, meta, req).meta[u]) == Credits(meta[u]) + 1
    ensures Deliver(cfg, meta, req).meta[u].subscription == meta[u].subscription
  {
  }

  /** `subscription_created` makes the user pro with 999999 credits,
      whatever the balance was. */
  lemma SubscriptionCreatedGrantsPro(cfg: Config, meta: map<UserId, Meta>, req: WebhookRequest, u: UserId)
    requires Names(cfg, meta, req, "subscription_created", u)
    ensures Deliver(cfg, meta, req).status == 200
    ensures IsPro(Deliver(cfg, meta, req).meta[u])
    ensures Credits(Deliver(cfg, meta, req).meta[u]) == 999999
  {
  }

  /** `subscription_cancelled` clears the subscription and zeroes the
      balance, including credits bought one at a time. */
  lemma SubscriptionCancelledRevokes(cfg: Config, meta: map<UserId, Meta>, req: WebhookRequest, u: UserId)
    requires Names(cfg, meta, req, "subscription_cancelled", u)
    ensures Deliver(cfg, meta, req).status == 200
    ensures Deliver(cfg, meta, req).meta[u] == Meta(Some(0), None)
  {
  }

  /** An authentic delivery with another event name, or without a truthy
      user id, changes nothing and is acknowledged. */
  lemma OtherDeliveriesAcknowledged(cfg: Config, meta: map<UserId, Meta>, req: WebhookRequest)
    requires Authentic(cfg, req) && req.payload.Some?
    requires Classify(req.payload.value.eventName) == Ignored || Target(req).None?
    ensures Deliver(cfg, meta, req) == Response(200, meta)
  {
  }

  /** An absent `x-signature` header is compared as "", which no hex
      digest equals, so the delivery is rejected. */
  lemma MissingSignatureRejected(cfg: Config, meta: map<UserId, Meta>, req: WebhookRequest)
    requires ValidConfig(cfg) && Present(cfg.webhookSecret) && req.signature.None?
    ensures Deliver(cfg, meta, req) == Response(401, meta)
  {
  }

  /** Nothing suppresses a redelivery: the same `order_created` applied
      twice adds two credits. */
  lemma RedeliveryAddsTwice(cfg: Config, meta: map<UserId, Meta>, req: WebhookRequest, u: UserId)
    requires Names(cfg, meta, req, "order_created", u)
    ensures Deliver(cfg, Deliver(cfg, meta, req).meta, req).status == 200
    ensures Credits(Deliver(cfg, Deliver(cfg, meta, req).meta, req).meta[u]) == Credits(meta[u]) + 2
  {
    var once := Deliver(cfg, meta, req).meta;
    OrderCreatedAddsCredit(cfg, meta, req, u);
    OrderCreatedAddsCredit(cfg, once, req, u);
  }
}
