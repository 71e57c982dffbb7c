/** The auth provider's user store as the two server routes use it: a map
    from user id to public metadata that each request reads and then
    overwrites. Requests are taken one after another. */
module Store {
  import opened Entitlement
  import opened Text
  import opened Webhook
  import opened Audit

  class Ledger {
    var meta: map<UserId, Meta>

    ghost predicate Valid()
      reads this
    {
      AllNonNegative(meta)
    }

    constructor (users: map<UserId, Meta>)
      requires AllNonNegative(users)
      ensures Valid() && meta == users
    {
      meta := users;
    }

    /** The webhook route's `POST`. */
    method ReceiveWebhook(cfg: Config, req: WebhookRequest) returns (status: int)
      requires Valid()
      modifies this
      ensures Valid()
      ensures status == Deliver(cfg, old(meta), req).status
      ensures meta == Deliver(cfg, old(meta), req).meta
    {
      if !Present(cfg.webhookSecret) {
        return 500;
      }
      var digest := cfg.hmacHex(cfg.webhookSecret.value, req.body);
      var signature := req.signature.GetOr("");
      if digest != signature {
        return 401;
      }
      if req.payload.None? {
        return 500;
      }
      var eventName := req.payload.value.eventName;
      var userId := req.payload.value.userId;
      if eventName == Some("order_created") && Present(userId) {
        if userId.value !in meta {
          return 500;
        }
        var currentCredits := Credits(meta[userId.value]);
        var newCredits := currentCredits + 1;
        meta := meta[userId.value := meta[userId.value].(credits := Some(newCredits))];
      } else if eventName == Some("subscription_created") && Present(userId) {
        if userId.value !in meta {
          return 500;
        }
        meta := meta[userId.value := Meta(Some(ProCredits), Some(ProTier))];
      } else if eventName == Some("subscription_cancelled") && Present(userId) {
        if userId.value !in meta {
          return 500;
        }
        meta := meta[userId.value := Meta(Some(0), None)];
      }
      return 200;
    }

    /** The audit route's `POST`. */
    method SubmitAudit(cfg: Config, req: AuditRequest) returns (status: int, analysis: Option<string>)
      requires Valid()
      modifies this
      ensures Valid()
      ensures status == Serve(cfg, old(meta), req).status
      ensures analysis == Serve(cfg, old(meta), req).analysis
      ensures meta == Serve(cfg, old(meta), req).meta
    {
      if !Present(cfg.geminiKey) {
        return 500, None;
      }
      if req.session.None? || req.session.value !in meta {
        return 401, None;
      }
      var user := req.session.value;
      var credits := Credits(meta[user]);
      if credits < 1 {
        return 403, None;
      }
      if req.video.None? {
        return 400, None;
      }
      if req.video.value.size > MaxVideoSize {
        return 400, None;
      }
      if req.reply.None? {
        return 500, None;
      }
      var cleanedText := StripFences(req.reply.value);
      if !cfg.decodes(cleanedText) {
        return 500, None;
      }
      if req.debitStored {
        meta := meta[user := meta[user].(credits := Some(credits - 1))];
      }
      return 200, Some(cleanedText);
    }
  }

  /** A request to either route. */
  datatype Request = Hook(hook: WebhookRequest) | Upload(upload: AuditRequest)

  /** The store after one request. */
  function Step(cfg: Config, meta: map<UserId, Meta>, q: Request): map<UserId, Meta> {
    match q
    case Hook(h) => Deliver(cfg, meta, h).meta
    case Upload(a) => Serve(cfg, meta, a).meta
  }

  /** The store after a sequence of requests handled one after another. */
  function Replay(cfg: Config, meta: map<UserId, Meta>, qs: seq<Request>): map<UserId, Meta>
    decreases |qs|
  {
    if qs == [] then meta else Replay(cfg, Step(cfg, meta, qs[0]), qs[1..])
  }

  /** The only user a request can write to. */
  function Addressee(q: Request): Option<UserId> {
    match q
    case Hook(h) => Target(h)
    case Upload(a) => a.session
  }

  /** Starting from non-negative balances, any mix of deliveries and audits
      keeps every balance non-negative. */
  lemma {:induction false} ReplayKeepsNonNegative(cfg: Config, meta: map<UserId, Meta>, qs: seq<Request>)
    requires AllNonNegative(meta)
    ensures AllNonNegative(Replay(cfg, meta, qs))
    decreases |qs|
  {
    if qs != [] {
      ReplayKeepsNonNegative(cfg, Step(cfg, meta, qs[0]), qs[1..]);
    }
  }

  /** Requests create and delete no user. */
  lemma {:induction false} ReplayKeepsUsers(cfg: Config, meta: map<UserId, Meta>, qs: seq<Request>)
    ensures Replay(cfg, meta, qs).Keys == meta.Keys
    decreases |qs|
  {
    if qs != [] {
      ReplayKeepsUsers(cfg, Step(cfg, meta, qs[0]), qs[1..]);
    }
  }

  /** A user that no request addresses keeps their record. */
  lemma {:induction false} ReplayIsolatesUsers(cfg: Config, meta: map<UserId, Meta>, qs: seq<Request>, u: UserId)
    requires u in meta
    requires forall i :: 0 <= i < |qs| ==> Addressee(qs[i]) != Some(u)
    ensures u in Replay(cfg, meta, qs) && Replay(cfg, meta, qs)[u] == meta[u]
    decreases |qs|
  {
    if qs != [] {
      var next := Step(cfg, meta, qs[0]);
      assert Addressee(qs[0]) != Some(u);
      assert u in next && next[u] == meta[u];
      ReplayIsolatesUsers(cfg, next, qs[1..], u);
    }
  }
}
