/** The metered operation (app/api/audit/route.ts): a chain of early-return
    guards, the analysis of the uploaded video by the language model, and
    a one-credit debit written after the analysis succeeded. */
module Audit {
  import opened Entitlement
  import opened Text

  datatype Video = Video(size: nat)

  /** One request: the signed-in user (from the session), the `video` form
      field, the model's reply text (`None` when the call throws) and
      whether the auth provider accepted the debit write. */
  datatype AuditRequest = AuditRequest(
    session: Option<UserId>,
    video: Option<Video>,
    reply: Option<string>,
    debitStored: bool
  )

  /** The status, the analysis returned with 200, and the store afterwards. */
  datatype AuditResponse = AuditResponse(status: int, analysis: Option<string>, meta: map<UserId, Meta>)

  /** 20 MiB */
  const MaxVideoSize: nat := 20 * 1024 * 1024

  /** `currentUser()` is non-null: a session for a user the store knows. */
  predicate SignedIn(meta: map<UserId, Meta>, session: Option<UserId>) {
    session.Some? && session.value in meta
  }

  /** The signed-in user's balance, read once at the start, is at least 1. */
  predicate Funded(meta: map<UserId, Meta>, session: Option<UserId>) {
    SignedIn(meta, session) && Credits(meta[session.value]) >= 1
  }

  /** Every guard before the analysis passes. */
  predicate Admitted(cfg: Config, meta: map<UserId, Meta>, req: AuditRequest) {
    Present(cfg.geminiKey) && Funded(meta, req.session)
    && req.video.Some? && req.video.value.size <= MaxVideoSize
  }

  /** `analyzeVideoWithGemini`: the fence-stripped reply, when there is a
      reply and `JSON.parse` accepts the stripped text. */
  function Analyze(cfg: Config, reply: Option<string>): (a: Option<string>)
    ensures a.Some? <==> reply.Some? && cfg.decodes(StripFences(reply.value))
    ensures a.Some? ==> !Contains(a.value, Fence)
  {
    if reply.Some? && cfg.decodes(StripFences(reply.value)) then
      Some(StripFences(reply.value))
    else None
  }

  /** The route's `POST` as a function of the store when the request starts.
      The balance is read once, up front; the debit writes that value
      minus one. */
  function Serve(cfg: Config, meta: map<UserId, Meta>, req: AuditRequest): (r: AuditResponse)
    ensures !Present(cfg.geminiKey) ==> r == AuditResponse(500, None, meta)
    ensures Present(cfg.geminiKey) && !SignedIn(meta, req.session) ==> r == AuditResponse(401, None, meta)
    ensures (Present(cfg.geminiKey) && SignedIn(meta, req.session) && !Funded(meta, req.session))
      ==> r == AuditResponse(403, None, meta)
    ensures (Present(cfg.geminiKey) && Funded(meta, req.session) && req.video.None?)
      ==> r == AuditResponse(400, None, meta)
    ensures (Present(cfg.geminiKey) && Funded(meta, req.session) && req.video.Some? && req.video.value.size > MaxVideoSize)
      ==> r == AuditResponse(400, None, meta)
    ensures Admitted(cfg, meta, req) && Analyze(cfg, req.reply).None? ==> r == AuditResponse(500, None, meta)
    ensures r.status == 200 <==> Admitted(cfg, meta, req) && Analyze(cfg, req.reply).Some?
    ensures r.status == 200 ==> r.analysis == Analyze(cfg, req.reply)
    ensures r.status != 200 ==> r.analysis.None? && r.meta == meta
    ensures r.meta.Keys == meta.Keys
    ensures r.meta != meta ==> r.status == 200 && req.debitStored
    ensures forall u :: u in meta && Some(u) != req.session ==> r.meta[u] == meta[u]
    ensures AllNonNegative(meta) ==> AllNonNegative(r.meta)
  {
    if !Present(cfg.geminiKey) then AuditResponse(500, None, meta)
    else if !SignedIn(meta, req.session) then AuditResponse(401, None, meta)
    else
      var user := req.session.value;
      var credits := Credits(meta[user]);
      if credits < 1 then AuditResponse(403, None, meta)
      else if req.video.None? then AuditResponse(400, None, meta)
      else if req.video.value.size > MaxVideoSize then AuditResponse(400, None, meta)
      else
        var analysis := Analyze(cfg, req.reply);
        if analysis.None? then AuditResponse(500, None, meta)
        else if !req.debitStored then AuditResponse(200, analysis, meta)
        else AuditResponse(200, analysis, meta[user := meta[user].(credits := Some(credits - 1))])
  }

  /** After a successful analysis whose debit was stored, the balance is the
      one read at the start minus one, still non-negative, and the
      subscription is untouched; pro users are debited like everybody else. */
  lemma SuccessDebitsOne(cfg: Config, meta: map<UserId, Meta>, req: AuditRequest)
    requires Serve(cfg, meta, req).status == 200 && req.debitStored
    ensures req.session.Some? && req.session.value in meta
    ensures Credits(Serve(cfg, meta, req).meta[req.session.value]) == Credits(meta[req.session.value]) - 1 >= 0
    ensures Serve(cfg, meta, req).meta[req.session.value].subscription == meta[req.session.value].subscription
  {
  }

  /** A failed debit write is swallowed: the analysis is still answered
      with 200 and the balance stays as it was. */
  lemma LostDebitStillAnswered(cfg: Config, meta: map<UserId, Meta>, req: AuditRequest)
    requires Admitted(cfg, meta, req) && Analyze(cfg, req.reply).Some? && !req.debitStored
    ensures Serve(cfg, meta, req) == AuditResponse(200, Analyze(cfg, req.reply), meta)
  {
  }

  /** A user who never bought anything is refused with 403. */
  lemma NoPurchaseForbidden(cfg: Config, meta: map<UserId, Meta>, req: AuditRequest)
    requires Present(cfg.geminiKey) && SignedIn(meta, req.session)
    requires meta[req.session.value].credits.None?
    ensures Serve(cfg, meta, req) == AuditResponse(403, None, meta)
  {
  }

  /** The gate never looks at the subscription: a pro user whose balance has
      run down to zero is refused, and changing only the subscription never
      changes the answer. */
  lemma GateIgnoresSubscription(cfg: Config, meta: map<UserId, Meta>, req: AuditRequest, s: Option<string>)
    requires SignedIn(meta, req.session)
    ensures var u := req.session.value;
      Serve(cfg, meta[u := meta[u].(subscription := s)], req).status == Serve(cfg, meta, req).status
  {
  }

  /** "Unlimited" is a large balance, not a bypass: a pro user whose
      balance is spent is refused like anybody else. */
  lemma SpentProForbidden(cfg: Config, meta: map<UserId, Meta>, req: AuditRequest)
    requires Present(cfg.geminiKey) && SignedIn(meta, req.session)
    requires IsPro(meta[req.session.value]) && Credits(meta[req.session.value]) == 0
    ensures Serve(cfg, meta, req).status == 403
  {
  }

  /** A video of exactly 20 MiB passes the size guard; one byte more is
      refused with 400. */
  lemma SizeLimitInclusive(cfg: Config, meta: map<UserId, Meta>, req: AuditRequest)
    requires Present(cfg.geminiKey) && Funded(meta, req.session)
    ensures Admitted(cfg, meta, req.(video := Some(Video(MaxVideoSize))))
    ensures Serve(cfg, meta, req.(video := Some(Video(MaxVideoSize + 1)))).status == 400
  {
  }
}
