# ViralRoast entitlement logic in Dafny

This project models the entitlement logic of ViralRoast, a web app that critiques short videos with a language model. Each user's record lives in the auth provider's public user metadata as `{credits, subscription}`. Three parts of the code touch it:

- **The payment webhook** (`app/api/webhooks/lemon-squeezy/route.ts`). It authenticates a delivery by comparing a hex HMAC of the raw body with the `x-signature` header. It then rewrites the target user's record:
  - `order_created` adds one credit;
  - `subscription_created` sets `pro` and 999999 credits;
  - `subscription_cancelled` clears the subscription and sets 0 credits;
  - any other event name changes nothing.
- **The metered audit route** (`app/api/audit/route.ts`). It runs five guards in a fixed order: API key (500), signed-in user (401), credits ≥ 1 (403), video present (400), size ≤ 20 MiB (400). It then analyses the video. Only after the analysis succeeds does it write the balance read at the start minus one. A failed write is swallowed. Before decoding, the model's reply goes through a small clean-up that trims it and deletes markdown fences.
- **The client pages** (`app/page.tsx`, `app/dashboard/page.tsx`). These hold:
  - the credit badge;
  - the checkout links that carry the user id to the payment provider;
  - the colour bands for scores, ratings and difficulties;
  - the home page's balance-based paywall and the dashboard's subscription-based gating.

The store is the class `Store.Ledger`. Its field `meta: map<UserId, Meta>` is overwritten by the two route handlers, `ReceiveWebhook` and `SubmitAudit`. Each handler is proved equal to a pure function of the store before the request (`Webhook.Deliver`, `Audit.Serve`). The properties are proved about those functions, and about `Store.Replay`, which handles any sequence of requests one after another. Key results:

- every balance stays non-negative;
- no request touches a user it does not address;
- no user is created or removed.

The code has no event-id deduplication, no versioned compare-and-swap, no reserve/commit/release protocol, and no pro bypass of the credit check, and the model has none either. A redelivered `order_created` adds a second credit (`Webhook.RedeliveryAddsTwice`). The debit is written only after a successful analysis. Pro users pass the gate only because they hold 999999 credits, and each audit still uses one (`Audit.SpentProForbidden`). Cancelling a subscription zeroes every credit, including credits bought one at a time.

Modules: `Entitlement` (the record, `Config`, the invariant), `Text` (trim and fence removal), `Webhook`, `Audit`, `Store`, `Home` (app/page.tsx), `Dashboard` (app/dashboard/page.tsx).

## Model

| member | source | states |
|---|---|---|
| `Webhook.Signature` | app/api/webhooks/lemon-squeezy/route.ts:18 | the `x-signature` header, or "" when absent |
| `Webhook.Digest` | app/api/webhooks/lemon-squeezy/route.ts:21-22 | the hex HMAC of the raw body under the configured secret, an opaque function of the two |
| `Webhook.Authentic` | app/api/webhooks/lemon-squeezy/route.ts:10-27 | a secret is configured and the digest equals the signature |
| `Webhook.Target` | app/api/webhooks/lemon-squeezy/route.ts:34-38 | the payload's `custom_data.user_id` when it is truthy |
| `Webhook.Classify` | app/api/webhooks/lemon-squeezy/route.ts:33-74 | each of the three handled event names is recognised exactly when the payload's `event_name` equals it |
| `Webhook.Transition` | app/api/webhooks/lemon-squeezy/route.ts:38-87 | the record written for an event keeps a non-negative balance non-negative; an unhandled event keeps the record; only `subscription_created` can make a user pro |
| `Webhook.Deliver` | app/api/webhooks/lemon-squeezy/route.ts:5-97 | without a secret the answer is 500 and nothing changes; with a digest that differs from the signature, 401 and nothing changes; the status is 200, 401 or 500; a change happens only on an authentic 200 with a user id; no user other than the target changes; no user is created; non-negative balances stay non-negative |
| `Webhook.OrderCreatedAddsCredit` | app/api/webhooks/lemon-squeezy/route.ts:38-57 | `order_created` answers 200 and sets credits to the previous value (missing is 0) plus one, leaving the subscription unchanged |
| `Webhook.SubscriptionCreatedGrantsPro` | app/api/webhooks/lemon-squeezy/route.ts:60-71 | `subscription_created` makes the user pro with 999999 credits, whatever the balance was |
| `Webhook.SubscriptionCancelledRevokes` | app/api/webhooks/lemon-squeezy/route.ts:74-85 | `subscription_cancelled` leaves exactly `{credits: 0}` with no subscription |
| `Webhook.OtherDeliveriesAcknowledged` | app/api/webhooks/lemon-squeezy/route.ts:38-90 | an authentic delivery with any other event name, or without a truthy user id, answers 200 and changes nothing |
| `Webhook.MissingSignatureRejected` | app/api/webhooks/lemon-squeezy/route.ts:17-27 | with a configured secret and a 64-character digest (`Entitlement.ValidConfig`), an absent `x-signature` header counts as "" and the delivery is rejected with 401, changing nothing |
| `Webhook.RedeliveryAddsTwice` | app/api/webhooks/lemon-squeezy/route.ts:38-57 | nothing suppresses duplicates: the same `order_created` delivered twice adds two credits |
| `Audit.SignedIn` | app/api/audit/route.ts:113-121 | `currentUser()` returns a user the store knows |
| `Audit.Funded` | app/api/audit/route.ts:123-126 | the balance read at the start, with missing counted as 0, is at least 1 |
| `Audit.Admitted` | app/api/audit/route.ts:104-155 | every guard before the analysis passes |
| `Audit.Analyze` | app/api/audit/route.ts:77-90 | the analysis exists exactly when there is a reply and its fence-stripped text decodes; that text contains no fence |
| `Audit.Serve` | app/api/audit/route.ts:99-187 | the guards fire in order, and the first that fails decides the answer (500 key, 401 user, 403 credits < 1, 400 no video, 400 over 20 MiB), with nothing written; a failed analysis gives 500 with nothing written; 200 exactly when every guard passes and the analysis succeeds, and then the analysis is returned; only a 200 with a stored debit changes the store; other users are untouched; non-negative balances stay non-negative |
| `Audit.SuccessDebitsOne` | app/api/audit/route.ts:123-168 | after a successful analysis whose write is stored, credits are the balance read at the start minus one, which is ≥ 0; the subscription is unchanged |
| `Audit.LostDebitStillAnswered` | app/api/audit/route.ts:160-175 | when the debit write fails, the analysis is still answered with 200 and the store is unchanged |
| `Audit.NoPurchaseForbidden` | app/api/audit/route.ts:123-132 | a signed-in user without a credits key gets 403 |
| `Audit.GateIgnoresSubscription` | app/api/audit/route.ts:123-132 | changing only the user's subscription never changes the status |
| `Audit.SpentProForbidden` | app/api/audit/route.ts:123-132 | a pro user whose balance is 0 gets 403 |
| `Audit.SizeLimitInclusive` | app/api/audit/route.ts:148-155 | a video of exactly 20·1024·1024 bytes passes every guard; one byte more gets 400 |
| `Text.IsSpace` | app/api/audit/route.ts:83 | the characters `trim()` removes: ECMAScript's WhiteSpace and LineTerminator code points |
| `Text.Trim` | app/api/audit/route.ts:83 | `trim()`: the result is no longer than the input, uses only its characters, and neither starts nor ends with whitespace |
| `Text.RemoveToken` | app/api/audit/route.ts:85 | the global replace of a literal token plus an optional newline: the result is no longer than the input, uses only its characters, and keeps the first character when no token starts there |
| `Text.TrimBounds` | app/api/audit/route.ts:83 | `trim()` keeps a slice whose outside is all JavaScript whitespace and which neither starts nor ends with whitespace |
| `Text.TrimIdempotent` | app/api/audit/route.ts:83 | trimming twice is trimming once |
| `Text.TrimKeepsTrimmed` | app/api/audit/route.ts:83 | text that neither starts nor ends with whitespace is returned unchanged by `trim()` |
| `Text.RemoveTokenWithoutBacktick` | app/api/audit/route.ts:85 | a global replace of a token starting with a backtick leaves text without backticks unchanged |
| `Text.RemoveFenceHead` | app/api/audit/route.ts:85 | after the "```" pass, a leading backtick or backtick pair of the result was already at the head of the input |
| `Text.RemoveFenceLeavesNone` | app/api/audit/route.ts:85 | deleting every "```" (with an optional newline) never splices a new "```" together: the result contains none |
| `Text.StripFences` | app/api/audit/route.ts:83-85 | `trim()`, then delete every "```json" and then every "```" (each with an optional following newline); the result is no longer than the reply, uses only its characters, and contains no "```" |
| `Text.StripFencesPlainText` | app/api/audit/route.ts:83-85 | a reply without backticks comes back merely trimmed |
| `Store.Ledger.ReceiveWebhook` | app/api/webhooks/lemon-squeezy/route.ts:5-97 | the handler answers `Deliver`'s status, leaves the store as `Deliver` says, and keeps every balance non-negative |
| `Store.Ledger.SubmitAudit` | app/api/audit/route.ts:99-187 | the handler answers `Serve`'s status and analysis, leaves the store as `Serve` says, and keeps every balance non-negative |
| `Store.Step` | app/api/audit/route.ts:99-187 | the store after one webhook delivery (`Deliver`) or one audit (`Serve`) |
| `Store.Replay` | app/api/webhooks/lemon-squeezy/route.ts:5-97 | the store after a sequence of requests handled one after another |
| `Store.Addressee` | app/api/audit/route.ts:113-163 | the one user a request can write to: the webhook's target, or the audit's signed-in user |
| `Store.ReplayKeepsNonNegative` | app/api/audit/route.ts:123-167 | from non-negative balances, any sequence of webhook deliveries and audits keeps every balance non-negative |
| `Store.ReplayKeepsUsers` | app/api/webhooks/lemon-squeezy/route.ts:42-85 | no sequence of requests creates or removes a user |
| `Store.ReplayIsolatesUsers` | app/api/webhooks/lemon-squeezy/route.ts:53-85 | a user that no request in a sequence addresses keeps their record |
| `Entitlement.Credits` | app/api/audit/route.ts:123 | `Number(publicMetadata?.credits \|\| 0)`: the stored credits, 0 when the key is missing (the same read is at app/api/webhooks/lemon-squeezy/route.ts:46; app/page.tsx:29 makes the same default-to-0 read without `Number()`) |
| `Entitlement.IsPro` | app/dashboard/page.tsx:90 | `hasPro`: the subscription is exactly "pro" (also the test under `isPro` at app/page.tsx:30) |
| `Entitlement.Present` | app/api/webhooks/lemon-squeezy/route.ts:11 | JavaScript truthiness of an optional string: present and non-empty (also at app/api/webhooks/lemon-squeezy/route.ts:38 and app/api/audit/route.ts:104) |
| `Home.ShownCredits` | app/page.tsx:29 | the credits passed to the results panel: the stored balance, 0 when signed out or missing |
| `Home.ShowsPro` | app/page.tsx:30 | `isPro`: signed in and the subscription is "pro" |
| `Home.CreditsBadge` | app/page.tsx:204-211 | the header badge, absent when signed out; its value and colour are stated by `Home.BadgeShowsBalance` |
| `Home.BadgeShowsBalance` | app/page.tsx:204-211 | only signed-in users get a badge; it reads "unlimited" exactly when the subscription is "pro", otherwise the stored credits (0 when no credits key exists); it is green exactly when the paywall is open |
| `Home.CheckoutUrl` | app/page.tsx:33-34 | the link is the product's checkout URL followed by `?checkout[custom][user_id]=` and then the user id, or "" when signed out |
| `Home.CheckoutUrlIdentifiesBuyer` | app/page.tsx:33-34 | two users never get the same link for a product |
| `Home.ScoreColor` | app/page.tsx:157-161 | the score's text colour; its bands are stated by `Home.ScoreBands` |
| `Home.ScoreBgColor` | app/page.tsx:163-167 | the score card's background; it follows the text colour (`Home.ScoreBgFollowsColor`) |
| `Home.RatingColor` | app/page.tsx:169-173 | the rating badge's colour, split on "Faible", "Moyen" and anything else (`Home.RatingColorFollowsProgress`) |
| `Home.RatingProgress` | app/page.tsx:175-179 | the rating bar's width, as written: 33, 66 or 100 (`Home.RatingColorFollowsProgress`, `Home.EnglishRatingsShowFull`) |
| `Home.DifficultyColor` | app/page.tsx:182-186 | an idea's difficulty colour (`Home.DifficultyBands`, `Home.IdeaDifficultiesDistinct`) |
| `Home.ScoreBands` | app/page.tsx:157-161 | red below 50, orange from 50 to 79, green from 80 |
| `Home.ScoreBgFollowsColor` | app/page.tsx:157-167 | the score background changes band exactly where the text colour does |
| `Home.RatingColorFollowsProgress` | app/page.tsx:169-179 | badge colour and bar width split ratings the same way: "Faible" 33, "Moyen" 66, anything else 100 |
| `Home.EnglishRatingsShowFull` | app/page.tsx:169-179 | the ratings the audit prompt asks for ("Weak", "Average") fill the bar, and both are coloured like "Excellent" (green) |
| `Home.RatingProgressCorrected` | app/page.tsx:175-179 | the low rating in French or English gives 33, the middle one gives 66, anything else gives 100 |
| `Home.RatingProgressCorrectedExtends` | app/page.tsx:175-179 | the corrected scale equals the page's on every rating except "Weak" and "Average", where it is lower |
| `Home.DifficultyBands` | app/page.tsx:182-186 | "Easy" is green, "Medium" orange, anything else red |
| `Home.IdeaDifficultiesDistinct` | app/page.tsx:182-186 | the three difficulties the idea generator is told to use ("Easy", "Medium", "Hard"; app/api/ideas/route.ts:56) get three different colours |
| `Home.HasAccess` | app/page.tsx:420 | `isSignedIn && credits > 0` (`Home.PaywallMatchesGate`, `Home.PaywallIgnoresPro`) |
| `Home.PageAccess` | app/page.tsx:270-274 | `hasAccess` for the current user: signed in, with the shown credits |
| `Home.Blurred` | app/page.tsx:511 | improvement `index` is blurred (`Home.BlurredTips`) |
| `Home.Locked` | app/page.tsx:518 | the lock icon is on improvement `index` (`Home.BlurredTips`) |
| `Home.UnlockOffered` | app/page.tsx:529 | the pricing block under the action plan is shown (`Home.UnlockOfferedIffTipBlurred`) |
| `Home.InsightsOverlay` | app/page.tsx:610-626 | what covers the virality insights (`Home.OverlayBySignIn`, `Home.OverlayMatchesActionPlan`) |
| `Home.PaywallMatchesGate` | app/page.tsx:420 | for a signed-in user, `hasAccess` holds exactly when the audit route's credit guard passes |
| `Home.PaywallIgnoresPro` | app/page.tsx:420 | the subscription never changes `hasAccess`; a pro user with 0 credits is locked out while the badge shows "unlimited" |
| `Home.BlurredTips` | app/page.tsx:511-518 | improvement 0 is never blurred; the lock is on a blurred improvement; without access, every improvement after the first is blurred |
| `Home.UnlockOfferedIffTipBlurred` | app/page.tsx:529 | the unlock block shows exactly when at least one improvement is blurred |
| `Home.OverlayMatchesActionPlan` | app/page.tsx:511-610 | with two or more improvements, the insights are covered exactly when the pricing block is offered, exactly when the second tip is blurred, exactly when it carries the lock |
| `Home.OverlayBySignIn` | app/page.tsx:610-626 | signed-out users get the login prompt, signed-in users without access get the pricing cards, and there is no overlay exactly when the user has access |
| `Dashboard.ScoreColor` | app/dashboard/page.tsx:50-54 | the score's text colour; its bands are stated by `Dashboard.ScoreBands` |
| `Dashboard.ScoreBgColor` | app/dashboard/page.tsx:56-60 | the score badge's background; it follows the text colour (`Dashboard.ScoreBgFollowsColor`) |
| `Dashboard.ScoreBands` | app/dashboard/page.tsx:50-54 | green from 70, yellow from 40 to 69, red below 40 |
| `Dashboard.ScoreBgFollowsColor` | app/dashboard/page.tsx:50-60 | the background uses exactly the text colour's thresholds |
| `Dashboard.BandsDifferFromHome` | app/dashboard/page.tsx:50-54 | a score of 75 is green here and orange on the home page; a score of 45 is yellow here and red on the home page |
| `Dashboard.CountLabelAfterSave` | app/dashboard/page.tsx:118 | saving the first audit turns "audits" into "audit", and every later save gives "audits" |
| `Dashboard.CountLabel` | app/dashboard/page.tsx:118 | the singular "audit" exactly for one audit, "audits" otherwise |
| `Dashboard.ShownImprovements` | app/dashboard/page.tsx:259-297 | the audit's improvements for pro users, the fixed placeholders otherwise (`Dashboard.ProGatesAuditDetails`) |
| `Dashboard.ShownHashtags` | app/dashboard/page.tsx:303-334 | the audit's hashtags for pro users, the fixed placeholders otherwise (`Dashboard.ProGatesAuditDetails`) |
| `Dashboard.WatchLinkShown` | app/dashboard/page.tsx:338 | `selectedAudit.video_url &&`: the "Watch Video" link is rendered (`Dashboard.PanelLinkUngated`) |
| `Dashboard.Panel` | app/dashboard/page.tsx:259-349 | the selected audit's panel: improvements and hashtags under `hasPro` or the placeholders with the "Pro Feature" lock, and the video link when the URL is non-empty (`Dashboard.PanelLinkUngated`) |
| `Dashboard.PanelLinkUngated` | app/dashboard/page.tsx:259-349 | any two users see the same video link for an audit, present exactly when its URL is non-empty and pointing at that URL; the lists and the "Pro Feature" lock follow the subscription |
| `Dashboard.ProGatesAuditDetails` | app/dashboard/page.tsx:259-334 | pro users see the audit's own improvements and hashtags; others see fixed placeholders that do not depend on the audit |
| `Dashboard.GatesDisagree` | app/dashboard/page.tsx:259-297 | a buyer of single audits has home-page access but sees placeholders here; a pro user with 0 credits has the reverse |

## Left out

- The HMAC-SHA256 digest is an opaque function `Config.hmacHex` of secret and body. The comparison is the plain `!==` of the source, so timing is not modelled.
- `Entitlement.ValidConfig` fixes only the length of the digest (64 characters, as the hex form of HMAC-SHA256 has). Its value is not modelled.
- Decoding the webhook body with `JSON.parse` is not modelled. The decoded `event_name` and `user_id` arrive as `Webhook.Payload`, and `None` stands for a body that does not parse (500). `user_id` is taken to be a string.
- The language-model call, base64 encoding and `JSON.parse` of the cleaned reply are foreign calls. The reply arrives as an optional string, where `None` means the call threw. `Config.decodes` says whether the cleaned text parses.
- Auth-provider calls become reads and writes on the map. A user id the provider does not know makes its calls throw, which gives 500 in the webhook. A session for an unknown user counts as signed out in the audit route. Other provider failures of the webhook's lookup and write (the handler answers 500) are not modelled. The audit's debit write is the one provider failure that is modelled.
- A failure of `request.formData()` in the audit route (500) is not modelled.
- `Number()` coercion of arbitrary JSON is not modelled. Credits are integers, and a missing key counts as 0. Scores are integers, not arbitrary JavaScript numbers.
- Concurrency is not modelled. The webhook's read-then-write and the audit's read at the start with a write after the analysis are not atomic and can race. The model covers one request at a time.
- Not modelled: rendering, Tailwind class strings other than the band choices, React state, `fetch` calls, `formatDate`, logging, saving audits, and the other routes and pages (demo, pricing, layout, ideas, audit history, Supabase client).

## Findings

| source | as written | input that shows it | evidently intended | confidence | as-written member | corrected member |
|---|---|---|---|---|---|---|
| app/page.tsx:175-179 | `getRatingProgress` and `getRatingColor` compare the rating with the French "Faible" and "Moyen". The audit prompt (app/api/audit/route.ts:64) asks the model for "Weak", "Average" or "Excellent". | rating "Weak" gives a 100% bar, coloured green | "Weak" gives 33 and "Average" gives 66, as their French counterparts do | medium, not executed | `Home.EnglishRatingsShowFull` | `Home.RatingProgressCorrected` |
