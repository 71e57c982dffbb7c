/** Client-side derivations on the home page (app/page.tsx): the credit
    badge, the checkout links, the colour bands of an analysis, and the
    paywall over its action plan and insights. */
module Home {
  import opened Entitlement
  import Audit

  /** `(user?.publicMetadata?.credits as number) || 0`; `user` is `None`
      when nobody is signed in. */
  function ShownCredits(user: Option<Meta>): int {
    if user.None? then 0 else Credits(user.value)
  }

  /** `user?.publicMetadata?.subscription === 'pro'` */
  predicate ShowsPro(user: Option<Meta>) {
    user.Some? && IsPro(user.value)
  }

  /** The number on the header badge: the infinity sign for pro users, the
      balance otherwise. */
  datatype BadgeValue = Unlimited | Balance(credits: int)

  /** The header badge: green when `credits > 0`, grey otherwise. */
  datatype Badge = Badge(highlighted: bool, value: BadgeValue)

  /** The badge sits inside `<SignedIn>`: signed-out visitors get none. */
  function CreditsBadge(user: Option<Meta>): Option<Badge> {
    if user.None? then None
    else Some(Badge(ShownCredits(user) > 0, if ShowsPro(user) then Unlimited else Balance(ShownCredits(user))))
  }

  /** Only signed-in users get a badge. It reads "unlimited" exactly when the
      subscription is "pro", and the stored balance otherwise (0 when no
      credit was ever written). It is green exactly when the paywall is
      open. */
  lemma BadgeShowsBalance(user: Option<Meta>)
    ensures CreditsBadge(user).Some? <==> user.Some?
    ensures (user.Some? && user.value.subscription == Some("pro")) <==> (CreditsBadge(user).Some? && CreditsBadge(user).value.value == Unlimited)
    ensures user.Some? && !IsPro(user.value) && user.value.credits.None? ==> CreditsBadge(user).value.value == Balance(0)
    ensures (user.Some? && !IsPro(user.value) && user.value.credits.Some?)
      ==> CreditsBadge(user).value.value == Balance(user.value.credits.value)
    ensures user.Some? ==> (CreditsBadge(user).value.highlighted <==> PageAccess(user))
  {
  }

  const CheckoutBase: string := "https://visualia346.lemonsqueezy.com/checkout/buy/"
  const SingleAuditVariant: string := "7d5d1d79-6f36-4b6a-b0fe-3a87c8ce804e"
  const ProPlanVariant: string := "105f631b-6ff5-47d4-be1f-ed0469fe87ab"
  const UserIdParameter: string := "?checkout[custom][user_id]="

  /** The checkout link for a product; the payment provider echoes the
      parameter back as `custom_data.user_id` in its webhook. */
  function CheckoutUrl(variant: string, user: Option<UserId>): (url: string)
    ensures var head := CheckoutBase + variant + UserIdParameter;
      |head| <= |url| && url[..|head|] == head
      && url[|head|..] == (if user.Some? then user.value else "")
  {
    CheckoutBase + variant + UserIdParameter + user.GetOr("")
  }

  /** Different buyers get different links, so a purchase is credited to
      the user who opened the link. */
  lemma CheckoutUrlIdentifiesBuyer(variant: string, a: UserId, b: UserId)
    requires CheckoutUrl(variant, Some(a)) == CheckoutUrl(variant, Some(b))
    ensures a == b
  {
    var head := CheckoutBase + variant + UserIdParameter;
    assert a == CheckoutUrl(variant, Some(a))[|head|..];
  }

  function ScoreColor(score: int): string {
    if score < 50 then "text-red-500"
    else if score < 80 then "text-orange-500"
    else "text-green-500"
  }

  function ScoreBgColor(score: int): string {
    if score < 50 then "from-red-500/20 to-red-600/10"
    else if score < 80 then "from-orange-500/20 to-orange-600/10"
    else "from-green-500/20 to-green-600/10"
  }

  /** Red below 50, orange from 50 to 79, green from 80. */
  lemma ScoreBands(score: int)
    ensures ScoreColor(score) == "text-red-500" <==> score < 50
    ensures ScoreColor(score) == "text-orange-500" <==> 50 <= score < 80
    ensures ScoreColor(score) == "text-green-500" <==> score >= 80
  {
  }

  /** The score card's background changes band exactly where the score's
      text colour does. */
  lemma ScoreBgFollowsColor(a: int, b: int)
    ensures ScoreBgColor(a) == ScoreBgColor(b) <==> ScoreColor(a) == ScoreColor(b)
  {
  }

  /** As written: the bar compares against the French ratings. */
  function RatingProgress(rating: string): int {
    if rating == "Faible" then 33
    else if rating == "Moyen" then 66
    else 100
  }

  function RatingColor(rating: string): string {
    if rating == "Faible" then "bg-red-500/20 text-red-400 border-red-500/30"
    else if rating == "Moyen" then "bg-orange-500/20 text-orange-400 border-orange-500/30"
    else "bg-green-500/20 text-green-400 border-green-500/30"
  }

  /** The rating badge and the rating bar split the ratings the same way. */
  lemma RatingColorFollowsProgress(a: string, b: string)
    ensures RatingColor(a) == RatingColor(b) <==> RatingProgress(a) == RatingProgress(b)
    ensures RatingProgress(a) in {33, 66, 100}
  {
  }

  /** The audit prompt asks the model for "Weak", "Average" or "Excellent";
      with the French comparisons every such rating fills the bar and is
      coloured green. */
  lemma EnglishRatingsShowFull()
    ensures RatingProgress("Weak") == 100 && RatingProgress("Average") == 100
    ensures RatingColor("Weak") == RatingColor("Excellent")
    ensures RatingColor("Average") == RatingColor("Excellent")
  {
  }

  /** The rating scale the page evidently means: the low and middle ratings
      of either vocabulary, everything else full. */
  function RatingProgressCorrected(rating: string): (p: int)
    ensures p == 33 <==> rating == "Faible" || rating == "Weak"
    ensures p == 66 <==> rating == "Moyen" || rating == "Average"
    ensures p == 100 <==> !(rating in {"Faible", "Weak", "Moyen", "Average"})
  {
    if rating == "Faible" || rating == "Weak" then 33
    else if rating == "Moyen" || rating == "Average" then 66
    else 100
  }

  /** The corrected scale agrees with the page on every rating it already
      handled, and differs exactly on the two English ratings. */
  lemma RatingProgressCorrectedExtends(rating: string)
    ensures rating != "Weak" && rating != "Average" ==> RatingProgressCorrected(rating) == RatingProgress(rating)
    ensures rating == "Weak" || rating == "Average" ==> RatingProgressCorrected(rating) < RatingProgress(rating)
  {
  }

  function DifficultyColor(difficulty: string): string {
    if difficulty == "Easy" then "bg-green-500/20 text-green-400 border-green-500/50"
    else if difficulty == "Medium" then "bg-orange-500/20 text-orange-400 border-orange-500/50"
    else "bg-red-500/20 text-red-400 border-red-500/50"
  }

  /** "Easy" is green, "Medium" orange, every other difficulty red. */
  lemma DifficultyBands(difficulty: string)
    ensures DifficultyColor(difficulty) == "bg-green-500/20 text-green-400 border-green-500/50" <==> difficulty == "Easy"
    ensures DifficultyColor(difficulty) == "bg-orange-500/20 text-orange-400 border-orange-500/50" <==> difficulty == "Medium"
    ensures (DifficultyColor(difficulty) == "bg-red-500/20 text-red-400 border-red-500/50")
      <==> difficulty != "Easy" && difficulty != "Medium"
  {
  }

  /** The three difficulties the idea generator is told to use get three
      different colours, unlike the English ratings above. */
  lemma IdeaDifficultiesDistinct()
    ensures DifficultyColor("Easy") != DifficultyColor("Medium")
    ensures DifficultyColor("Medium") != DifficultyColor("Hard")
    ensures DifficultyColor("Easy") != DifficultyColor("Hard")
  {
  }

  /** `hasAccess` in `VideoAuditResults`. */
  predicate HasAccess(signedIn: bool, credits: int) {
    signedIn && credits > 0
  }

  /** The access the page grants the current user. */
  predicate PageAccess(user: Option<Meta>) {
    HasAccess(user.Some?, ShownCredits(user))
  }

  /** Improvement `index` of the action plan is blurred. */
  predicate Blurred(hasAccess: bool, index: nat) {
    !hasAccess && index > 0
  }

  /** The lock icon sits on improvement `index`. */
  predicate Locked(hasAccess: bool, index: nat) {
    !hasAccess && index == 1
  }

  /** The "Unlock Full Action Plan" pricing block is shown. */
  predicate UnlockOffered(hasAccess: bool, count: nat) {
    !hasAccess && count > 1
  }

  /** What covers the virality insights. */
  datatype Overlay = NoOverlay | LoginPrompt | PricingCards

  function InsightsOverlay(hasAccess: bool, signedIn: bool): Overlay {
    if hasAccess then NoOverlay
    else if !signedIn then LoginPrompt
    else PricingCards
  }

  /** For a signed-in user the paywall opens exactly when the audit route's
      credit guard would let a request through. */
  lemma PaywallMatchesGate(meta: map<UserId, Meta>, session: Option<UserId>)
    requires Audit.SignedIn(meta, session)
    ensures PageAccess(Some(meta[session.value])) <==> Audit.Funded(meta, session)
  {
  }

  /** The paywall looks only at the balance: a pro user whose balance has
      reached 0 is locked out while the badge still shows "unlimited". */
  lemma PaywallIgnoresPro(m: Meta, s: Option<string>)
    ensures PageAccess(Some(m)) == PageAccess(Some(m.(subscription := s)))
    ensures IsPro(m) && Credits(m) == 0 ==> !PageAccess(Some(m)) && CreditsBadge(Some(m)) == Some(Badge(false, Unlimited))
  {
  }

  /** The first improvement is never hidden; the locked one is always
      blurred; without access every later one is blurred. */
  lemma BlurredTips(hasAccess: bool, index: nat)
    ensures !Blurred(hasAccess, 0)
    ensures Locked(hasAccess, index) ==> Blurred(hasAccess, index)
    ensures Blurred(hasAccess, index) <==> !hasAccess && index != 0
  {
  }

  /** The pricing block appears exactly when some improvement is blurred. */
  lemma UnlockOfferedIffTipBlurred(hasAccess: bool, count: nat)
    ensures UnlockOffered(hasAccess, count) <==> exists i: nat :: i < count && Blurred(hasAccess, i)
  {
    if UnlockOffered(hasAccess, count) {
      assert Blurred(hasAccess, 1);
    }
  }

  /** With two or more improvements, the insights are covered exactly when
      the pricing block is offered, which is exactly when the locked second
      tip is blurred. */
  lemma OverlayMatchesActionPlan(hasAccess: bool, signedIn: bool, count: nat)
    requires count >= 2
    ensures InsightsOverlay(hasAccess, signedIn) != NoOverlay <==> UnlockOffered(hasAccess, count)
    ensures UnlockOffered(hasAccess, count) <==> Blurred(hasAccess, 1)
    ensures Blurred(hasAccess, 1) <==> Locked(hasAccess, 1)
  {
  }

  /** Signed-out visitors are asked to log in, signed-in users without
      credits are shown the pricing cards. */
  lemma OverlayBySignIn(user: Option<Meta>)
    ensures user.None? ==> InsightsOverlay(PageAccess(user), user.Some?) == LoginPrompt
    ensures user.Some? && !PageAccess(user) ==> InsightsOverlay(PageAccess(user), user.Some?) == PricingCards
    ensures PageAccess(user) <==> InsightsOverlay(PageAccess(user), user.Some?) == NoOverlay
  {
  }
}
