/** Derivations on the audit-history dashboard (app/dashboard/page.tsx),
    which is shown only to signed-in users. */
module Dashboard {
  import opened Entitlement
  import Home

  function ScoreColor(score: int): string {
    if score >= 70 then "text-green-400"
    else if score >= 40 then "text-yellow-400"
    else "text-red-400"
  }

  function ScoreBgColor(score: int): string {
    if score >= 70 then "bg-green-500/20 border-green-500/50"
    else if score >= 40 then "bg-yellow-500/20 border-yellow-500/50"
    else "bg-red-500/20 border-red-500/50"
  }

  /** Green from 70, yellow from 40 to 69, red below 40. */
  lemma ScoreBands(score: int)
    ensures ScoreColor(score) == "text-green-400" <==> score >= 70
    ensures ScoreColor(score) == "text-yellow-400" <==> 40 <= score < 70
    ensures ScoreColor(score) == "text-red-400" <==> score < 40
  {
  }

  /** The badge background uses exactly the thresholds of the text colour. */
  lemma ScoreBgFollowsColor(a: int, b: int)
    ensures ScoreBgColor(a) == ScoreBgColor(b) <==> ScoreColor(a) == ScoreColor(b)
  {
  }

  /** The home page and the dashboard band the same score differently. */
  lemma BandsDifferFromHome()
    ensures Home.ScoreColor(75) == "text-orange-500" && ScoreColor(75) == "text-green-400"
    ensures Home.ScoreColor(45) == "text-red-500" && ScoreColor(45) == "text-yellow-400"
  {
  }

  /** One row of the audit history as the dashboard reads it. */
  datatype SavedAudit = SavedAudit(videoUrl: string, score: int, improvements: seq<string>, hashtags: seq<string>)

  /** The noun after the number of audits. */
  function CountLabel(count: nat): (noun: string)
    ensures noun == "audit" <==> count == 1
    ensures noun == "audit" || noun == "audits"
  {
    if count == 1 then "audit" else "audits"
  }

  const PlaceholderImprovements: seq<string> := [
    "Upgrade to Pro to see personalized improvements",
    "Get expert tips to boost your content",
    "Access premium analytics and insights"
  ]

  const PlaceholderHashtags: seq<string> := ["#viral", "#trending", "#foryou"]

  /** The improvements listed for the selected audit. */
  function ShownImprovements(m: Meta, improvements: seq<string>): seq<string> {
    if IsPro(m) then improvements else PlaceholderImprovements
  }

  /** The hashtags listed for the selected audit. */
  function ShownHashtags(m: Meta, hashtags: seq<string>): seq<string> {
    if IsPro(m) then hashtags else PlaceholderHashtags
  }

  /** The "Watch Video" link is rendered. */
  predicate WatchLinkShown(videoUrl: string) {
    videoUrl != ""
  }

  /** What the detail panel of a selected audit shows below its roast. */
  datatype PanelView = PanelView(
    improvements: seq<string>,
    hashtags: seq<string>,
    proFeatureLock: bool,        // the "Pro Feature" overlay over both lists
    watchLink: Option<string>)   // the "Watch Video" link and its target

  /** The detail panel of the selected audit `a` for a user whose record
      is `m`. */
  function Panel(m: Meta, a: SavedAudit): PanelView {
    PanelView(
      ShownImprovements(m, a.improvements),
      ShownHashtags(m, a.hashtags),
      !IsPro(m),
      if WatchLinkShown(a.videoUrl) then Some(a.videoUrl) else None)
  }

  /** The link to the video is not gated: any two users see the same link
      for an audit, it is there exactly when the audit has a video URL, and
      it points at that URL. The lists and the lock do follow the
      subscription. */
  lemma PanelLinkUngated(m1: Meta, m2: Meta, a: SavedAudit)
    ensures Panel(m1, a).watchLink == Panel(m2, a).watchLink
    ensures Panel(m1, a).watchLink.Some? <==> a.videoUrl != ""
    ensures Panel(m1, a).watchLink.Some? ==> Panel(m1, a).watchLink.value == a.videoUrl
    ensures Panel(m1, a).proFeatureLock <==> !IsPro(m1)
    ensures IsPro(m1) ==> Panel(m1, a).improvements == a.improvements && Panel(m1, a).hashtags == a.hashtags
    ensures !IsPro(m1) ==> Panel(m1, a).improvements == PlaceholderImprovements && Panel(m1, a).hashtags == PlaceholderHashtags
  {
  }

  /** The heading counts the history: saving the first audit turns the
      plural into the singular, and every later save keeps the plural. */
  lemma CountLabelAfterSave(history: seq<SavedAudit>, a: SavedAudit)
    ensures history == [] ==> CountLabel(|history + [a]|) == "audit" && CountLabel(|history|) == "audits"
    ensures history != [] ==> CountLabel(|history + [a]|) == "audits"
  {
  }

  /** Pro users see the audit's own improvements and hashtags; everybody
      else sees the same fixed placeholders whatever the audit says. */
  lemma ProGatesAuditDetails(m: Meta, imp1: seq<string>, imp2: seq<string>, tags1: seq<string>, tags2: seq<string>)
    ensures IsPro(m) ==> ShownImprovements(m, imp1) == imp1 && ShownHashtags(m, tags1) == tags1
    ensures !IsPro(m) ==> ShownImprovements(m, imp1) == ShownImprovements(m, imp2) == PlaceholderImprovements
    ensures !IsPro(m) ==> ShownHashtags(m, tags1) == ShownHashtags(m, tags2) == PlaceholderHashtags
  {
  }

  /** The dashboard gates on the subscription while the home page gates on
      the balance: a buyer of single audits is shown the whole action plan
      on the home page but placeholders here, and a pro user with no
      credits left the other way round. */
  lemma GatesDisagree(improvements: seq<string>)
    requires improvements != PlaceholderImprovements
    ensures var buyer := Meta(Some(5), None);
      Home.PageAccess(Some(buyer)) && ShownImprovements(buyer, improvements) != improvements
    ensures var spent := Meta(Some(0), Some(ProTier));
      !Home.PageAccess(Some(spent)) && ShownImprovements(spent, improvements) == improvements
  {
  }
}
