/** What the applications carousel adds to the shared list view: which action
    button a card shows, the preview lengths, and the ten-card mobile stack. */
module ApplicationsCarousel {
  import opened Wrappers
  import opened JsStrings
  import opened Applications
  import opened ListView

  /** On a desktop card, "Apply Now" is shown for a posting url and a status
      that is 'not_applied' or missing. */
  predicate ShowApplyNow(app: JobApplication) {
    app.jobPostingUrl != "" && (app.status == NotApplied || app.status == "")
  }

  /** "View Job" (re-open the posting) is shown only for the status 'applied',
      on desktop and mobile cards alike. */
  predicate ShowViewJob(app: JobApplication) {
    app.jobPostingUrl != "" && app.status == "applied"
  }

  /** On a mobile card, "Apply Now" needs the status 'not_applied' itself. */
  predicate MobileShowApplyNow(app: JobApplication) {
    app.jobPostingUrl != "" && app.status == NotApplied
  }

  /** The two buttons never appear together; any status other than
      'not_applied', '' and 'applied' (an interview, say) shows neither. */
  lemma ActionButtons(app: JobApplication)
    ensures !(ShowApplyNow(app) && ShowViewJob(app))
    ensures (ShowApplyNow(app) || ShowViewJob(app)) <==>
            app.jobPostingUrl != "" && app.status in {NotApplied, "", "applied"}
    ensures !(MobileShowApplyNow(app) && ShowViewJob(app))
  {
  }

  /** The mobile stack shows "Apply Now" on fewer cards than the desktop
      carousel: exactly the cards with a posting url and no status differ. */
  lemma MobileApplyNowDiffers(app: JobApplication)
    ensures MobileShowApplyNow(app) ==> ShowApplyNow(app)
    ensures ShowApplyNow(app) && !MobileShowApplyNow(app) <==> app.jobPostingUrl != "" && app.status == ""
  {
  }

  /** A card without a status shows "Apply Now" on desktop only, and clicking
      it only opens the posting: quick apply requests a status change only
      for 'not_applied', so the card never leaves that state. */
  lemma ApplyNowWithoutStatus(app: JobApplication, hasHandler: bool)
    requires ShowApplyNow(app) && app.status == ""
    ensures !MobileShowApplyNow(app)
    ensures QuickApply(app, hasHandler).statusUpdate.None?
    ensures QuickApply(app, hasHandler).openedUrl == Some(app.jobPostingUrl)
  {
  }

  /** Clicking "Apply Now" on a 'not_applied' card, with a status handler,
      asks to mark exactly that card 'applied' and opens its posting. */
  lemma ApplyNowMarksApplied(app: JobApplication)
    requires ShowApplyNow(app) && app.status == NotApplied
    ensures QuickApply(app, true).statusUpdate == Some(StatusRequest(app.id, "applied"))
    ensures QuickApply(app, true).openedUrl == Some(app.jobPostingUrl)
  {
  }

  /** The description preview: up to 100 characters. */
  function DescriptionPreview(app: JobApplication): (r: Option<string>)
    ensures r.Some? ==> |r.value| <= 103
    ensures r.Some? ==> r.value == app.jobDescription[..Min(100, |app.jobDescription|)] + "..."
    ensures r.None? <==> app.jobDescription == ""
  {
    Preview(app.jobDescription, 100)
  }

  /** The notes preview: up to 50 characters, in double quotes. */
  function NotesPreview(app: JobApplication): (r: Option<string>)
    ensures r.Some? ==> 5 <= |r.value| <= 55 && r.value[0] == '"' && r.value[|r.value| - 1] == '"'
    ensures r.Some? ==> r.value == "\"" + app.notes[..Min(50, |app.notes|)] + "...\""
    ensures r.None? <==> app.notes == ""
  {
    QuotedPreview(app.notes, 50)
  }

  /** The mobile stack renders the first ten filtered cards. */
  function MobileCards(filtered: seq<JobApplication>): (r: seq<JobApplication>)
    ensures |r| == Min(10, |filtered|)
    ensures r == filtered[..|r|]
  {
    Take(filtered, 10)
  }

  /** The "Showing 10 of n" notice. */
  predicate MobileNoticeShown(filtered: seq<JobApplication>) {
    |filtered| > 10
  }

  /** The notice appears exactly when the mobile stack hides some cards, and
      a short list is shown whole. */
  lemma MobileNoticeIffHidden(filtered: seq<JobApplication>)
    ensures MobileNoticeShown(filtered) <==> |MobileCards(filtered)| < |filtered|
    ensures !MobileNoticeShown(filtered) ==> MobileCards(filtered) == filtered
  {
  }
}
