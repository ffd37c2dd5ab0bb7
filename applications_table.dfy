/** What the applications table adds to the shared list view: its action
    buttons and its longer previews. */
module ApplicationsTable {
  import opened Wrappers
  import opened JsStrings
  import opened Applications
  import opened ListView

  /** "Apply Now" only for a posting url and the status 'not_applied'. */
  predicate ShowApplyNow(app: JobApplication) {
    app.jobPostingUrl != "" && app.status == NotApplied
  }

  /** "View Job" for a posting url and any other status, the missing one included. */
  predicate ShowViewJob(app: JobApplication) {
    app.jobPostingUrl != "" && app.status != NotApplied
  }

  /** With a posting url a card shows exactly one of the two buttons; without
      one it shows neither. */
  lemma ActionButtons(app: JobApplication)
    ensures !(ShowApplyNow(app) && ShowViewJob(app))
    ensures ShowApplyNow(app) || ShowViewJob(app) <==> app.jobPostingUrl != ""
  {
  }

  /** "Apply Now" in the table always leads to a status request when a
      handler is passed: its condition is exactly the one quick apply tests. */
  lemma ApplyNowRequestsStatus(app: JobApplication)
    ensures ShowApplyNow(app) <==> QuickApply(app, true).statusUpdate.Some?
  {
  }

  /** The description preview: up to 120 characters. */
  function DescriptionPreview(app: JobApplication): (r: Option<string>)
    ensures r.Some? ==> |r.value| <= 123
    ensures r.Some? ==> r.value == app.jobDescription[..Min(120, |app.jobDescription|)] + "..."
    ensures r.None? <==> app.jobDescription == ""
  {
    Preview(app.jobDescription, 120)
  }

  /** The notes preview: up to 60 characters, in double quotes. */
  function NotesPreview(app: JobApplication): (r: Option<string>)
    ensures r.Some? ==> 5 <= |r.value| <= 65 && r.value[0] == '"' && r.value[|r.value| - 1] == '"'
    ensures r.Some? ==> r.value == "\"" + app.notes[..Min(60, |app.notes|)] + "...\""
    ensures r.None? <==> app.notes == ""
  {
    QuotedPreview(app.notes, 60)
  }
}
