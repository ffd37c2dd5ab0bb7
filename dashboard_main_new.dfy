/** The newer dashboard: every save goes to the remote store first and then
    patches the local list and the stored counters in place, instead of
    reloading. */
module DashboardMainNew {
  import opened Wrappers
  import opened JsStrings
  import opened Applications

  /** What `Promise.all` of the two fetches resolves to. */
  datatype Loaded = Loaded(apps: seq<JobApplication>, stats: Stats)

  /** The object `updateApplication` resolves to: the fields it carries
      override the local record in `{ ...app, ...updated }`. */
  datatype ApplicationPatch = ApplicationPatch(
    id: Option<string>,
    userId: Option<string>,
    companyName: Option<string>,
    position: Option<string>,
    status: Option<string>,
    applicationDate: Option<string>,
    jobPostingUrl: Option<string>,
    jobDescription: Option<string>,
    notes: Option<string>,
    createdAt: Option<string>,
    updatedAt: Option<string>)

  /** The remote call the application modal's save issues. */
  datatype SaveCall =
    | UpdateRecord(id: string, data: ApplicationData)
    | AddRecord(uid: string, data: ApplicationData)

  function Pick<T>(o: Option<T>, d: T): (r: T)
    ensures o.Some? ==> r == o.value
    ensures o.None? ==> r == d
  {
    if o.Some? then o.value else d
  }

  /** `{ ...app, ...patch }` */
  function Merge(app: JobApplication, p: ApplicationPatch): JobApplication {
    JobApplication(Pick(p.id, app.id), Pick(p.userId, app.userId), Pick(p.companyName, app.companyName),
                   Pick(p.position, app.position), Pick(p.status, app.status),
                   Pick(p.applicationDate, app.applicationDate), Pick(p.jobPostingUrl, app.jobPostingUrl),
                   Pick(p.jobDescription, app.jobDescription), Pick(p.notes, app.notes),
                   Pick(p.createdAt, app.createdAt), Pick(p.updatedAt, app.updatedAt))
  }

  const EmptyPatch := ApplicationPatch(None, None, None, None, None, None, None, None, None, None, None)

  /** The patch that carries every field of `a`. */
  function FullPatch(a: JobApplication): ApplicationPatch {
    ApplicationPatch(Some(a.id), Some(a.userId), Some(a.companyName), Some(a.position), Some(a.status),
                     Some(a.applicationDate), Some(a.jobPostingUrl), Some(a.jobDescription), Some(a.notes),
                     Some(a.createdAt), Some(a.updatedAt))
  }

  /** The spread keeps what the patch leaves out, takes what it carries, and
      applying it twice is applying it once. */
  lemma MergeSpec(app: JobApplication, p: ApplicationPatch, full: JobApplication)
    ensures Merge(app, EmptyPatch) == app
    ensures Merge(app, FullPatch(full)) == full
    ensures Merge(Merge(app, p), p) == Merge(app, p)
    ensures p.status.Some? ==> Merge(app, p).status == p.status.value
    ensures p.id.None? ==> Merge(app, p).id == app.id
  {
  }

  /** `prev.map(app => app.id === id ? { ...app, ...patch } : app)` */
  function MergeEdited(apps: seq<JobApplication>, id: string, p: ApplicationPatch): (r: seq<JobApplication>)
    ensures |r| == |apps|
    ensures forall i :: 0 <= i < |apps| && apps[i].id != id ==> r[i] == apps[i]
    ensures forall i :: 0 <= i < |apps| && apps[i].id == id ==> r[i] == Merge(apps[i], p)
  {
    seq(|apps|, i requires 0 <= i < |apps| => if apps[i].id == id then Merge(apps[i], p) else apps[i])
  }

  /** Editing a record the list does not hold changes nothing. */
  lemma MergeEditedAbsent(apps: seq<JobApplication>, id: string, p: ApplicationPatch)
    requires forall i :: 0 <= i < |apps| ==> apps[i].id != id
    ensures MergeEdited(apps, id, p) == apps
  {
  }

  // ----------------------------------------------------------------- notes

  /** `city && state ? "city, state" : country || 'Not specified'`, then
      " (Remote)" for a remote job. */
  function LocationText(job: SearchJob): string {
    (if job.city != "" && job.state != "" then job.city + ", " + job.state
     else if job.country != "" then job.country
     else "Not specified")
    + (if job.isRemote then " (Remote)" else "")
  }

  /** A city without a state is dropped: the location then names the country. */
  lemma CityWithoutStateFallsBack(job: SearchJob)
    requires job.city != "" && job.state == "" && job.country != "" && !job.isRemote
    ensures LocationText(job) == job.country
  {
  }

  /** The notes of a job saved on its own. */
  function SingleNotes(job: SearchJob): string {
    "Saved from job search:\nLocation: " + LocationText(job) + "\nEmployment Type: "
    + (if job.employmentType != "" then job.employmentType else "Not specified")
  }

  /** The notes of a job saved in a batch: no employment-type line. */
  function BatchNotes(job: SearchJob): string {
    "Saved from job search:\nLocation: " + LocationText(job)
  }

  /** The batch notes are a proper prefix of the single-save notes: the two
      save paths record the same location and differ only in the last line. */
  lemma NotesDiffer(job: SearchJob)
    ensures StartsWith(SingleNotes(job), BatchNotes(job))
    ensures |BatchNotes(job)| < |SingleNotes(job)|
  {
    var b := BatchNotes(job);
    var rest := "\nEmployment Type: " + (if job.employmentType != "" then job.employmentType else "Not specified");
    assert SingleNotes(job) == b + rest;
    assert SingleNotes(job)[..|b|] == b;
  }

  /** The data sent for a job of the search results. */
  function SearchData(job: SearchJob, now: string, notes: string): ApplicationData {
    ApplicationData(CompanyOf(job), PositionOf(job), NotApplied, now, job.description, notes, job.applyLink)
  }

  // ------------------------------------------------------------- batch save

  /** The records of the calls that resolved, in call order. */
  function Successes(outcomes: seq<Remote<JobApplication>>): (r: seq<JobApplication>)
    ensures |r| <= |outcomes|
  {
    if outcomes == [] then []
    else Successes(outcomes[..|outcomes| - 1])
         + (match outcomes[|outcomes| - 1] case Done(a) => [a] case Failed(_) => [])
  }

  /** Every record saved comes from a resolved call. */
  lemma {:induction false} SuccessesFromDone(outcomes: seq<Remote<JobApplication>>)
    ensures forall a :: a in Successes(outcomes) ==> Done(a) in outcomes
    ensures (forall i :: 0 <= i < |outcomes| ==> outcomes[i].Failed?) ==> Successes(outcomes) == []
    decreases |outcomes|
  {
    if outcomes != [] {
      var init := outcomes[..|outcomes| - 1];
      SuccessesFromDone(init);
      assert forall x :: x in init ==> x in outcomes;
    }
  }

  /** The loop of `handleSaveMultipleJobsFromSearch`: one `addApplication` per
      job, in order, whose outcome is `outcomes[i]`. Returns the data sent,
      the saved records and the two counters. */
  method SaveEach(jobs: seq<SearchJob>, nows: seq<string>, outcomes: seq<Remote<JobApplication>>)
    returns (sent: seq<ApplicationData>, saved: seq<JobApplication>, savedCount: nat, errorCount: nat)
    requires |nows| == |jobs| && |outcomes| == |jobs|
    ensures |sent| == |jobs|
    ensures forall i :: 0 <= i < |jobs| ==> sent[i] == SearchData(jobs[i], nows[i], BatchNotes(jobs[i]))
    ensures saved == Successes(outcomes)
    ensures savedCount == |saved| && savedCount + errorCount == |jobs|
  {
    sent := [];
    saved := [];
    savedCount := 0;
    errorCount := 0;
    var i := 0;
    while i < |jobs|
      invariant 0 <= i <= |jobs|
      invariant |sent| == i
      invariant forall k :: 0 <= k < i ==> sent[k] == SearchData(jobs[k], nows[k], BatchNotes(jobs[k]))
      invariant saved == Successes(outcomes[..i])
      invariant savedCount == |saved| && savedCount + errorCount == i
    {
      sent := sent + [SearchData(jobs[i], nows[i], BatchNotes(jobs[i]))];
      assert outcomes[..i + 1][..i] == outcomes[..i];
      match outcomes[i] {
        case Done(app) =>
          saved := saved + [app];
          savedCount := savedCount + 1;
        case Failed(_) =>
          errorCount := errorCount + 1;
      }
      i := i + 1;
    }
    assert outcomes[..|jobs|] == outcomes;
  }

  // -------------------------------------------------------------- deletion

  /** `Math.max(0, total - 1)` */
  function DecrementTotal(total: nat): nat {
    if total >= 1 then total - 1 else 0
  }

  /** The stored total drifts from the list when the deleted id is absent:
      the list keeps its length, the total still drops. */
  lemma DeleteAbsentIdDrifts(apps: seq<JobApplication>, id: string)
    requires |apps| > 0 && forall i :: 0 <= i < |apps| ==> apps[i].id != id
    ensures |WithoutId(apps, id)| == |apps|
    ensures DecrementTotal(|apps|) != |WithoutId(apps, id)|
  {
    WithoutIdLength(apps, id);
  }

  /** Deleting the one record with an id keeps total and list in step. */
  lemma DeleteUniqueIdTracks(apps: seq<JobApplication>, id: string)
    requires CountId(apps, id) == 1
    ensures DecrementTotal(|apps|) == |WithoutId(apps, id)|
  {
    WithoutIdLength(apps, id);
  }

  // ------------------------------------------------------------ component

  class Dashboard {
    var applications: seq<JobApplication>
    /** Counters as last fetched and then adjusted by the handlers. */
    var stats: Stats
    var error: string
    var loading: bool
    var showModal: bool
    var editing: Option<JobApplication>
    /** The confirmation dialog: open, and the id its confirm button deletes. */
    var confirmOpen: bool
    var confirmTarget: string

    /** The stored total equals the number of records held. */
    predicate TotalTracksList()
      reads this
    {
      stats.total == |applications|
    }

    constructor ()
      ensures applications == [] && stats == Stats(0, 0, 0, 0) && error == "" && loading
      ensures !showModal && editing.None? && !confirmOpen && confirmTarget == ""
      ensures TotalTracksList()
    {
      applications := [];
      stats := Stats(0, 0, 0, 0);
      error := "";
      loading := true;
      showModal := false;
      editing := None;
      confirmOpen := false;
      confirmTarget := "";
    }

    /** `loadApplications`: both lists come from the remote store. */
    method LoadApplications(uid: Option<string>, fetched: Remote<Loaded>)
      modifies this
      ensures uid.None? ==> unchanged(this)
      ensures uid.Some? ==> !loading
      ensures uid.Some? && fetched.Done? ==>
                applications == fetched.value.apps && stats == fetched.value.stats && error == ""
      ensures uid.Some? && fetched.Failed? ==>
                applications == old(applications) && stats == old(stats) &&
                error == ErrorText(fetched.message, "Failed to load applications")
      ensures showModal == old(showModal) && editing == old(editing)
      ensures confirmOpen == old(confirmOpen) && confirmTarget == old(confirmTarget)
    {
      if uid.None? { return; }
      loading := true;
      error := "";
      match fetched {
        case Done(l) =>
          applications := l.apps;
          stats := l.stats;
        case Failed(msg) =>
          error := ErrorText(msg, "Failed to load applications");
      }
      loading := false;
    }

    /** `handleSaveJobFromSearch`: nothing without a user; otherwise the saved
        record goes to the front and the total grows by one. Returns the data sent. */
    method SaveJobFromSearch(job: SearchJob, uid: Option<string>, now: string, added: Remote<JobApplication>)
      returns (call: Option<ApplicationData>)
      modifies this
      ensures uid.None? ==> call.None? && unchanged(this)
      ensures uid.Some? ==> call == Some(SearchData(job, now, SingleNotes(job)))
      ensures uid.Some? && added.Done? ==>
                applications == [added.value] + old(applications) &&
                stats == old(stats).(total := old(stats).total + 1) && error == ""
      ensures uid.Some? && added.Failed? ==>
                applications == old(applications) && stats == old(stats) &&
                error == ErrorText(added.message, "Failed to save job")
      ensures old(TotalTracksList()) ==> TotalTracksList()
      ensures loading == old(loading) && showModal == old(showModal) && editing == old(editing)
      ensures confirmOpen == old(confirmOpen) && confirmTarget == old(confirmTarget)
    {
      if uid.None? { return None; }
      error := "";
      call := Some(SearchData(job, now, SingleNotes(job)));
      match added {
        case Done(app) =>
          applications := [app] + applications;
          stats := stats.(total := stats.total + 1);
        case Failed(msg) =>
          error := ErrorText(msg, "Failed to save job");
      }
    }

    /** `handleSaveMultipleJobsFromSearch`: the saved records, in call order,
        go in front of the list and the total grows by their number. */
    method SaveMultipleJobsFromSearch(jobs: seq<SearchJob>, uid: Option<string>, nows: seq<string>,
                                      outcomes: seq<Remote<JobApplication>>)
      returns (sent: seq<ApplicationData>, savedCount: nat, errorCount: nat)
      requires |nows| == |jobs| && |outcomes| == |jobs|
      modifies this
      ensures uid.None? ==> sent == [] && savedCount == 0 && errorCount == 0 && unchanged(this)
      ensures uid.Some? ==> |sent| == |jobs| && savedCount + errorCount == |jobs| && error == ""
      ensures uid.Some? ==>
                applications == Successes(outcomes) + old(applications) &&
                stats == old(stats).(total := old(stats).total + savedCount) &&
                savedCount == |Successes(outcomes)|
      ensures old(TotalTracksList()) ==> TotalTracksList()
      ensures loading == old(loading) && showModal == old(showModal) && editing == old(editing)
      ensures confirmOpen == old(confirmOpen) && confirmTarget == old(confirmTarget)
    {
      if uid.None? { return [], 0, 0; }
      error := "";
      var saved;
      sent, saved, savedCount, errorCount := SaveEach(jobs, nows, outcomes);
      if |saved| > 0 {
        applications := saved + applications;
        stats := stats.(total := stats.total + |saved|);
      } else {
        assert stats == stats.(total := stats.total + 0);
      }
    }

    /** `handleAddApplication` */
    method AddApplicationClicked()
      modifies this
      ensures showModal && editing.None?
      ensures applications == old(applications) && stats == old(stats) && error == old(error)
      ensures loading == old(loading) && confirmOpen == old(confirmOpen) && confirmTarget == old(confirmTarget)
    {
      editing := None;
      showModal := true;
    }

    /** `handleEditApplication` */
    method EditApplication(app: JobApplication)
      modifies this
      ensures showModal && editing == Some(app)
      ensures applications == old(applications) && stats == old(stats) && error == old(error)
      ensures loading == old(loading) && confirmOpen == old(confirmOpen) && confirmTarget == old(confirmTarget)
    {
      editing := Some(app);
      showModal := true;
    }

    /** `handleSaveApplication`: an edit merges the returned fields into every
        record with the edited id; an addition goes to the front. Returns the
        call it issued: the update of the edited id, or the add for the user. */
    method SaveApplication(uid: Option<string>, data: ApplicationData,
                           updated: Remote<ApplicationPatch>, added: Remote<JobApplication>)
      returns (call: Option<SaveCall>)
      modifies this
      ensures uid.None? ==> call.None? && unchanged(this)
      ensures uid.Some? && old(editing).Some? ==> call == Some(UpdateRecord(old(editing).value.id, data))
      ensures uid.Some? && old(editing).None? ==> call == Some(AddRecord(uid.value, data))
      ensures uid.Some? && old(editing).Some? && updated.Done? ==>
                applications == MergeEdited(old(applications), old(editing).value.id, updated.value) &&
                stats == old(stats) && !showModal && error == ""
      ensures uid.Some? && old(editing).Some? && updated.Failed? ==>
                applications == old(applications) && showModal == old(showModal) &&
                error == ErrorText(updated.message, "Failed to save application")
      ensures uid.Some? && old(editing).None? && added.Done? ==>
                applications == [added.value] + old(applications) &&
                stats == old(stats).(total := old(stats).total + 1) && !showModal && error == ""
      ensures uid.Some? && old(editing).None? && added.Failed? ==>
                applications == old(applications) && showModal == old(showModal) &&
                error == ErrorText(added.message, "Failed to save application")
      ensures old(TotalTracksList()) ==> TotalTracksList()
      ensures loading == old(loading) && editing == old(editing)
      ensures confirmOpen == old(confirmOpen) && confirmTarget == old(confirmTarget)
    {
      if uid.None? { return None; }
      error := "";
      if editing.Some? {
        call := Some(UpdateRecord(editing.value.id, data));
        match updated {
          case Done(p) =>
            applications := MergeEdited(applications, editing.value.id, p);
            showModal := false;
          case Failed(msg) =>
            error := ErrorText(msg, "Failed to save application");
        }
      } else {
        call := Some(AddRecord(uid.value, data));
        match added {
          case Done(app) =>
            applications := [app] + applications;
            stats := stats.(total := stats.total + 1);
            showModal := false;
          case Failed(msg) =>
            error := ErrorText(msg, "Failed to save application");
        }
      }
    }

    /** `handleDeleteApplication`: only opens the confirmation dialog. */
    method DeleteApplicationClicked(id: string)
      modifies this
      ensures confirmOpen && confirmTarget == id
      ensures applications == old(applications) && stats == old(stats) && error == old(error)
      ensures loading == old(loading) && showModal == old(showModal) && editing == old(editing)
    {
      confirmOpen := true;
      confirmTarget := id;
    }

    /** `confirmDeleteApplication`, run by the dialog's confirm button on the
        id `handleDeleteApplication` stored: the dialog closes either way; on
        success every record with the id goes and the total drops by one,
        floored at 0. Returns the id sent to the delete call. */
    method ConfirmDeleteApplication(sent: Remote<()>) returns (deletedId: string)
      modifies this
      ensures deletedId == old(confirmTarget)
      ensures !confirmOpen && confirmTarget == old(confirmTarget)
      ensures sent.Done? ==>
                applications == WithoutId(old(applications), old(confirmTarget)) &&
                stats == old(stats).(total := DecrementTotal(old(stats).total)) && error == ""
      ensures sent.Failed? ==>
                applications == old(applications) && stats == old(stats) &&
                error == ErrorText(sent.message, "Failed to delete application")
      ensures old(TotalTracksList()) && CountId(old(applications), old(confirmTarget)) == 1 ==> TotalTracksList()
      ensures loading == old(loading) && showModal == old(showModal) && editing == old(editing)
    {
      var id := confirmTarget;
      deletedId := id;
      error := "";
      match sent {
        case Done(_) =>
          WithoutIdLength(applications, id);
          applications := WithoutId(applications, id);
          stats := stats.(total := DecrementTotal(stats.total));
        case Failed(msg) =>
          error := ErrorText(msg, "Failed to delete application");
      }
      confirmOpen := false;
    }

    /** `handleUpdateApplicationStatus`: nothing without a user; otherwise the
        update call, then a reload. Returns the id and status it sent. */
    method UpdateApplicationStatus(id: string, newStatus: string, uid: Option<string>,
                                   sent: Remote<()>, reload: Remote<Loaded>) returns (call: Option<(string, string)>)
      modifies this
      ensures uid.None? ==> call.None? && unchanged(this)
      ensures uid.Some? ==> call == Some((id, newStatus))
      ensures uid.Some? && sent.Failed? ==>
                applications == old(applications) && stats == old(stats) &&
                error == ErrorText(sent.message, "Failed to update application status")
      ensures uid.Some? && sent.Done? && reload.Done? ==>
                applications == reload.value.apps && stats == reload.value.stats && error == ""
      ensures uid.Some? && sent.Done? && reload.Failed? ==>
                applications == old(applications) && stats == old(stats) &&
                error == ErrorText(reload.message, "Failed to load applications")
      ensures uid.Some? && sent.Done? ==> !loading
      ensures uid.Some? && sent.Failed? ==> loading == old(loading)
      ensures showModal == old(showModal) && editing == old(editing)
      ensures confirmOpen == old(confirmOpen) && confirmTarget == old(confirmTarget)
    {
      if uid.None? { return None; }
      error := "";
      call := Some((id, newStatus));
      match sent {
        case Done(_) =>
          LoadApplications(uid, reload);
        case Failed(msg) =>
          error := ErrorText(msg, "Failed to update application status");
      }
    }
  }
}
