/** The original dashboard: remote applications next to ephemeral listings
    (jobs handed over by the workflow page or saved from a job search), with
    counters derived from both lists, and the status update that promotes a
    listing to a stored application. */
module DashboardMain {
  import opened Wrappers
  import opened JsStrings
  import opened Applications
  import ListView

  const JobListingPrefix := "job-listing-"
  const WorkflowPrefix := "workflow-"
  const TempPrefix := "temp-"

  /** The two id prefixes that mark an ephemeral listing the status handler may promote. */
  predicate IsListingId(id: string) {
    StartsWith(id, JobListingPrefix) || StartsWith(id, WorkflowPrefix)
  }

  /** The 'selectedJobs' entry of local storage: absent, not an array of jobs
      (so the conversion throws), or the jobs the workflow page selected. */
  datatype Handoff = NoEntry | Unparsable | Jobs(jobs: seq<SearchJob>)

  /** The remote call a status change issues. */
  datatype StatusCall =
    | AddApplication(uid: string, data: ApplicationData)
    | UpdateStatus(id: string, status: string)

  /** The remote call the application modal's save issues. */
  datatype SaveCall =
    | UpdateRecord(id: string, data: ApplicationData)
    | AddRecord(uid: string, data: ApplicationData)

  // ------------------------------------------------------------ listings

  /** `workflow-${Date.now()}-${index}` */
  function WorkflowId(t: nat, index: nat): string {
    WorkflowPrefix + NatToString(t) + "-" + NatToString(index)
  }

  /** One job of the hand-off as a display listing; its date is the day part
      of the ISO timestamp `now`. */
  function WorkflowListing(job: SearchJob, uid: string, t: nat, index: nat, now: string): JobApplication {
    JobApplication(WorkflowId(t, index), uid, CompanyOf(job), PositionOf(job), NotApplied,
                   BeforeFirst(now, 'T'), job.applyLink, job.description, "", now, now)
  }

  function WorkflowListings(jobs: seq<SearchJob>, uid: string, t: nat, now: string): (r: seq<JobApplication>)
    ensures |r| == |jobs|
    ensures forall i :: 0 <= i < |jobs| ==> r[i] == WorkflowListing(jobs[i], uid, t, i, now)
  {
    seq(|jobs|, i requires 0 <= i < |jobs| => WorkflowListing(jobs[i], uid, t, i, now))
  }

  lemma WorkflowIdInjective(t: nat, i: nat, j: nat)
    ensures WorkflowId(t, i) == WorkflowId(t, j) ==> i == j
  {
    var p := WorkflowPrefix + NatToString(t) + "-";
    if WorkflowId(t, i) == WorkflowId(t, j) {
      assert WorkflowId(t, i)[|p|..] == NatToString(i);
      assert WorkflowId(t, j)[|p|..] == NatToString(j);
      NatToStringInjective(i, j);
    }
  }

  /** The listings of one hand-off have pairwise distinct ids, all promotable,
      all 'not_applied', and their date holds no time part. */
  lemma WorkflowListingsSpec(jobs: seq<SearchJob>, uid: string, t: nat, now: string)
    ensures forall i, j :: 0 <= i < j < |jobs| ==>
              WorkflowListings(jobs, uid, t, now)[i].id != WorkflowListings(jobs, uid, t, now)[j].id
    ensures forall x :: x in WorkflowListings(jobs, uid, t, now) ==>
              IsListingId(x.id) && x.status == NotApplied && 'T' !in x.applicationDate
  {
    var r := WorkflowListings(jobs, uid, t, now);
    forall i, j | 0 <= i < j < |jobs| ensures r[i].id != r[j].id {
      WorkflowIdInjective(t, i, j);
    }
    forall x | x in r ensures IsListingId(x.id) {
      var i :| 0 <= i < |r| && r[i] == x;
      assert x.id[..|WorkflowPrefix|] == WorkflowPrefix;
    }
  }

  /** A job saved from the search results. */
  function SearchListing(job: SearchJob, uid: string, id: string, now: string): JobApplication {
    JobApplication(id, uid, CompanyOf(job), PositionOf(job), NotApplied, now, job.applyLink, job.description,
                   "Added from job search: " + (if job.country != "" then job.country else "Unknown location"),
                   now, now)
  }

  /** Ids of saved search results start with 'temp-', so the status handler
      never promotes them: a status change for one is sent to `updateApplication`. */
  lemma TempIdsAreNotListings(rest: string)
    ensures !IsListingId(TempPrefix + rest)
  {
    assert (TempPrefix + rest)[0] == 't';
    assert (TempPrefix + rest)[1] == 'e';
  }

  /** Append the listing unless its key is already present. */
  function AppendIfNew(listings: seq<JobApplication>, app: JobApplication): (r: seq<JobApplication>)
    ensures Keys(r) == Keys(listings) + {Key(app)}
    ensures KeysUnique(listings) ==> KeysUnique(r)
    ensures Key(app) in Keys(listings) ==> r == listings
    ensures Key(app) !in Keys(listings) ==> r == listings + [app]
  {
    if Key(app) in Keys(listings) then listings
    else
      KeysAppend(listings, app);
      listings + [app]
  }

  lemma KeysAppend(listings: seq<JobApplication>, app: JobApplication)
    ensures Keys(listings + [app]) == Keys(listings) + {Key(app)}
  {
    var r := listings + [app];
    forall k | k in Keys(r) ensures k in Keys(listings) + {Key(app)} {
      var i :| 0 <= i < |r| && Key(r[i]) == k;
      if i < |listings| { assert r[i] == listings[i]; }
    }
    forall k | k in Keys(listings) + {Key(app)} ensures k in Keys(r) {
      if k == Key(app) {
        assert r[|listings|] == app;
      } else {
        var i :| 0 <= i < |listings| && Key(listings[i]) == k;
        assert r[i] == listings[i];
      }
    }
  }

  /** The entries of `batch` whose key is not in `existing`, in order. */
  function NewByKey(batch: seq<JobApplication>, existing: set<string>): (r: seq<JobApplication>)
    ensures forall x :: x in r <==> x in batch && Key(x) !in existing
    ensures forall x :: multiset(r)[x] == if Key(x) in existing then 0 else multiset(batch)[x]
    ensures |r| <= |batch|
  {
    if batch == [] then []
    else
      assert batch == [batch[0]] + batch[1..];
      if Key(batch[0]) !in existing then [batch[0]] + NewByKey(batch[1..], existing)
      else NewByKey(batch[1..], existing)
  }

  lemma {:induction false} NewByKeyOrder(batch: seq<JobApplication>, existing: set<string>)
    ensures IsSubsequence(NewByKey(batch, existing), batch)
    ensures KeysUnique(batch) ==> KeysUnique(NewByKey(batch, existing))
    decreases |batch|
  {
    if batch != [] {
      NewByKeyOrder(batch[1..], existing);
      assert batch == [batch[0]] + batch[1..];
      if Key(batch[0]) !in existing {
        SubsequenceExtend(NewByKey(batch[1..], existing), batch[1..], batch[0]);
        if KeysUnique(batch) {
          var r := NewByKey(batch, existing);
          forall i, j | 0 <= i < j < |r| ensures Key(r[i]) != Key(r[j]) {
            if i == 0 {
              assert r[j] in batch[1..];
            } else {
              assert r[i] == NewByKey(batch[1..], existing)[i - 1];
              assert r[j] == NewByKey(batch[1..], existing)[j - 1];
            }
          }
        }
      } else {
        SubsequenceWeaken(NewByKey(batch[1..], existing), batch[1..], batch[0]);
      }
    }
  }

  /** The batch save: only entries whose key was not present before the call
      are appended, in batch order; duplicates inside the batch itself are all
      kept, each as often as it occurs there. */
  function AppendNew(listings: seq<JobApplication>, batch: seq<JobApplication>): (r: seq<JobApplication>)
    ensures |listings| <= |r| && r[..|listings|] == listings
    ensures r[|listings|..] == NewByKey(batch, Keys(listings))
    ensures forall x :: x in r[|listings|..] <==> x in batch && Key(x) !in Keys(listings)
    ensures forall x :: multiset(r[|listings|..])[x] == if Key(x) in Keys(listings) then 0 else multiset(batch)[x]
    ensures IsSubsequence(r[|listings|..], batch)
  {
    NewByKeyOrder(batch, Keys(listings));
    var added := NewByKey(batch, Keys(listings));
    assert (listings + added)[|listings|..] == added;
    listings + added
  }

  /** A batch whose own keys are distinct keeps the listing keys unique. */
  lemma AppendNewKeepsKeysUnique(listings: seq<JobApplication>, batch: seq<JobApplication>)
    requires KeysUnique(listings) && KeysUnique(batch)
    ensures KeysUnique(AppendNew(listings, batch))
  {
    var added := NewByKey(batch, Keys(listings));
    NewByKeyOrder(batch, Keys(listings));
    var r := listings + added;
    forall i, j | 0 <= i < j < |r| ensures Key(r[i]) != Key(r[j]) {
      if j >= |listings| && i < |listings| {
        assert r[j] == added[j - |listings|];
        assert r[j] in added;
      } else if i >= |listings| {
        assert r[i] == added[i - |listings|] && r[j] == added[j - |listings|];
      }
    }
  }

  /** Saving the same job twice in one batch yields two listings with one key. */
  lemma BatchKeepsInnerDuplicates(a: JobApplication, b: JobApplication)
    requires Key(a) == Key(b)
    ensures AppendNew([], [a, b]) == [a, b]
    ensures !KeysUnique(AppendNew([], [a, b]))
  {
    var none: seq<JobApplication> := [];
    assert Keys(none) == {};
    assert [a, b][1..] == [b];
    assert [b][1..] == [];
    assert NewByKey([b], {}) == [b];
    assert NewByKey([a, b], {}) == [a, b];
    var r := AppendNew(none, [a, b]);
    assert r == r[|none|..];
    assert Key(r[0]) == Key(r[1]);
  }

  /** `temp-${Date.now()}-${Math.random()}`; the random draw is a parameter. */
  function BatchListings(jobs: seq<SearchJob>, uid: string, t: nat, draws: seq<string>, now: string): (r: seq<JobApplication>)
    requires |draws| == |jobs|
    ensures |r| == |jobs|
    ensures forall i :: 0 <= i < |jobs| ==>
              r[i] == SearchListing(jobs[i], uid, TempPrefix + NatToString(t) + "-" + draws[i], now)
  {
    seq(|jobs|, i requires 0 <= i < |jobs| => SearchListing(jobs[i], uid, TempPrefix + NatToString(t) + "-" + draws[i], now))
  }

  // ------------------------------------------------------------ promotion

  /** The application created from a promoted listing. */
  function PromotionData(listing: JobApplication, now: string): ApplicationData {
    ApplicationData(listing.companyName, listing.position, "APPLIED", now,
                    listing.jobDescription, listing.notes, listing.jobPostingUrl)
  }

  /** Which remote call `handleUpdateApplicationStatus` makes: a listing with
      a promotable id is added as an application only for a signed-in user and
      the exact status 'APPLIED'; everything else is a status update. */
  function StatusCallFor(listings: seq<JobApplication>, id: string, newStatus: string,
                         uid: Option<string>, now: string): (c: StatusCall)
    ensures c.AddApplication? <==>
            IsListingId(id) && FindById(listings, id).Some? && uid.Some? && newStatus == "APPLIED"
    ensures c.AddApplication? ==> c.data == PromotionData(FindById(listings, id).value, now) && c.uid == uid.value
    ensures c.UpdateStatus? ==> c == UpdateStatus(id, newStatus)
  {
    var found := FindById(listings, id);
    if IsListingId(id) && found.Some? && uid.Some? && newStatus == "APPLIED" then
      AddApplication(uid.value, PromotionData(found.value, now))
    else UpdateStatus(id, newStatus)
  }

  /** The promoted application carries the listing's company, position,
      description, notes and url, with the upper-case status 'APPLIED' (which
      the 'pending' counter, counting 'applied', does not count). */
  lemma PromotionKeepsListing(listings: seq<JobApplication>, id: string, uid: Option<string>, now: string)
    requires StatusCallFor(listings, id, "APPLIED", uid, now).AddApplication?
    ensures var d := StatusCallFor(listings, id, "APPLIED", uid, now).data;
            exists x :: x in listings && x.id == id &&
              d.companyName == x.companyName && d.position == x.position &&
              d.jobDescription == x.jobDescription && d.notes == x.notes &&
              d.jobPostingUrl == x.jobPostingUrl && d.status != "applied"
  {
    var x := FindById(listings, id).value;
    assert x in listings;
  }

  /** Quick apply asks for the lower-case status 'applied', so a card clicked
      in the carousel is never promoted: the request always becomes a plain
      status update, even for a workflow listing. */
  lemma QuickApplyNeverPromotes(listings: seq<JobApplication>, app: JobApplication, uid: Option<string>, now: string)
    requires ListView.QuickApply(app, true).statusUpdate.Some?
    ensures var req := ListView.QuickApply(app, true).statusUpdate.value;
            StatusCallFor(listings, req.id, req.newStatus, uid, now) == UpdateStatus(app.id, "applied")
  {
  }

  // ------------------------------------------------------------ component

  /** The component's state. Counters are not stored: an effect recomputes
      them from both lists after every change, so `Stats()` is that value. */
  class Dashboard {
    var applications: seq<JobApplication>
    var combinedListings: seq<JobApplication>
    var error: string
    var loading: bool
    var showModal: bool
    var editing: Option<JobApplication>
    /** The 'selectedJobs' local-storage entry. */
    var handoff: Handoff

    constructor (handoff: Handoff)
      ensures applications == [] && combinedListings == [] && error == "" && loading
      ensures !showModal && editing.None? && this.handoff == handoff
    {
      applications := [];
      combinedListings := [];
      error := "";
      loading := true;
      showModal := false;
      editing := None;
      this.handoff := handoff;
    }

    /** The four counters over applications and listings together. */
    function Stats(): (r: Stats)
      reads this
      ensures r.total == |applications| + |combinedListings|
      ensures r.interviews == CountStatus(applications, "interview") + CountStatus(combinedListings, "interview")
      ensures r.offers == CountStatus(applications, "offer") + CountStatus(combinedListings, "offer")
      ensures r.pending == CountStatus(applications, "applied") + CountStatus(combinedListings, "applied")
    {
      StatsOfConcat(applications, combinedListings);
      ComputeStats(applications + combinedListings)
    }

    /** `loadApplications`; `fetched` is the joint outcome of the `Promise.all`
        over `getUserApplications` and `getApplicationStats`: the applications
        when both resolve, and `Failed` with the first rejection's message when
        either rejects. */
    method LoadApplications(uid: Option<string>, fetched: Remote<seq<JobApplication>>)
      modifies this
      ensures uid.None? ==> unchanged(this)
      ensures uid.Some? ==> !loading
      ensures uid.Some? && fetched.Done? ==> applications == fetched.value && error == ""
      ensures uid.Some? && fetched.Failed? ==>
                applications == old(applications) && error == ErrorText(fetched.message, "Failed to load applications")
      ensures combinedListings == old(combinedListings) && handoff == old(handoff)
      ensures showModal == old(showModal) && editing == old(editing)
    {
      if uid.None? { return; }
      loading := true;
      error := "";
      match fetched {
        case Done(apps) => applications := apps;
        case Failed(msg) => error := ErrorText(msg, "Failed to load applications");
      }
      loading := false;
    }

    /** `loadSelectedJobsFromWorkflow` at time `t` (milliseconds) and ISO time `now`. */
    method LoadSelectedJobsFromWorkflow(uid: string, t: nat, now: string)
      modifies this
      ensures !handoff.Jobs?
      ensures old(handoff).Jobs? ==>
                combinedListings == old(combinedListings) + WorkflowListings(old(handoff).jobs, uid, t, now) &&
                handoff == NoEntry
      ensures !old(handoff).Jobs? ==> combinedListings == old(combinedListings) && handoff == old(handoff)
      ensures applications == old(applications) && error == old(error) && loading == old(loading)
      ensures showModal == old(showModal) && editing == old(editing)
    {
      match handoff
      case Jobs(jobs) =>
        combinedListings := combinedListings + WorkflowListings(jobs, uid, t, now);
        handoff := NoEntry;
      case _ =>
    }

    /** `handleSaveJobFromSearch` at time `t` and ISO time `now`. */
    method SaveJobFromSearch(job: SearchJob, uid: string, t: nat, now: string)
      modifies this
      ensures combinedListings == AppendIfNew(old(combinedListings), SearchListing(job, uid, TempPrefix + NatToString(t), now))
      ensures KeysUnique(old(combinedListings)) ==> KeysUnique(combinedListings)
      ensures applications == old(applications) && error == old(error) && loading == old(loading)
      ensures showModal == old(showModal) && editing == old(editing) && handoff == old(handoff)
    {
      combinedListings := AppendIfNew(combinedListings, SearchListing(job, uid, TempPrefix + NatToString(t), now));
    }

    /** `handleSaveMultipleJobsFromSearch`; `draws[i]` renders the i-th `Math.random()`. */
    method SaveMultipleJobsFromSearch(jobs: seq<SearchJob>, uid: string, t: nat, draws: seq<string>, now: string)
      requires |draws| == |jobs|
      modifies this
      ensures combinedListings == AppendNew(old(combinedListings), BatchListings(jobs, uid, t, draws, now))
      ensures applications == old(applications) && error == old(error) && loading == old(loading)
      ensures showModal == old(showModal) && editing == old(editing) && handoff == old(handoff)
    {
      combinedListings := AppendNew(combinedListings, BatchListings(jobs, uid, t, draws, now));
    }

    /** `handleAddApplication` */
    method AddApplicationClicked()
      modifies this
      ensures showModal && editing.None?
      ensures applications == old(applications) && combinedListings == old(combinedListings)
      ensures error == old(error) && loading == old(loading) && handoff == old(handoff)
    {
      editing := None;
      showModal := true;
    }

    /** `handleEditApplication` */
    method EditApplication(app: JobApplication)
      modifies this
      ensures showModal && editing == Some(app)
      ensures applications == old(applications) && combinedListings == old(combinedListings)
      ensures error == old(error) && loading == old(loading) && handoff == old(handoff)
    {
      editing := Some(app);
      showModal := true;
    }

    /** `handleSaveApplication`: nothing without a user; otherwise the update
        (when editing) or add call, then on success the modal closes and the
        list reloads. Returns the call it issued. */
    method SaveApplication(uid: Option<string>, data: ApplicationData, sent: Remote<()>,
                           reload: Remote<seq<JobApplication>>) returns (call: Option<SaveCall>)
      modifies this
      ensures uid.None? ==> call.None? && unchanged(this)
      ensures uid.Some? && old(editing).Some? ==> call == Some(UpdateRecord(old(editing).value.id, data))
      ensures uid.Some? && old(editing).None? ==> call == Some(AddRecord(uid.value, data))
      ensures uid.Some? && sent.Failed? ==>
                error == ErrorText(sent.message, "Failed to save application") && showModal == old(showModal) &&
                applications == old(applications)
      ensures uid.Some? && sent.Done? ==> !showModal && !loading
      ensures uid.Some? && sent.Failed? ==> loading == old(loading)
      ensures uid.Some? && sent.Done? && reload.Done? ==> applications == reload.value && error == ""
      ensures uid.Some? && sent.Done? && reload.Failed? ==>
                applications == old(applications) && error == ErrorText(reload.message, "Failed to load applications")
      ensures combinedListings == old(combinedListings) && handoff == old(handoff) && editing == old(editing)
    {
      if uid.None? { return None; }
      error := "";
      call := if editing.Some? then Some(UpdateRecord(editing.value.id, data)) else Some(AddRecord(uid.value, data));
      match sent
      case Failed(msg) =>
        error := ErrorText(msg, "Failed to save application");
      case Done(_) =>
        showModal := false;
        LoadApplications(uid, reload);
    }

    /** `handleDeleteApplication`: only after the user confirms; only the remote
        list is affected, a listing stays where it is. Returns the id it sent. */
    method DeleteApplication(id: string, confirmed: bool, uid: Option<string>, sent: Remote<()>,
                             reload: Remote<seq<JobApplication>>) returns (call: Option<string>)
      modifies this
      ensures !confirmed ==> call.None? && unchanged(this)
      ensures confirmed ==> call == Some(id)
      ensures confirmed && sent.Failed? ==>
                error == ErrorText(sent.message, "Failed to delete application") && applications == old(applications)
      ensures confirmed && sent.Done? && uid.Some? && reload.Done? ==> applications == reload.value && error == ""
      ensures confirmed && sent.Done? && uid.Some? && reload.Failed? ==>
                applications == old(applications) && error == ErrorText(reload.message, "Failed to load applications")
      ensures confirmed && sent.Done? && uid.None? ==> applications == old(applications) && error == ""
      ensures loading == (if confirmed && sent.Done? && uid.Some? then false else old(loading))
      ensures combinedListings == old(combinedListings) && handoff == old(handoff)
      ensures showModal == old(showModal) && editing == old(editing)
    {
      if !confirmed { return None; }
      error := "";
      call := Some(id);
      match sent
      case Failed(msg) =>
        error := ErrorText(msg, "Failed to delete application");
      case Done(_) =>
        LoadApplications(uid, reload);
    }

    /** `handleUpdateApplicationStatus`: the call it issued (see `StatusCallFor`)
        and its effect. A promotion that succeeds removes the listing. */
    method UpdateApplicationStatus(id: string, newStatus: string, uid: Option<string>, now: string,
                                   sent: Remote<()>, reload: Remote<seq<JobApplication>>) returns (call: StatusCall)
      modifies this
      ensures call == StatusCallFor(old(combinedListings), id, newStatus, uid, now)
      ensures sent.Failed? ==>
                error == ErrorText(sent.message, "Failed to update application status") &&
                applications == old(applications) && combinedListings == old(combinedListings)
      ensures sent.Done? && call.AddApplication? ==> combinedListings == WithoutId(old(combinedListings), id)
      ensures sent.Done? && call.UpdateStatus? ==> combinedListings == old(combinedListings)
      ensures sent.Done? && uid.Some? && reload.Done? ==> applications == reload.value && error == ""
      ensures sent.Done? && uid.Some? && reload.Failed? ==>
                applications == old(applications) && error == ErrorText(reload.message, "Failed to load applications")
      ensures sent.Done? && uid.None? ==> applications == old(applications) && error == ""
      ensures loading == (if sent.Done? && uid.Some? then false else old(loading))
      ensures handoff == old(handoff) && showModal == old(showModal) && editing == old(editing)
    {
      error := "";
      call := StatusCallFor(combinedListings, id, newStatus, uid, now);
      match sent
      case Failed(msg) =>
        error := ErrorText(msg, "Failed to update application status");
      case Done(_) =>
        if call.AddApplication? {
          combinedListings := WithoutId(combinedListings, id);
        }
        LoadApplications(uid, reload);
    }
  }
}
