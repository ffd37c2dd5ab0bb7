/** The job-application record both dashboards keep in memory, the listing a
    job search returns, and the pure helpers both dashboards share: the
    de-duplication key, the first-match lookup, removal by id and the
    derived counters. */
module Applications {
  import opened Wrappers
  import opened JsStrings

  /** A job application or an ephemeral listing. A status is the raw string the
      code compares against ('not_applied', 'applied', 'APPLIED', ...); an absent
      optional text field is "" (the code only tests these for truthiness). */
  datatype JobApplication = JobApplication(
    id: string,
    userId: string,
    companyName: string,
    position: string,
    status: string,
    applicationDate: string,
    jobPostingUrl: string,
    jobDescription: string,
    notes: string,
    createdAt: string,
    updatedAt: string)

  /** One result of the job-search API (or one job handed over from the
      workflow page). A field the API left out is "". */
  datatype SearchJob = SearchJob(
    employerName: string,
    jobTitle: string,
    applyLink: string,
    description: string,
    country: string,
    city: string,
    state: string,
    isRemote: bool,
    employmentType: string)

  /** The fields a dashboard sends to `addApplication` or `updateApplication`
      (the resume and cover-letter urls, always '', are not kept). */
  datatype ApplicationData = ApplicationData(
    companyName: string,
    position: string,
    status: string,
    applicationDate: string,
    jobDescription: string,
    notes: string,
    jobPostingUrl: string)

  /** The four dashboard counters. */
  datatype Stats = Stats(total: nat, interviews: nat, offers: nat, pending: nat)

  const NotApplied := "not_applied"
  const UnknownCompany := "Unknown Company"
  const UnknownPosition := "Unknown Position"

  /** `job.employer_name || 'Unknown Company'` */
  function CompanyOf(job: SearchJob): string {
    if job.employerName != "" then job.employerName else UnknownCompany
  }

  /** `job.job_title || 'Unknown Position'` */
  function PositionOf(job: SearchJob): string {
    if job.jobTitle != "" then job.jobTitle else UnknownPosition
  }

  // ------------------------------------------------------------------ keys

  /** The de-duplication key `company_name + position`: plain concatenation,
      no separator, no trimming, no case folding. */
  function Key(app: JobApplication): string {
    app.companyName + app.position
  }

  /** `new Set(prev.map(app => app.company_name + app.position))` */
  function Keys(apps: seq<JobApplication>): (r: set<string>)
    ensures forall k :: k in r <==> exists i :: 0 <= i < |apps| && Key(apps[i]) == k
  {
    set i | 0 <= i < |apps| :: Key(apps[i])
  }

  /** No two entries share a key (the invariant the dashboard aims for). */
  predicate KeysUnique(apps: seq<JobApplication>) {
    forall i, j :: 0 <= i < j < |apps| ==> Key(apps[i]) != Key(apps[j])
  }

  /** Because the key has no separator, different (company, position) pairs
      can collide: ("ab", "c") and ("a", "bc") give the same key. */
  lemma KeyHasNoSeparator(a: JobApplication, b: JobApplication)
    requires a.companyName == "ab" && a.position == "c"
    requires b.companyName == "a" && b.position == "bc"
    ensures Key(a) == Key(b)
    ensures (a.companyName, a.position) != (b.companyName, b.position)
  {
    assert Key(a) == "abc" == Key(b);
  }

  /** Because the key is not case-folded, "Acme"/"Dev" and "ACME"/"Dev" are
      different keys. */
  lemma KeyIsCaseSensitive(a: JobApplication, b: JobApplication)
    requires a.companyName == "Acme" && b.companyName == "ACME" && a.position == b.position
    ensures Key(a) != Key(b)
  {
    assert Key(a)[1] != Key(b)[1];
  }

  // ---------------------------------------------------------------- lookup

  /** `apps.findIndex(app => app.id === id)`: the first index with that id, or -1. */
  function IndexOfId(apps: seq<JobApplication>, id: string): (k: int)
    ensures -1 <= k < |apps|
    ensures k == -1 <==> forall i :: 0 <= i < |apps| ==> apps[i].id != id
    ensures k >= 0 ==> apps[k].id == id && forall j :: 0 <= j < k ==> apps[j].id != id
  {
    if apps == [] then -1
    else if apps[0].id == id then 0
    else
      var k := IndexOfId(apps[1..], id);
      if k == -1 then -1 else k + 1
  }

  /** `apps.find(app => app.id === id)`: the first entry with that id. */
  function FindById(apps: seq<JobApplication>, id: string): (r: Option<JobApplication>)
    ensures r.None? <==> forall i :: 0 <= i < |apps| ==> apps[i].id != id
    ensures r.Some? ==> r.value in apps && r.value.id == id
  {
    var k := IndexOfId(apps, id);
    if k == -1 then None else Some(apps[k])
  }

  // --------------------------------------------------------------- removal

  /** `apps.filter(app => app.id !== id)` */
  function WithoutId(apps: seq<JobApplication>, id: string): (r: seq<JobApplication>)
    ensures |r| <= |apps|
  {
    if apps == [] then []
    else if apps[0].id == id then WithoutId(apps[1..], id)
    else [apps[0]] + WithoutId(apps[1..], id)
  }

  /** `sub` is an order-preserving subsequence of `s`. */
  predicate IsSubsequence<T(==)>(sub: seq<T>, s: seq<T>)
    decreases |s|
  {
    if sub == [] then true
    else if s == [] then false
    else if sub[0] == s[0] then IsSubsequence(sub[1..], s[1..])
    else IsSubsequence(sub, s[1..])
  }

  lemma {:induction false} SubsequenceOfSelf<T>(s: seq<T>)
    ensures IsSubsequence(s, s)
    decreases |s|
  {
    if s != [] { SubsequenceOfSelf(s[1..]); }
  }

  lemma {:induction false} SubsequenceExtend<T>(sub: seq<T>, s: seq<T>, x: T)
    requires IsSubsequence(sub, s)
    ensures IsSubsequence(sub, [x] + s)
    ensures IsSubsequence([x] + sub, [x] + s)
  {
    assert ([x] + s)[1..] == s;
    assert ([x] + sub)[1..] == sub;
    if sub != [] && sub[0] == x {
      SubsequenceDropFirst(sub, s);
    }
  }

  lemma {:induction false} SubsequenceDropFirst<T>(sub: seq<T>, s: seq<T>)
    requires sub != [] && IsSubsequence(sub, s)
    ensures IsSubsequence(sub[1..], s)
    decreases |s|, 0
  {
    if s != [] {
      if sub[0] == s[0] {
        SubsequenceWeaken(sub[1..], s[1..], s[0]);
      } else {
        SubsequenceDropFirst(sub, s[1..]);
        SubsequenceWeaken(sub[1..], s[1..], s[0]);
      }
    }
  }

  lemma {:induction false} SubsequenceWeaken<T>(sub: seq<T>, s: seq<T>, x: T)
    requires IsSubsequence(sub, s)
    ensures IsSubsequence(sub, [x] + s)
    decreases |s|, 1
  {
    assert ([x] + s)[1..] == s;
    if sub != [] && sub[0] == x {
      SubsequenceDropFirst(sub, s);
    }
  }

  /** Removal by id keeps every other record, in order, and drops every record
      with that id. */
  lemma {:induction false} WithoutIdSpec(apps: seq<JobApplication>, id: string)
    ensures IsSubsequence(WithoutId(apps, id), apps)
    ensures forall x :: x in WithoutId(apps, id) <==> x in apps && x.id != id
    decreases |apps|
  {
    if apps != [] {
      WithoutIdSpec(apps[1..], id);
      assert apps == [apps[0]] + apps[1..];
      if apps[0].id == id {
        SubsequenceWeaken(WithoutId(apps[1..], id), apps[1..], apps[0]);
      } else {
        SubsequenceExtend(WithoutId(apps[1..], id), apps[1..], apps[0]);
      }
    }
  }

  /** Removing an id that no record has changes nothing. */
  lemma {:induction false} WithoutAbsentId(apps: seq<JobApplication>, id: string)
    requires forall i :: 0 <= i < |apps| ==> apps[i].id != id
    ensures WithoutId(apps, id) == apps
    decreases |apps|
  {
    if apps != [] {
      WithoutAbsentId(apps[1..], id);
      assert apps == [apps[0]] + apps[1..];
    }
  }

  /** The number of records carrying `id`. */
  function CountId(apps: seq<JobApplication>, id: string): (r: nat)
    ensures r <= |apps|
    ensures r == 0 <==> forall i :: 0 <= i < |apps| ==> apps[i].id != id
  {
    if apps == [] then 0
    else (if apps[0].id == id then 1 else 0) + CountId(apps[1..], id)
  }

  /** Removal by id shortens the list by the number of records with that id. */
  lemma {:induction false} WithoutIdLength(apps: seq<JobApplication>, id: string)
    ensures |WithoutId(apps, id)| == |apps| - CountId(apps, id)
    decreases |apps|
  {
    if apps != [] { WithoutIdLength(apps[1..], id); }
  }

  // -------------------------------------------------------------- counters

  /** `apps.filter(app => app.status === s).length` */
  function CountStatus(apps: seq<JobApplication>, s: string): (r: nat)
    ensures r <= |apps|
  {
    if apps == [] then 0
    else (if apps[0].status == s then 1 else 0) + CountStatus(apps[1..], s)
  }

  /** The counters computed from a list of records: `pending` counts only the
      status 'applied'. */
  function ComputeStats(apps: seq<JobApplication>): Stats {
    Stats(|apps|, CountStatus(apps, "interview"), CountStatus(apps, "offer"), CountStatus(apps, "applied"))
  }

  lemma {:induction false} CountStatusConcat(a: seq<JobApplication>, b: seq<JobApplication>, s: string)
    ensures CountStatus(a + b, s) == CountStatus(a, s) + CountStatus(b, s)
    decreases |a|
  {
    if a != [] {
      CountStatusConcat(a[1..], b, s);
      assert (a + b)[0] == a[0];
      assert (a + b)[1..] == a[1..] + b;
    } else {
      assert a + b == b;
    }
  }

  /** The counters of two lists side by side are the sums of their counters. */
  lemma StatsOfConcat(a: seq<JobApplication>, b: seq<JobApplication>)
    ensures ComputeStats(a + b).total == ComputeStats(a).total + ComputeStats(b).total
    ensures ComputeStats(a + b).interviews == ComputeStats(a).interviews + ComputeStats(b).interviews
    ensures ComputeStats(a + b).offers == ComputeStats(a).offers + ComputeStats(b).offers
    ensures ComputeStats(a + b).pending == ComputeStats(a).pending + ComputeStats(b).pending
  {
    CountStatusConcat(a, b, "interview");
    CountStatusConcat(a, b, "offer");
    CountStatusConcat(a, b, "applied");
  }

  /** The three status counters count disjoint sets of records, so together
      they never exceed the total. */
  lemma {:induction false} CountersWithinTotal(apps: seq<JobApplication>)
    ensures ComputeStats(apps).interviews + ComputeStats(apps).offers + ComputeStats(apps).pending
            <= ComputeStats(apps).total
    decreases |apps|
  {
    if apps != [] { CountersWithinTotal(apps[1..]); }
  }

  /** Worked example: one record of each of 'applied', 'interview', 'offer'
      and 'not_applied' gives total 4 and 1 for each counter; the record in a
      later stage never counts as pending. */
  lemma StatsExample(a: JobApplication, b: JobApplication, c: JobApplication, d: JobApplication)
    requires a.status == "applied" && b.status == "interview"
    requires c.status == "offer" && d.status == NotApplied
    ensures ComputeStats([a, b, c, d]) == Stats(4, 1, 1, 1)
  {
    var l := [a, b, c, d];
    assert l[1..] == [b, c, d] && l[1..][1..] == [c, d] && l[1..][1..][1..] == [d];
    assert [d][1..] == [];
    assert CountStatus([d], "interview") == 0 && CountStatus([d], "offer") == 0 && CountStatus([d], "applied") == 0;
    assert CountStatus([c, d], "interview") == 0 && CountStatus([c, d], "offer") == 1 && CountStatus([c, d], "applied") == 0;
    assert CountStatus([b, c, d], "interview") == 1 && CountStatus([b, c, d], "offer") == 1 && CountStatus([b, c, d], "applied") == 0;
  }
}
