/** The view logic the applications carousel and the applications table have
    in common (both components contain the same code): the search/status
    filter, the status badge, the scroll index, the page indicators, quick
    apply and the empty-state message. */
module ListView {
  import opened Wrappers
  import opened JsStrings
  import opened Applications

  // ------------------------------------------------------------------ filter

  const AllStatuses := "all"

  /** The lower-cased position or company name contains the lower-cased term. */
  predicate MatchesSearch(app: JobApplication, term: string) {
    Contains(ToLower(app.position), ToLower(term)) || Contains(ToLower(app.companyName), ToLower(term))
  }

  /** `statusFilter === 'all' || app.status === statusFilter` */
  predicate MatchesStatus(app: JobApplication, statusFilter: string) {
    statusFilter == AllStatuses || app.status == statusFilter
  }

  predicate Matches(app: JobApplication, term: string, statusFilter: string) {
    MatchesSearch(app, term) && MatchesStatus(app, statusFilter)
  }

  /** `filteredApplications` */
  function Filter(apps: seq<JobApplication>, term: string, statusFilter: string): (r: seq<JobApplication>)
    ensures |r| <= |apps|
  {
    if apps == [] then []
    else if Matches(apps[0], term, statusFilter) then [apps[0]] + Filter(apps[1..], term, statusFilter)
    else Filter(apps[1..], term, statusFilter)
  }

  /** The filter keeps exactly the matching records, each as often as it
      occurs, in their original order. */
  lemma {:induction false} FilterSpec(apps: seq<JobApplication>, term: string, statusFilter: string)
    ensures IsSubsequence(Filter(apps, term, statusFilter), apps)
    ensures forall x :: x in Filter(apps, term, statusFilter) <==> x in apps && Matches(x, term, statusFilter)
    ensures forall x :: multiset(Filter(apps, term, statusFilter))[x] ==
                        if Matches(x, term, statusFilter) then multiset(apps)[x] else 0
    decreases |apps|
  {
    if apps != [] {
      FilterSpec(apps[1..], term, statusFilter);
      assert apps == [apps[0]] + apps[1..];
      assert multiset(apps) == multiset{apps[0]} + multiset(apps[1..]);
      if Matches(apps[0], term, statusFilter) {
        SubsequenceExtend(Filter(apps[1..], term, statusFilter), apps[1..], apps[0]);
      } else {
        SubsequenceWeaken(Filter(apps[1..], term, statusFilter), apps[1..], apps[0]);
      }
    }
  }

  /** An empty search term with the filter 'all' shows the whole list, unchanged. */
  lemma {:induction false} FilterEmptyTermAll(apps: seq<JobApplication>)
    ensures Filter(apps, "", AllStatuses) == apps
    decreases |apps|
  {
    if apps != [] {
      ContainsEmpty(ToLower(apps[0].position));
      assert ToLower("") == "";
      FilterEmptyTermAll(apps[1..]);
      assert apps == [apps[0]] + apps[1..];
    }
  }

  /** With an empty term and a concrete status, the filter shows as many cards
      as the dashboard counter for that status counts. */
  lemma {:induction false} FilterCountsStatus(apps: seq<JobApplication>, status: string)
    requires status != AllStatuses
    ensures |Filter(apps, "", status)| == CountStatus(apps, status)
    decreases |apps|
  {
    if apps != [] {
      ContainsEmpty(ToLower(apps[0].position));
      assert ToLower("") == "";
      FilterCountsStatus(apps[1..], status);
    }
  }

  lemma LowerUpperChar(c: char)
    ensures LowerChar(UpperChar(c)) == LowerChar(c)
    ensures LowerChar(LowerChar(c)) == LowerChar(c)
  {
  }

  /** The search ignores the case of the term (for ASCII letters): typing it
      in upper or lower case shows the same cards. */
  lemma FilterIgnoresTermCase(apps: seq<JobApplication>, term: string, statusFilter: string)
    ensures Filter(apps, ToUpper(term), statusFilter) == Filter(apps, term, statusFilter)
    ensures Filter(apps, ToLower(term), statusFilter) == Filter(apps, term, statusFilter)
  {
    assert ToLower(ToUpper(term)) == ToLower(term) by {
      forall i | 0 <= i < |term| ensures ToLower(ToUpper(term))[i] == ToLower(term)[i] {
        LowerUpperChar(term[i]);
      }
    }
    assert ToLower(ToLower(term)) == ToLower(term) by {
      forall i | 0 <= i < |term| ensures ToLower(ToLower(term))[i] == ToLower(term)[i] {
        LowerUpperChar(term[i]);
      }
    }
    FilterSameLowerTerm(apps, ToUpper(term), term, statusFilter);
    FilterSameLowerTerm(apps, ToLower(term), term, statusFilter);
  }

  lemma {:induction false} FilterSameLowerTerm(apps: seq<JobApplication>, t1: string, t2: string, statusFilter: string)
    requires ToLower(t1) == ToLower(t2)
    ensures Filter(apps, t1, statusFilter) == Filter(apps, t2, statusFilter)
    decreases |apps|
  {
    if apps != [] { FilterSameLowerTerm(apps[1..], t1, t2, statusFilter); }
  }

  /** The message shown when no card passes the filter. */
  function EmptyStateMessage(term: string, statusFilter: string): (r: string)
    ensures r == "No applications match your filters." <==> term != "" || statusFilter != AllStatuses
  {
    if term != "" || statusFilter != AllStatuses then "No applications match your filters."
    else "No applications yet. Add your first application!"
  }

  // ------------------------------------------------------------ status badge

  const BlueBadge := "bg-blue-100 text-blue-800 dark:bg-blue-900/30 dark:text-blue-400"
  const YellowBadge := "bg-yellow-100 text-yellow-800 dark:bg-yellow-900/30 dark:text-yellow-400"
  const GreenBadge := "bg-green-100 text-green-800 dark:bg-green-900/30 dark:text-green-400"
  const RedBadge := "bg-red-100 text-red-800 dark:bg-red-900/30 dark:text-red-400"
  const GrayBadge := "bg-gray-100 text-gray-800 dark:bg-gray-700 dark:text-gray-300"

  /** `getStatusColor` */
  function StatusColor(status: string): (r: string)
    ensures r == GrayBadge <==> status !in {"applied", "interview", "offer", "rejected"}
  {
    match status
    case "applied" => BlueBadge
    case "interview" => YellowBadge
    case "offer" => GreenBadge
    case "rejected" => RedBadge
    case _ => GrayBadge
  }

  /** The status a card displays: `app.status || 'not_applied'`. */
  function DisplayStatus(status: string): string {
    if status != "" then status else NotApplied
  }

  /** `(status || 'not_applied').replace('_', ' ').toUpperCase()` */
  function StatusLabel(status: string): string {
    ToUpper(ReplaceFirst(DisplayStatus(status), '_', ' '))
  }

  /** Only the first underscore becomes a space; the label is then upper-cased. */
  lemma StatusLabelSpec(status: string, k: nat)
    requires FirstAt(DisplayStatus(status), '_', k)
    ensures StatusLabel(status) == ToUpper(DisplayStatus(status)[..k]) + " " + ToUpper(DisplayStatus(status)[k + 1..])
  {
    var d := DisplayStatus(status);
    ReplaceFirstSpec(d, '_', ' ');
    var r := d[..k] + [' '] + d[k + 1..];
    assert ToUpper(r) == ToUpper(d[..k]) + " " + ToUpper(d[k + 1..]);
  }

  /** 'not_applied' and the missing status both read "NOT APPLIED". */
  lemma StatusLabelNotApplied()
    ensures StatusLabel("") == StatusLabel("not_applied") == ToUpper("not applied")
  {
    assert FirstAt("not_applied", '_', 3);
    ReplaceFirstSpec("not_applied", '_', ' ');
  }

  /** A status with two underscores keeps the second one. */
  lemma StatusLabelSecondUnderscoreKept()
    ensures StatusLabel("on_hold_x") == ToUpper("on hold_x")
  {
    assert FirstAt("on_hold_x", '_', 2);
    ReplaceFirstSpec("on_hold_x", '_', ' ');
  }

  // ------------------------------------------------------------ scroll index

  /** The last index the carousel scrolls to: `Math.max(0, n - 3)`. */
  function MaxIndex(n: nat): nat {
    if n >= 3 then n - 3 else 0
  }

  /** `Math.max(0, currentIndex - 1)` */
  function StepLeft(i: nat): nat {
    if i >= 1 then i - 1 else 0
  }

  /** `Math.min(maxIndex, currentIndex + 1)` */
  function StepRight(i: nat, n: nat): nat {
    Min(MaxIndex(n), i + 1)
  }

  /** Navigation arrows and indicators are rendered only for more than three cards. */
  predicate NavigationShown(n: nat) { n > 3 }
  predicate LeftDisabled(i: nat) { i == 0 }
  predicate RightDisabled(i: nat, n: nat) { i >= MaxIndex(n) }

  /** Scrolling right stays within `[0, max(0, n-3)]` and moves by at most one. */
  lemma StepRightBounded(i: nat, n: nat)
    ensures StepRight(i, n) <= MaxIndex(n)
    ensures StepRight(i, n) <= i + 1
    ensures i < MaxIndex(n) ==> StepRight(i, n) == i + 1
    ensures RightDisabled(i, n) ==> StepRight(i, n) == MaxIndex(n)
  {
  }

  /** Inside the range, one step left undoes one step right and vice versa. */
  lemma StepsAreInverse(i: nat, n: nat)
    ensures i < MaxIndex(n) ==> StepLeft(StepRight(i, n)) == i
    ensures 0 < i <= MaxIndex(n) ==> StepRight(StepLeft(i), n) == i
    ensures StepLeft(i) <= i && (LeftDisabled(i) <==> StepLeft(i) == i)
  {
  }

  /** `Math.ceil(n / 3)`: the number of indicator dots. */
  function IndicatorCount(n: nat): (r: nat)
    ensures n > 0 ==> 3 * (r - 1) < n <= 3 * r
    ensures n == 0 ==> r == 0
  {
    (n + 2) / 3
  }

  /** `Math.floor(currentIndex / 3)`: the dot drawn as active. */
  function ActiveIndicator(i: nat): (r: nat)
    ensures 3 * r <= i < 3 * r + 3
  {
    i / 3
  }

  /** While the index stays in range, exactly one drawn dot is active. */
  lemma ActiveIndicatorDrawn(i: nat, n: nat)
    requires NavigationShown(n) && i <= MaxIndex(n)
    ensures ActiveIndicator(i) < IndicatorCount(n)
  {
  }

  /** Clicking dot k sets the index to k itself (not 3k): it stays within
      range, but for k >= 1 the highlighted dot becomes k / 3, not k. */
  lemma IndicatorClick(k: nat, n: nat)
    requires NavigationShown(n) && k < IndicatorCount(n)
    ensures k <= MaxIndex(n)
    ensures ActiveIndicator(k) == k / 3
    ensures k >= 1 ==> ActiveIndicator(k) != k
  {
  }

  /** The carousel's `currentIndex` state. */
  class ScrollPosition {
    var currentIndex: nat

    /** Within range for a list of `n` filtered cards. */
    predicate InRange(n: nat)
      reads this
    {
      currentIndex <= MaxIndex(n)
    }

    constructor ()
      ensures currentIndex == 0
      ensures forall n: nat :: InRange(n)
    {
      currentIndex := 0;
    }

    /** `scrollLeft`: does nothing while the scroll container is not mounted. */
    method ScrollLeft(containerMounted: bool)
      modifies this
      ensures currentIndex == if containerMounted then StepLeft(old(currentIndex)) else old(currentIndex)
      ensures forall n: nat :: old(InRange(n)) ==> InRange(n)
    {
      if containerMounted {
        currentIndex := StepLeft(currentIndex);
      }
    }

    /** `scrollRight` over `n` filtered cards. */
    method ScrollRight(containerMounted: bool, n: nat)
      modifies this
      ensures currentIndex == if containerMounted then StepRight(old(currentIndex), n) else old(currentIndex)
      ensures containerMounted ==> InRange(n)
    {
      if containerMounted {
        currentIndex := StepRight(currentIndex, n);
      }
    }

    /** Clicking indicator dot `k` of `n` filtered cards. */
    method SelectIndicator(k: nat, n: nat)
      requires NavigationShown(n) && k < IndicatorCount(n)
      modifies this
      ensures currentIndex == k && InRange(n)
    {
      currentIndex := k;
      IndicatorClick(k, n);
    }
  }

  // ------------------------------------------------------------- quick apply

  /** What `handleQuickApply` does: the status update it requests (id and new
      status), and the url it opens in a new tab. */
  datatype StatusRequest = StatusRequest(id: string, newStatus: string)
  datatype QuickApplyEffect = QuickApplyEffect(statusUpdate: Option<StatusRequest>, openedUrl: Option<string>)

  /** `handleQuickApply`; `hasHandler` says whether `onUpdateApplicationStatus` was passed. */
  function QuickApply(app: JobApplication, hasHandler: bool): (r: QuickApplyEffect)
    ensures r.openedUrl.Some? <==> app.jobPostingUrl != ""
    ensures r.openedUrl.Some? ==> r.openedUrl.value == app.jobPostingUrl
    ensures r.statusUpdate.Some? <==> app.jobPostingUrl != "" && app.status == NotApplied && hasHandler
    ensures r.statusUpdate.Some? ==> r.statusUpdate.value == StatusRequest(app.id, "applied")
  {
    if app.jobPostingUrl != "" then
      QuickApplyEffect(if app.status == NotApplied && hasHandler then Some(StatusRequest(app.id, "applied")) else None,
                       Some(app.jobPostingUrl))
    else QuickApplyEffect(None, None)
  }

  // ---------------------------------------------------------------- previews

  /** `{text && <p>{text.substring(0, n)}...</p>}`: nothing for an empty text,
      otherwise the first `n` characters followed by "...". */
  function Preview(text: string, n: nat): (r: Option<string>)
    ensures r.None? <==> text == ""
    ensures r.Some? ==> |r.value| == Min(n, |text|) + 3
    ensures r.Some? ==> r.value[..Min(n, |text|)] == text[..Min(n, |text|)]
    ensures r.Some? ==> r.value[Min(n, |text|)..] == "..."
  {
    if text == "" then None else Some(Take(text, n) + "...")
  }

  /** `{text && <p>"{text.substring(0, n)}..."</p>}`: the same preview inside
      double quotes. */
  function QuotedPreview(text: string, n: nat): (r: Option<string>)
    ensures r.None? <==> text == ""
    ensures r.Some? ==> |r.value| == Min(n, |text|) + 5
    ensures r.Some? ==> r.value[0] == '"' && r.value[|r.value| - 1] == '"'
    ensures r.Some? ==> r.value[1..1 + Min(n, |text|)] == text[..Min(n, |text|)]
    ensures r.Some? ==> r.value[1 + Min(n, |text|)..] == "...\""
  {
    match Preview(text, n)
    case None => None
    case Some(p) => Some("\"" + p + "\"")
  }
}
