/** The user-profile row both profile services read and write, the input
    record they accept, and the query result of a single-row select. */
module Profiles {
  import opened Wrappers

  /** The nullable text columns of a profile. */
  datatype TextField =
    | FullName | Phone | Location | ResumeUrl | LinkedinUrl | GithubUrl | PortfolioUrl
    | CurrentJobTitle | Bio | AvatarUrl | ExpectedSalary | CurrentCtc | WorkAuthorization
    | NoticePeriod | Availability | TwitterUrl | DribbbleUrl | MediumUrl | ReferenceContacts

  /** `CreateProfileData`: a text field is present in `texts` when the caller
      gave it a string (possibly ""), absent when undefined or null; the
      others are None when undefined or null. `jobPreferences` is an opaque
      serialised value. */
  datatype ProfileData = ProfileData(
    texts: map<TextField, string>,
    yearsOfExperience: Option<int>,
    skills: Option<seq<string>>,
    willingnessToRelocate: Option<bool>,
    jobPreferences: Option<string>)

  /** A profile row: a text column is in `texts` exactly when it is not null. */
  datatype Profile = Profile(
    id: string,
    email: string,
    texts: map<TextField, string>,
    yearsOfExperience: int,
    skills: Option<seq<string>>,
    willingnessToRelocate: bool,
    jobPreferences: Option<string>)

  /** A `.single()` select: the row, or an error with its PostgREST code. */
  datatype QueryResult = Row(profile: Profile) | QueryError(code: string)

  /** The PostgREST code for "no row". */
  const NotFoundCode := "PGRST116"
  const LoadFailed := "Failed to load user profile"

  /** `getUserProfile` (the same code in both services): null for "no row",
      the row when there is one, and one generic error for anything else. */
  function GetUserProfile(q: QueryResult): (r: Result<Option<Profile>>)
    ensures r == Ok(None) <==> q == QueryError(NotFoundCode)
    ensures r.Err? <==> q.QueryError? && q.code != NotFoundCode
    ensures r.Err? ==> r.message == LoadFailed
    ensures q.Row? ==> r == Ok(Some(q.profile))
  {
    match q
    case Row(p) => Ok(Some(p))
    case QueryError(code) => if code == NotFoundCode then Ok(None) else Err(LoadFailed)
  }

  /** `value || null` for a text field: drops "" entries. */
  function NonEmptyTexts(texts: map<TextField, string>): (r: map<TextField, string>)
    ensures forall f :: f in r <==> f in texts && texts[f] != ""
    ensures forall f :: f in r ==> r[f] == texts[f]
  {
    map f | f in texts && texts[f] != "" :: texts[f]
  }

  /** `value || fallback` for a nullable text column read back from a row. */
  function TextOr(texts: map<TextField, string>, f: TextField, fallback: string): (r: string)
    ensures f in texts && texts[f] != "" ==> r == texts[f]
    ensures (f !in texts || texts[f] == "") ==> r == fallback
  {
    if f in texts && texts[f] != "" then texts[f] else fallback
  }
}
