/** The older profile service: get-or-create through an upsert of a default
    record, the upsert payload, and the mapping of a profile row to the
    profile form's data. */
module ProfileService {
  import opened Wrappers
  import opened Profiles

  const GetOrCreateFailed := "Failed to get or create user profile"
  const SaveFailed := "Failed to save user profile"

  /** The record a first sign-in creates: the display name (null when
      missing or empty), years 0, willingness false, everything else null. */
  function DefaultProfileData(displayName: Option<string>): (d: ProfileData)
    ensures (displayName.Some? && displayName.value != "") ==> d.texts == map[FullName := displayName.value]
    ensures (displayName.None? || displayName.value == "") ==> d.texts == map[]
    ensures d.yearsOfExperience == Some(0) && d.skills.None?
    ensures d.willingnessToRelocate == Some(false) && d.jobPreferences.None?
  {
    ProfileData(if displayName.Some? && displayName.value != "" then map[FullName := displayName.value] else map[],
                Some(0), None, Some(false), None)
  }

  /** The object `saveUserProfile` upserts: `{ id, ...profileData, updated_at }`. */
  datatype Upsert = Upsert(id: string, data: ProfileData, updatedAt: string)

  /** What `saveUserProfile` returns, and the payload it sent. */
  datatype Saved = Saved(result: Result<Profile>, payload: Upsert)

  function SaveUserProfile(uid: string, data: ProfileData, now: string, upserted: Remote<Profile>): (r: Saved)
    ensures r.payload == Upsert(uid, data, now)
    ensures upserted.Done? ==> r.result == Ok(upserted.value)
    ensures upserted.Failed? ==> r.result == Err(SaveFailed)
  {
    Saved(if upserted.Done? then Ok(upserted.value) else Err(SaveFailed), Upsert(uid, data, now))
  }

  /** What `getOrCreateProfile` returns, and the upsert it issued, if any. */
  datatype GetOrCreate = GetOrCreate(result: Result<Profile>, upsert: Option<Upsert>)

  /** `getOrCreateProfile`: an existing profile is returned without a write;
      only "no row" leads to the upsert of the default record; every failure
      reads 'Failed to get or create user profile'. The email is not used. */
  function GetOrCreateProfile(uid: string, displayName: Option<string>, now: string,
                              fetched: QueryResult, upserted: Remote<Profile>): (r: GetOrCreate)
    ensures fetched.Row? ==> r == GetOrCreate(Ok(fetched.profile), None)
    ensures fetched.QueryError? && fetched.code != NotFoundCode ==> r == GetOrCreate(Err(GetOrCreateFailed), None)
    ensures fetched == QueryError(NotFoundCode) ==>
              r.upsert == Some(Upsert(uid, DefaultProfileData(displayName), now)) &&
              r.result == (if upserted.Done? then Ok(upserted.value) else Err(GetOrCreateFailed))
  {
    match GetUserProfile(fetched)
    case Err(_) => GetOrCreate(Err(GetOrCreateFailed), None)
    case Ok(found) =>
      if found.Some? then GetOrCreate(Ok(found.value), None)
      else
        var s := SaveUserProfile(uid, DefaultProfileData(displayName), now, upserted);
        GetOrCreate(if s.result.Ok? then s.result else Err(GetOrCreateFailed), Some(s.payload))
  }

  /** The fields of the profile form that the conversion sets; every other
      form field is left undefined. */
  datatype UserProfileData = UserProfileData(
    fullName: string,
    contactNumber: string,
    location: string,
    linkedinUrl: string,
    streetAddress: string,
    willingToRelocate: bool,
    visaType: string,
    expectedSalaryFrom: string,
    interviewAvailability: string)

  /** `convertProfileToUserProfileData` */
  function ConvertProfileToUserProfileData(p: Profile): UserProfileData {
    UserProfileData(TextOr(p.texts, FullName, ""), TextOr(p.texts, Phone, ""), TextOr(p.texts, Location, ""),
                    TextOr(p.texts, LinkedinUrl, ""), TextOr(p.texts, Location, ""),
                    p.willingnessToRelocate,
                    TextOr(p.texts, WorkAuthorization, ""), TextOr(p.texts, ExpectedSalary, ""),
                    TextOr(p.texts, Availability, ""))
  }

  /** Each text field of the form holds its column's text, or "" for a null
      column; the location fills both the location and the street address,
      and willingness to relocate is copied. */
  lemma ConvertSpec(p: Profile)
    ensures var u := ConvertProfileToUserProfileData(p);
            u.fullName == (if FullName in p.texts then p.texts[FullName] else "") &&
            u.contactNumber == (if Phone in p.texts then p.texts[Phone] else "") &&
            u.location == (if Location in p.texts then p.texts[Location] else "") &&
            u.linkedinUrl == (if LinkedinUrl in p.texts then p.texts[LinkedinUrl] else "") &&
            u.streetAddress == u.location &&
            u.visaType == (if WorkAuthorization in p.texts then p.texts[WorkAuthorization] else "") &&
            u.expectedSalaryFrom == (if ExpectedSalary in p.texts then p.texts[ExpectedSalary] else "") &&
            u.interviewAvailability == (if Availability in p.texts then p.texts[Availability] else "") &&
            u.willingToRelocate == p.willingnessToRelocate
  {
  }

  /** The conversion keeps the columns it reads: a stored profile created
      from a default record with a display name shows that name. */
  lemma DefaultProfileShowsName(uid: string, email: string, name: string)
    requires name != ""
    ensures var d := DefaultProfileData(Some(name));
            ConvertProfileToUserProfileData(Profile(uid, email, d.texts, 0, d.skills, false, d.jobPreferences)).fullName == name
  {
  }
}
