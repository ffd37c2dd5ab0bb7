/** The Supabase profile service: the row inserted for a new profile, the
    skill list's add and remove, and get-or-create. Every remote step is a
    parameter: the select's result and the insert's or update's outcome. */
module SupabaseProfileService {
  import opened Wrappers
  import opened Profiles

  const CreateFailed := "Failed to create user profile"
  const AddSkillFailed := "Failed to add skill"
  const RemoveSkillFailed := "Failed to remove skill"

  /** The row `createProfile` inserts: id and email from the arguments, every
      falsy text field null, years `|| 0`, skills `|| null` (an empty list is
      kept), willingness `|| false`, job preferences `|| null`. */
  function CreateProfileRow(uid: string, email: string, data: ProfileData): (r: Profile)
    ensures r.id == uid && r.email == email
    ensures forall f :: f in r.texts <==> f in data.texts && data.texts[f] != ""
    ensures forall f :: f in r.texts ==> r.texts[f] == data.texts[f]
    ensures r.yearsOfExperience == (if data.yearsOfExperience.Some? then data.yearsOfExperience.value else 0)
    ensures r.skills == data.skills
    ensures r.willingnessToRelocate <==> data.willingnessToRelocate == Some(true)
    ensures r.jobPreferences.Some? <==> data.jobPreferences.Some? && data.jobPreferences.value != ""
    ensures r.jobPreferences.Some? ==> r.jobPreferences == data.jobPreferences
  {
    Profile(uid, email, NonEmptyTexts(data.texts),
            if data.yearsOfExperience.Some? then data.yearsOfExperience.value else 0,
            data.skills,
            data.willingnessToRelocate == Some(true),
            if data.jobPreferences == Some("") then None else data.jobPreferences)
  }

  /** What `createProfile` returns, and the row it inserted. */
  datatype Created = Created(result: Result<Profile>, row: Profile)

  /** `createProfile`: the row of `CreateProfileRow` is inserted, and the
      call returns what the insert resolved to. */
  function CreateProfile(uid: string, email: string, data: ProfileData, inserted: Remote<Profile>): (r: Created)
    ensures r.row == CreateProfileRow(uid, email, data)
    ensures r.row.id == uid && r.row.email == email
    ensures inserted.Done? ==> r.result == Ok(inserted.value)
    ensures inserted.Failed? ==> r.result == Err(CreateFailed)
  {
    Created(if inserted.Done? then Ok(inserted.value) else Err(CreateFailed), CreateProfileRow(uid, email, data))
  }

  // ---------------------------------------------------------------- skills

  /** `profile.skills || []` */
  function SkillsOf(p: Profile): seq<string> {
    if p.skills.Some? then p.skills.value else []
  }

  /** No skill appears twice. */
  predicate NoDuplicates(s: seq<string>) {
    forall i, j :: 0 <= i < j < |s| ==> s[i] != s[j]
  }

  /** `skills.filter(s => s !== skill)` */
  function WithoutSkill(skills: seq<string>, skill: string): (r: seq<string>)
    ensures |r| <= |skills|
  {
    if skills == [] then []
    else if skills[0] == skill then WithoutSkill(skills[1..], skill)
    else [skills[0]] + WithoutSkill(skills[1..], skill)
  }

  /** Removal drops every occurrence, keeps the rest, and keeps a list
      without duplicates free of them. */
  lemma {:induction false} WithoutSkillSpec(skills: seq<string>, skill: string)
    ensures forall s :: s in WithoutSkill(skills, skill) <==> s in skills && s != skill
    ensures skill !in skills ==> WithoutSkill(skills, skill) == skills
    ensures NoDuplicates(skills) ==> NoDuplicates(WithoutSkill(skills, skill))
    decreases |skills|
  {
    if skills != [] {
      WithoutSkillSpec(skills[1..], skill);
      assert skills == [skills[0]] + skills[1..];
      var rest := WithoutSkill(skills[1..], skill);
      if skills[0] != skill && NoDuplicates(skills) {
        var r := [skills[0]] + rest;
        forall i, j | 0 <= i < j < |r| ensures r[i] != r[j] {
          if i == 0 { assert r[j] in rest; }
          else { assert r[i] == rest[i - 1] && r[j] == rest[j - 1]; }
        }
      }
    }
  }

  /** Every other skill is kept as often as it occurs; the removed one is gone. */
  lemma {:induction false} WithoutSkillCount(skills: seq<string>, skill: string)
    ensures multiset(WithoutSkill(skills, skill)) == multiset(skills)[skill := 0]
    decreases |skills|
  {
    if skills != [] {
      WithoutSkillCount(skills[1..], skill);
      assert skills == [skills[0]] + skills[1..];
      assert multiset(skills) == multiset{skills[0]} + multiset(skills[1..]);
    }
  }

  /** The filter works element by element, so the kept skills stay in their
      order: filtering a concatenation filters each part. */
  lemma {:induction false} WithoutSkillSplit(a: seq<string>, b: seq<string>, skill: string)
    ensures WithoutSkill(a + b, skill) == WithoutSkill(a, skill) + WithoutSkill(b, skill)
    decreases |a|
  {
    if a == [] {
      assert [] + b == b;
    } else {
      assert (a + b)[1..] == a[1..] + b;
      WithoutSkillSplit(a[1..], b, skill);
    }
  }

  /** Adding then removing a new skill gives back the original list. */
  lemma {:induction false} RemoveAfterAdd(skills: seq<string>, skill: string)
    requires skill !in skills
    ensures WithoutSkill(skills + [skill], skill) == skills
    decreases |skills|
  {
    if skills == [] {
      assert [] + [skill] == [skill];
    } else {
      assert (skills + [skill])[1..] == skills[1..] + [skill];
      RemoveAfterAdd(skills[1..], skill);
      assert skills == [skills[0]] + skills[1..];
    }
  }

  /** Removing a skill twice is removing it once. */
  lemma RemoveIsIdempotent(skills: seq<string>, skill: string)
    ensures WithoutSkill(WithoutSkill(skills, skill), skill) == WithoutSkill(skills, skill)
  {
    WithoutSkillSpec(skills, skill);
    WithoutSkillSpec(WithoutSkill(skills, skill), skill);
  }

  lemma AppendKeepsNoDuplicates(skills: seq<string>, skill: string)
    requires NoDuplicates(skills) && skill !in skills
    ensures NoDuplicates(skills + [skill])
  {
    var r := skills + [skill];
    forall i, j | 0 <= i < j < |r| ensures r[i] != r[j] {
      if j == |skills| { assert r[i] in skills; }
    }
  }

  /** `addSkill`: preceded by `getUserProfile`. A present skill returns the
      profile with no update; a new one is pushed at the end and the whole
      list is sent to `updateProfile`. Every failure reads 'Failed to add
      skill'. Returns the result and the skill list sent, if any. */
  method AddSkill(skill: string, fetched: QueryResult, updated: Remote<Profile>)
    returns (result: Result<Profile>, sent: Option<seq<string>>)
    ensures fetched.QueryError? ==> result == Err(AddSkillFailed) && sent.None?
    ensures fetched.Row? && skill in SkillsOf(fetched.profile) ==> result == Ok(fetched.profile) && sent.None?
    ensures fetched.Row? && skill !in SkillsOf(fetched.profile) ==>
              sent == Some(SkillsOf(fetched.profile) + [skill]) &&
              result == (if updated.Done? then Ok(updated.value) else Err(AddSkillFailed))
    ensures sent.Some? ==> skill in sent.value && skill !in SkillsOf(fetched.profile)
    ensures sent.Some? && NoDuplicates(SkillsOf(fetched.profile)) ==> NoDuplicates(sent.value)
  {
    sent := None;
    var lookup := GetUserProfile(fetched);
    if lookup.Err? || lookup.value.None? {
      return Err(AddSkillFailed), None;
    }
    var profile := lookup.value.value;
    var currentSkills := SkillsOf(profile);
    if skill !in currentSkills {
      if NoDuplicates(currentSkills) { AppendKeepsNoDuplicates(currentSkills, skill); }
      currentSkills := currentSkills + [skill];
      sent := Some(currentSkills);
      match updated {
        case Done(p) => result := Ok(p);
        case Failed(_) => result := Err(AddSkillFailed);
      }
      return;
    }
    result := Ok(profile);
  }

  /** What `removeSkill` returns together with the list it sent. */
  datatype SkillChange = SkillChange(result: Result<Profile>, sent: Option<seq<string>>)

  /** `removeSkill`: the filtered list is always sent, even when the skill
      was not there; every failure reads 'Failed to remove skill'. */
  function RemoveSkill(skill: string, fetched: QueryResult, updated: Remote<Profile>): (r: SkillChange)
    ensures fetched.QueryError? ==> r == SkillChange(Err(RemoveSkillFailed), None)
    ensures fetched.Row? ==> r.sent == Some(WithoutSkill(SkillsOf(fetched.profile), skill))
    ensures fetched.Row? ==> r.result == (if updated.Done? then Ok(updated.value) else Err(RemoveSkillFailed))
  {
    match fetched
    case QueryError(_) => SkillChange(Err(RemoveSkillFailed), None)
    case Row(p) =>
      SkillChange(if updated.Done? then Ok(updated.value) else Err(RemoveSkillFailed),
                  Some(WithoutSkill(SkillsOf(p), skill)))
  }

  /** Removing an absent skill still writes the (unchanged) list back. */
  lemma RemoveAbsentSkillStillWrites(skill: string, p: Profile, updated: Remote<Profile>)
    requires skill !in SkillsOf(p)
    ensures RemoveSkill(skill, Row(p), updated).sent == Some(SkillsOf(p))
  {
    WithoutSkillSpec(SkillsOf(p), skill);
  }

  // --------------------------------------------------------- get or create

  /** What `getOrCreateProfile` returns, and the data it passed to
      `createProfile` when it created one. */
  datatype GetOrCreate = GetOrCreate(result: Result<Profile>, created: Option<ProfileData>)

  /** The data `getOrCreateProfile` creates with: `{ full_name: fullName || '' }`. */
  function NewProfileData(fullName: Option<string>): ProfileData {
    ProfileData(map[FullName := if fullName.Some? then fullName.value else ""], None, None, None, None)
  }

  function GetOrCreateProfile(uid: string, email: string, fullName: Option<string>,
                              fetched: QueryResult, inserted: Remote<Profile>): (r: GetOrCreate)
    ensures fetched.Row? ==> r == GetOrCreate(Ok(fetched.profile), None)
    ensures fetched.QueryError? && fetched.code != NotFoundCode ==> r == GetOrCreate(Err(LoadFailed), None)
    ensures fetched == QueryError(NotFoundCode) ==>
              r.created == Some(NewProfileData(fullName)) &&
              r.result == (if inserted.Done? then Ok(inserted.value) else Err(LoadFailed))
  {
    match GetUserProfile(fetched)
    case Err(_) => GetOrCreate(Err(LoadFailed), None)
    case Ok(found) =>
      if found.Some? then GetOrCreate(Ok(found.value), None)
      else
        var data := NewProfileData(fullName);
        GetOrCreate(if CreateProfile(uid, email, data, inserted).result.Ok? then Ok(inserted.value) else Err(LoadFailed),
                    Some(data))
  }

  /** Without a name, the `|| ''` default is undone by `createProfile`'s
      `|| null`: the inserted row has a null full name. */
  lemma NamelessProfileHasNullName(uid: string, email: string)
    ensures FullName !in CreateProfileRow(uid, email, NewProfileData(None)).texts
    ensures FullName !in CreateProfileRow(uid, email, NewProfileData(Some(""))).texts
  {
  }
}
