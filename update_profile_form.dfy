/** The candidate's "Update profile" card: a copy of the profile edited
    field by field, with skills, experience and education lists, a resume
    drop zone, and a PUT of the whole form (components/UpdateProfileForm.tsx). */
module UpdateProfileForm {
  import opened Common
  import Text
  import Multipart

  const UpdateFailedAlert := "Failed to update profile"

  /** The four text inputs, by their `name` attribute. */
  datatype TextField = FullName | Bio | PortfolioLink | LinkedinLink

  datatype ProfileText = ProfileText(fullName: string, bio: string, portfolioLink: string, linkedinLink: string)

  const BlankText := ProfileText("", "", "", "")

  function Get(t: ProfileText, f: TextField): string
  {
    match f
    case FullName => t.fullName
    case Bio => t.bio
    case PortfolioLink => t.portfolioLink
    case LinkedinLink => t.linkedinLink
  }

  /** `{ ...t, [name]: value }`: the named field takes the value and every
      other field keeps its own. */
  function Set(t: ProfileText, f: TextField, value: string): (r: ProfileText)
    ensures Get(r, f) == value
    ensures forall g :: g != f ==> Get(r, g) == Get(t, g)
  {
    match f
    case FullName => t.(fullName := value)
    case Bio => t.(bio := value)
    case PortfolioLink => t.(portfolioLink := value)
    case LinkedinLink => t.(linkedinLink := value)
  }

  /** Writing a field back with its own value changes nothing, and of two
      writes to one field the later wins. */
  lemma SetLaws(t: ProfileText, f: TextField, v: string, w: string)
    ensures Set(t, f, Get(t, f)) == t
    ensures Set(Set(t, f, v), f, w) == Set(t, f, w)
  {
  }

  datatype Skill = Skill(name: string)

  /** The fields of an experience entry the card edits. */
  datatype ExperienceField = Role | CompanyName | RoleDescription
  datatype Experience = Experience(role: string, companyName: string, roleDescription: string)
  const BlankExperience := Experience("", "", "")

  function ExperienceValue(e: Experience, f: ExperienceField): string
  {
    match f
    case Role => e.role
    case CompanyName => e.companyName
    case RoleDescription => e.roleDescription
  }

  /** `entry[field] = value` on an experience. */
  function SetExperience(e: Experience, f: ExperienceField, value: string): (r: Experience)
    ensures ExperienceValue(r, f) == value
    ensures forall g :: g != f ==> ExperienceValue(r, g) == ExperienceValue(e, g)
  {
    match f
    case Role => e.(role := value)
    case CompanyName => e.(companyName := value)
    case RoleDescription => e.(roleDescription := value)
  }

  /** The fields of an education entry the card edits. */
  datatype EducationField = Degree | Institution
  datatype Education = Education(degree: string, institution: string)
  const BlankEducation := Education("", "")

  function EducationValue(e: Education, f: EducationField): string
  {
    match f
    case Degree => e.degree
    case Institution => e.institution
  }

  /** `entry[field] = value` on an education. */
  function SetEducation(e: Education, f: EducationField, value: string): (r: Education)
    ensures EducationValue(r, f) == value
    ensures forall g :: g != f ==> EducationValue(r, g) == EducationValue(e, g)
  {
    match f
    case Degree => e.(degree := value)
    case Institution => e.(institution := value)
  }

  /** `currentData`: the profile as the card shows and submits it. */
  datatype Profile = Profile(
    text: ProfileText,
    resumeUrl: string,
    skills: seq<Skill>,
    experiences: seq<Experience>,
    educations: seq<Education>)

  /** The state built from the `profile` prop, each field defaulting to
      empty when the prop is absent. */
  function InitialProfile(profile: Option<Profile>): (p: Profile)
    ensures profile.Some? ==> p == profile.value
    ensures profile.None? ==> p.text == BlankText && p.skills == [] && p.experiences == [] && p.educations == []
  {
    match profile
    case Some(p) => p
    case None => Profile(BlankText, "", [], [], [])
  }

  /** `updated.splice(index, 1)` on a copy: JavaScript's rule for the start
      index (a negative one counts from the end, clamped at 0; one past the
      end removes nothing) followed by removal of one element. */
  function SpliceOne<T>(s: seq<T>, index: int): (r: seq<T>)
    ensures 0 <= index < |s| ==> |r| == |s| - 1 && r == s[..index] + s[index + 1..]
    ensures index >= |s| ==> r == s
    ensures -|s| <= index < 0 ==> r == s[..|s| + index] + s[|s| + index + 1..]
    ensures index < -|s| && s != [] ==> r == s[1..]
  {
    var start := if index < 0 then (if |s| + index < 0 then 0 else |s| + index)
                 else (if index > |s| then |s| else index);
    if start < |s| then s[..start] + s[start + 1..] else s
  }

  /** Removal at a valid index keeps the others in order: those before it
      in place, those after it shifted down by one. */
  lemma SpliceOneKeepsOrder<T>(s: seq<T>, index: int)
    requires 0 <= index < |s|
    ensures forall k :: 0 <= k < index ==> SpliceOne(s, index)[k] == s[k]
    ensures forall k :: index <= k < |s| - 1 ==> SpliceOne(s, index)[k] == s[k + 1]
  {
  }

  /** `addSkill`: a blank input changes nothing; otherwise the input, as
      typed and not trimmed, becomes a skill at the end and is cleared. */
  function AddSkill(skills: seq<Skill>, input: string): (r: (seq<Skill>, string))
    ensures Text.Blank(input) ==> r == (skills, input)
    ensures !Text.Blank(input) ==> r.0 == skills + [Skill(input)] && r.1 == ""
  {
    if Text.Trim(input) == "" then (skills, input) else (skills + [Skill(input)], "")
  }

  /** Removing the skill just added, by its index, restores the list. */
  lemma RemoveUndoesAdd(skills: seq<Skill>, input: string)
    requires !Text.Blank(input)
    ensures SpliceOne(AddSkill(skills, input).0, |skills|) == skills
  {
    assert (skills + [Skill(input)])[..|skills|] == skills;
  }

  /** Filling in an entry just added leaves the earlier entries as they were
      and gives a blank entry with only that field set. */
  lemma FillNewExperience(experiences: seq<Experience>, f: ExperienceField, value: string)
    ensures var added := experiences + [BlankExperience];
            var filled := added[|experiences| := SetExperience(added[|experiences|], f, value)];
            && filled[..|experiences|] == experiences
            && ExperienceValue(filled[|experiences|], f) == value
            && forall g :: g != f ==> ExperienceValue(filled[|experiences|], g) == ""
  {
    var added := experiences + [BlankExperience];
    var filled := added[|experiences| := SetExperience(added[|experiences|], f, value)];
    assert filled[..|experiences|] == added[..|experiences|];
    assert added[..|experiences|] == experiences;
    forall g | g != f
      ensures ExperienceValue(filled[|experiences|], g) == ""
    {
      match g
      case Role =>
      case CompanyName =>
      case RoleDescription =>
    }
  }

  /** The skill names, in list order. */
  function Names(skills: seq<Skill>): (r: seq<string>)
    ensures |r| == |skills|
    ensures forall i :: 0 <= i < |skills| ==> r[i] == skills[i].name
  {
    seq(|skills|, i requires 0 <= i < |skills| => skills[i].name)
  }

  /** The `FormData` of the update: the four text fields of `currentData`,
      a "skills" part per skill name, and the resume when one is selected. */
  function UpdateParts(current: Profile, resumeFile: Option<File>): (r: seq<Multipart.FormPart>)
    ensures |r| == 4 + |current.skills| + (if resumeFile.Some? then 1 else 0)
    ensures forall i :: 0 <= i < 4 + |current.skills| ==> r[i].TextPart?
    ensures resumeFile.Some? ==> r[|r| - 1] == Multipart.FilePart("resume", resumeFile.value)
  {
    [Multipart.TextPart("full_name", current.text.fullName), Multipart.TextPart("bio", current.text.bio),
     Multipart.TextPart("portfolio_link", current.text.portfolioLink),
     Multipart.TextPart("linkedin_link", current.text.linkedinLink)]
    + Multipart.TextParts("skills", Names(current.skills))
    + Multipart.OptionalFile("resume", resumeFile)
  }

  /** The server reads the skill names back in list order, and the form
      carries a resume part exactly when a resume file is selected. */
  lemma UpdatePartsContents(current: Profile, resumeFile: Option<File>)
    ensures Multipart.TextsNamed(UpdateParts(current, resumeFile), "skills") == Names(current.skills)
    ensures (exists i :: 0 <= i < |UpdateParts(current, resumeFile)| && UpdateParts(current, resumeFile)[i].FilePart?)
            <==> resumeFile.Some?
  {
    var head := [Multipart.TextPart("full_name", current.text.fullName), Multipart.TextPart("bio", current.text.bio),
                 Multipart.TextPart("portfolio_link", current.text.portfolioLink),
                 Multipart.TextPart("linkedin_link", current.text.linkedinLink)];
    var skills := Multipart.TextParts("skills", Names(current.skills));
    var file := Multipart.OptionalFile("resume", resumeFile);
    var parts := UpdateParts(current, resumeFile);
    assert parts == head + skills + file;
    Multipart.TextsNamedConcat(head + skills, file, "skills");
    Multipart.TextsNamedConcat(head, skills, "skills");
    Multipart.TextsNamedOfTextParts("skills", Names(current.skills));
    Multipart.TextsNamedOfFile("resume", resumeFile, "skills");
    assert Multipart.TextsNamed(head[3..], "skills") == [] by {
      assert head[3..][1..] == [];
    }
    assert head[2..][1..] == head[3..] && head[1..][1..] == head[2..];
    assert Multipart.TextsNamed(head, "skills") == Multipart.TextsNamed(head[1..], "skills")
           == Multipart.TextsNamed(head[2..], "skills") == Multipart.TextsNamed(head[3..], "skills");
    if resumeFile.Some? {
      assert parts[|parts| - 1].FilePart?;
    } else {
      assert parts == head + skills;
      forall i | 0 <= i < |parts|
        ensures !parts[i].FilePart?
      {
        if i >= |head| {
          assert parts[i] == skills[i - |head|];
        }
      }
    }
  }

  datatype Request =
    | LoadRequest(authorization: string)
    | UpdateRequest(parts: seq<Multipart.FormPart>, authorization: string)

  class UpdateProfileCard {
    /** The text inputs' own state. */
    var formData: ProfileText
    var currentData: Profile
    var skillInput: string
    var resumeFile: Option<File>
    var dragActive: bool
    var open: bool
    var loading: bool
    /** Whether the parent passed an `onUpdated` callback. */
    const notifies: bool
    var requests: seq<Request>
    var alerts: seq<string>
    /** The bodies handed to `onUpdated`, in order. */
    var updates: seq<Profile>

    /** First render from the `profile` prop, followed by the mount effect,
        which starts loading the stored profile. */
    constructor (profile: Option<Profile>, notifies: bool, token: Token)
      ensures formData == InitialProfile(profile).text && currentData == InitialProfile(profile)
      ensures skillInput == "" && resumeFile == None && !dragActive && !open && !loading
      ensures this.notifies == notifies
      ensures requests == [LoadRequest(BearerOf(token))] && alerts == [] && updates == []
    {
      formData := InitialProfile(profile).text;
      currentData := InitialProfile(profile);
      skillInput := "";
      resumeFile := None;
      dragActive := false;
      open := false;
      loading := false;
      this.notifies := notifies;
      requests := [LoadRequest(BearerOf(token))];
      alerts := [];
      updates := [];
    }

    /** The load settles. The status is not checked: any decoded body
        replaces `currentData`; a rejection escapes and changes nothing. */
    method ProfileLoaded(response: Response<Profile>)
      modifies this`currentData
      ensures response.Answered? ==> currentData == response.body
      ensures response.Threw? ==> currentData == old(currentData)
    {
      if response.Answered? {
        currentData := response.body;
      }
    }

    /** `handleChange`: the named field is written into both copies. */
    method HandleChange(field: TextField, value: string)
      modifies this`formData, this`currentData
      ensures formData == Set(old(formData), field, value)
      ensures currentData == old(currentData).(text := Set(old(currentData).text, field, value))
    {
      formData := Set(formData, field, value);
      currentData := currentData.(text := Set(currentData.text, field, value));
    }

    method SetSkillInput(value: string)
      modifies this`skillInput
      ensures skillInput == value
    {
      skillInput := value;
    }

    method AddSkillClicked()
      modifies this`currentData, this`skillInput
      ensures (currentData.skills, skillInput) == AddSkill(old(currentData).skills, old(skillInput))
      ensures currentData == old(currentData).(skills := currentData.skills)
    {
      if Text.Trim(skillInput) == "" {
        return;
      }
      currentData := currentData.(skills := currentData.skills + [Skill(skillInput)]);
      skillInput := "";
    }

    /** `removeSkill(index)`: the skill at `index` is spliced out of a copy
        of the list. */
    method RemoveSkill(index: int)
      modifies this`currentData
      ensures currentData == old(currentData).(skills := SpliceOne(old(currentData).skills, index))
    {
      currentData := currentData.(skills := SpliceOne(currentData.skills, index));
    }

    method AddExperience()
      modifies this`currentData
      ensures currentData == old(currentData).(experiences := old(currentData).experiences + [BlankExperience])
    {
      currentData := currentData.(experiences := currentData.experiences + [BlankExperience]);
    }

    /** `updateExperience(i, field, value)`: the entry at `i` gets the value
        in that field; an index with no entry makes `updated[i][field]` throw,
        so nothing changes. */
    method UpdateExperience(i: int, field: ExperienceField, value: string)
      modifies this`currentData
      ensures 0 <= i < |old(currentData).experiences| ==>
                currentData == old(currentData).(experiences :=
                  old(currentData).experiences[i := SetExperience(old(currentData).experiences[i], field, value)])
      ensures !(0 <= i < |old(currentData).experiences|) ==> currentData == old(currentData)
    {
      if 0 <= i < |currentData.experiences| {
        var updated := currentData.experiences;
        updated := updated[i := SetExperience(updated[i], field, value)];
        currentData := currentData.(experiences := updated);
      }
    }

    method AddEducation()
      modifies this`currentData
      ensures currentData == old(currentData).(educations := old(currentData).educations + [BlankEducation])
    {
      currentData := currentData.(educations := currentData.educations + [BlankEducation]);
    }

    /** `updateEducation(i, field, value)`, with the same rule for an index
        with no entry. */
    method UpdateEducation(i: int, field: EducationField, value: string)
      modifies this`currentData
      ensures 0 <= i < |old(currentData).educations| ==>
                currentData == old(currentData).(educations :=
                  old(currentData).educations[i := SetEducation(old(currentData).educations[i], field, value)])
      ensures !(0 <= i < |old(currentData).educations|) ==> currentData == old(currentData)
    {
      if 0 <= i < |currentData.educations| {
        var updated := currentData.educations;
        updated := updated[i := SetEducation(updated[i], field, value)];
        currentData := currentData.(educations := updated);
      }
    }

    /** `handleDrag`, attached to dragenter, dragleave and dragover. */
    method HandleDrag(eventType: string)
      modifies this`dragActive
      ensures dragActive <==> eventType == "dragenter" || eventType == "dragover"
    {
      dragActive := eventType == "dragenter" || eventType == "dragover";
    }

    /** `handleDrop`: the drag ends and the first dropped file, if any,
        becomes the resume. */
    method HandleDrop(files: seq<File>)
      modifies this`dragActive, this`resumeFile
      ensures !dragActive
      ensures |files| > 0 ==> resumeFile == Some(files[0])
      ensures |files| == 0 ==> resumeFile == old(resumeFile)
    {
      dragActive := false;
      if |files| > 0 {
        resumeFile := Some(files[0]);
      }
    }

    /** `handleFileSelect`: the first chosen file, if any, becomes the resume. */
    method HandleFileSelect(files: seq<File>)
      modifies this`resumeFile
      ensures |files| > 0 ==> resumeFile == Some(files[0])
      ensures |files| == 0 ==> resumeFile == old(resumeFile)
    {
      if |files| > 0 {
        resumeFile := Some(files[0]);
      }
    }

    /** The open/close toggle and the two close buttons. */
    method SetOpen(value: bool)
      modifies this`open
      ensures open == value
    {
      open := value;
    }

    /** `handleSubmit`: `loading` is set and the form is PUT. A non-ok answer
        ends loading and alerts; an ok answer hands the body to `onUpdated`
        (when given), ends loading and closes the card. A rejection escapes
        with `loading` still set. */
    method HandleSubmit(token: Token, response: Response<Profile>)
      modifies this`loading, this`open, this`requests, this`alerts, this`updates
      ensures requests == old(requests) + [UpdateRequest(UpdateParts(currentData, resumeFile), BearerOf(token))]
      ensures response.Threw? ==> loading && open == old(open) && alerts == old(alerts) && updates == old(updates)
      ensures response.Answered? && !response.ok ==>
                !loading && open == old(open) && alerts == old(alerts) + [UpdateFailedAlert] && updates == old(updates)
      ensures response.IsOk() ==>
                !loading && !open && alerts == old(alerts)
                && updates == old(updates) + (if notifies then [response.body] else [])
    {
      loading := true;
      var form := [Multipart.TextPart("full_name", currentData.text.fullName), Multipart.TextPart("bio", currentData.text.bio),
                   Multipart.TextPart("portfolio_link", currentData.text.portfolioLink),
                   Multipart.TextPart("linkedin_link", currentData.text.linkedinLink)];
      form := Multipart.AppendAll(form, "skills", Names(currentData.skills));
      form := form + Multipart.OptionalFile("resume", resumeFile);
      requests := requests + [UpdateRequest(form, BearerOf(token))];
      if response.Threw? {
        return;
      }
      if !response.ok {
        loading := false;
        alerts := alerts + [UpdateFailedAlert];
        return;
      }
      if notifies {
        updates := updates + [response.body];
      }
      loading := false;
      open := false;
    }
  }
}
