/** The candidate's "Complete profile" page: a skills list edited in place,
    image and resume pickers checked by MIME type, and a submit that creates
    or updates the profile and then posts education and, optionally,
    experience, stopping at the first failure
    (app/profile/candidate/create/page.tsx). */
module CandidateProfileCreate {
  import opened Common
  import Text
  import Collection
  import Multipart

  const ImageError := "Please upload a valid image file"
  const ResumeError := "Only PDF files are allowed"
  const FixErrorsAlert := "Please fix validation errors before submitting"
  const ProfileFailedAlert := "Failed to create profile"
  const EducationFailedAlert := "error submitting Education fields"
  const ExperienceFailedAlert := "error submitting Experinece fields"
  const ProfilePage := "/profile/candidate"

  datatype Education = Education(institution: string, degree: string, startYear: string, endYear: string, isCurrent: bool)
  datatype Experience = Experience(
    companyName: string, role: string, roleDescription: string,
    startDate: string, endDate: string, isCurrent: bool)

  const BlankEducation := Education("", "", "", "", false)
  const BlankExperience := Experience("", "", "", "", "", false)

  /** The JSON bodies of the education and experience requests; an absent
      end is sent as `null`. */
  datatype EducationBody = EducationBody(institution: string, degree: string, startYear: string, endYear: Option<string>)
  datatype ExperienceBody = ExperienceBody(
    companyName: string, roleDescription: string, role: string,
    startDate: string, endDate: Option<string>, isCurrent: bool)

  datatype Request =
    | ProbeRequest(authorization: string)
    | ProfileRequest(verb: Verb, parts: seq<Multipart.FormPart>, authorization: string)
    | EducationRequest(education: EducationBody, authorization: string)
    | ExperienceRequest(experience: ExperienceBody, authorization: string)

  /** `is_current` sends no end year. */
  function EducationPayload(e: Education): (b: EducationBody)
    ensures b.endYear.None? <==> e.isCurrent
    ensures b.endYear.Some? ==> b.endYear.value == e.endYear
    ensures b.institution == e.institution && b.degree == e.degree && b.startYear == e.startYear
  {
    EducationBody(e.institution, e.degree, e.startYear, if e.isCurrent then None else Some(e.endYear))
  }

  /** `is_current` sends no end date. */
  function ExperiencePayload(x: Experience): (b: ExperienceBody)
    ensures b.endDate.None? <==> x.isCurrent
    ensures b.endDate.Some? ==> b.endDate.value == x.endDate
    ensures b.isCurrent == x.isCurrent && b.companyName == x.companyName && b.role == x.role
    ensures b.roleDescription == x.roleDescription && b.startDate == x.startDate
  {
    ExperienceBody(x.companyName, x.roleDescription, x.role, x.startDate,
                   if x.isCurrent then None else Some(x.endDate), x.isCurrent)
  }

  // ---------------------------------------------------------------- skills

  /** `addSkill` on (skills, skillInput): a blank input changes nothing;
      otherwise the trimmed input goes to the end and the input is cleared. */
  function AddSkill(skills: seq<string>, input: string): (r: (seq<string>, string))
    ensures Text.Blank(input) ==> r == (skills, input)
    ensures !Text.Blank(input) ==> r.0 == skills + [Text.Trim(input)] && r.1 == ""
    ensures !Text.Blank(input) ==> r.0[|skills|] != "" && !Text.IsWhitespace(r.0[|skills|][0])
  {
    if Text.Trim(input) == "" then (skills, input) else (skills + [Text.Trim(input)], "")
  }

  function SkillKey(s: string): string { s }

  /** `removeSkill`: every entry equal to `skill` goes, the others stay in
      order. */
  function RemoveSkill(skills: seq<string>, skill: string): (r: seq<string>)
    ensures forall i :: 0 <= i < |r| ==> r[i] != skill
    ensures forall s :: s in r <==> s in skills && s != skill
  {
    Collection.Without(skills, SkillKey, skill)
  }

  /** Removing a freshly added skill restores the list, provided it was not
      already there. */
  lemma RemoveUndoesAdd(skills: seq<string>, input: string)
    requires !Text.Blank(input) && Text.Trim(input) !in skills
    ensures RemoveSkill(AddSkill(skills, input).0, Text.Trim(input)) == skills
  {
    var t := Text.Trim(input);
    Collection.WithoutAppend(skills, [t], SkillKey, t);
    Collection.WithoutAbsent(skills, SkillKey, t);
    assert Collection.Without([t], SkillKey, t) == [];
  }

  // ---------------------------------------------------------------- files

  predicate IsPdf(f: File) { f.mimeType == "application/pdf" }

  // ---------------------------------------------------------------- submit chain

  /** How the request chain ends: every request answered ok (the page
      navigates), a request answered non-ok (an alert, `submitting` reset),
      or a request rejected (the handler escapes with `submitting` still set). */
  datatype ChainEnd = Completed | Stopped | Escaped

  /** The chain of awaited requests, each sent only when all earlier ones
      answered ok. Given the answer each would get, it yields how many are
      sent and how the chain ends. */
  function RunChain(replies: seq<Response<()>>): (r: (nat, ChainEnd))
    ensures r.0 <= |replies|
    ensures r.1 == Completed <==> r.0 == |replies| && forall i :: 0 <= i < |replies| ==> replies[i].IsOk()
    ensures forall i :: 0 <= i < r.0 - 1 ==> replies[i].IsOk()
    ensures r.1 != Completed ==> 1 <= r.0 && !replies[r.0 - 1].IsOk()
    ensures r.1 == Escaped <==> r.1 != Completed && replies[r.0 - 1].Threw?
  {
    if replies == [] then (0, Completed)
    else if replies[0].IsOk() then
      var rest := RunChain(replies[1..]);
      (rest.0 + 1, rest.1)
    else (1, if replies[0].Threw? then Escaped else Stopped)
  }

  /** The requests a submit would send if every answer were ok, in order:
      profile, education, then experience when that section is shown. */
  function PlannedRequests(verb: Verb, parts: seq<Multipart.FormPart>, education: Education,
                           showExperience: bool, experience: Experience, token: Token): (r: seq<Request>)
    ensures |r| == |FailureAlerts(showExperience)|
  {
    [ProfileRequest(verb, parts, BearerOf(token)), EducationRequest(EducationPayload(education), BearerOf(token))]
    + (if showExperience then [ExperienceRequest(ExperiencePayload(experience), BearerOf(token))] else [])
  }

  /** Every planned request carries the token; the profile goes first with
      the chosen verb and body, then the education payload, and an
      experience request is planned exactly when that section is shown. */
  lemma PlannedRequestsShape(verb: Verb, parts: seq<Multipart.FormPart>, education: Education,
                             showExperience: bool, experience: Experience, token: Token)
    ensures var r := PlannedRequests(verb, parts, education, showExperience, experience, token);
            && (forall i :: 0 <= i < |r| ==> r[i].authorization == BearerOf(token))
            && r[0].ProfileRequest? && r[0].verb == verb && r[0].parts == parts
            && r[1].EducationRequest? && r[1].education == EducationPayload(education)
            && (showExperience <==> exists i :: 0 <= i < |r| && r[i].ExperienceRequest?)
            && (showExperience ==> r[2].experience == ExperiencePayload(experience))
  {
    var r := PlannedRequests(verb, parts, education, showExperience, experience, token);
    assert showExperience ==> r[2].ExperienceRequest?;
  }

  /** The alert each request's non-ok answer raises, in the same order. */
  function FailureAlerts(showExperience: bool): (a: seq<string>)
    ensures |a| == 2 + (if showExperience then 1 else 0)
  {
    [ProfileFailedAlert, EducationFailedAlert] + (if showExperience then [ExperienceFailedAlert] else [])
  }

  /** No two steps share an alert, so the alert names the step that
      failed. */
  lemma FailureAlertsDistinct(showExperience: bool)
    ensures var a := FailureAlerts(showExperience);
            forall i, j :: 0 <= i < j < |a| ==> a[i] != a[j]
  {
  }

  /** The answers, in the order of the planned requests. */
  function Replies(profile: Response<()>, education: Response<()>, showExperience: bool,
                   experience: Response<()>): (rs: seq<Response<()>>)
    ensures |rs| == |FailureAlerts(showExperience)|
  {
    [profile, education] + (if showExperience then [experience] else [])
  }

  /** The experience request is sent only when the section is shown and
      both earlier requests were answered ok. */
  lemma ExperienceOnlyAfterSuccess(profile: Response<()>, education: Response<()>, showExperience: bool,
                                   experience: Response<()>)
    ensures RunChain(Replies(profile, education, showExperience, experience)).0 == 3 <==>
              showExperience && profile.IsOk() && education.IsOk()
    ensures RunChain(Replies(profile, education, showExperience, experience)).1 == Completed <==>
              profile.IsOk() && education.IsOk() && (showExperience ==> experience.IsOk())
  {
    var rs := Replies(profile, education, showExperience, experience);
    assert rs[0] == profile && rs[1] == education;
    assert showExperience ==> rs[2] == experience;
    if profile.IsOk() {
      assert rs[1..] == [education] + (if showExperience then [experience] else []);
      if education.IsOk() {
        assert rs[1..][1..] == (if showExperience then [experience] else []);
      }
    }
  }

  /** The chain case by case, as the handler's branches see it. */
  lemma RunChainCases(profile: Response<()>, education: Response<()>, showExperience: bool,
                      experience: Response<()>)
    ensures var run := RunChain(Replies(profile, education, showExperience, experience));
            && (!profile.IsOk() ==> run == (1, if profile.Threw? then Escaped else Stopped))
            && (profile.IsOk() && !education.IsOk() ==> run == (2, if education.Threw? then Escaped else Stopped))
            && (profile.IsOk() && education.IsOk() && !showExperience ==> run == (2, Completed))
            && (profile.IsOk() && education.IsOk() && showExperience ==>
                  run == (3, if experience.IsOk() then Completed else if experience.Threw? then Escaped else Stopped))
  {
    var rs := Replies(profile, education, showExperience, experience);
    assert rs[0] == profile && rs[1] == education;
    if profile.IsOk() {
      assert rs[1..] == [education] + (if showExperience then [experience] else []);
      if education.IsOk() {
        var tail := rs[1..][1..];
        assert tail == (if showExperience then [experience] else []);
        if showExperience {
          assert tail[1..] == [];
          assert RunChain(tail) == (if experience.IsOk() then (1, Completed) else (1, if experience.Threw? then Escaped else Stopped));
        } else {
          assert RunChain(tail) == (0, Completed);
        }
      }
    }
  }

  /** The profile body: the four text fields, one "skills" part per skill in
      list order, then the image and the resume when selected. */
  function ProfileParts(fullName: string, bio: string, portfolioLink: string, linkedinLink: string,
                        skills: seq<string>, profileImage: Option<File>, resume: Option<File>): (r: seq<Multipart.FormPart>)
    ensures |r| == 4 + |skills| + (if profileImage.Some? then 1 else 0) + (if resume.Some? then 1 else 0)
    ensures forall i :: 0 <= i < 4 + |skills| ==> r[i].TextPart?
    ensures forall i :: 4 + |skills| <= i < |r| ==> r[i].FilePart?
  {
    [Multipart.TextPart("full_name", fullName), Multipart.TextPart("bio", bio),
     Multipart.TextPart("portfolio_link", portfolioLink), Multipart.TextPart("linkedin_link", linkedinLink)]
    + Multipart.TextParts("skills", skills)
    + Multipart.OptionalFile("profile_image", profileImage)
    + Multipart.OptionalFile("resume", resume)
  }

  /** The server reads the skills back exactly as listed, in order. */
  lemma ProfilePartsCarrySkills(fullName: string, bio: string, portfolioLink: string, linkedinLink: string,
                                skills: seq<string>, profileImage: Option<File>, resume: Option<File>)
    ensures Multipart.TextsNamed(ProfileParts(fullName, bio, portfolioLink, linkedinLink, skills, profileImage, resume), "skills")
            == skills
  {
    var head := [Multipart.TextPart("full_name", fullName), Multipart.TextPart("bio", bio),
                 Multipart.TextPart("portfolio_link", portfolioLink), Multipart.TextPart("linkedin_link", linkedinLink)];
    var files := Multipart.OptionalFile("profile_image", profileImage) + Multipart.OptionalFile("resume", resume);
    assert ProfileParts(fullName, bio, portfolioLink, linkedinLink, skills, profileImage, resume)
           == head + Multipart.TextParts("skills", skills) + files;
    Multipart.TextsNamedConcat(head + Multipart.TextParts("skills", skills), files, "skills");
    Multipart.TextsNamedConcat(head, Multipart.TextParts("skills", skills), "skills");
    Multipart.TextsNamedOfTextParts("skills", skills);
    assert Multipart.TextsNamed(head[3..], "skills") == [] by {
      assert head[3..][1..] == [];
    }
    assert head[2..][1..] == head[3..] && head[1..][1..] == head[2..];
    assert Multipart.TextsNamed(head, "skills") == Multipart.TextsNamed(head[1..], "skills")
           == Multipart.TextsNamed(head[2..], "skills") == Multipart.TextsNamed(head[3..], "skills");
    Multipart.TextsNamedConcat(Multipart.OptionalFile("profile_image", profileImage),
                               Multipart.OptionalFile("resume", resume), "skills");
    Multipart.TextsNamedOfFile("profile_image", profileImage, "skills");
    Multipart.TextsNamedOfFile("resume", resume, "skills");
  }

  /** The server reads each of the four text fields back under its own
      name, exactly once. */
  lemma ProfilePartsReadBack(fullName: string, bio: string, portfolioLink: string, linkedinLink: string,
                             skills: seq<string>, profileImage: Option<File>, resume: Option<File>)
    ensures var r := ProfileParts(fullName, bio, portfolioLink, linkedinLink, skills, profileImage, resume);
            && Multipart.TextsNamed(r, "full_name") == [fullName]
            && Multipart.TextsNamed(r, "bio") == [bio]
            && Multipart.TextsNamed(r, "portfolio_link") == [portfolioLink]
            && Multipart.TextsNamed(r, "linkedin_link") == [linkedinLink]
  {
    var r := ProfileParts(fullName, bio, portfolioLink, linkedinLink, skills, profileImage, resume);
    var names := ["full_name", "bio", "portfolio_link", "linkedin_link"];
    assert forall i :: 0 <= i < 4 ==> r[i].name == names[i];
    assert forall j :: 4 <= j < 4 + |skills| ==> r[j] == Multipart.TextPart("skills", skills[j - 4]);
    assert forall i, j :: 0 <= i < j < 4 ==> names[i] != names[j] by {
      assert names[0][0] == 'f' && names[1][0] == 'b' && names[2][0] == 'p' && names[3][0] == 'l';
    }
    assert forall i :: 0 <= i < 4 ==> names[i] != "skills" by {
      assert names[0][0] == 'f' && names[1][0] == 'b' && names[2][0] == 'p' && names[3][0] == 'l';
      assert "skills"[0] == 's';
    }
    forall k | 0 <= k < 4
      ensures Multipart.TextsNamed(r, names[k]) == [r[k].text]
    {
      Multipart.TextsNamedUnique(r, names[k], k);
    }
    assert Multipart.TextsNamed(r, names[0]) == [fullName];
    assert Multipart.TextsNamed(r, names[1]) == [bio];
    assert Multipart.TextsNamed(r, names[2]) == [portfolioLink];
    assert Multipart.TextsNamed(r, names[3]) == [linkedinLink];
  }

  class CreateCandidateProfile {
    var fullName: string
    var bio: string
    var skills: seq<string>
    var skillInput: string
    var profileImage: Option<File>
    var resume: Option<File>
    var imageError: Option<string>
    var resumeError: Option<string>
    var profileExists: bool
    var portfolioLink: string
    var linkedinLink: string
    var education: Education
    var showExperience: bool
    var experience: Experience
    var submitting: bool
    var requests: seq<Request>
    var alerts: seq<string>
    /** The target of `router.push`, once called. */
    var navigation: Option<string>

    /** First render followed by the mount effect, which sends the
        existence probe with `Bearer ${token}`. */
    constructor (token: Token)
      ensures fullName == "" && bio == "" && skills == [] && skillInput == ""
      ensures profileImage == None && resume == None && imageError == None && resumeError == None
      ensures !profileExists && portfolioLink == "" && linkedinLink == ""
      ensures education == BlankEducation && !showExperience && experience == BlankExperience
      ensures !submitting && requests == [ProbeRequest(BearerOf(token))] && alerts == [] && navigation == None
    {
      fullName, bio, skills, skillInput := "", "", [], "";
      profileImage, resume, imageError, resumeError := None, None, None, None;
      profileExists, portfolioLink, linkedinLink := false, "", "";
      education, showExperience, experience := BlankEducation, false, BlankExperience;
      submitting, requests, alerts, navigation := false, [ProbeRequest(BearerOf(token))], [], None;
    }

    /** The existence probe of the mount effect settles: only an ok answer
        marks the profile as existing. */
    method ProbeSettled(response: Response<()>)
      modifies this`profileExists
      ensures profileExists == (old(profileExists) || response.IsOk())
    {
      if response.Answered? && response.ok {
        profileExists := true;
      }
    }

    method SetSkillInput(value: string)
      modifies this`skillInput
      ensures skillInput == value
    {
      skillInput := value;
    }

    method AddSkillClicked()
      modifies this`skills, this`skillInput
      ensures (skills, skillInput) == AddSkill(old(skills), old(skillInput))
    {
      if Text.Trim(skillInput) == "" {
        return;
      }
      skills := skills + [Text.Trim(skillInput)];
      skillInput := "";
    }

    method RemoveSkillClicked(skill: string)
      modifies this`skills
      ensures skills == RemoveSkill(old(skills), skill)
    {
      skills := Collection.Without(skills, SkillKey, skill);
    }

    /** `handleImageChange`: nothing without a file; a non-image sets the
        error and keeps the previous image; an image is kept. Nothing here
        clears an earlier error. */
    method HandleImageChange(files: seq<File>)
      modifies this`profileImage, this`imageError
      ensures |files| == 0 ==> profileImage == old(profileImage) && imageError == old(imageError)
      ensures |files| > 0 && !IsImage(files[0]) ==> profileImage == old(profileImage) && imageError == Some(ImageError)
      ensures |files| > 0 && IsImage(files[0]) ==> profileImage == Some(files[0]) && imageError == old(imageError)
      ensures old(imageError).Some? ==> imageError.Some?
    {
      if |files| == 0 {
        return;
      }
      var file := files[0];
      if !IsImage(file) {
        imageError := Some(ImageError);
        return;
      }
      profileImage := Some(file);
    }

    /** `handleResumeChange`: the error is cleared first; then a PDF is kept
        and anything else sets the error. */
    method HandleResumeChange(files: seq<File>)
      modifies this`resume, this`resumeError
      ensures |files| == 0 ==> resume == old(resume) && resumeError == None
      ensures |files| > 0 && !IsPdf(files[0]) ==> resume == old(resume) && resumeError == Some(ResumeError)
      ensures |files| > 0 && IsPdf(files[0]) ==> resume == Some(files[0]) && resumeError == None
    {
      resumeError := None;
      if |files| == 0 {
        return;
      }
      var file := files[0];
      if !IsPdf(file) {
        resumeError := Some(ResumeError);
        return;
      }
      resume := Some(file);
    }

    method SetFullName(value: string)
      modifies this`fullName
      ensures fullName == value
    {
      fullName := value;
    }

    method SetBio(value: string)
      modifies this`bio
      ensures bio == value
    {
      bio := value;
    }

    method SetPortfolioLink(value: string)
      modifies this`portfolioLink
      ensures portfolioLink == value
    {
      portfolioLink := value;
    }

    method SetLinkedinLink(value: string)
      modifies this`linkedinLink
      ensures linkedinLink == value
    {
      linkedinLink := value;
    }

    method SetEducation(value: Education)
      modifies this`education
      ensures education == value
    {
      education := value;
    }

    method SetExperience(value: Experience)
      modifies this`experience
      ensures experience == value
    {
      experience := value;
    }

    /** The "add experience" toggle. */
    method ToggleExperience()
      modifies this`showExperience
      ensures showExperience == !old(showExperience)
    {
      showExperience := !showExperience;
    }

    /** The `FormData` the submit builds from the current state. */
    method BuildForm() returns (parts: seq<Multipart.FormPart>)
      ensures parts == ProfileParts(fullName, bio, portfolioLink, linkedinLink, skills, profileImage, resume)
    {
      parts := [Multipart.TextPart("full_name", fullName), Multipart.TextPart("bio", bio),
                Multipart.TextPart("portfolio_link", portfolioLink), Multipart.TextPart("linkedin_link", linkedinLink)];
      parts := Multipart.AppendAll(parts, "skills", skills);
      parts := parts + Multipart.OptionalFile("profile_image", profileImage) + Multipart.OptionalFile("resume", resume);
    }

    /** One awaited request of the submit chain: it is sent; a non-ok
        answer raises `failure` and resets `submitting`; a rejection changes
        nothing more. The chain goes on only after an ok answer. */
    method Send(request: Request, reply: Response<()>, failure: string) returns (goOn: bool)
      modifies this`submitting, this`requests, this`alerts
      ensures requests == old(requests) + [request]
      ensures goOn == reply.IsOk()
      ensures reply.Answered? && !reply.ok ==> alerts == old(alerts) + [failure] && !submitting
      ensures reply.Answered? ==> reply.ok || (alerts == old(alerts) + [failure] && !submitting)
      ensures reply.Threw? || reply.ok ==> alerts == old(alerts) && submitting == old(submitting)
    {
      requests := requests + [request];
      goOn := reply.Answered? && reply.ok;
      if reply.Answered? && !reply.ok {
        alerts := alerts + [failure];
        submitting := false;
      }
    }

    /** The awaited chain itself: `submitting` is set, then each planned
        request is sent only after the previous one answered ok, a non-ok
        answer raises the alert paired with that request, and only a fully
        ok chain navigates to the profile page. The plan is the profile and
        education requests and, when that section is shown, the experience
        request. */
    method SendChain(planned: seq<Request>, failures: seq<string>, replies: seq<Response<()>>)
      requires 2 <= |planned| <= 3 && |failures| == |planned| && |replies| == |planned|
      modifies this`submitting, this`requests, this`alerts, this`navigation
      ensures var run := RunChain(replies);
              && requests == old(requests) + planned[..run.0]
              && submitting == (run.1 != Stopped)
              && alerts == old(alerts) + (if run.1 == Stopped then [failures[run.0 - 1]] else [])
              && navigation == (if run.1 == Completed then Some(ProfilePage) else old(navigation))
    {
      ghost var run := RunChain(replies);
      submitting := true;
      var goOn := Send(planned[0], replies[0], failures[0]);
      if !goOn {
        assert run.0 == 1 && planned[..1] == [planned[0]];
        return;
      }
      goOn := Send(planned[1], replies[1], failures[1]);
      assert planned[..2] == [planned[0], planned[1]];
      if !goOn {
        assert run.0 == 2;
        return;
      }
      if |planned| == 3 {
        goOn := Send(planned[2], replies[2], failures[2]);
        assert run.0 == 3 && planned[..3] == planned;
        if !goOn {
          return;
        }
      } else {
        assert run == (2, Completed) && planned[..2] == planned;
      }
      navigation := Some(ProfilePage);
    }

    /** The submit after its validation guard: the form is built and the
        planned chain runs. */
    method SubmitChain(token: Token, profileReply: Response<()>, educationReply: Response<()>,
                       experienceReply: Response<()>)
      modifies this`submitting, this`requests, this`alerts, this`navigation
      ensures var run := RunChain(Replies(profileReply, educationReply, showExperience, experienceReply));
              var planned := PlannedRequests(ProfileVerb(profileExists),
                               ProfileParts(fullName, bio, portfolioLink, linkedinLink, skills, profileImage, resume),
                               education, showExperience, experience, token);
              && requests == old(requests) + planned[..run.0]
              && submitting == (run.1 != Stopped)
              && alerts == old(alerts) + (if run.1 == Stopped then [FailureAlerts(showExperience)[run.0 - 1]] else [])
              && navigation == (if run.1 == Completed then Some(ProfilePage) else old(navigation))
    {
      var parts := BuildForm();
      var planned := PlannedRequests(ProfileVerb(profileExists), parts, education, showExperience, experience, token);
      SendChain(planned, FailureAlerts(showExperience), Replies(profileReply, educationReply, showExperience, experienceReply));
    }

    /** `handleSubmit`. With an image or resume error it alerts and sends
        nothing. Otherwise it sets `submitting` and sends the planned
        requests in order, each only after the previous one answered ok; the
        first non-ok answer raises that step's alert and resets
        `submitting`, a rejection escapes with `submitting` still set, and
        only a fully ok chain navigates to the profile page. A non-ok profile
        answer has its body decoded before the alert, so one whose body is
        not JSON counts as a rejection here. */
    method HandleSubmit(token: Token, profileReply: Response<()>, educationReply: Response<()>,
                        experienceReply: Response<()>)
      modifies this`submitting, this`requests, this`alerts, this`navigation
      ensures imageError.Some? || resumeError.Some? ==>
                requests == old(requests) && alerts == old(alerts) + [FixErrorsAlert]
                && submitting == old(submitting) && navigation == old(navigation)
      ensures imageError.None? && resumeError.None? ==>
                var run := RunChain(Replies(profileReply, educationReply, showExperience, experienceReply));
                var planned := PlannedRequests(ProfileVerb(profileExists),
                                 ProfileParts(fullName, bio, portfolioLink, linkedinLink, skills, profileImage, resume),
                                 education, showExperience, experience, token);
                && run.0 <= |planned|
                && requests == old(requests) + planned[..run.0]
                && submitting == (run.1 != Stopped)
                && alerts == old(alerts) + (if run.1 == Stopped then [FailureAlerts(showExperience)[run.0 - 1]] else [])
                && navigation == (if run.1 == Completed then Some(ProfilePage) else old(navigation))
    {
      if imageError.Some? || resumeError.Some? {
        alerts := alerts + [FixErrorsAlert];
        return;
      }
      SubmitChain(token, profileReply, educationReply, experienceReply);
    }
  }
}
