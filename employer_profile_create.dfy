/** The employer's company-profile page: six text fields, a logo picker
    checked by MIME type, and one submit that creates or updates the profile
    and then shows a success dialog (app/profile/employer/create/page.tsx). */
module EmployerProfileCreate {
  import opened Common
  import Multipart

  const LogoError := "Please upload a valid image file"
  const FixErrorsAlert := "Fix validation errors before submitting"
  const CreateFailedAlert := "Failed to create employer profile"
  const ProfilePage := "/profile/employer"

  /** The six text inputs. */
  datatype TextField = CompanyName | Description | AboutCompany | Location | WebsiteLink | LinkedinLink

  datatype CompanyText = CompanyText(
    companyName: string, description: string, aboutCompany: string,
    location: string, websiteLink: string, linkedinLink: string)

  const BlankText := CompanyText("", "", "", "", "", "")

  function Get(t: CompanyText, f: TextField): string
  {
    match f
    case CompanyName => t.companyName
    case Description => t.description
    case AboutCompany => t.aboutCompany
    case Location => t.location
    case WebsiteLink => t.websiteLink
    case LinkedinLink => t.linkedinLink
  }

  /** The input's own setter: that field takes the value, the others keep
      theirs. */
  function Set(t: CompanyText, f: TextField, value: string): (r: CompanyText)
    ensures Get(r, f) == value
    ensures forall g :: g != f ==> Get(r, g) == Get(t, g)
  {
    match f
    case CompanyName => t.(companyName := value)
    case Description => t.(description := value)
    case AboutCompany => t.(aboutCompany := value)
    case Location => t.(location := value)
    case WebsiteLink => t.(websiteLink := value)
    case LinkedinLink => t.(linkedinLink := value)
  }

  /** The profile body: the six text fields in order, then the logo when
      one is set. */
  function ProfileParts(t: CompanyText, logo: Option<File>): (r: seq<Multipart.FormPart>)
    ensures |r| == 6 + (if logo.Some? then 1 else 0)
    ensures forall i :: 0 <= i < 6 ==> r[i].TextPart?
    ensures logo.Some? <==> exists i :: 0 <= i < |r| && r[i].FilePart?
    ensures logo.Some? ==> r[6] == Multipart.FilePart("logo", logo.value)
  {
    var text := [Multipart.TextPart("company_name", t.companyName), Multipart.TextPart("description", t.description),
                 Multipart.TextPart("about_company", t.aboutCompany), Multipart.TextPart("location", t.location),
                 Multipart.TextPart("website_link", t.websiteLink), Multipart.TextPart("linkedin_link", t.linkedinLink)];
    var r := text + Multipart.OptionalFile("logo", logo);
    assert logo.Some? ==> r[6].FilePart?;
    r
  }

  /** The server reads each text field back under its own name, exactly
      once: no field is sent under another's name or sent twice. */
  lemma ProfilePartsReadBack(t: CompanyText, logo: Option<File>)
    ensures Multipart.TextsNamed(ProfileParts(t, logo), "company_name") == [t.companyName]
    ensures Multipart.TextsNamed(ProfileParts(t, logo), "description") == [t.description]
    ensures Multipart.TextsNamed(ProfileParts(t, logo), "about_company") == [t.aboutCompany]
    ensures Multipart.TextsNamed(ProfileParts(t, logo), "location") == [t.location]
    ensures Multipart.TextsNamed(ProfileParts(t, logo), "website_link") == [t.websiteLink]
    ensures Multipart.TextsNamed(ProfileParts(t, logo), "linkedin_link") == [t.linkedinLink]
  {
    var r := ProfileParts(t, logo);
    var names := ["company_name", "description", "about_company", "location", "website_link", "linkedin_link"];
    assert forall i :: 0 <= i < 6 ==> r[i].name == names[i];
    assert forall i, j :: 0 <= i < j < 6 ==> names[i] != names[j] by {
      assert names[0][0] == 'c' && names[1][0] == 'd' && names[2][0] == 'a';
      assert names[3][0] == 'l' && names[4][0] == 'w' && names[5][0] == 'l' && names[3][1] == 'o' && names[5][1] == 'i';
    }
    forall k | 0 <= k < 6
      ensures Multipart.TextsNamed(r, names[k]) == [r[k].text]
    {
      Multipart.TextsNamedUnique(r, names[k], k);
    }
    assert Multipart.TextsNamed(r, names[0]) == [t.companyName];
    assert Multipart.TextsNamed(r, names[1]) == [t.description];
    assert Multipart.TextsNamed(r, names[2]) == [t.aboutCompany];
    assert Multipart.TextsNamed(r, names[3]) == [t.location];
    assert Multipart.TextsNamed(r, names[4]) == [t.websiteLink];
    assert Multipart.TextsNamed(r, names[5]) == [t.linkedinLink];
  }

  datatype Request =
    | ProbeRequest(authorization: string)
    | ProfileRequest(verb: Verb, parts: seq<Multipart.FormPart>, authorization: string)

  class CreateEmployerProfile {
    var text: CompanyText
    var logo: Option<File>
    var logoError: Option<string>
    var profileExists: bool
    var submitting: bool
    var showSuccess: bool
    var requests: seq<Request>
    var alerts: seq<string>
    /** The target of `router.push`, once called. */
    var navigation: Option<string>

    /** First render followed by the mount effect, which sends the
        existence probe. */
    constructor (token: Token)
      ensures text == BlankText && logo == None && logoError == None
      ensures !profileExists && !submitting && !showSuccess
      ensures requests == [ProbeRequest(BearerOf(token))] && alerts == [] && navigation == None
    {
      text := BlankText;
      logo := None;
      logoError := None;
      profileExists := false;
      submitting := false;
      showSuccess := false;
      requests := [ProbeRequest(BearerOf(token))];
      alerts := [];
      navigation := None;
    }

    /** The probe settles: only an ok answer marks the profile as existing. */
    method ProbeSettled(response: Response<()>)
      modifies this`profileExists
      ensures profileExists == (old(profileExists) || response.IsOk())
    {
      if response.Answered? && response.ok {
        profileExists := true;
      }
    }

    method HandleTextChange(field: TextField, value: string)
      modifies this`text
      ensures text == Set(old(text), field, value)
    {
      text := Set(text, field, value);
    }

    /** `handleLogoChange`: nothing without a file; a non-image sets the
        error and keeps the logo; an image clears the error and becomes the
        logo. */
    method HandleLogoChange(files: seq<File>)
      modifies this`logo, this`logoError
      ensures |files| == 0 ==> logo == old(logo) && logoError == old(logoError)
      ensures |files| > 0 && !IsImage(files[0]) ==> logo == old(logo) && logoError == Some(LogoError)
      ensures |files| > 0 && IsImage(files[0]) ==> logo == Some(files[0]) && logoError == None
    {
      if |files| == 0 {
        return;
      }
      var file := files[0];
      if !IsImage(file) {
        logoError := Some(LogoError);
        return;
      }
      logoError := None;
      logo := Some(file);
    }

    /** `handleSubmit`. With a logo error it alerts and sends nothing.
        Otherwise the profile is sent, PUT when it exists and POST when not;
        a non-ok answer alerts and resets `submitting`, an ok answer resets
        `submitting` and shows the success dialog, and a rejection escapes
        with `submitting` still set. */
    method HandleSubmit(token: Token, response: Response<()>)
      modifies this`submitting, this`showSuccess, this`requests, this`alerts
      ensures logoError.Some? ==>
                requests == old(requests) && alerts == old(alerts) + [FixErrorsAlert]
                && submitting == old(submitting) && showSuccess == old(showSuccess)
      ensures logoError.None? ==>
                requests == old(requests) + [ProfileRequest(ProfileVerb(profileExists), ProfileParts(text, logo), BearerOf(token))]
      ensures logoError.None? && response.Threw? ==>
                submitting && showSuccess == old(showSuccess) && alerts == old(alerts)
      ensures logoError.None? && response.Answered? && !response.ok ==>
                !submitting && showSuccess == old(showSuccess) && alerts == old(alerts) + [CreateFailedAlert]
      ensures logoError.None? && response.IsOk() ==> !submitting && showSuccess && alerts == old(alerts)
    {
      if logoError.Some? {
        alerts := alerts + [FixErrorsAlert];
        return;
      }
      submitting := true;
      var form := [Multipart.TextPart("company_name", text.companyName), Multipart.TextPart("description", text.description),
                   Multipart.TextPart("about_company", text.aboutCompany), Multipart.TextPart("location", text.location),
                   Multipart.TextPart("website_link", text.websiteLink), Multipart.TextPart("linkedin_link", text.linkedinLink)];
      if logo.Some? {
        form := form + [Multipart.FilePart("logo", logo.value)];
      }
      assert form == ProfileParts(text, logo);
      var verb := if profileExists then Put else Post;
      requests := requests + [ProfileRequest(verb, form, BearerOf(token))];
      if response.Threw? {
        return;
      }
      if !response.ok {
        alerts := alerts + [CreateFailedAlert];
        submitting := false;
        return;
      }
      submitting := false;
      showSuccess := true;
    }

    /** The dialog's action: close it and go to the company profile. */
    method ConfirmSuccess()
      modifies this`showSuccess, this`navigation
      ensures !showSuccess && navigation == Some(ProfilePage)
    {
      showSuccess := false;
      navigation := Some(ProfilePage);
    }
  }
}
