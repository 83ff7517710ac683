/** The employer's "Post a job" form: a seven-field draft, a submit that
    posts it as JSON, and a reset to the default draft
    (app/employer/postjob/page.tsx). */
module PostJob {
  import opened Common

  const NotLoggedIn := "You must be logged in to post a job."
  const CreateFailed := "Failed to create job. Try again."

  /** The draft's keys: the four text inputs by `name`, and the three
      selects. */
  datatype Field = Title | Description | Location | ExperienceLevel | WorkMode | JobType | Salary

  datatype JobDraft = JobDraft(
    title: string, description: string, location: string,
    experienceLevel: string, workMode: string, jobType: string, salary: string)

  /** The initial draft, restored after a successful post and by Reset. */
  const DefaultDraft := JobDraft("", "", "", "entry", "remote", "full-time", "")

  function Get(d: JobDraft, f: Field): string
  {
    match f
    case Title => d.title
    case Description => d.description
    case Location => d.location
    case ExperienceLevel => d.experienceLevel
    case WorkMode => d.workMode
    case JobType => d.jobType
    case Salary => d.salary
  }

  /** `{ ...formData, [key]: value }`: the one key takes the value, the
      others keep theirs. */
  function Set(d: JobDraft, f: Field, value: string): (r: JobDraft)
    ensures Get(r, f) == value
    ensures forall g :: g != f ==> Get(r, g) == Get(d, g)
  {
    match f
    case Title => d.(title := value)
    case Description => d.(description := value)
    case Location => d.(location := value)
    case ExperienceLevel => d.(experienceLevel := value)
    case WorkMode => d.(workMode := value)
    case JobType => d.(jobType := value)
    case Salary => d.(salary := value)
  }

  /** The default draft: every text field empty, entry level, remote,
      full-time. */
  lemma DefaultDraftValues()
    ensures forall f :: f in {Title, Description, Location, Salary} ==> Get(DefaultDraft, f) == ""
    ensures Get(DefaultDraft, ExperienceLevel) == "entry"
    ensures Get(DefaultDraft, WorkMode) == "remote"
    ensures Get(DefaultDraft, JobType) == "full-time"
  {
  }

  /** Two drafts that agree on every key are the same draft, so a sequence
      of edits that puts back each default value is a reset. */
  lemma DraftsAgreeEverywhere(d: JobDraft, e: JobDraft)
    requires forall f :: Get(d, f) == Get(e, f)
    ensures d == e
  {
    assert Get(d, Title) == Get(e, Title) && Get(d, Description) == Get(e, Description);
    assert Get(d, Location) == Get(e, Location) && Get(d, ExperienceLevel) == Get(e, ExperienceLevel);
    assert Get(d, WorkMode) == Get(e, WorkMode) && Get(d, JobType) == Get(e, JobType);
    assert Get(d, Salary) == Get(e, Salary);
  }

  /** The POST of the draft as JSON, with `Bearer ${token}`. */
  datatype Request = CreateRequest(draft: JobDraft, authorization: string)

  class PostJobPage {
    var formData: JobDraft
    var loading: bool
    var error: Option<string>
    var success: bool
    var requests: seq<Request>

    constructor ()
      ensures formData == DefaultDraft && !loading && error == None && !success && requests == []
    {
      formData := DefaultDraft;
      loading := false;
      error := None;
      success := false;
      requests := [];
    }

    /** `handleChange` for the text inputs and the `onValueChange` of each
        select: exactly one key of the draft changes. */
    method SetField(field: Field, value: string)
      modifies this`formData
      ensures formData == Set(old(formData), field, value)
    {
      formData := Set(formData, field, value);
    }

    /** The Reset button. */
    method Reset()
      modifies this`formData
      ensures formData == DefaultDraft
    {
      formData := DefaultDraft;
    }

    /** `handleSubmit`. The error and success flags are cleared first.
        Without a token it reports that and sends nothing. Otherwise the
        draft is posted: an ok answer sets `success` and restores the
        default draft; a non-ok answer or a rejection, both caught, report
        the failure and keep the draft. `loading` ends in every case. */
    method HandleSubmit(token: Token, response: Response<()>)
      modifies this`formData, this`loading, this`error, this`success, this`requests
      ensures !loading
      ensures !HasToken(token) ==>
                error == Some(NotLoggedIn) && !success && formData == old(formData) && requests == old(requests)
      ensures HasToken(token) ==>
                requests == old(requests) + [CreateRequest(old(formData), "Bearer " + token.value)]
      ensures HasToken(token) && response.IsOk() ==> success && error == None && formData == DefaultDraft
      ensures HasToken(token) && !response.IsOk() ==>
                !success && error == Some(CreateFailed) && formData == old(formData)
    {
      loading := true;
      error := None;
      success := false;
      if !HasToken(token) {
        error := Some(NotLoggedIn);
        loading := false;
        return;
      }
      requests := requests + [CreateRequest(formData, BearerOf(token))];
      if response.Answered? && response.ok {
        success := true;
        formData := DefaultDraft;
      } else {
        error := Some(CreateFailed);
      }
      loading := false;
    }
  }
}
