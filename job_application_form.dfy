/** The "Apply now" dialog: a cover letter and a resume checked against a
    two-rule schema before the application is posted
    (components/JobApplicationForm.tsx). */
module JobApplicationForm {
  import opened Common

  const CoverLetterTooShort := "Cover letter must be at least 30 characters"
  const ResumeRequired := "Resume is required"
  const SubmitFailed := "Failed to submit application"
  /** The schema's minimum cover-letter length. */
  const MinCoverLetter := 30

  datatype Draft = Draft(coverLetter: string, resume: Option<File>)

  /** The form's two inputs: the cover-letter textarea and the hidden file
      input named "resume". */
  datatype Change = CoverLetterInput(text: string) | ResumeInput(files: seq<File>)

  /** The posted application, with the header built from the token. */
  datatype ApplyRequest = ApplyRequest(jobId: string, coverLetter: string, resume: File, authorization: Option<string>)

  /** The schema's issues, in the order of its keys: the cover letter is
      checked before the resume. */
  function Issues(d: Draft): (r: seq<string>)
    ensures r == [] <==> |d.coverLetter| >= MinCoverLetter && d.resume.Some?
    ensures CoverLetterTooShort in r <==> |d.coverLetter| < MinCoverLetter
    ensures ResumeRequired in r <==> d.resume.None?
    ensures |d.coverLetter| < MinCoverLetter ==> r[0] == CoverLetterTooShort
  {
    (if |d.coverLetter| < MinCoverLetter then [CoverLetterTooShort] else [])
    + (if d.resume.None? then [ResumeRequired] else [])
  }

  /** The one message shown: `err.errors[0].message`, or none when the
      draft passes. */
  function FirstIssue(d: Draft): (m: Option<string>)
    ensures m.None? <==> |d.coverLetter| >= MinCoverLetter && d.resume.Some?
    ensures |d.coverLetter| < MinCoverLetter ==> m == Some(CoverLetterTooShort)
    ensures |d.coverLetter| >= MinCoverLetter && d.resume.None? ==> m == Some(ResumeRequired)
  {
    var issues := Issues(d);
    if issues == [] then None else Some(issues[0])
  }

  /** `handleChange`: the textarea stores its text, the file input its first
      file or nothing; the other field is kept. */
  function ApplyChange(d: Draft, c: Change): (r: Draft)
    ensures c.CoverLetterInput? ==> r.coverLetter == c.text && r.resume == d.resume
    ensures c.ResumeInput? ==> r.resume == FirstFile(c.files) && r.coverLetter == d.coverLetter
  {
    match c
    case CoverLetterInput(text) => d.(coverLetter := text)
    case ResumeInput(files) => d.(resume := FirstFile(files))
  }

  class ApplicationForm {
    const jobId: string
    var formData: Draft
    var isDragging: bool
    var error: Option<string>
    /** The target of `redirect`, once called. */
    var redirected: Option<string>
    var requests: seq<ApplyRequest>

    constructor (jobId: string)
      ensures this.jobId == jobId && formData == Draft("", None)
      ensures !isDragging && error == None && redirected == None && requests == []
    {
      this.jobId := jobId;
      formData := Draft("", None);
      isDragging := false;
      error := None;
      redirected := None;
      requests := [];
    }

    method HandleChange(c: Change)
      modifies this
      ensures formData == ApplyChange(old(formData), c)
      ensures isDragging == old(isDragging) && error == old(error)
      ensures redirected == old(redirected) && requests == old(requests)
    {
      formData := ApplyChange(formData, c);
    }

    /** `onDragOver` and `onDragLeave` of the drop zone. */
    method SetDragging(over: bool)
      modifies this
      ensures isDragging == over
      ensures formData == old(formData) && error == old(error)
      ensures redirected == old(redirected) && requests == old(requests)
    {
      isDragging := over;
    }

    /** `onDrop`: ends the drag and keeps the first dropped file, if any. */
    method HandleDrop(files: seq<File>)
      modifies this
      ensures !isDragging
      ensures |files| > 0 ==> formData == old(formData).(resume := Some(files[0]))
      ensures |files| == 0 ==> formData == old(formData)
      ensures error == old(error) && redirected == old(redirected) && requests == old(requests)
    {
      isDragging := false;
      if |files| > 0 {
        formData := formData.(resume := Some(files[0]));
      }
    }

    /** `handleSubmit`. A draft the schema rejects shows its first issue and
        sends nothing. Otherwise the error is cleared, the application is
        posted, and the answer either redirects to /jobs or shows
        "Failed to submit application". A rejected fetch escapes the handler
        and changes nothing more. The handler's second resume check cannot
        fire once the schema has passed, so it is not repeated here. */
    method HandleSubmit(token: Token, response: Response<()>)
      modifies this
      ensures formData == old(formData) && isDragging == old(isDragging)
      ensures FirstIssue(old(formData)).Some? ==>
                error == FirstIssue(old(formData)) && requests == old(requests) && redirected == old(redirected)
      ensures FirstIssue(old(formData)).None? ==>
                requests == old(requests) + [ApplyRequest(jobId, formData.coverLetter, formData.resume.value, AuthHeader(token))]
      ensures FirstIssue(old(formData)).None? && response.IsOk() ==> error == None && redirected == Some("/jobs")
      ensures FirstIssue(old(formData)).None? && response.Answered? && !response.ok ==>
                error == Some(SubmitFailed) && redirected == old(redirected)
      ensures FirstIssue(old(formData)).None? && response.Threw? ==> error == None && redirected == old(redirected)
    {
      var issue := FirstIssue(formData);
      if issue.Some? {
        error := issue;
        return;
      }
      error := None;
      var resume := formData.resume.value;
      requests := requests + [ApplyRequest(jobId, formData.coverLetter, resume, AuthHeader(token))];
      if response.Threw? {
        return;
      }
      if !response.ok {
        error := Some(SubmitFailed);
        return;
      }
      redirected := Some("/jobs");
    }
  }
}
