/** Values shared by every page of the job-board client: optional values, the
    outcome of a network exchange as a page observes it, the stored credential
    and the files a user selects. */
module Common {
  import Text

  datatype Option<+T> = None | Some(value: T)

  /** One `fetch` as the calling code observes it. `Answered(ok, body)`: the
      server answered; `ok` is `res.ok` (a status in 200..299) and `body` is the
      decoded JSON, which code that never decodes it ignores. `Threw`: the
      awaited promise rejected, because the transport failed or because the
      body the code decodes is not JSON. */
  datatype Response<+T> = Answered(ok: bool, body: T) | Threw
  {
    predicate IsOk() { Answered? && ok }
  }

  /** The value of `localStorage.getItem("access_token")`: `None` when the key
      is absent. JavaScript treats the empty string as false, so `if (token)`
      holds exactly when `HasToken(token)`. */
  type Token = Option<string>

  predicate HasToken(token: Token) {
    token.Some? && token.value != ""
  }

  /** The header a page attaches with `if (token) headers.Authorization = ...`. */
  function AuthHeader(token: Token): (h: Option<string>)
    ensures h.Some? <==> HasToken(token)
    ensures h.Some? ==> h.value == "Bearer " + token.value
  {
    if HasToken(token) then Some("Bearer " + token.value) else None
  }

  /** The header a page attaches unconditionally with the template
      `Bearer ${token}`: a missing token is rendered as the text "null". */
  function BearerOf(token: Token): (h: string)
    ensures token.Some? ==> h == "Bearer " + token.value
    ensures token.None? ==> h == "Bearer null"
  {
    "Bearer " + match token { case Some(t) => t case None => "null" }
  }

  /** A file the user picked, with the MIME type the browser reports. */
  datatype File = File(name: string, mimeType: string)

  /** `files?.[0] || null`: the first selected file, if any. */
  function FirstFile(files: seq<File>): (f: Option<File>)
    ensures f.Some? <==> |files| > 0
    ensures f.Some? ==> f.value == files[0]
  {
    if |files| > 0 then Some(files[0]) else None
  }

  /** `file.type.startsWith("image/")`. */
  predicate IsImage(f: File) {
    Text.StartsWith(f.mimeType, "image/")
  }

  /** The method of a profile submit. */
  datatype Verb = Post | Put

  /** Both profile forms update an existing profile and create a missing
      one: PUT exactly when the existence probe answered ok. */
  function ProfileVerb(profileExists: bool): (v: Verb)
    ensures v == Put <==> profileExists
  {
    if profileExists then Put else Post
  }
}
