/** The login page: the credentials are posted, the token and role are
    stored, the role's profile check is requested, and its status picks the
    page the browser is sent to (app/login/page.tsx). */
module Login {
  import opened Common
  import Browser

  const LoginFailed := "Login failed"
  const EmployerCheckUrl := "/api/auth/employer/profile/check/"
  const CandidateCheckUrl := "/api/auth/candidate/profile/check/"

  /** The two inputs, by their `name` attribute. */
  datatype Field = Username | Password

  datatype Credentials = Credentials(username: string, password: string)

  function Get(c: Credentials, f: Field): string
  {
    match f
    case Username => c.username
    case Password => c.password
  }

  /** `{ ...formData, [name]: value }`. */
  function Set(c: Credentials, f: Field, value: string): (r: Credentials)
    ensures Get(r, f) == value
    ensures forall g :: g != f ==> Get(r, g) == Get(c, g)
  {
    match f
    case Username => c.(username := value)
    case Password => c.(password := value)
  }

  /** The decoded login answer; a key the server leaves out is `None`. */
  datatype LoginBody = LoginBody(access: Option<string>, role: Option<string>, detail: Option<string>)

  /** A value written through a template or `setItem`: a missing one becomes
      the text "undefined". */
  function JsText(v: Option<string>): (s: string)
    ensures v.Some? ==> s == v.value
    ensures v.None? ==> s == "undefined"
  {
    match v
    case Some(t) => t
    case None => "undefined"
  }

  /** `data.detail || "Login failed"`: a missing or empty detail falls back
      to the generic message. */
  function FailureMessage(detail: Option<string>): (m: string)
    ensures m != ""
    ensures detail.Some? && detail.value != "" ==> m == detail.value
    ensures detail.None? || detail.value == "" ==> m == LoginFailed
  {
    if detail.Some? && detail.value != "" then detail.value else LoginFailed
  }

  /** The profile check belongs to the employer API exactly for the role
      "employer"; every other role, or none, is checked as a candidate. */
  function CheckUrl(role: Option<string>): (u: string)
    ensures u == EmployerCheckUrl <==> role == Some("employer")
    ensures u == CandidateCheckUrl <==> role != Some("employer")
  {
    if role == Some("employer") then EmployerCheckUrl else CandidateCheckUrl
  }

  /** The redirect chosen from the check's status and the role, branch by
      branch as the page orders them. */
  function Redirect(status: int, role: Option<string>): (r: string)
    ensures r in {"/", "/employer/dashboard", "/profile/employer/create", "/profile/candidate/create"}
    ensures role != Some("candidate") && role != Some("employer") ==> r == "/profile/candidate/create"
    ensures status != 404 && status != 200 ==> r == "/profile/candidate/create"
  {
    if status == 404 && role == Some("candidate") then "/"
    else if status == 404 && role == Some("employer") then "/employer/dashboard"
    else if status == 200 && role == Some("employer") then "/profile/employer/create"
    else "/profile/candidate/create"
  }

  /** The redirect table read backwards: each destination and exactly the
      (status, role) pairs that lead to it. An employer whose check answers
      404 goes to the dashboard and one whose check answers 200 to the
      create page; every pair outside the first three rows, including any
      other role, goes to the candidate create page. */
  lemma RedirectTable(status: int, role: Option<string>)
    ensures Redirect(status, role) == "/" <==> status == 404 && role == Some("candidate")
    ensures Redirect(status, role) == "/employer/dashboard" <==> status == 404 && role == Some("employer")
    ensures Redirect(status, role) == "/profile/employer/create" <==> status == 200 && role == Some("employer")
    ensures Redirect(status, role) == "/profile/candidate/create" <==>
              !(status == 404 && role == Some("candidate")) && !(status == 404 && role == Some("employer"))
              && !(status == 200 && role == Some("employer"))
  {
    assert "/"[0] == '/' && |"/"| == 1;
    assert "/employer/dashboard"[1] == 'e';
    assert "/profile/employer/create"[1] == 'p' && "/profile/employer/create"[9] == 'e';
    assert "/profile/candidate/create"[1] == 'p' && "/profile/candidate/create"[9] == 'c';
  }

  datatype Request =
    | LoginRequest(credentials: Credentials)
    | CheckRequest(url: string, authorization: string)

  class LoginPage {
    var formData: Credentials
    /** The message shown above the button; nothing ever clears it. */
    var error: string
    var loading: bool
    var requests: seq<Request>
    const window: Browser.Window

    constructor (window: Browser.Window)
      ensures formData == Credentials("", "") && error == "" && !loading && requests == []
      ensures this.window == window
    {
      formData := Credentials("", "");
      error := "";
      loading := false;
      requests := [];
      this.window := window;
    }

    method HandleChange(field: Field, value: string)
      modifies this`formData
      ensures formData == Set(old(formData), field, value)
    {
      formData := Set(formData, field, value);
    }

    /** `handleSubmit`. `loading` is set and the credentials are posted;
        `response` is that answer and `check` the status of the profile
        check (`None` when that request is rejected). A rejected login
        escapes at once. A non-ok answer shows the server's detail and
        returns with `loading` still set, storing nothing. An ok answer
        stores the token and the role, requests the role's profile check
        with that token, and sends the browser where the table says, after
        which `loading` ends. */
    method HandleSubmit(response: Response<LoginBody>, check: Option<int>)
      modifies this`loading, this`error, this`requests, window
      ensures loading == !(response.IsOk() && check.Some?)
      ensures !response.IsOk() ==>
                requests == old(requests) + [LoginRequest(formData)]
                && window.storage == old(window.storage) && window.location == old(window.location)
      ensures response.Answered? && !response.ok ==> error == FailureMessage(response.body.detail)
      ensures response.Threw? || response.ok ==> error == old(error)
      ensures response.IsOk() ==>
                var data := response.body;
                && window.storage == old(window.storage)["access_token" := JsText(data.access)]["role" := JsText(data.role)]
                && requests == old(requests) + [LoginRequest(formData), CheckRequest(CheckUrl(data.role), "Bearer " + JsText(data.access))]
                && window.location == (if check.Some? then Some(Redirect(check.value, data.role)) else old(window.location))
    {
      loading := true;
      requests := requests + [LoginRequest(formData)];
      if response.Threw? {
        return;
      }
      var data := response.body;
      if !response.ok {
        error := FailureMessage(data.detail);
        return;
      }
      window.SetItem("access_token", JsText(data.access));
      window.SetItem("role", JsText(data.role));
      var profileCheckUrl := if data.role == Some("employer") then EmployerCheckUrl else CandidateCheckUrl;
      requests := requests + [CheckRequest(profileCheckUrl, "Bearer " + JsText(data.access))];
      if check.None? {
        return;
      }
      var status := check.value;
      if status == 404 && data.role == Some("candidate") {
        window.Navigate("/");
      } else if status == 404 && data.role == Some("employer") {
        window.Navigate("/employer/dashboard");
      } else if status == 200 && data.role == Some("employer") {
        window.Navigate("/profile/employer/create");
      } else {
        window.Navigate("/profile/candidate/create");
      }
      loading := false;
    }
  }
}
