/** The navigation bar: which controls it renders for the resolved user, the
    employer-dashboard test on the path, and logging out
    (components/Navbar.tsx). */
module Navbar {
  import opened Common
  import Text
  import UserContext
  import Browser

  datatype Control =
    | LoginLink | RegisterLink
    | MyApplicationsLink | FindJobsLink
    | ApplicantsLink | PostJobLink
    | LogoutButton

  const AnonymousControls: seq<Control> := [LoginLink, RegisterLink]
  const CandidateControls: seq<Control> := [MyApplicationsLink, FindJobsLink, LogoutButton]
  const EmployerControls: seq<Control> := [ApplicantsLink, PostJobLink, LogoutButton]

  /** The controls rendered, in order: the three groups are guarded
      independently by `!user`, `user?.role === "candidate"` and
      `user?.role === "employer"`. The `loading` flag is not consulted. */
  function Controls(user: Option<UserContext.User>): (r: seq<Control>)
    ensures user.None? ==> r == AnonymousControls
    ensures user.Some? && user.value.role == "candidate" ==> r == CandidateControls
    ensures user.Some? && user.value.role == "employer" ==> r == EmployerControls
    ensures user.Some? && user.value.role != "candidate" && user.value.role != "employer" ==> r == []
  {
    (if user.None? then AnonymousControls else [])
    + (if user.Some? && user.value.role == "candidate" then CandidateControls else [])
    + (if user.Some? && user.value.role == "employer" then EmployerControls else [])
  }

  /** Role gating: a candidate is never offered the employer controls, an
      employer never the candidate ones, and a visitor neither nor Logout. */
  lemma ControlsGated(user: Option<UserContext.User>)
    ensures user.Some? && user.value.role == "candidate" ==>
              ApplicantsLink !in Controls(user) && PostJobLink !in Controls(user)
    ensures user.Some? && user.value.role == "employer" ==>
              MyApplicationsLink !in Controls(user) && FindJobsLink !in Controls(user)
    ensures user.None? ==> LogoutButton !in Controls(user) && PostJobLink !in Controls(user)
                           && MyApplicationsLink !in Controls(user) && ApplicantsLink !in Controls(user)
  {
  }

  /** While the provider is still resolving, no user is set, so the bar shows
      the visitor's controls. */
  lemma LoadingShowsAnonymous(provider: UserContext.UserProvider)
    requires provider.Valid() && !provider.resolved
    ensures Controls(provider.user) == AnonymousControls
  {
  }

  /** `pathname.startsWith("/employer")`. It is computed but not used by
      anything the bar renders. */
  function IsEmployerDashboard(pathname: string): (b: bool)
    ensures b <==> |pathname| >= 9 && pathname[..9] == "/employer"
  {
    Text.StartsWith(pathname, "/employer")
  }

  /** The test is a plain prefix test, not a path-segment test. */
  lemma EmployerDashboardIsPrefixTest()
    ensures IsEmployerDashboard("/employer/applicants")
    ensures IsEmployerDashboard("/employers")
    ensures !IsEmployerDashboard("/jobs")
    ensures !IsEmployerDashboard("/profile/employer")
  {
    assert "/employer/applicants"[..9] == "/employer";
    assert "/employers"[..9] == "/employer";
    assert "/profile/employer"[..9] != "/employer" by {
      assert "/profile/employer"[1] == 'p';
    }
  }

  /** `LogOut`: removes the token (the stored role stays) and sends the
      browser to /login. */
  method LogOut(window: Browser.Window)
    modifies window
    ensures window.storage == old(window.storage) - {"access_token"}
    ensures window.location == Some("/login")
  {
    window.RemoveItem("access_token");
    window.Navigate("/login");
  }
}
