/** The session resolver: the root provider that turns the stored credential
    into the current user and a `loading` flag shared by every page
    (app/context/UserContext.tsx). */
module UserContext {
  import opened Common

  /** The decoded body of `GET /api/auth/role/`. The declared type allows
      "employer" and "candidate"; the code stores whatever role the body
      carries, so the role is kept as text. */
  datatype User = User(role: string)

  /** The one request the provider can issue, with its Authorization header. */
  datatype RoleRequest = RoleRequest(authorization: string)

  /** The user the provider settles on: the decoded body when a token is
      stored and the role request answered with an ok status; nobody
      otherwise (no token, a non-ok status or a rejected request). */
  function ResolvedUser(token: Token, response: Response<User>): (u: Option<User>)
    ensures !HasToken(token) ==> u == None
    ensures !response.IsOk() ==> u == None
    ensures u.Some? <==> HasToken(token) && response.Answered? && response.ok
    ensures u.Some? ==> u.value == response.body
  {
    if HasToken(token) && response.IsOk() then Some(response.body) else None
  }

  class UserProvider {
    var user: Option<User>
    var loading: bool
    /** Set once `fetchUserRole` has run: its effect has an empty dependency
        list, so it runs once per mount of the provider. */
    var resolved: bool
    var requests: seq<RoleRequest>

    ghost predicate Valid()
      reads this
    {
      (!resolved ==> user == None && loading && requests == []) &&
      (resolved ==> !loading && |requests| <= 1) &&
      (user.Some? ==> |requests| == 1)
    }

    /** The state before the effect settles: no user, still loading. */
    constructor ()
      ensures Valid() && !resolved
      ensures user == None && loading && requests == []
    {
      user := None;
      loading := true;
      resolved := false;
      requests := [];
    }

    /** The mount effect. Without a token it only ends loading; with one it
        issues the role request and, through `finally`, ends loading whatever
        the outcome. A second call within the same mount does nothing. */
    method FetchUserRole(token: Token, response: Response<User>)
      requires Valid()
      modifies this
      ensures Valid() && resolved
      ensures old(resolved) ==> user == old(user) && loading == old(loading) && requests == old(requests)
      ensures !old(resolved) ==> user == ResolvedUser(token, response) && !loading
      ensures !old(resolved) ==> requests == if HasToken(token) then [RoleRequest(BearerOf(token))] else []
    {
      if resolved {
        return;
      }
      resolved := true;
      if !HasToken(token) {
        loading := false;
        return;
      }
      requests := requests + [RoleRequest(BearerOf(token))];
      if response.Answered? && response.ok {
        user := Some(response.body);
      }
      loading := false;
    }
  }
}
