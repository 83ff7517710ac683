/** The candidate's "My applications" page: the list is loaded once on
    mount, and withdrawing an application removes it only after the server
    has answered ok (app/applications/page.tsx). */
module CandidateApplications {
  import opened Common
  import Collection

  datatype Application = Application(
    id: int,
    jobTitle: string,
    jobLocation: string,
    coverLetter: string,
    resume: Option<string>,
    appliedAt: string)

  function IdOf(a: Application): int { a.id }

  /** The requests the page issues; both carry `Bearer ${token}` as written,
      so a missing token is sent as "Bearer null". */
  datatype Request = ListRequest(authorization: string) | DeleteRequest(id: int, authorization: string)

  /** What the page renders. */
  datatype View = Skeleton | NoApplicationsYet | ApplicationList(items: seq<Application>)

  /** The branches of the render: loading first, then the empty list, then
      the list itself. */
  function ViewOf(loading: bool, applications: seq<Application>): (v: View)
    ensures loading <==> v == Skeleton
    ensures v == NoApplicationsYet <==> !loading && applications == []
    ensures v.ApplicationList? ==> v.items == applications && applications != []
  {
    if loading then Skeleton
    else if |applications| == 0 then NoApplicationsYet
    else ApplicationList(applications)
  }

  /** Withdrawal as a rule on lists: an ok answer removes the application
      (and `deleted` is set), anything else keeps the list. */
  function AfterDelete(applications: seq<Application>, id: int, ok: bool): (r: seq<Application>)
    ensures !ok ==> r == applications
    ensures ok ==> forall a :: a in r ==> a in applications && a.id != id
    ensures ok ==> forall a :: a in applications && a.id != id ==> a in r
  {
    if ok then Collection.Without(applications, IdOf, id) else applications
  }

  /** After an ok withdrawal the page either lists the remaining
      applications or, when none is left, shows the empty state; the
      withdrawn id is never listed again. */
  lemma WithdrawnNeverListed(applications: seq<Application>, id: int)
    ensures var v := ViewOf(false, AfterDelete(applications, id, true));
            v.ApplicationList? ==> forall a :: a in v.items ==> a.id != id
    ensures AfterDelete(applications, id, true) == [] ==>
              ViewOf(false, AfterDelete(applications, id, true)) == NoApplicationsYet
  {
  }

  class ApplicationsPage {
    var applications: seq<Application>
    var loading: bool
    /** Set after a successful withdrawal; nothing ever clears it. */
    var deleted: bool
    var requests: seq<Request>

    /** First render followed by the mount effect, which starts the load. */
    constructor (token: Token)
      ensures applications == [] && loading && !deleted
      ensures requests == [ListRequest(BearerOf(token))]
    {
      applications := [];
      loading := true;
      deleted := false;
      requests := [ListRequest(BearerOf(token))];
    }

    /** The load settles. An ok answer replaces the list with the body; a
        non-ok answer returns early and a rejection is caught, both keeping
        the list; `finally` ends `loading` in all three cases. */
    method SettleLoad(response: Response<seq<Application>>)
      modifies this
      ensures response.IsOk() ==> applications == response.body
      ensures !response.IsOk() ==> applications == old(applications)
      ensures !loading
      ensures deleted == old(deleted) && requests == old(requests)
    {
      if response.Answered? && response.ok {
        applications := response.body;
      }
      loading := false;
    }

    /** `deleteApplication`: the DELETE is issued whatever the token; only an
        ok answer filters the list and sets `deleted`. */
    method DeleteApplication(id: int, token: Token, response: Response<()>)
      modifies this
      ensures requests == old(requests) + [DeleteRequest(id, BearerOf(token))]
      ensures applications == AfterDelete(old(applications), id, response.IsOk())
      ensures deleted == (old(deleted) || response.IsOk())
      ensures loading == old(loading)
    {
      requests := requests + [DeleteRequest(id, BearerOf(token))];
      if response.Answered? && response.ok {
        applications := Collection.Without(applications, IdOf, id);
        deleted := true;
      }
    }
  }
}
