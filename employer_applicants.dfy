/** The employer's applicants page: a searchable list of the applications to
    the employer's jobs, with accept, reject and delete actions that change
    the list only once the server has answered ok
    (app/employer/applicants/page.tsx). */
module EmployerApplicants {
  import opened Common
  import Collection
  import SearchBinder

  datatype Status = New | Accepted | Rejected

  /** The statuses an employer can set: the handler's parameter type
      admits only "accepted" and "rejected". */
  type Decision = s: Status | s != New witness Accepted

  datatype Application = Application(
    id: int,
    jobTitle: string,
    jobLocation: string,
    coverLetter: string,
    resumeUrl: Option<string>,
    appliedAt: string,
    candidateName: Option<string>,
    candidateProfileImage: Option<string>,
    candidateProfileId: Option<int>,
    status: Status)

  function IdOf(a: Application): int { a.id }

  /** The decoded body of the list request: an array, or any other JSON value. */
  datatype ListBody = ApplicationList(items: seq<Application>) | NotAList

  /** The requests the page issues, with their Authorization header. */
  datatype Request =
    | ListRequest(search: Option<string>, listAuthorization: Option<string>)
    | StatusRequest(id: int, status: Decision, authorization: string)
    | DeleteRequest(id: int, authorization: string)

  /** The list a load settles on: the body when the answer is ok and an
      array, the empty list for an ok non-array body, a non-ok status or a
      rejected request. */
  function LoadedApplications(response: Response<ListBody>): (r: seq<Application>)
    ensures response.IsOk() && response.body.ApplicationList? ==> r == response.body.items
    ensures !response.IsOk() ==> r == []
    ensures response.Answered? && response.body.NotAList? ==> r == []
  {
    if response.IsOk() then
      match response.body
      case ApplicationList(items) => items
      case NotAList => []
    else []
  }

  /** `apps.map(app => app.id === id ? {...app, status} : app)`. */
  function SetStatus(apps: seq<Application>, id: int, status: Decision): (r: seq<Application>)
    ensures |r| == |apps|
    ensures forall i :: 0 <= i < |apps| && apps[i].id == id ==> r[i] == apps[i].(status := status)
    ensures forall i :: 0 <= i < |apps| && apps[i].id != id ==> r[i] == apps[i]
  {
    if apps == [] then []
    else [if apps[0].id == id then apps[0].(status := status) else apps[0]] + SetStatus(apps[1..], id, status)
  }

  /** The update keeps every id in place and writes no status other than the
      decision: each entry ends with its old status or with `status`. */
  lemma SetStatusKeepsShape(apps: seq<Application>, id: int, status: Decision)
    ensures forall i :: 0 <= i < |apps| ==> SetStatus(apps, id, status)[i].id == apps[i].id
    ensures forall i :: 0 <= i < |apps| ==>
              SetStatus(apps, id, status)[i].status in {apps[i].status, status}
  {
  }

  /** Two updates of the same id: the later one wins. */
  lemma SetStatusLastWins(apps: seq<Application>, id: int, first: Decision, second: Decision)
    ensures SetStatus(SetStatus(apps, id, first), id, second) == SetStatus(apps, id, second)
  {
    var a := SetStatus(SetStatus(apps, id, first), id, second);
    var b := SetStatus(apps, id, second);
    assert |a| == |b|;
    forall i | 0 <= i < |a| ensures a[i] == b[i] {
    }
  }

  /** Updating an id that is not in the list changes nothing. */
  lemma SetStatusAbsent(apps: seq<Application>, id: int, status: Decision)
    requires forall i :: 0 <= i < |apps| ==> apps[i].id != id
    ensures SetStatus(apps, id, status) == apps
  {
    var r := SetStatus(apps, id, status);
    assert |r| == |apps|;
    forall i | 0 <= i < |r| ensures r[i] == apps[i] {
    }
  }

  /** Deleting an application after updating it leaves the same list as
      deleting it straight away: the two actions on one id do not interfere
      with the rest of the list. */
  lemma {:induction false} DeleteAfterUpdate(apps: seq<Application>, id: int, status: Decision)
    ensures Collection.Without(SetStatus(apps, id, status), IdOf, id) == Collection.Without(apps, IdOf, id)
  {
    if apps != [] {
      DeleteAfterUpdate(apps[1..], id, status);
      var r := SetStatus(apps, id, status);
      assert r[1..] == SetStatus(apps[1..], id, status);
    }
  }

  class ApplicantsPage {
    var applications: seq<Application>
    var loading: bool
    var openDropdownId: Option<int>
    /** The text in the search box. */
    var search: string
    /** The `search` value the page last read from its URL. */
    var searchFromUrl: string
    /** The targets of `router.replace`, in order. */
    var replacements: seq<SearchBinder.UrlQuery>
    var requests: seq<Request>

    /** First render at a URL whose search value is `url`, followed by the
        mount effects: the box shows `url` and the list request starts. */
    constructor (url: string, token: Token)
      ensures applications == [] && loading && openDropdownId == None
      ensures search == url && searchFromUrl == url && replacements == []
      ensures requests == [ListRequest(SearchBinder.RequestSearch(url), AuthHeader(token))]
    {
      applications := [];
      loading := true;
      openDropdownId := None;
      search := url;
      searchFromUrl := url;
      replacements := [];
      requests := [ListRequest(SearchBinder.RequestSearch(url), AuthHeader(token))];
    }

    /** `handleSearchChange`: the box takes the raw value and the URL is
        replaced with the query it implies. */
    method HandleSearchChange(value: string)
      modifies this
      ensures search == value
      ensures replacements == old(replacements) + [SearchBinder.QueryFor(value)]
      ensures applications == old(applications) && loading == old(loading)
      ensures searchFromUrl == old(searchFromUrl) && requests == old(requests)
      ensures openDropdownId == old(openDropdownId)
    {
      search := value;
      replacements := replacements + [SearchBinder.QueryFor(value)];
    }

    /** A render that reads `url` from the URL. When it differs from the last
        value, both effects keyed on it run: the box is reset to it, and a new
        list request starts with `loading` set. */
    method UrlChanged(url: string, token: Token)
      modifies this
      ensures search == SearchBinder.Resync(old(search), old(searchFromUrl), url)
      ensures searchFromUrl == url
      ensures url != old(searchFromUrl) ==> loading
      ensures url != old(searchFromUrl) ==>
                requests == old(requests) + [ListRequest(SearchBinder.RequestSearch(url), AuthHeader(token))]
      ensures url == old(searchFromUrl) ==> loading == old(loading) && requests == old(requests)
      ensures applications == old(applications) && replacements == old(replacements)
      ensures openDropdownId == old(openDropdownId)
    {
      if url != searchFromUrl {
        search := url;
        searchFromUrl := url;
        loading := true;
        requests := requests + [ListRequest(SearchBinder.RequestSearch(url), AuthHeader(token))];
      }
    }

    /** The list request settles: the list is replaced wholesale and
        `loading` ends in every outcome (`finally`). */
    method SettleLoad(response: Response<ListBody>)
      modifies this
      ensures applications == LoadedApplications(response) && !loading
      ensures search == old(search) && searchFromUrl == old(searchFromUrl)
      ensures requests == old(requests) && replacements == old(replacements)
      ensures openDropdownId == old(openDropdownId)
    {
      if response.Answered? && response.ok && response.body.ApplicationList? {
        applications := response.body.items;
      } else {
        applications := [];
      }
      loading := false;
    }

    /** `updateApplicationStatus`: without a token nothing happens; otherwise
        a PATCH is issued, and only an ok answer rewrites the matching entries
        and closes the dropdown. There is no optimistic change to undo. */
    method UpdateApplicationStatus(id: int, status: Decision, token: Token, response: Response<()>)
      modifies this
      ensures !HasToken(token) ==> requests == old(requests)
      ensures HasToken(token) ==> requests == old(requests) + [StatusRequest(id, status, BearerOf(token))]
      ensures HasToken(token) && response.IsOk() ==>
                applications == SetStatus(old(applications), id, status) && openDropdownId == None
      ensures !(HasToken(token) && response.IsOk()) ==>
                applications == old(applications) && openDropdownId == old(openDropdownId)
      ensures loading == old(loading) && search == old(search) && searchFromUrl == old(searchFromUrl)
      ensures replacements == old(replacements)
    {
      if !HasToken(token) {
        return;
      }
      requests := requests + [StatusRequest(id, status, BearerOf(token))];
      if response.Answered? && response.ok {
        applications := SetStatus(applications, id, status);
        openDropdownId := None;
      }
    }

    /** `handleDeleteApplication`: without a token nothing happens; otherwise
        a DELETE is issued, and only an ok answer drops the entries with that
        id, keeping the rest in order. */
    method HandleDeleteApplication(id: int, token: Token, response: Response<()>)
      modifies this
      ensures !HasToken(token) ==> requests == old(requests)
      ensures HasToken(token) ==> requests == old(requests) + [DeleteRequest(id, BearerOf(token))]
      ensures HasToken(token) && response.IsOk() ==>
                applications == Collection.Without(old(applications), IdOf, id)
      ensures !(HasToken(token) && response.IsOk()) ==> applications == old(applications)
      ensures loading == old(loading) && search == old(search) && searchFromUrl == old(searchFromUrl)
      ensures replacements == old(replacements) && openDropdownId == old(openDropdownId)
    {
      if !HasToken(token) {
        return;
      }
      requests := requests + [DeleteRequest(id, BearerOf(token))];
      if response.Answered? && response.ok {
        applications := Collection.Without(applications, IdOf, id);
      }
    }
  }
}
