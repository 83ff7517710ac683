/** The public job list: a search box bound to the URL's `search` value and
    a list reloaded whenever that value changes (app/jobs/page.tsx). */
module JobsPage {
  import opened Common
  import SearchBinder

  datatype Job = Job(id: int, title: string, description: string, location: string, createdAt: string)

  /** The decoded body of the list request: an array of jobs, or any other
      JSON value (an error object, say), which the page stores all the same. */
  datatype JobsBody = JobList(items: seq<Job>) | NotAList

  /** The list request; it carries `Bearer ${token}` as written. */
  datatype Request = ListRequest(search: Option<string>, authorization: string)

  datatype View = Skeleton | JobCards(items: seq<Job>) | NoJobsFound

  /** `jobs?.length ?? 0`: the number shown in "Showing N jobs". A body
      that is not an array has no length, so it shows 0. */
  function DisplayedCount(jobs: Option<JobsBody>): (n: nat)
    ensures jobs.Some? && jobs.value.JobList? ==> n == |jobs.value.items|
    ensures jobs.None? || jobs.value.NotAList? ==> n == 0
  {
    match jobs
    case Some(JobList(items)) => |items|
    case _ => 0
  }

  /** The branches of the render: loading first, then a non-empty array as
      cards, otherwise "No jobs found". */
  function ViewOf(loading: bool, jobs: Option<JobsBody>): (v: View)
    ensures loading <==> v == Skeleton
    ensures v.JobCards? <==> !loading && jobs.Some? && jobs.value.JobList? && jobs.value.items != []
    ensures v.JobCards? ==> v.items == jobs.value.items
  {
    if loading then Skeleton
    else match jobs
      case Some(JobList(items)) => if |items| > 0 then JobCards(items) else NoJobsFound
      case _ => NoJobsFound
  }

  /** Once loading is over, the count and the list agree: cards are shown
      exactly when the count is positive, and then there is one card per
      counted job. */
  lemma CountMatchesView(jobs: Option<JobsBody>)
    ensures ViewOf(false, jobs).JobCards? <==> DisplayedCount(jobs) > 0
    ensures ViewOf(false, jobs).JobCards? ==> |ViewOf(false, jobs).items| == DisplayedCount(jobs)
  {
  }

  class JobsContent {
    var search: string
    var searchFromUrl: string
    /** `null` until the first load settles. */
    var jobs: Option<JobsBody>
    var loading: bool
    var replacements: seq<SearchBinder.UrlQuery>
    var requests: seq<Request>

    /** First render at a URL whose search value is `url`, followed by the
        mount effects: the fetch starts with `loading` set. */
    constructor (url: string, token: Token)
      ensures search == url && searchFromUrl == url && jobs == None && loading
      ensures replacements == []
      ensures requests == [ListRequest(SearchBinder.RequestSearch(url), BearerOf(token))]
    {
      search := url;
      searchFromUrl := url;
      jobs := None;
      loading := true;
      replacements := [];
      requests := [ListRequest(SearchBinder.RequestSearch(url), BearerOf(token))];
    }

    /** `handleSearchChange`: the box takes the raw value and the URL is
        replaced with the query it implies. */
    method HandleSearchChange(value: string)
      modifies this
      ensures search == value
      ensures replacements == old(replacements) + [SearchBinder.QueryFor(value)]
      ensures searchFromUrl == old(searchFromUrl) && jobs == old(jobs) && loading == old(loading)
      ensures requests == old(requests)
    {
      search := value;
      replacements := replacements + [SearchBinder.QueryFor(value)];
    }

    /** A render that reads `url` from the URL. When it differs from the last
        value, both effects keyed on it run: the box is reset to it and a new
        fetch starts with `loading` set. */
    method UrlChanged(url: string, token: Token)
      modifies this
      ensures search == SearchBinder.Resync(old(search), old(searchFromUrl), url)
      ensures searchFromUrl == url
      ensures url != old(searchFromUrl) ==> loading
      ensures url != old(searchFromUrl) ==>
                requests == old(requests) + [ListRequest(SearchBinder.RequestSearch(url), BearerOf(token))]
      ensures url == old(searchFromUrl) ==> loading == old(loading) && requests == old(requests)
      ensures jobs == old(jobs) && replacements == old(replacements)
    {
      if url != searchFromUrl {
        search := url;
        searchFromUrl := url;
        loading := true;
        requests := requests + [ListRequest(SearchBinder.RequestSearch(url), BearerOf(token))];
      }
    }

    /** The fetch settles. The status is not checked: any decoded body
        replaces `jobs` wholesale and ends loading. A rejected fetch or body
        decoding escapes `fetchJobs`, so neither `jobs` nor `loading` changes. */
    method SettleFetch(response: Response<JobsBody>)
      modifies this
      ensures response.Answered? ==> jobs == Some(response.body) && !loading
      ensures response.Threw? ==> jobs == old(jobs) && loading == old(loading)
      ensures search == old(search) && searchFromUrl == old(searchFromUrl)
      ensures replacements == old(replacements) && requests == old(requests)
    {
      if response.Answered? {
        jobs := Some(response.body);
        loading := false;
      }
    }
  }
}
