/** The decisions behind the search box that the job list and the applicants
    list keep in step with the page URL's `search` parameter. The URL is
    modelled by its decoded query: `encodeURIComponent` and its inverse are
    taken to round-trip, so a query carries the raw text. */
module SearchBinder {
  import opened Common
  import Text

  /** The target of `router.replace`: `?` (no parameter) or
      `?search=<encoded value>`. */
  datatype UrlQuery = ClearedQuery | SearchQuery(value: string)

  /** The query an edit of the search box writes to the URL: the raw value
      when its trimmed form is non-empty, otherwise a cleared query. */
  function QueryFor(value: string): (q: UrlQuery)
    ensures q.ClearedQuery? <==> Text.Blank(value)
    ensures q.SearchQuery? ==> q.value == value && q.value != ""
  {
    if Text.Trim(value) != "" then SearchQuery(value) else ClearedQuery
  }

  /** `searchParams.get("search") || ""`: the value the page reads back
      from its URL. */
  function SearchFromUrl(q: UrlQuery): (v: string)
    ensures q.ClearedQuery? ==> v == ""
    ensures q.SearchQuery? ==> v == q.value
  {
    match q
    case ClearedQuery => ""
    case SearchQuery(value) => value
  }

  /** The `search` parameter of the list request: set exactly when the URL's
      value is non-empty (`if (searchFromUrl) url.searchParams.set(...)`). */
  function RequestSearch(searchFromUrl: string): (p: Option<string>)
    ensures p.Some? <==> searchFromUrl != ""
    ensures p.Some? ==> p.value == searchFromUrl
  {
    if searchFromUrl != "" then Some(searchFromUrl) else None
  }

  /** The effect keyed on the URL value: when the value read from the URL
      differs from the one of the previous render, the local text is reset to
      it; otherwise the local text is kept. */
  function Resync(search: string, previousUrl: string, currentUrl: string): (r: string)
    ensures currentUrl != previousUrl ==> r == currentUrl
    ensures currentUrl == previousUrl ==> r == search
  {
    if currentUrl != previousUrl then currentUrl else search
  }

  /** What the box holds once an edit to `value` has reached the URL and the
      page has re-rendered: the edited text survives unless it is blank and
      the URL previously carried a search, in which case the box is wiped. */
  lemma EditSettles(value: string, previousUrl: string)
    ensures var url := SearchFromUrl(QueryFor(value));
            Resync(value, previousUrl, url)
              == if !Text.Blank(value) || previousUrl == "" then value else ""
  {
  }

  /** The URL value a search edit produces is never blank-but-non-empty: it
      is empty, or it holds a non-whitespace character, so the request it
      triggers carries `search` exactly when the edit was not blank. */
  lemma EditDrivesRequest(value: string)
    ensures RequestSearch(SearchFromUrl(QueryFor(value))) == if Text.Blank(value) then None else Some(value)
  {
  }
}
