/** The jobs page as a state machine: the two loads when it mounts, the
    search button, "load more", and the controls that only edit the form.

    Each transition takes the backend and returns the state once the call it
    makes has settled. The `loading`, `searching` and `showFilters` flags only
    drive what is rendered and are not part of the state here. */
module JobsPage {
  import opened Outcomes
  import opened Text
  import opened Types
  import opened Services
  import opened JobFilters

  /** Jobs per page of the bulk listing. */
  const PageSize: nat := 50
  /** Results asked of a ranked search. */
  const AiTopN: int := 20
  /** The ranking strategy before the server's recommendation arrives. */
  const InitialMethod: string := "hybrid"

  datatype State = State(
    jobs: seq<Job>,
    searchMethods: Option<SearchMethods>,
    selectedMethod: string,
    currentPage: nat,
    totalJobs: int,
    filters: JobSearchFilters)

  /** The page on its first render, before either load has settled. */
  const Initial: State := State([], None, InitialMethod, 0, 0, Defaults)

  // ---------------------------------------------------------------------
  // Mounting
  // ---------------------------------------------------------------------

  /** The strategy load: on success the descriptors are stored and the
      server's recommendation becomes the selected strategy; on failure the
      page keeps what it had. Nothing else changes. */
  function LoadSearchMethods(st: State, api: Backend): (r: State)
    ensures api.searchMethods.Ok? ==>
      r.searchMethods == Some(api.searchMethods.value)
      && r.selectedMethod == api.searchMethods.value.recommended
    ensures api.searchMethods.Err? ==> r == st
    ensures r.(searchMethods := st.searchMethods, selectedMethod := st.selectedMethod) == st
  {
    match GetSearchMethods(api)
    case Ok(methods) => st.(searchMethods := Some(methods), selectedMethod := methods.recommended)
    case Err(_) => st
  }

  /** The first-page load: page 0 of 50 replaces the list and its `total`
      becomes the count shown; on failure the page keeps what it had. */
  function LoadInitialJobs(st: State, api: Backend): (r: State)
    ensures api.listJobs(0, PageSize).Ok? ==>
      r.jobs == ListedJobs(api.listJobs(0, PageSize).value.jobs)
      && r.totalJobs == api.listJobs(0, PageSize).value.total
    ensures api.listJobs(0, PageSize).Err? ==> r == st
    ensures r.(jobs := st.jobs, totalJobs := st.totalJobs) == st
  {
    match GetAllJobs(api, 0, PageSize)
    case Ok(page) => st.(jobs := page.jobs, totalJobs := page.total)
    case Err(_) => st
  }

  /** Both mount effects, in the order they are started. Afterwards the
      strategy is the server's recommendation when the descriptors load and
      `'hybrid'` otherwise; the list is page 0 with its count, or empty with
      count 0 when that page fails; paging starts at 0 and the form is the
      default one. */
  function Mount(api: Backend): (r: State)
    ensures r.searchMethods == (if api.searchMethods.Ok? then Some(api.searchMethods.value) else None)
    ensures r.selectedMethod
         == (if api.searchMethods.Ok? then api.searchMethods.value.recommended else "hybrid")
    ensures r.jobs == PageJobs(api, 0)
    ensures r.totalJobs == (if api.listJobs(0, PageSize).Ok? then api.listJobs(0, PageSize).value.total else 0)
    ensures r.currentPage == 0 && r.filters == Defaults
  {
    LoadInitialJobs(LoadSearchMethods(Initial, api), api)
  }

  /** The two mount effects touch disjoint parts of the state, so the order
      in which their calls settle does not matter. */
  lemma MountOrderIrrelevant(st: State, api: Backend)
    ensures LoadSearchMethods(LoadInitialJobs(st, api), api)
         == LoadInitialJobs(LoadSearchMethods(st, api), api)
  {
  }

  // ---------------------------------------------------------------------
  // Searching
  // ---------------------------------------------------------------------

  /** Which backend call the search button makes. */
  datatype SearchMode = BulkListing(skip: nat, limit: nat) | AiSearch(request: RecommendationRequest)

  /** `handleSearch`'s choice: a query that is blank once trimmed reloads
      the current page of the bulk listing; any other query is sent, as
      typed (untrimmed), to the ranked search with the selected strategy. */
  function SearchModeOf(st: State): (m: SearchMode)
    ensures m.BulkListing? <==> Trim(st.filters.query) == ""
    ensures m.BulkListing? ==> m.skip == st.currentPage * PageSize && m.limit == PageSize
    ensures m.AiSearch? ==>
      m.request.query == st.filters.query && m.request.topN == AiTopN
      && m.request.searchMethod == st.selectedMethod
  {
    if Trim(st.filters.query) == "" then BulkListing(st.currentPage * PageSize, PageSize)
    else AiSearch(RecommendationRequest(st.filters.query, AiTopN, st.selectedMethod))
  }

  /** `handleSearch()`: the chosen call's jobs replace the list and its
      count replaces `totalJobs`; when the call fails the page is unchanged.
      The page number is never reset. */
  function HandleSearch(st: State, api: Backend): (r: State)
    ensures Trim(st.filters.query) == "" ==>
      var page := api.listJobs(st.currentPage * PageSize, PageSize);
      && (page.Ok? ==> r.jobs == ListedJobs(page.value.jobs) && r.totalJobs == page.value.total)
      && (page.Err? ==> r == st)
    ensures Trim(st.filters.query) != "" ==>
      var ai := api.recommend(RecommendationRequest(st.filters.query, AiTopN, st.selectedMethod));
      && (ai.Ok? ==> r.jobs == RankedJobs(ai.value.recommendations) && r.totalJobs == ai.value.totalResults)
      && (ai.Err? ==> r == st)
    ensures r.(jobs := st.jobs, totalJobs := st.totalJobs) == st
  {
    match SearchModeOf(st)
    case BulkListing(skip, limit) =>
      (match GetAllJobs(api, skip, limit)
       case Ok(page) => st.(jobs := page.jobs, totalJobs := page.total)
       case Err(_) => st)
    case AiSearch(request) =>
      (match SearchJobsWithAI(api, request)
       case Ok(resp) => st.(jobs := resp.recommendations, totalJobs := resp.totalResults)
       case Err(_) => st)
  }

  /** The page's search against the service's legacy `searchJobs`. A query
      of spaces splits them: the service sends it to the ranked search, the
      page reloads its bulk page. A non-blank query under the default
      strategy gives both the same ranked results, and an empty query on
      page 0 gives both the first bulk page. */
  lemma LegacySearchAgainstPage(st: State, api: Backend)
    ensures st.filters.query != "" && Trim(st.filters.query) == "" ==>
      && SearchModeOf(st).BulkListing?
      && (var ai := api.recommend(RecommendationRequest(st.filters.query, AiTopN, DefaultMethod));
          SearchJobs(api, st.filters).Ok? <==> ai.Ok?)
    ensures Trim(st.filters.query) != "" && st.selectedMethod == DefaultMethod
            && SearchJobs(api, st.filters).Ok? ==>
      HandleSearch(st, api).jobs == SearchJobs(api, st.filters).value
    ensures st.filters.query == "" && st.currentPage == 0 && SearchJobs(api, st.filters).Ok? ==>
      HandleSearch(st, api).jobs == SearchJobs(api, st.filters).value
  {
  }

  /** Changing the strategy only records it; it does not search again. The
      next search with a non-blank query uses it. */
  function SelectMethod(st: State, key: string): (r: State)
    ensures r.selectedMethod == key
    ensures r.(selectedMethod := st.selectedMethod) == st
  {
    st.(selectedMethod := key)
  }

  lemma SelectedMethodReachesNextSearch(st: State, key: string)
    requires Trim(st.filters.query) != ""
    ensures SearchModeOf(SelectMethod(st, key)).AiSearch?
    ensures SearchModeOf(SelectMethod(st, key)).request.searchMethod == key
  {
  }

  /** Editing the filter form leaves the list and paging alone. */
  function ChangeFilter(st: State, c: FilterChange): (r: State)
    ensures r.filters == HandleFilterChange(st.filters, c)
    ensures r.(filters := st.filters) == st
  {
    st.(filters := HandleFilterChange(st.filters, c))
  }

  /** Clearing the filter form leaves the list and paging alone. */
  function ClearForm(st: State): (r: State)
    ensures !HasActiveFilters(r.filters)
    ensures r.(filters := st.filters) == st
  {
    InactiveIffDefault(st.filters);
    st.(filters := ClearFilters(st.filters))
  }

  // ---------------------------------------------------------------------
  // Paging
  // ---------------------------------------------------------------------

  /** `loadMoreJobs()`: page `currentPage + 1` is appended after the jobs
      already shown and the page number advances by one; `totalJobs` is left
      as it was. On failure nothing changes. */
  function LoadMoreJobs(st: State, api: Backend): (r: State)
    ensures var page := api.listJobs((st.currentPage + 1) * PageSize, PageSize);
      && (page.Ok? ==>
            r.jobs == st.jobs + ListedJobs(page.value.jobs)
            && r.currentPage == st.currentPage + 1)
      && (page.Err? ==> r == st)
    ensures r.(jobs := st.jobs, currentPage := st.currentPage) == st
  {
    var next := st.currentPage + 1;
    match GetAllJobs(api, next * PageSize, PageSize)
    case Ok(page) => st.(jobs := st.jobs + page.jobs, currentPage := next)
    case Err(_) => st
  }

  /** Whether the "load more" button is rendered: some jobs are shown, fewer
      than the count, and the query box is exactly empty. Whenever it is
      offered, a search would use the bulk listing too. */
  function ShowLoadMore(st: State): (shown: bool)
    ensures shown ==> 0 < |st.jobs| < st.totalJobs
    ensures shown ==> SearchModeOf(st).BulkListing?
    ensures 0 < |st.jobs| < st.totalJobs && st.filters.query == "" ==> shown
  {
    var shown := |st.jobs| > 0 && |st.jobs| < st.totalJobs && st.filters.query == "";
    assert shown ==> Trim(st.filters.query) == "";
    shown
  }

  /** Right after mounting, "load more" is offered exactly when the first
      listing page loaded some jobs but fewer than the total it reported. */
  lemma LoadMoreAfterMount(api: Backend)
    ensures ShowLoadMore(Mount(api))
        <==> api.listJobs(0, PageSize).Ok? && 0 < |PageJobs(api, 0)| < api.listJobs(0, PageSize).value.total
  {
  }

  /** A query of spaces is searched as the bulk listing, yet hides "load
      more": the two tests disagree on blank queries. */
  lemma BlankQueryHidesLoadMore(st: State)
    requires st.filters.query != "" && Trim(st.filters.query) == ""
    ensures SearchModeOf(st).BulkListing?
    ensures !ShowLoadMore(st)
  {
  }

  /** The listed jobs of bulk page `k`, or none when that request fails. */
  function PageJobs(api: Backend, k: nat): seq<Job> {
    match GetAllJobs(api, k * PageSize, PageSize)
    case Ok(page) => page.jobs
    case Err(_) => []
  }

  /** Pages `0..n` of the bulk listing, one after the other. */
  function LoadedPages(api: Backend, n: nat): (js: seq<Job>)
    ensures |js| >= |PageJobs(api, n)|
  {
    if n == 0 then PageJobs(api, 0) else LoadedPages(api, n - 1) + PageJobs(api, n)
  }

  /** The list is exactly the bulk pages up to the current one. */
  predicate Paged(api: Backend, st: State) {
    st.jobs == LoadedPages(api, st.currentPage)
  }

  /** Mounting establishes the paging invariant. */
  lemma MountIsPaged(api: Backend)
    ensures Paged(api, Mount(api))
  {
  }

  /** "Load more", the form controls and the strategy switch keep the paging
      invariant (against a backend that answers each request the same way
      every time). */
  lemma PagingPreserved(api: Backend, st: State, c: FilterChange, key: string)
    requires Paged(api, st)
    ensures Paged(api, LoadMoreJobs(st, api))
    ensures Paged(api, ChangeFilter(st, c)) && Paged(api, ClearForm(st))
    ensures Paged(api, SelectMethod(st, key))
  {
    var next := st.currentPage + 1;
    if api.listJobs(next * PageSize, PageSize).Ok? {
      assert LoadedPages(api, next) == LoadedPages(api, st.currentPage) + PageJobs(api, next);
    }
  }

  /** A blank search after paging keeps only the current page while the
      page number stays put, so the earlier pages vanish from the list and
      the invariant is broken whenever they held any job. */
  lemma BlankSearchDropsEarlierPages(api: Backend, st: State)
    requires Paged(api, st) && st.currentPage > 0
    requires Trim(st.filters.query) == ""
    requires api.listJobs(st.currentPage * PageSize, PageSize).Ok?
    requires |LoadedPages(api, st.currentPage - 1)| > 0
    ensures HandleSearch(st, api).jobs == PageJobs(api, st.currentPage)
    ensures !Paged(api, HandleSearch(st, api))
  {
    var k := st.currentPage;
    assert |LoadedPages(api, k)| == |LoadedPages(api, k - 1)| + |PageJobs(api, k)|;
  }

  /** After a ranked search, emptying the query box and pressing "load more"
      appends a page of the bulk listing to the ranked results: the list
      then mixes the two kinds of entry. */
  lemma RankedThenLoadMore(st: State, api: Backend)
    requires Trim(st.filters.query) != ""
    requires api.recommend(RecommendationRequest(st.filters.query, AiTopN, st.selectedMethod)).Ok?
    requires api.listJobs((st.currentPage + 1) * PageSize, PageSize).Ok?
    ensures var searched := HandleSearch(st, api);
      var cleared := ChangeFilter(searched, SetQuery(""));
      var more := LoadMoreJobs(cleared, api);
      more.jobs == RankedJobs(api.recommend(RecommendationRequest(st.filters.query, AiTopN, st.selectedMethod)).value.recommendations)
                   + ListedJobs(api.listJobs((st.currentPage + 1) * PageSize, PageSize).value.jobs)
      && more.currentPage == st.currentPage + 1
  {
  }
}
