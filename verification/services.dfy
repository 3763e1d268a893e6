/** The service layer: the job service (ranked search, bulk listing, legacy
    search, lookup by id, recommendations) and the profile update of the
    authentication service.

    The HTTP client is not part of this model. The backend is a `Backend`
    value: each endpoint is a function from the request's parameters to the
    settled outcome of the call. Its responses are raw; the transforms below
    are what the service applies before handing them on. */
module Services {
  import opened Outcomes
  import opened Text
  import opened Types

  datatype Backend = Backend(
    /** `GET /model/jobs?skip=<skip>&limit=<limit>` */
    listJobs: (nat, nat) -> Outcome<JobsListResponse>,
    /** `POST /model/recommend` */
    recommend: RecommendationRequest -> Outcome<RecommendationResponse>,
    /** `GET /model/search-methods` */
    searchMethods: Outcome<SearchMethods>)

  const DefaultMethod: string := "hybrid"
  const LegacyTopN: int := 20
  const LegacyPageSize: nat := 50
  const LookupWindow: nat := 1000
  const RecommendedTopN: int := 10
  const RecommendedFallbackSize: nat := 10

  // ---------------------------------------------------------------------
  // Response transforms
  // ---------------------------------------------------------------------

  /** What both transforms promise of an entry `j` built from the raw entry
      `raw`: the five listing fields are copied, requirement and skill lists
      are empty, and every other optional field is unset. */
  predicate IsNormalisedFrom(j: Job, raw: Job) {
    && j.id == raw.id && j.title == raw.title && j.company == raw.company
    && j.location == raw.location && j.description == raw.description
    && j.requirements == Some([]) && j.skills == Some([])
    && j.jobType.None? && j.salary.None? && j.postedDate.None?
    && j.deadline.None? && j.remote.None? && j.logo.None?
  }

  /** The ranked-search transform of one entry. */
  function RankedJob(raw: Job): (j: Job)
    ensures IsNormalisedFrom(j, raw)
    ensures j.rank == raw.rank && j.similarityScore == raw.similarityScore
  {
    Job(raw.id, raw.title, raw.company, raw.location, None, None, raw.description,
        Some([]), Some([]), None, None, None, None, raw.rank, raw.similarityScore)
  }

  /** The bulk-listing transform of one entry. */
  function ListedJob(raw: Job): (j: Job)
    ensures IsNormalisedFrom(j, raw)
    ensures j.rank.None? && j.similarityScore.None?
  {
    Job(raw.id, raw.title, raw.company, raw.location, None, None, raw.description,
        Some([]), Some([]), None, None, None, None, None, None)
  }

  /** `recommendations.map(...)` in `searchJobsWithAI`. */
  function RankedJobs(raws: seq<Job>): (js: seq<Job>)
    ensures |js| == |raws|
    ensures forall i :: 0 <= i < |raws| ==> IsNormalisedFrom(js[i], raws[i])
    ensures forall i :: 0 <= i < |raws| ==>
      js[i].rank == raws[i].rank && js[i].similarityScore == raws[i].similarityScore
  {
    seq(|raws|, i requires 0 <= i < |raws| => RankedJob(raws[i]))
  }

  /** `jobs.map(...)` in `getAllJobs`. */
  function ListedJobs(raws: seq<Job>): (js: seq<Job>)
    ensures |js| == |raws|
    ensures forall i :: 0 <= i < |raws| ==> IsNormalisedFrom(js[i], raws[i])
    ensures forall i :: 0 <= i < |raws| ==> js[i].rank.None? && js[i].similarityScore.None?
  {
    seq(|raws|, i requires 0 <= i < |raws| => ListedJob(raws[i]))
  }

  /** The two transforms differ only in keeping the ranking fields, and each
      is a projection: applying it again changes nothing. */
  lemma TransformsAgree(raws: seq<Job>)
    ensures ListedJobs(RankedJobs(raws)) == ListedJobs(raws)
    ensures RankedJobs(RankedJobs(raws)) == RankedJobs(raws)
    ensures ListedJobs(ListedJobs(raws)) == ListedJobs(raws)
    ensures forall i :: 0 <= i < |raws| ==>
      ListedJobs(raws)[i] == RankedJobs(raws)[i].(rank := None, similarityScore := None)
  {
  }

  /** A ranked entry carries both ranking fields whenever the server sent
      both; a listed entry never carries either. */
  lemma RankingFieldsTravelTogether(raws: seq<Job>)
    requires forall i :: 0 <= i < |raws| ==> raws[i].rank.Some? && raws[i].similarityScore.Some?
    ensures forall i :: 0 <= i < |raws| ==>
      RankedJobs(raws)[i].rank.Some? && RankedJobs(raws)[i].similarityScore.Some?
    ensures forall j :: j in ListedJobs(raws) ==> j.rank.None? && j.similarityScore.None?
  {
  }

  // ---------------------------------------------------------------------
  // Job service
  // ---------------------------------------------------------------------

  /** `jobService.searchJobsWithAI(request)`: the response with its
      recommendations transformed; a rejection propagates. */
  function SearchJobsWithAI(api: Backend, request: RecommendationRequest): (r: Outcome<RecommendationResponse>)
    ensures r.Ok? <==> api.recommend(request).Ok?
    ensures r.Err? ==> r.fault == api.recommend(request).fault
    ensures r.Ok? ==>
      var raw := api.recommend(request).value;
      && r.value.success == raw.success && r.value.query == raw.query
      && r.value.searchMethod == raw.searchMethod && r.value.totalResults == raw.totalResults
      && |r.value.recommendations| == |raw.recommendations|
      && forall i :: 0 <= i < |raw.recommendations| ==>
           IsNormalisedFrom(r.value.recommendations[i], raw.recommendations[i])
           && r.value.recommendations[i].rank == raw.recommendations[i].rank
           && r.value.recommendations[i].similarityScore == raw.recommendations[i].similarityScore
  {
    match api.recommend(request)
    case Ok(raw) => Ok(raw.(recommendations := RankedJobs(raw.recommendations)))
    case Err(f) => Err(f)
  }

  /** `jobService.getAllJobs(skip, limit)`: the page with its jobs
      transformed; a rejection propagates. */
  function GetAllJobs(api: Backend, skip: nat, limit: nat): (r: Outcome<JobsListResponse>)
    ensures r.Ok? <==> api.listJobs(skip, limit).Ok?
    ensures r.Err? ==> r.fault == api.listJobs(skip, limit).fault
    ensures r.Ok? ==>
      var raw := api.listJobs(skip, limit).value;
      && r.value.total == raw.total && r.value.skip == raw.skip && r.value.limit == raw.limit
      && |r.value.jobs| == |raw.jobs|
      && (forall i :: 0 <= i < |raw.jobs| ==> IsNormalisedFrom(r.value.jobs[i], raw.jobs[i]))
      && (forall j :: j in r.value.jobs ==> j.rank.None? && j.similarityScore.None?)
  {
    match api.listJobs(skip, limit)
    case Ok(raw) => Ok(raw.(jobs := ListedJobs(raw.jobs)))
    case Err(f) => Err(f)
  }

  /** `jobService.getSearchMethods()`: the descriptors as the server sent
      them, untouched; a rejection propagates. */
  function GetSearchMethods(api: Backend): (r: Outcome<SearchMethods>)
    ensures r.Ok? <==> api.searchMethods.Ok?
    ensures r.Ok? ==> r.value == api.searchMethods.value
    ensures r.Err? ==> r.fault == api.searchMethods.fault
  {
    api.searchMethods
  }

  /** `jobService.searchJobs(filters)`: ranked search (top 20, hybrid) when
      the query is a non-empty string, else the first page of 50 listed
      jobs. The query is not trimmed. */
  function SearchJobs(api: Backend, filters: JobSearchFilters): (r: Outcome<seq<Job>>)
    ensures filters.query != "" ==>
      var ai := api.recommend(RecommendationRequest(filters.query, LegacyTopN, DefaultMethod));
      && (r.Ok? <==> ai.Ok?)
      && (r.Ok? ==> r.value == RankedJobs(ai.value.recommendations))
    ensures filters.query == "" ==>
      var page := api.listJobs(0, LegacyPageSize);
      && (r.Ok? <==> page.Ok?)
      && (r.Ok? ==> r.value == ListedJobs(page.value.jobs))
    ensures r.Err? ==>
      r.fault == (if filters.query != ""
                  then api.recommend(RecommendationRequest(filters.query, LegacyTopN, DefaultMethod)).fault
                  else api.listJobs(0, LegacyPageSize).fault)
  {
    if filters.query != "" then
      match SearchJobsWithAI(api, RecommendationRequest(filters.query, LegacyTopN, DefaultMethod))
      case Ok(resp) => Ok(resp.recommendations)
      case Err(f) => Err(f)
    else
      match GetAllJobs(api, 0, LegacyPageSize)
      case Ok(page) => Ok(page.jobs)
      case Err(f) => Err(f)
  }

  /** `id.toString()` for both kinds of identifier. */
  function IdText(id: JobId): string {
    match id
    case NumId(n) => IntToString(n)
    case StrId(s) => s
  }

  /** The lookup's equality: the identifiers print the same. */
  predicate SameId(a: JobId, b: JobId) {
    IdText(a) == IdText(b)
  }

  /** Two numeric identifiers match only when equal; a numeric and a string
      identifier match when the string is the number's decimal text. */
  lemma SameIdMeaning(a: int, b: int, s: string)
    ensures SameId(NumId(a), NumId(b)) <==> a == b
    ensures SameId(NumId(a), StrId(s)) <==> s == IntToString(a)
  {
    IntToStringInjective(a, b);
  }

  /** `jobs.find(j => j.id.toString() === id.toString())`, as an index. */
  function FindById(jobs: seq<Job>, id: JobId): (r: Option<nat>)
    ensures r.None? <==> forall k :: 0 <= k < |jobs| ==> !SameId(jobs[k].id, id)
    ensures r.Some? ==> r.value < |jobs| && SameId(jobs[r.value].id, id)
    ensures r.Some? ==> forall k :: 0 <= k < r.value ==> !SameId(jobs[k].id, id)
  {
    if |jobs| == 0 then None
    else if SameId(jobs[0].id, id) then Some(0)
    else
      match FindById(jobs[1..], id)
      case None => None
      case Some(k) => Some(k + 1)
  }

  /** The placeholder `getJobById` returns when it finds nothing. */
  function NotFoundJob(id: JobId): (j: Job)
    ensures j.id == id && j.title == "Trabajo no encontrado"
  {
    Job(id, "Trabajo no encontrado", "N/A", "N/A", None, None,
        "Este trabajo no está disponible en este momento.",
        Some([]), Some([]), None, None, None, None, None, None)
  }

  /** `jobService.getJobById(id)`: the first of the first 1000 listed jobs
      whose identifier prints like `id`; otherwise, or when the listing
      fails, the placeholder. It never rejects. */
  function GetJobById(api: Backend, id: JobId): (j: Job)
    ensures api.listJobs(0, LookupWindow).Err? ==> j == NotFoundJob(id)
    ensures api.listJobs(0, LookupWindow).Ok? ==>
      var jobs := ListedJobs(api.listJobs(0, LookupWindow).value.jobs);
      && ((forall k :: 0 <= k < |jobs| ==> !SameId(jobs[k].id, id)) ==> j == NotFoundJob(id))
      && ((exists k :: 0 <= k < |jobs| && SameId(jobs[k].id, id)) ==>
            exists k :: 0 <= k < |jobs| && j == jobs[k] && SameId(j.id, id)
              && forall m :: 0 <= m < k ==> !SameId(jobs[m].id, id))
    ensures SameId(j.id, id)
  {
    match GetAllJobs(api, 0, LookupWindow)
    case Err(_) => NotFoundJob(id)
    case Ok(page) =>
      match FindById(page.jobs, id)
      case Some(k) => page.jobs[k]
      case None => NotFoundJob(id)
  }

  /** `jobService.getRecommendedJobs(query)`: ranked search (top 10,
      hybrid); if it rejects, the first 10 listed jobs; if that rejects too,
      its rejection. */
  function GetRecommendedJobs(api: Backend, query: string): (r: Outcome<seq<Job>>)
    ensures var ai := api.recommend(RecommendationRequest(query, RecommendedTopN, DefaultMethod));
      && (ai.Ok? ==> r == Ok(RankedJobs(ai.value.recommendations)))
      && (ai.Err? ==>
            var page := api.listJobs(0, RecommendedFallbackSize);
            && (r.Ok? <==> page.Ok?)
            && (r.Ok? ==> r.value == ListedJobs(page.value.jobs))
            && (r.Err? ==> r.fault == page.fault))
  {
    match SearchJobsWithAI(api, RecommendationRequest(query, RecommendedTopN, DefaultMethod))
    case Ok(resp) => Ok(resp.recommendations)
    case Err(_) =>
      match GetAllJobs(api, 0, RecommendedFallbackSize)
      case Ok(page) => Ok(page.jobs)
      case Err(f) => Err(f)
  }

  /** Against a server that ranks every recommendation it returns, a
      non-empty result shows where it came from: its entries carry neither
      rank nor score exactly when the ranked search was rejected and the
      listing stood in. */
  lemma RecommendationSourceShows(api: Backend, query: string)
    requires var ai := api.recommend(RecommendationRequest(query, RecommendedTopN, DefaultMethod));
      ai.Ok? ==> forall i :: 0 <= i < |ai.value.recommendations| ==> ai.value.recommendations[i].rank.Some?
    requires GetRecommendedJobs(api, query).Ok? && |GetRecommendedJobs(api, query).value| > 0
    ensures var js := GetRecommendedJobs(api, query).value;
      var ai := api.recommend(RecommendationRequest(query, RecommendedTopN, DefaultMethod));
      (forall j :: j in js ==> j.rank.None? && j.similarityScore.None?) <==> ai.Err?
  {
    var js := GetRecommendedJobs(api, query).value;
    var ai := api.recommend(RecommendationRequest(query, RecommendedTopN, DefaultMethod));
    if ai.Ok? {
      assert js[0] in js && js[0].rank.Some?;
    }
  }

  // ---------------------------------------------------------------------
  // Authentication service: profile update
  // ---------------------------------------------------------------------

  /** A field of the patch overrides the base value when present. */
  function Override<T>(base: T, patch: Option<T>): (r: T)
    ensures patch.Some? ==> r == patch.value
    ensures patch.None? ==> r == base
  {
    patch.GetOr(base)
  }

  /** `{ ...user, ...patch }` for a `User` and a `Partial<User>`. */
  function MergeUser(u: User, p: UserPatch): (r: User)
    ensures p.id.Some? ==> r.id == p.id.value
    ensures p.id.None? ==> r.id == u.id
    ensures p.email.Some? ==> r.email == p.email.value
    ensures p.email.None? ==> r.email == u.email
    ensures p.fullName.Some? ==> r.fullName == p.fullName.value
    ensures p.fullName.None? ==> r.fullName == u.fullName
    ensures p.professionalTitle.Some? ==> r.professionalTitle == p.professionalTitle.value
    ensures p.professionalTitle.None? ==> r.professionalTitle == u.professionalTitle
    ensures p.company.Some? ==> r.company == p.company.value
    ensures p.company.None? ==> r.company == u.company
    ensures p.location.Some? ==> r.location == p.location.value
    ensures p.location.None? ==> r.location == u.location
    ensures p.bio.Some? ==> r.bio == p.bio.value
    ensures p.bio.None? ==> r.bio == u.bio
    ensures p.skills.Some? ==> r.skills == p.skills.value
    ensures p.skills.None? ==> r.skills == u.skills
    ensures p.avatar.Some? ==> r.avatar == p.avatar.value
    ensures p.avatar.None? ==> r.avatar == u.avatar
    ensures p.experience.Some? ==> r.experience == p.experience.value
    ensures p.experience.None? ==> r.experience == u.experience
    ensures p.education.Some? ==> r.education == p.education.value
    ensures p.education.None? ==> r.education == u.education
  {
    User(
      Override(u.id, p.id),
      Override(u.email, p.email),
      Override(u.fullName, p.fullName),
      Override(u.professionalTitle, p.professionalTitle),
      Override(u.company, p.company),
      Override(u.location, p.location),
      Override(u.bio, p.bio),
      Override(u.skills, p.skills),
      Override(u.avatar, p.avatar),
      Override(u.experience, p.experience),
      Override(u.education, p.education))
  }

  /** The patch with no keys. */
  const EmptyPatch: UserPatch :=
    UserPatch(None, None, None, None, None, None, None, None, None, None, None)

  /** A patch holding every key of `u`. */
  function PatchOf(u: User): UserPatch {
    UserPatch(Some(u.id), Some(u.email), Some(u.fullName), Some(u.professionalTitle),
              Some(u.company), Some(u.location), Some(u.bio), Some(u.skills),
              Some(u.avatar), Some(u.experience), Some(u.education))
  }

  /** `{ ...p, ...q }` for two patches. */
  function ThenPatch(p: UserPatch, q: UserPatch): UserPatch {
    UserPatch(
      if q.id.Some? then q.id else p.id,
      if q.email.Some? then q.email else p.email,
      if q.fullName.Some? then q.fullName else p.fullName,
      if q.professionalTitle.Some? then q.professionalTitle else p.professionalTitle,
      if q.company.Some? then q.company else p.company,
      if q.location.Some? then q.location else p.location,
      if q.bio.Some? then q.bio else p.bio,
      if q.skills.Some? then q.skills else p.skills,
      if q.avatar.Some? then q.avatar else p.avatar,
      if q.experience.Some? then q.experience else p.experience,
      if q.education.Some? then q.education else p.education)
  }

  /** The merge is right-biased: an empty patch changes nothing, a complete
      patch replaces everything, two merges in a row are one merge with the
      later patch winning, and merging the same patch twice is merging it
      once. */
  lemma MergeLaws(u: User, v: User, p: UserPatch, q: UserPatch)
    ensures MergeUser(u, EmptyPatch) == u
    ensures MergeUser(u, PatchOf(v)) == v
    ensures MergeUser(MergeUser(u, p), q) == MergeUser(u, ThenPatch(p, q))
    ensures MergeUser(MergeUser(u, p), p) == MergeUser(u, p)
  {
  }

  /** `authService.updateProfile(patch)`: the current profile (or the
      rejection of reading it) merged with the patch. */
  function UpdateProfile(current: Outcome<User>, patch: UserPatch): (r: Outcome<User>)
    ensures r.Ok? <==> current.Ok?
    ensures r.Err? ==> r.fault == current.fault
    ensures r.Ok? ==> r.value == MergeUser(current.value, patch)
  {
    match current
    case Ok(u) => Ok(MergeUser(u, patch))
    case Err(f) => Err(f)
  }
}
