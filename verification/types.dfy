/** The records the application exchanges with its backend and passes between
    pages. A TypeScript optional property (`p?: T`) is an `Option<T>`; an
    identifier typed `string | number` is a `JobId`. */
module Types {
  import opened Outcomes

  /** A job identifier: the backend sends numbers, the router hands over
      strings. */
  datatype JobId = NumId(n: int) | StrId(s: string)

  /** The five employment types a job may declare. */
  datatype JobType = FullTime | PartTime | Contract | Internship | Remote {

    /** The code the backend and the filter form use for this type. */
    function Code(): string {
      match this
      case FullTime => "full-time"
      case PartTime => "part-time"
      case Contract => "contract"
      case Internship => "internship"
      case Remote => "remote"
    }
  }

  datatype Salary = Salary(min: int, max: int, currency: string)

  /** A job posting. `rank` and `similarityScore` are only set on results of
      the ranked search. */
  datatype Job = Job(
    id: JobId,
    title: string,
    company: string,
    location: string,
    jobType: Option<JobType>,
    salary: Option<Salary>,
    description: string,
    requirements: Option<seq<string>>,
    skills: Option<seq<string>>,
    postedDate: Option<string>,
    deadline: Option<string>,
    remote: Option<bool>,
    logo: Option<string>,
    rank: Option<int>,
    similarityScore: Option<real>)

  datatype Experience = Experience(
    id: string,
    title: string,
    company: string,
    location: Option<string>,
    startDate: string,
    endDate: Option<string>,
    current: bool,
    description: Option<string>)

  datatype Education = Education(
    id: string,
    degree: string,
    school: string,
    startDate: string,
    endDate: Option<string>,
    current: bool)

  datatype User = User(
    id: int,
    email: string,
    fullName: string,
    professionalTitle: Option<string>,
    company: Option<string>,
    location: Option<string>,
    bio: Option<string>,
    skills: Option<seq<string>>,
    avatar: Option<string>,
    experience: Option<seq<Experience>>,
    education: Option<seq<Education>>)

  /** `Partial<User>`: a field is `None` when the key is absent. For the
      optional fields a present key may still hold `undefined`, hence the
      nested `Option`. */
  datatype UserPatch = UserPatch(
    id: Option<int>,
    email: Option<string>,
    fullName: Option<string>,
    professionalTitle: Option<Option<string>>,
    company: Option<Option<string>>,
    location: Option<Option<string>>,
    bio: Option<Option<string>>,
    skills: Option<Option<seq<string>>>,
    avatar: Option<Option<string>>,
    experience: Option<Option<seq<Experience>>>,
    education: Option<Option<seq<Education>>>)

  /** The body of a registration request. */
  datatype RegisterData = RegisterData(
    fullName: string,
    email: string,
    password: string,
    professionalTitle: Option<string>,
    company: Option<string>)

  /** The jobs page's filter form. `jobType` is `None` for the empty
      selection `''`. */
  datatype JobSearchFilters = JobSearchFilters(
    query: string,
    location: string,
    jobType: Option<JobType>,
    remote: bool,
    salaryMin: Option<int>,
    salaryMax: Option<int>)

  /** One ranking strategy the backend advertises. */
  datatype SearchMethod = SearchMethod(name: string, description: string, useCase: string)

  /** The advertised strategies and the server's recommendation. The
      recommendation is an arbitrary string: nothing checks it names one of
      the three. */
  datatype SearchMethods = SearchMethods(
    titleOnly: SearchMethod,
    combined: SearchMethod,
    hybrid: SearchMethod,
    recommended: string)

  /** A ranked-search request. `searchMethod` is a string because the page stores
      whatever the server recommended, unchecked. */
  datatype RecommendationRequest = RecommendationRequest(query: string, topN: int, searchMethod: string)

  datatype RecommendationResponse = RecommendationResponse(
    success: bool,
    query: string,
    searchMethod: string,
    totalResults: int,
    recommendations: seq<Job>)

  datatype JobsListResponse = JobsListResponse(total: int, skip: int, limit: int, jobs: seq<Job>)
}
