/** The jobs page's filter form: editing one field, clearing, and the
    "some filter is active" test that decides whether the clear button shows.

    The form is a `JobSearchFilters`. The page reads it back as the object
    `{query, location, type, remote, salaryMin, salaryMax}`, so each field is
    also seen here as the JavaScript value the page stores under its key. */
module JobFilters {
  import opened Outcomes
  import opened Js
  import opened Types

  /** The form as the page first renders it and as `clearFilters` leaves it. */
  const Defaults: JobSearchFilters := JobSearchFilters("", "", None, false, None, None)

  /** The six keys of the form, in the order `Object.values` lists them. */
  datatype FilterField = QueryKey | LocationKey | TypeKey | RemoteKey | SalaryMinKey | SalaryMaxKey

  /** The value stored under a key: the empty selection `''` for no job
      type, `undefined` for an unset salary bound. */
  function ValueAt(f: JobSearchFilters, k: FilterField): JsValue {
    match k
    case QueryKey => Str(f.query)
    case LocationKey => Str(f.location)
    case TypeKey => (if f.jobType.Some? then Str(f.jobType.value.Code()) else Str(""))
    case RemoteKey => Bool(f.remote)
    case SalaryMinKey => (if f.salaryMin.Some? then Num(f.salaryMin.value) else Undefined)
    case SalaryMaxKey => (if f.salaryMax.Some? then Num(f.salaryMax.value) else Undefined)
  }

  /** `Object.values(filters)`. */
  function Values(f: JobSearchFilters): (vs: seq<JsValue>)
    ensures |vs| == 6
  {
    [ValueAt(f, QueryKey), ValueAt(f, LocationKey), ValueAt(f, TypeKey),
     ValueAt(f, RemoteKey), ValueAt(f, SalaryMinKey), ValueAt(f, SalaryMaxKey)]
  }

  /** Two forms that store the same value under every key are the same form. */
  lemma ValuesDetermineForm(a: JobSearchFilters, b: JobSearchFilters)
    requires forall k :: ValueAt(a, k) == ValueAt(b, k)
    ensures a == b
  {
    assert ValueAt(a, QueryKey) == ValueAt(b, QueryKey);
    assert ValueAt(a, LocationKey) == ValueAt(b, LocationKey);
    assert ValueAt(a, RemoteKey) == ValueAt(b, RemoteKey);
    assert ValueAt(a, SalaryMinKey) == ValueAt(b, SalaryMinKey);
    assert ValueAt(a, SalaryMaxKey) == ValueAt(b, SalaryMaxKey);
    assert ValueAt(a, TypeKey) == ValueAt(b, TypeKey);
  }

  /** One call of `handleFilterChange(field, value)`, with the value the
      control hands over: the text of an input, the selected type code
      (`None` for `''`), the checkbox state, or a parsed salary bound
      (`None` for an emptied input). */
  datatype FilterChange =
    | SetQuery(query: string)
    | SetLocation(location: string)
    | SetType(jobType: Option<JobType>)
    | SetRemote(remote: bool)
    | SetSalaryMin(salaryMin: Option<int>)
    | SetSalaryMax(salaryMax: Option<int>)
  {
    /** The key the change writes. */
    function Key(): FilterField {
      match this
      case SetQuery(_) => QueryKey
      case SetLocation(_) => LocationKey
      case SetType(_) => TypeKey
      case SetRemote(_) => RemoteKey
      case SetSalaryMin(_) => SalaryMinKey
      case SetSalaryMax(_) => SalaryMaxKey
    }
  }

  /** The JavaScript value a change stores under its key. */
  function Written(c: FilterChange): JsValue {
    match c
    case SetQuery(q) => Str(q)
    case SetLocation(l) => Str(l)
    case SetType(t) => (if t.Some? then Str(t.value.Code()) else Str(""))
    case SetRemote(b) => Bool(b)
    case SetSalaryMin(n) => (if n.Some? then Num(n.value) else Undefined)
    case SetSalaryMax(n) => (if n.Some? then Num(n.value) else Undefined)
  }

  /** `handleFilterChange(field, value)`, i.e. `{...prev, [field]: value}`:
      the written key holds the new value, every other key keeps its own. */
  function HandleFilterChange(f: JobSearchFilters, c: FilterChange): (r: JobSearchFilters)
    ensures ValueAt(r, c.Key()) == Written(c)
    ensures forall k :: k != c.Key() ==> ValueAt(r, k) == ValueAt(f, k)
  {
    match c
    case SetQuery(q) => f.(query := q)
    case SetLocation(l) => f.(location := l)
    case SetType(t) => f.(jobType := t)
    case SetRemote(b) => f.(remote := b)
    case SetSalaryMin(n) => f.(salaryMin := n)
    case SetSalaryMax(n) => f.(salaryMax := n)
  }

  /** The change that writes back what `f` already holds under `k`. */
  function Current(f: JobSearchFilters, k: FilterField): (c: FilterChange)
    ensures c.Key() == k && Written(c) == ValueAt(f, k)
  {
    match k
    case QueryKey => SetQuery(f.query)
    case LocationKey => SetLocation(f.location)
    case TypeKey => SetType(f.jobType)
    case RemoteKey => SetRemote(f.remote)
    case SalaryMinKey => SetSalaryMin(f.salaryMin)
    case SalaryMaxKey => SetSalaryMax(f.salaryMax)
  }

  /** Laws of the spread update, derived from its contract alone: writing a
      key's current value changes nothing, a second write to the same key
      wins, and writes to different keys commute. */
  lemma FilterChangeLaws(f: JobSearchFilters, c: FilterChange, d: FilterChange)
    ensures HandleFilterChange(f, Current(f, c.Key())) == f
    ensures c.Key() == d.Key() ==>
      HandleFilterChange(HandleFilterChange(f, c), d) == HandleFilterChange(f, d)
    ensures c.Key() != d.Key() ==>
      HandleFilterChange(HandleFilterChange(f, c), d) == HandleFilterChange(HandleFilterChange(f, d), c)
  {
    var k := c.Key();
    ValuesDetermineForm(HandleFilterChange(f, Current(f, k)), f);
    if k == d.Key() {
      ValuesDetermineForm(HandleFilterChange(HandleFilterChange(f, c), d), HandleFilterChange(f, d));
    } else {
      ValuesDetermineForm(HandleFilterChange(HandleFilterChange(f, c), d),
                          HandleFilterChange(HandleFilterChange(f, d), c));
    }
  }

  /** A stored value counts as a filter unless it is `''`, `false` or
      `undefined` (so `0` counts). */
  predicate IsActive(v: JsValue) {
    v != Str("") && v != Bool(false) && v != Undefined
  }

  /** `hasActiveFilters`: some value of the form counts as a filter. In terms
      of the fields: a non-empty text, a chosen type, the remote box ticked,
      or any salary bound set, zero included. */
  function HasActiveFilters(f: JobSearchFilters): (r: bool)
    ensures r <==> f.query != "" || f.location != "" || f.jobType.Some? || f.remote
                   || f.salaryMin.Some? || f.salaryMax.Some?
  {
    var vs := Values(f);
    assert vs[0] == ValueAt(f, QueryKey) && vs[1] == ValueAt(f, LocationKey);
    assert vs[2] == ValueAt(f, TypeKey) && vs[3] == ValueAt(f, RemoteKey);
    assert vs[4] == ValueAt(f, SalaryMinKey) && vs[5] == ValueAt(f, SalaryMaxKey);
    exists i :: 0 <= i < |vs| && IsActive(vs[i])
  }

  /** `clearFilters()`: no key holds an active value afterwards. */
  function ClearFilters(f: JobSearchFilters): (r: JobSearchFilters)
    ensures forall k :: !IsActive(ValueAt(r, k))
  {
    Defaults
  }

  /** The form shows no active filter exactly when it is the default form;
      clearing is therefore idempotent and its result inactive. */
  lemma InactiveIffDefault(f: JobSearchFilters)
    ensures !HasActiveFilters(f) <==> f == Defaults
    ensures !HasActiveFilters(ClearFilters(f))
    ensures ClearFilters(ClearFilters(f)) == ClearFilters(f)
  {
  }

  /** A minimum salary of `0` counts as a filter even though its input
      renders empty (`salaryMin || ''`). */
  lemma ZeroSalaryIsActive(f: JobSearchFilters)
    ensures HasActiveFilters(HandleFilterChange(f, SetSalaryMin(Some(0))))
    ensures !Truthy(ValueAt(HandleFilterChange(f, SetSalaryMin(Some(0))), SalaryMinKey))
  {
  }
}
