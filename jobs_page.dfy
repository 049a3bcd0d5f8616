/**
 * The job listing page: it turns the debounced filter form and the salary
 * slider into query parameters, asks the backend for the listing, and keeps
 * the job list and the loading flag. The HTTP round trip is the function
 * `respond`, which maps the query pairs sent to the reply received.
 */
module JobsPage {
  import opened Wrappers
  import opened JobModel
  import opened QueryParams
  import JobFilterValidation
  import Listing
  import Jobs

  /** The job type options of the filter's select box. */
  const PAGE_JOB_TYPES: seq<string> := ["Full-time", "Part-time", "Contract", "Internship"]

  /** The bounds of the salary slider, and its initial range. */
  const SALARY_RANGE_LIMITS: (nat, nat) := (50000, 200000)

  /**
   * The filter form: two text inputs and a clearable select box; a cleared
   * select holds null (None).
   */
  datatype FilterForm = FilterForm(jobTitle: string, location: string, jobType: Option<string>)

  const DEFAULT_FILTERS: FilterForm := FilterForm("", "", Some(""))

  /** The form's properties in the order Object.entries lists them. */
  function Entries(form: FilterForm): seq<(string, Option<string>)> {
    [("jobTitle", Some(form.jobTitle)), ("location", Some(form.location)), ("jobType", form.jobType)]
  }

  /** `if (value) params.set(key, value)`. */
  function SetIfTruthy(ps: Params, key: string, value: Option<string>): Params {
    if Truthy(value) then Set(ps, key, value.value) else ps
  }

  /** Sets each entry with a truthy value, left to right, under its own name. */
  function AddEntries(ps: Params, es: seq<(string, Option<string>)>): Params
    decreases |es|
  {
    if es == [] then ps else AddEntries(SetIfTruthy(ps, es[0].0, es[0].1), es[1..])
  }

  /** The decimal digit for `d`. */
  function Digit(d: nat): char
    requires d < 10
  {
    (d + '0' as int) as char
  }

  /** Number.prototype.toString for a natural number: its decimal digits, no sign, no leading zero. */
  function DecimalString(n: nat): (s: string)
    ensures s != [] && (|s| > 1 ==> s[0] != '0')
    ensures forall i :: 0 <= i < |s| ==> '0' <= s[i] <= '9'
  {
    if n < 10 then [Digit(n)] else DecimalString(n / 10) + [Digit(n % 10)]
  }

  /** The number a string of decimal digits denotes. */
  function DecimalValue(s: string): int {
    if s == [] then 0 else DecimalValue(s[..|s| - 1]) * 10 + (s[|s| - 1] as int - '0' as int)
  }

  /** The decimal string of a number reads back as that number. */
  lemma {:induction false} DecimalRoundTrip(n: nat)
    ensures DecimalValue(DecimalString(n)) == n
  {
    if n >= 10 {
      DecimalRoundTrip(n / 10);
      var s := DecimalString(n);
      assert s[..|s| - 1] == DecimalString(n / 10);
    }
  }

  /** The query the page sends: the truthy form entries, then both salary bounds. */
  function PageQuery(form: FilterForm, range: (nat, nat)): Params {
    var ps := AddEntries([], Entries(form));
    var ps := Set(ps, "salaryRangeMin", DecimalString(range.0));
    Set(ps, "salaryRangeMax", DecimalString(range.1))
  }

  /** What the backend's reply carries: an array of jobs, or anything else. */
  datatype Payload = JobArray(items: seq<JobPosting>) | NotAnArray

  /** The outcome of the request: a reply, or a failure (network error or error status). */
  datatype Reply = RequestFailed | Answered(data: Payload)

  /** The state of the listing page. */
  class JobListContent {
    var jobs: seq<JobPosting>
    var loading: bool
    var salaryRange: (nat, nat)

    /** The slider range stays within its bounds, lower end first. */
    predicate Valid()
      reads this
    {
      SALARY_RANGE_LIMITS.0 <= salaryRange.0 <= salaryRange.1 <= SALARY_RANGE_LIMITS.1
    }

    /** The page starts with no jobs, loading, and the slider at its full range. */
    constructor ()
      ensures Valid()
      ensures jobs == [] && loading && salaryRange == SALARY_RANGE_LIMITS
    {
      jobs := [];
      loading := true;
      salaryRange := SALARY_RANGE_LIMITS;
    }

    /** The slider's change handler; the slider only reports ranges within its bounds. */
    method SetSalaryRange(range: (nat, nat))
      requires SALARY_RANGE_LIMITS.0 <= range.0 <= range.1 <= SALARY_RANGE_LIMITS.1
      modifies this
      ensures Valid()
      ensures salaryRange == range && jobs == old(jobs) && loading == old(loading)
    {
      salaryRange := range;
    }

    /**
     * fetchJobs: sends the query built from the debounced filters and the
     * slider range. An array reply replaces the job list wholesale; a reply
     * that is not an array and a failed request both leave it empty. Loading
     * is off afterwards whatever the outcome.
     */
    method FetchJobs(debouncedFilters: FilterForm, respond: Params -> Reply) returns (params: Params)
      requires Valid()
      modifies this
      ensures Valid() && salaryRange == old(salaryRange)
      ensures params == PageQuery(debouncedFilters, salaryRange)
      ensures respond(params).Answered? && respond(params).data.JobArray? ==> jobs == respond(params).data.items
      ensures respond(params).RequestFailed? || respond(params).data.NotAnArray? ==> jobs == []
      ensures !loading
    {
      loading := true;
      params := [];
      var entries := Entries(debouncedFilters);
      for i := 0 to |entries|
        invariant AddEntries(params, entries[i..]) == AddEntries([], entries)
      {
        var (key, value) := entries[i];
        if Truthy(value) {
          params := Set(params, key, value.value);
        }
        assert entries[i..][1..] == entries[i + 1..];
      }
      params := Set(params, "salaryRangeMin", DecimalString(salaryRange.0));
      params := Set(params, "salaryRangeMax", DecimalString(salaryRange.1));
      var reply := respond(params);
      match reply {
        case Answered(JobArray(items)) =>
          jobs := items;
        case Answered(NotAnArray) =>
          jobs := [];
        case RequestFailed =>
          jobs := [];
      }
      loading := false;
    }
  }

  /** The select box offers exactly the four job types the backend accepts. */
  lemma PageJobTypesAreBackendJobTypes()
    ensures forall t :: t in PAGE_JOB_TYPES <==> IsJobType(t)
  {
  }

  /** The query value of one form entry: the string when truthy, nothing otherwise. */
  function Sent(v: Option<string>): Wire {
    if Truthy(v) then Text(v.value) else Absent
  }

  /** The names the page may send. */
  predicate PageName(k: string) {
    k == "jobTitle" || k == "location" || k == "jobType" || k == "salaryRangeMin" || k == "salaryRangeMax"
  }

  /** The five names the page may send are pairwise distinct. */
  lemma NamesDistinct()
    ensures "jobTitle" != "location" && "jobTitle" != "jobType" && "location" != "jobType"
    ensures "salaryRangeMin" != "salaryRangeMax"
    ensures "jobTitle" != "salaryRangeMin" && "location" != "salaryRangeMin" && "jobType" != "salaryRangeMin"
    ensures "jobTitle" != "salaryRangeMax" && "location" != "salaryRangeMax" && "jobType" != "salaryRangeMax"
  {
    assert "jobTitle"[0] != "location"[0];
    assert "location"[0] != "jobType"[0];
    assert "salaryRangeMin"[13] != "salaryRangeMax"[13];
  }

  /** A conditional set shows its value under its name when truthy and leaves every other name as it was. */
  lemma SetIfTruthyView(ps: Params, key: string, value: Option<string>)
    ensures ParamValue(SetIfTruthy(ps, key, value), key) == if Truthy(value) then Text(value.value) else ParamValue(ps, key)
    ensures forall k :: k != key ==> ParamValue(SetIfTruthy(ps, key, value), k) == ParamValue(ps, k)
  {
  }

  /** The pairs the form entries contribute, name by name. */
  lemma {:induction false} EntriesView(form: FilterForm)
    ensures var ps := AddEntries([], Entries(form));
            && ParamValue(ps, "jobTitle") == Sent(Some(form.jobTitle))
            && ParamValue(ps, "location") == Sent(Some(form.location))
            && ParamValue(ps, "jobType") == Sent(form.jobType)
            && forall k :: k != "jobTitle" && k != "location" && k != "jobType" ==> ParamValue(ps, k) == Absent
  {
    NamesDistinct();
    var es := Entries(form);
    var p0: Params := [];
    var p1 := SetIfTruthy(p0, "jobTitle", Some(form.jobTitle));
    var p2 := SetIfTruthy(p1, "location", Some(form.location));
    var p3 := SetIfTruthy(p2, "jobType", form.jobType);
    assert AddEntries(p0, es) == AddEntries(p1, es[1..]);
    assert es[1..][1..] == es[2..] && es[2..][1..] == [];
    assert AddEntries(p1, es[1..]) == AddEntries(p2, es[2..]);
    assert AddEntries(p2, es[2..]) == p3;
    SetIfTruthyView(p0, "jobTitle", Some(form.jobTitle));
    SetIfTruthyView(p1, "location", Some(form.location));
    SetIfTruthyView(p2, "jobType", form.jobType);
  }

  /** Two sets under distinct names show their values and leave every other name as it was. */
  lemma SetTwiceView(ps: Params, k1: string, v1: string, k2: string, v2: string)
    requires k1 != k2
    ensures var r := Set(Set(ps, k1, v1), k2, v2);
            && ParamValue(r, k1) == Text(v1)
            && ParamValue(r, k2) == Text(v2)
            && forall k :: k != k1 && k != k2 ==> ParamValue(r, k) == ParamValue(ps, k)
  {
  }

  /** Two sets under distinct names leave a third name as it was. */
  lemma SetTwiceKeeps(ps: Params, k1: string, v1: string, k2: string, v2: string, k: string)
    requires k1 != k2 && k != k1 && k != k2
    ensures ParamValue(Set(Set(ps, k1, v1), k2, v2), k) == ParamValue(ps, k)
  {
    SetTwiceView(ps, k1, v1, k2, v2);
  }

  /**
   * What the page sends, name by name: each truthy form property once under its
   * own name with its value unchanged, no empty one, both salary bounds once as
   * the decimal strings of the slider ends.
   */
  lemma PageQueryContents(form: FilterForm, range: (nat, nat))
    ensures var ps := PageQuery(form, range);
            && ParamValue(ps, "jobTitle") == Sent(Some(form.jobTitle))
            && ParamValue(ps, "location") == Sent(Some(form.location))
            && ParamValue(ps, "jobType") == Sent(form.jobType)
            && ParamValue(ps, "salaryRangeMin") == Text(DecimalString(range.0))
            && ParamValue(ps, "salaryRangeMax") == Text(DecimalString(range.1))
  {
    var ps := AddEntries([], Entries(form));
    var lo, hi := DecimalString(range.0), DecimalString(range.1);
    assert PageQuery(form, range) == Set(Set(ps, "salaryRangeMin", lo), "salaryRangeMax", hi);
    NamesDistinct();
    EntriesView(form);
    SetTwiceView(ps, "salaryRangeMin", lo, "salaryRangeMax", hi);
    SetTwiceKeeps(ps, "salaryRangeMin", lo, "salaryRangeMax", hi, "jobTitle");
    SetTwiceKeeps(ps, "salaryRangeMin", lo, "salaryRangeMax", hi, "location");
    SetTwiceKeeps(ps, "salaryRangeMin", lo, "salaryRangeMax", hi, "jobType");
  }

  /** The page sends no name besides its five. */
  lemma PageQueryNoOtherNames(form: FilterForm, range: (nat, nat))
    ensures forall k :: !PageName(k) ==> Count(PageQuery(form, range), k) == 0
  {
    var ps := AddEntries([], Entries(form));
    NamesDistinct();
    EntriesView(form);
    SetTwiceView(ps, "salaryRangeMin", DecimalString(range.0), "salaryRangeMax", DecimalString(range.1));
    forall k | !PageName(k) ensures Count(PageQuery(form, range), k) == 0 {
      assert ParamValue(ps, k) == Absent;
      assert ParamValue(PageQuery(form, range), k) == Absent;
    }
  }

  /**
   * Whatever the form holds, as long as the select box holds one of its own
   * options, is empty or is cleared, the query the page sends passes the
   * backend's filter validation, which reads back each truthy form property
   * and both salary bounds.
   */
  lemma PageQueryPassesFilterValidation(form: FilterForm, range: (nat, nat))
    requires form.jobType.Some? ==> form.jobType.value == "" || form.jobType.value in PAGE_JOB_TYPES
    ensures JobFilterValidation.Validate(JobFilterValidation.FromParams(PageQuery(form, range)))
            == Success(JobFilterValidation.JobFilterDto(
                 if form.jobTitle != "" then Some(form.jobTitle) else None,
                 if form.location != "" then Some(form.location) else None,
                 if Truthy(form.jobType) then form.jobType else None,
                 Some(DecimalString(range.0)),
                 Some(DecimalString(range.1))))
  {
    PageQueryContents(form, range);
    var q := JobFilterValidation.FromParams(PageQuery(form, range));
    assert q == JobFilterValidation.JobFilterQuery(
      Sent(Some(form.jobTitle)), Sent(Some(form.location)), Sent(form.jobType),
      Text(DecimalString(range.0)), Text(DecimalString(range.1)));
    SentQueryIsValid(Some(form.jobTitle), Some(form.location), form.jobType, DecimalString(range.0), DecimalString(range.1));
  }

  /** A query of sent form values and two salary strings is valid when the job type is a listed one or not sent. */
  lemma SentQueryIsValid(title: Option<string>, location: Option<string>, jobType: Option<string>, lo: string, hi: string)
    requires Truthy(jobType) ==> jobType.value in PAGE_JOB_TYPES
    ensures JobFilterValidation.Validate(JobFilterValidation.JobFilterQuery(Sent(title), Sent(location), Sent(jobType), Text(lo), Text(hi)))
            == Success(JobFilterValidation.JobFilterDto(
                 if Truthy(title) then title else None,
                 if Truthy(location) then location else None,
                 if Truthy(jobType) then jobType else None,
                 Some(lo), Some(hi)))
  {
  }

  /**
   * The first fetch, with the form at its default values and the slider at
   * its full range, passes filter validation and lists every stored row.
   */
  lemma InitialFetchListsEverything(fold: string -> string, rows: seq<JobPosting>)
    ensures var r := JobFilterValidation.Validate(JobFilterValidation.FromParams(PageQuery(DEFAULT_FILTERS, SALARY_RANGE_LIMITS)));
            && r.Success?
            && multiset(Listing.FindMany(fold, Jobs.WhereOf(r.value), rows)) == multiset(rows)
  {
    PageQueryPassesFilterValidation(DEFAULT_FILTERS, SALARY_RANGE_LIMITS);
    var r := JobFilterValidation.Validate(JobFilterValidation.FromParams(PageQuery(DEFAULT_FILTERS, SALARY_RANGE_LIMITS)));
    Jobs.NoFilterReturnsEverything(fold, r.value, rows);
  }
}
