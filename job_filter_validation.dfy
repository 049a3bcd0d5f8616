/**
 * The field rules of JobFilterDto: every property is optional; a supplied
 * title, location or salary bound must be a string, and a supplied job type
 * must be one of the four listed strings. No numeric or ordering check is
 * made on the salary bounds.
 */
module JobFilterValidation {
  import opened Wrappers
  import opened JobModel
  import opened QueryParams

  /** The query object of a listing request, one raw value per property. */
  datatype JobFilterQuery = JobFilterQuery(
    jobTitle: Wire,
    location: Wire,
    jobType: Wire,
    salaryRangeMin: Wire,
    salaryRangeMax: Wire)

  /** The typed filter the service receives; None stands for an absent property. */
  datatype JobFilterDto = JobFilterDto(
    jobTitle: Option<string>,
    location: Option<string>,
    jobType: Option<string>,
    salaryRangeMin: Option<string>,
    salaryRangeMax: Option<string>)

  datatype Field = JobTitle | Location | JobType | SalaryRangeMin | SalaryRangeMax

  function Raw(q: JobFilterQuery, f: Field): Wire {
    match f
    case JobTitle => q.jobTitle
    case Location => q.location
    case JobType => q.jobType
    case SalaryRangeMin => q.salaryRangeMin
    case SalaryRangeMax => q.salaryRangeMax
  }

  /**
   * The decorators of one property: @IsOptional lets a missing value through
   * untested; otherwise @IsString, or @IsIn for the job type, must hold.
   */
  predicate FieldValid(q: JobFilterQuery, f: Field) {
    match f
    case JobType => q.jobType.Absent? || (q.jobType.Text? && IsJobType(q.jobType.text))
    case _ => Raw(q, f).Absent? || Raw(q, f).Text?
  }

  predicate IsValid(q: JobFilterQuery) {
    && FieldValid(q, JobTitle)
    && FieldValid(q, Location)
    && FieldValid(q, JobType)
    && FieldValid(q, SalaryRangeMin)
    && FieldValid(q, SalaryRangeMax)
  }

  const ALL_FIELDS: set<Field> := {JobTitle, Location, JobType, SalaryRangeMin, SalaryRangeMax}

  /** The properties whose rule the query breaks. */
  function Failures(q: JobFilterQuery): set<Field> {
    set f | f in ALL_FIELDS && !FieldValid(q, f)
  }

  /** Failures lists a property exactly when it breaks its rule. */
  lemma FailuresExact(q: JobFilterQuery)
    ensures forall f :: f in Failures(q) <==> !FieldValid(q, f)
  {
  }

  /** The typed reading of a raw value that passed its rule. */
  function Supplied(w: Wire): Option<string> {
    if w.Text? then Some(w.text) else None
  }

  /**
   * Validation of a listing query: the typed filter when every rule holds,
   * carrying each supplied string unchanged and None for each missing one;
   * otherwise exactly the set of properties that failed.
   */
  function Validate(q: JobFilterQuery): (r: Result<JobFilterDto, set<Field>>)
    ensures r.Success? <==> IsValid(q)
    ensures r.Success? ==> forall f :: (Raw(q, f).Absent? ==> Value(r.value, f) == None)
                                    && (Raw(q, f).Text? ==> Value(r.value, f) == Some(Raw(q, f).text))
    ensures r.Success? && r.value.jobType.Some? ==> IsJobType(r.value.jobType.value)
    ensures r.Failure? ==> r.error != {} && forall f :: f in r.error <==> !FieldValid(q, f)
  {
    var failures := Failures(q);
    FailuresExact(q);
    if IsValid(q) then
      Success(JobFilterDto(
        Supplied(q.jobTitle), Supplied(q.location), Supplied(q.jobType),
        Supplied(q.salaryRangeMin), Supplied(q.salaryRangeMax)))
    else
      Failure(failures)
  }

  /** One property of a typed filter. */
  function Value(d: JobFilterDto, f: Field): Option<string> {
    match f
    case JobTitle => d.jobTitle
    case Location => d.location
    case JobType => d.jobType
    case SalaryRangeMin => d.salaryRangeMin
    case SalaryRangeMax => d.salaryRangeMax
  }

  /** A query with no property at all is valid and yields the empty filter. */
  lemma EmptyQueryIsValid()
    ensures Validate(JobFilterQuery(Absent, Absent, Absent, Absent, Absent))
            == Success(JobFilterDto(None, None, None, None, None))
  {
  }

  /** An empty string is a valid title or location, but not a valid job type. */
  lemma EmptyStrings(q: JobFilterQuery)
    ensures FieldValid(q.(jobTitle := Text("")), JobTitle) && FieldValid(q.(location := Text("")), Location)
    ensures Validate(q.(jobType := Text(""))).Failure? && JobType in Validate(q.(jobType := Text(""))).error
  {
  }

  /**
   * Any two strings are accepted as salary bounds, in any order: whether a
   * query is valid does not depend on their contents.
   */
  lemma SalaryBoundsUnchecked(q: JobFilterQuery, lo: string, hi: string)
    ensures IsValid(q.(salaryRangeMin := Text(lo), salaryRangeMax := Text(hi)))
            <==> IsValid(q.(salaryRangeMin := Absent, salaryRangeMax := Absent))
  {
  }

  /** The query object the backend's parser builds from the pairs of a request URL. */
  function FromParams(ps: Params): JobFilterQuery {
    JobFilterQuery(
      ParamValue(ps, "jobTitle"), ParamValue(ps, "location"), ParamValue(ps, "jobType"),
      ParamValue(ps, "salaryRangeMin"), ParamValue(ps, "salaryRangeMax"))
  }
}
