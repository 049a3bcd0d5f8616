/**
 * The field rules of CreateJobDto: seven non-empty strings, a job type from
 * the closed list, and a non-empty ISO 8601 date string for the deadline.
 * Validation either yields the typed DTO or names every property that broke
 * its rule, as class-validator reports one error per failing property.
 */
module CreateJobValidation {
  import opened Wrappers
  import opened JobModel

  /** A create request body, one raw value per property. */
  datatype CreateJobBody = CreateJobBody(
    jobTitle: Wire,
    companyName: Wire,
    location: Wire,
    jobType: Wire,
    salaryRange: Wire,
    jobDescription: Wire,
    requirements: Wire,
    responsibilities: Wire,
    applicationDeadline: Wire)

  /** The typed DTO the service receives once the body passed validation. */
  datatype CreateJobDto = CreateJobDto(
    jobTitle: string,
    companyName: string,
    location: string,
    jobType: string,
    salaryRange: string,
    jobDescription: string,
    requirements: string,
    responsibilities: string,
    applicationDeadline: string)

  datatype Field =
    | JobTitle | CompanyName | Location | JobType | SalaryRange
    | JobDescription | Requirements | Responsibilities | ApplicationDeadline

  /** The raw value of one property of the body. */
  function Raw(b: CreateJobBody, f: Field): Wire {
    match f
    case JobTitle => b.jobTitle
    case CompanyName => b.companyName
    case Location => b.location
    case JobType => b.jobType
    case SalaryRange => b.salaryRange
    case JobDescription => b.jobDescription
    case Requirements => b.requirements
    case Responsibilities => b.responsibilities
    case ApplicationDeadline => b.applicationDeadline
  }

  /**
   * The decorators of one property: @IsString and @IsNotEmpty on the seven
   * text properties, @IsIn on the job type, @IsDateString and @IsNotEmpty on
   * the deadline. `isDateString` is the ISO 8601 check behind @IsDateString.
   */
  predicate FieldValid(b: CreateJobBody, f: Field, isDateString: string -> bool) {
    match f
    case JobType => b.jobType.Text? && IsJobType(b.jobType.text)
    case ApplicationDeadline => NonEmptyText(b.applicationDeadline) && isDateString(b.applicationDeadline.text)
    case _ => NonEmptyText(Raw(b, f))
  }

  /** A body is valid exactly when the nine property rules hold together. */
  predicate IsValid(b: CreateJobBody, isDateString: string -> bool) {
    && FieldValid(b, JobTitle, isDateString)
    && FieldValid(b, CompanyName, isDateString)
    && FieldValid(b, Location, isDateString)
    && FieldValid(b, JobType, isDateString)
    && FieldValid(b, SalaryRange, isDateString)
    && FieldValid(b, JobDescription, isDateString)
    && FieldValid(b, Requirements, isDateString)
    && FieldValid(b, Responsibilities, isDateString)
    && FieldValid(b, ApplicationDeadline, isDateString)
  }

  const ALL_FIELDS: set<Field> := {
    JobTitle, CompanyName, Location, JobType, SalaryRange,
    JobDescription, Requirements, Responsibilities, ApplicationDeadline
  }

  /** The properties whose rule the body breaks. */
  function Failures(b: CreateJobBody, isDateString: string -> bool): set<Field> {
    set f | f in ALL_FIELDS && !FieldValid(b, f, isDateString)
  }

  /** Failures lists a property exactly when it breaks its rule. */
  lemma FailuresExact(b: CreateJobBody, isDateString: string -> bool)
    ensures forall f :: f in Failures(b, isDateString) <==> !FieldValid(b, f, isDateString)
  {
  }

  /** The DTO carries exactly the strings the body held. */
  predicate Carries(dto: CreateJobDto, b: CreateJobBody) {
    && b.jobTitle == Text(dto.jobTitle)
    && b.companyName == Text(dto.companyName)
    && b.location == Text(dto.location)
    && b.jobType == Text(dto.jobType)
    && b.salaryRange == Text(dto.salaryRange)
    && b.jobDescription == Text(dto.jobDescription)
    && b.requirements == Text(dto.requirements)
    && b.responsibilities == Text(dto.responsibilities)
    && b.applicationDeadline == Text(dto.applicationDeadline)
  }

  /**
   * Validation of a create body: the typed DTO holding the body's strings when
   * every rule holds, otherwise exactly the set of properties that failed.
   */
  function Validate(b: CreateJobBody, isDateString: string -> bool): (r: Result<CreateJobDto, set<Field>>)
    ensures r.Success? <==> IsValid(b, isDateString)
    ensures r.Success? ==> Carries(r.value, b)
    ensures r.Failure? ==> r.error != {} && forall f :: f in r.error <==> !FieldValid(b, f, isDateString)
  {
    var failures := Failures(b, isDateString);
    FailuresExact(b, isDateString);
    if IsValid(b, isDateString) then
      Success(CreateJobDto(
        b.jobTitle.text, b.companyName.text, b.location.text, b.jobType.text, b.salaryRange.text,
        b.jobDescription.text, b.requirements.text, b.responsibilities.text, b.applicationDeadline.text))
    else
      Failure(failures)
  }

  /** The conjunction is the same as "every property passes its rule". */
  lemma ValidIffEveryFieldValid(b: CreateJobBody, isDateString: string -> bool)
    ensures IsValid(b, isDateString) <==> forall f :: FieldValid(b, f, isDateString)
  {
  }

  /**
   * Each of the seven text properties passes only as a non-empty string: a
   * missing, empty or non-string value is reported against that property.
   */
  lemma TextFieldsMustBeNonEmptyStrings(b: CreateJobBody, isDateString: string -> bool, f: Field)
    requires f in {JobTitle, CompanyName, Location, SalaryRange, JobDescription, Requirements, Responsibilities}
    ensures Validate(b, isDateString).Success? ==> Raw(b, f).Text? && Raw(b, f).text != ""
    ensures (Raw(b, f) == Absent || Raw(b, f) == Text("") || Raw(b, f) == NonText) ==>
              Validate(b, isDateString).Failure? && f in Validate(b, isDateString).error
  {
  }

  /** The job type passes only when it is one of the four listed strings. */
  lemma JobTypeMustBeListed(b: CreateJobBody, isDateString: string -> bool)
    ensures Validate(b, isDateString).Success? ==> IsJobType(Validate(b, isDateString).value.jobType)
    ensures !(b.jobType.Text? && IsJobType(b.jobType.text)) ==>
              Validate(b, isDateString).Failure? && JobType in Validate(b, isDateString).error
  {
  }

  /** The deadline passes only as a non-empty string the date check accepts. */
  lemma DeadlineMustBeDateString(b: CreateJobBody, isDateString: string -> bool)
    ensures Validate(b, isDateString).Success? ==>
              var d := Validate(b, isDateString).value.applicationDeadline;
              d != "" && isDateString(d)
  {
  }
}
