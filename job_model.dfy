/**
 * The job posting entity, the closed set of job types, and the shape of a
 * request property before validation.
 */
module JobModel {
  import opened Wrappers

  /** The four job types, in the order the validators and the listing page name them. */
  const JOB_TYPES: seq<string> := ["Full-time", "Part-time", "Contract", "Internship"]

  predicate IsJobType(s: string) {
    s in JOB_TYPES
  }

  /** JavaScript truthiness of a property that is a string or missing: a present, non-empty string. */
  predicate Truthy(v: Option<string>) {
    v.Some? && v.value != ""
  }

  /** A date as JavaScript's Date holds it: milliseconds since the epoch. */
  datatype Date = Date(epochMillis: int)

  /**
   * A request property before validation: missing (undefined or null), a
   * string, or any other JSON value (a number, a boolean, an array, an object).
   */
  datatype Wire = Absent | Text(text: string) | NonText

  predicate NonEmptyText(v: Wire) {
    v.Text? && v.text != ""
  }

  /** The record JobsService.create hands to the table: the DTO with its deadline parsed. */
  datatype JobData = JobData(
    jobTitle: string,
    companyName: string,
    location: string,
    jobType: string,
    salaryRange: string,
    jobDescription: string,
    requirements: string,
    responsibilities: string,
    applicationDeadline: Date)

  /** A stored job posting: the data plus the generated id and creation time. */
  datatype JobPosting = JobPosting(
    id: nat,
    jobTitle: string,
    companyName: string,
    location: string,
    jobType: string,
    salaryRange: string,
    jobDescription: string,
    requirements: string,
    responsibilities: string,
    applicationDeadline: Date,
    createdAt: int)

  /** The row the table stores for `d` under a generated id and timestamp. */
  function Posting(id: nat, createdAt: int, d: JobData): JobPosting {
    JobPosting(id, d.jobTitle, d.companyName, d.location, d.jobType, d.salaryRange,
               d.jobDescription, d.requirements, d.responsibilities, d.applicationDeadline, createdAt)
  }

  /** The column constraints of a posting: seven non-empty texts and a listed job type. */
  predicate WellFormed(p: JobPosting) {
    && p.jobTitle != ""
    && p.companyName != ""
    && p.location != ""
    && IsJobType(p.jobType)
    && p.salaryRange != ""
    && p.jobDescription != ""
    && p.requirements != ""
    && p.responsibilities != ""
  }
}
