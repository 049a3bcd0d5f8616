/**
 * JobsService: ingestion copies a validated DTO into a new row with its
 * deadline parsed into a date; listing turns an optional, partly filled filter
 * into a where record of up to three terms and returns the matching rows,
 * newest first. The jobPosting table, reached through the ORM, is the class
 * JobTable.
 */
module Jobs {
  import opened Wrappers
  import opened JobModel
  import opened Listing
  import CreateJobValidation
  import JobFilterValidation

  /**
   * The filter as the listing promises to read it: each truthy title or
   * location must occur in the row's value, ignoring case, and a truthy job
   * type must equal the row's; every other property is ignored.
   */
  predicate SatisfiesFilter(fold: string -> string, f: JobFilterValidation.JobFilterDto, p: JobPosting) {
    && (Truthy(f.jobTitle) ==> Contains(fold(p.jobTitle), fold(f.jobTitle.value)))
    && (Truthy(f.location) ==> Contains(fold(p.location), fold(f.location.value)))
    && (Truthy(f.jobType) ==> p.jobType == f.jobType.value)
  }

  /** The where record findAll builds for a filter. */
  function WhereOf(f: JobFilterValidation.JobFilterDto): Where {
    Where(
      if Truthy(f.jobTitle) then Some(StringFilter(f.jobTitle.value, Insensitive)) else None,
      if Truthy(f.location) then Some(StringFilter(f.location.value, Insensitive)) else None,
      if Truthy(f.jobType) then Some(f.jobType.value) else None)
  }

  /**
   * Builds the where record term by term: a truthy title or location becomes
   * one case-insensitive contains term holding that string, a truthy job type
   * one equality term; a missing or empty property adds nothing, and the
   * salary bounds are never read.
   */
  method BuildWhere(filter: JobFilterValidation.JobFilterDto) returns (where: Where)
    ensures where.jobTitle.Some? <==> Truthy(filter.jobTitle)
    ensures where.jobTitle.Some? ==> where.jobTitle.value == StringFilter(filter.jobTitle.value, Insensitive)
    ensures where.location.Some? <==> Truthy(filter.location)
    ensures where.location.Some? ==> where.location.value == StringFilter(filter.location.value, Insensitive)
    ensures where.jobType.Some? <==> Truthy(filter.jobType)
    ensures where.jobType.Some? ==> where.jobType.value == filter.jobType.value
    ensures where == WhereOf(filter)
  {
    where := EMPTY_WHERE;
    if Truthy(filter.jobTitle) {
      where := where.(jobTitle := Some(StringFilter(filter.jobTitle.value, Insensitive)));
    }
    if Truthy(filter.location) {
      where := where.(location := Some(StringFilter(filter.location.value, Insensitive)));
    }
    if Truthy(filter.jobType) {
      where := where.(jobType := Some(filter.jobType.value));
    }
  }

  /** The ORM's reading of the built where record is exactly the filter's promised reading. */
  lemma WhereOfReadsAsFilter(fold: string -> string, f: JobFilterValidation.JobFilterDto, p: JobPosting)
    ensures Matches(fold, WhereOf(f), p) <==> SatisfiesFilter(fold, f, p)
  {
  }

  /** The where record is empty exactly when no filter property is truthy. */
  lemma EmptyWhereIffNothingTruthy(f: JobFilterValidation.JobFilterDto)
    ensures WhereOf(f) == EMPTY_WHERE <==> !Truthy(f.jobTitle) && !Truthy(f.location) && !Truthy(f.jobType)
  {
  }

  /** The salary bounds never change the where record, whatever strings they hold. */
  lemma SalaryBoundsAreInert(f: JobFilterValidation.JobFilterDto, lo: Option<string>, hi: Option<string>)
    ensures WhereOf(f.(salaryRangeMin := lo, salaryRangeMax := hi)) == WhereOf(f)
  {
  }

  /** The record create hands to the table: every DTO property, the deadline parsed by `parse` (new Date). */
  function CreateData(dto: CreateJobValidation.CreateJobDto, parse: string -> Date): JobData {
    JobData(dto.jobTitle, dto.companyName, dto.location, dto.jobType, dto.salaryRange,
            dto.jobDescription, dto.requirements, dto.responsibilities, parse(dto.applicationDeadline))
  }

  /**
   * A body that passes validation becomes a row that meets the column
   * constraints, whose deadline is the parsed deadline string and whose job
   * type is one of the four listed.
   */
  lemma ValidBodyGivesWellFormedRow(
    b: CreateJobValidation.CreateJobBody, isDateString: string -> bool, parse: string -> Date, id: nat, now: int)
    requires CreateJobValidation.Validate(b, isDateString).Success?
    ensures var p := Posting(id, now, CreateData(CreateJobValidation.Validate(b, isDateString).value, parse));
            && WellFormed(p)
            && p.applicationDeadline == parse(b.applicationDeadline.text)
            && p.jobTitle == b.jobTitle.text && p.companyName == b.companyName.text
            && p.location == b.location.text && p.jobType == b.jobType.text
            && p.salaryRange == b.salaryRange.text && p.jobDescription == b.jobDescription.text
            && p.requirements == b.requirements.text && p.responsibilities == b.responsibilities.text
  {
  }

  /** Ids in use: every stored id is distinct and below the next one. */
  ghost predicate IdsFresh(rows: seq<JobPosting>, nextId: nat) {
    && (forall i :: 0 <= i < |rows| ==> rows[i].id < nextId)
    && (forall i, j :: 0 <= i < j < |rows| ==> rows[i].id != rows[j].id)
  }

  /** The jobPosting table as the ORM exposes it: rows in insertion order and the next generated id. */
  class JobTable {
    var rows: seq<JobPosting>
    var nextId: nat

    ghost predicate Valid()
      reads this
    {
      IdsFresh(rows, nextId)
    }

    constructor ()
      ensures Valid() && rows == []
    {
      rows := [];
      nextId := 1;
    }

    /** Inserts `data` under the next id with creation time `now`; ids stay distinct. */
    method Create(data: JobData, now: int) returns (p: JobPosting)
      requires Valid()
      modifies this
      ensures Valid()
      ensures p == Posting(old(nextId), now, data)
      ensures rows == old(rows) + [p] && nextId == old(nextId) + 1
    {
      p := Posting(nextId, now, data);
      rows := rows + [p];
      nextId := nextId + 1;
    }
  }

  class JobsService {
    const table: JobTable

    constructor (table: JobTable)
      ensures this.table == table
    {
      this.table := table;
    }

    /**
     * create: stores every DTO property unchanged except the deadline, which
     * becomes the date `parse` reads from the string; the row gets a fresh id
     * and the creation time `now`, and no other row changes.
     */
    method Create(dto: CreateJobValidation.CreateJobDto, parse: string -> Date, now: int) returns (p: JobPosting)
      requires table.Valid()
      modifies table
      ensures table.Valid()
      ensures table.rows == old(table.rows) + [p]
      ensures p.id == old(table.nextId) && p.createdAt == now
      ensures table.nextId == old(table.nextId) + 1
      ensures forall q :: q in old(table.rows) ==> q.id != p.id
      ensures && p.jobTitle == dto.jobTitle && p.companyName == dto.companyName
              && p.location == dto.location && p.jobType == dto.jobType
              && p.salaryRange == dto.salaryRange && p.jobDescription == dto.jobDescription
              && p.requirements == dto.requirements && p.responsibilities == dto.responsibilities
      ensures p.applicationDeadline == parse(dto.applicationDeadline)
    {
      p := table.Create(CreateData(dto, parse), now);
    }

    /**
     * findAll: every stored row that satisfies every present term, as often as
     * it is stored, and no other row, newest first. A filter nothing matches
     * gives the empty sequence.
     */
    method FindAll(filter: JobFilterValidation.JobFilterDto, fold: string -> string) returns (rows: seq<JobPosting>)
      ensures NewestFirst(rows)
      ensures forall p :: p in rows <==> p in table.rows && SatisfiesFilter(fold, filter, p)
      ensures forall p :: multiset(rows)[p] == if SatisfiesFilter(fold, filter, p) then multiset(table.rows)[p] else 0
      ensures rows == FindMany(fold, WhereOf(filter), table.rows)
    {
      var where := BuildWhere(filter);
      rows := FindMany(fold, where, table.rows);
      forall p ensures Matches(fold, where, p) <==> SatisfiesFilter(fold, filter, p) {
        WhereOfReadsAsFilter(fold, filter, p);
      }
    }
  }

  /** With no truthy filter property, findAll's result holds every stored row. */
  lemma NoFilterReturnsEverything(fold: string -> string, f: JobFilterValidation.JobFilterDto, rows: seq<JobPosting>)
    requires !Truthy(f.jobTitle) && !Truthy(f.location) && !Truthy(f.jobType)
    ensures multiset(FindMany(fold, WhereOf(f), rows)) == multiset(rows)
  {
    FindManyEmptyWhere(fold, rows);
  }

  /** Two filters that differ only in their salary bounds list the same rows in the same order. */
  lemma SalaryBoundsNeverChangeListing(
    fold: string -> string, f: JobFilterValidation.JobFilterDto, g: JobFilterValidation.JobFilterDto, rows: seq<JobPosting>)
    requires f.jobTitle == g.jobTitle && f.location == g.location && f.jobType == g.jobType
    ensures FindMany(fold, WhereOf(f), rows) == FindMany(fold, WhereOf(g), rows)
  {
  }
}
