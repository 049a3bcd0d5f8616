/**
 * The ORM's reading of a listing query on the jobPosting table: a `where`
 * record of up to three terms, all of which must hold, and `findMany`, which
 * keeps the matching rows and orders them by creation time, newest first.
 * Case-insensitive comparison goes through a case-fold function `fold`
 * supplied by the caller (the database's collation).
 */
module Listing {
  import opened Wrappers
  import opened JobModel

  datatype QueryMode = Default | Insensitive

  /** A `{ contains, mode }` string term. */
  datatype StringFilter = StringFilter(contains: string, mode: QueryMode)

  /** A where record; None stands for a term that is not there. */
  datatype Where = Where(jobTitle: Option<StringFilter>, location: Option<StringFilter>, jobType: Option<string>)

  const EMPTY_WHERE: Where := Where(None, None, None)

  /** `needle` occurs somewhere in `hay`. */
  predicate Contains(hay: string, needle: string)
    decreases |hay|
  {
    needle <= hay || (hay != [] && Contains(hay[1..], needle))
  }

  /** `needle` occurs in `hay` starting at index `i`. */
  predicate OccursAt(hay: string, needle: string, i: int) {
    0 <= i <= |hay| - |needle| && hay[i..i + |needle|] == needle
  }

  /** Contains agrees with the positional definition of a substring. */
  lemma {:induction false} ContainsAt(hay: string, needle: string)
    ensures Contains(hay, needle) <==> exists i :: OccursAt(hay, needle, i)
  {
    if needle <= hay {
      assert OccursAt(hay, needle, 0);
    } else if hay != [] {
      ContainsAt(hay[1..], needle);
      if Contains(hay[1..], needle) {
        var i :| OccursAt(hay[1..], needle, i);
        assert OccursAt(hay, needle, i + 1);
      }
      if exists i :: OccursAt(hay, needle, i) {
        var i :| OccursAt(hay, needle, i);
        assert hay[0..|needle|] == needle ==> needle <= hay;
        assert i > 0;
        assert OccursAt(hay[1..], needle, i - 1);
      }
    }
  }

  predicate StringMatches(fold: string -> string, t: StringFilter, value: string) {
    match t.mode
    case Default => Contains(value, t.contains)
    case Insensitive => Contains(fold(value), fold(t.contains))
  }

  /** A row matches a where record when every present term holds of it. */
  predicate Matches(fold: string -> string, w: Where, p: JobPosting) {
    && (w.jobTitle.Some? ==> StringMatches(fold, w.jobTitle.value, p.jobTitle))
    && (w.location.Some? ==> StringMatches(fold, w.location.value, p.location))
    && (w.jobType.Some? ==> p.jobType == w.jobType.value)
  }

  /** The matching rows, each as often as it is stored. */
  function Select(fold: string -> string, w: Where, rows: seq<JobPosting>): (r: seq<JobPosting>)
    ensures forall p :: multiset(r)[p] == if Matches(fold, w, p) then multiset(rows)[p] else 0
  {
    if rows == [] then []
    else
      var rest := Select(fold, w, rows[1..]);
      assert rows == [rows[0]] + rows[1..];
      if Matches(fold, w, rows[0]) then [rows[0]] + rest else rest
  }

  /** Creation times never increase along the sequence. */
  predicate NewestFirst(rows: seq<JobPosting>) {
    forall i, j :: 0 <= i < j < |rows| ==> rows[i].createdAt >= rows[j].createdAt
  }

  /** No row of `rows` was created after time `t`. */
  predicate NotAfter(t: int, rows: seq<JobPosting>) {
    forall k :: 0 <= k < |rows| ==> rows[k].createdAt <= t
  }

  /** A row no later than the head of a newest-first sequence can go in front of it. */
  lemma ConsNewestFirst(x: JobPosting, rows: seq<JobPosting>)
    requires NewestFirst(rows) && NotAfter(x.createdAt, rows)
    ensures NewestFirst([x] + rows)
    ensures forall t :: NotAfter(t, rows) && x.createdAt <= t ==> NotAfter(t, [x] + rows)
  {
  }

  function InsertNewestFirst(p: JobPosting, rows: seq<JobPosting>): (r: seq<JobPosting>)
    requires NewestFirst(rows)
    ensures NewestFirst(r)
    ensures multiset(r) == multiset(rows) + multiset{p}
    ensures forall t :: NotAfter(t, rows) && p.createdAt <= t ==> NotAfter(t, r)
  {
    if rows == [] || p.createdAt >= rows[0].createdAt then
      ConsNewestFirst(p, rows);
      [p] + rows
    else
      var rest := InsertNewestFirst(p, rows[1..]);
      assert rows == [rows[0]] + rows[1..];
      assert NotAfter(rows[0].createdAt, rows[1..]);
      ConsNewestFirst(rows[0], rest);
      [rows[0]] + rest
  }

  /** The rows ordered by creation time, newest first (orderBy createdAt desc). */
  function SortNewestFirst(rows: seq<JobPosting>): (r: seq<JobPosting>)
    ensures NewestFirst(r)
    ensures multiset(r) == multiset(rows)
  {
    if rows == [] then []
    else
      assert rows == [rows[0]] + rows[1..];
      InsertNewestFirst(rows[0], SortNewestFirst(rows[1..]))
  }

  /**
   * findMany({ where, orderBy: { createdAt: 'desc' } }): every matching row,
   * as often as it is stored, no other row, newest first.
   */
  function FindMany(fold: string -> string, w: Where, rows: seq<JobPosting>): (r: seq<JobPosting>)
    ensures NewestFirst(r)
    ensures forall p :: multiset(r)[p] == if Matches(fold, w, p) then multiset(rows)[p] else 0
    ensures forall p :: p in r <==> p in rows && Matches(fold, w, p)
  {
    SortNewestFirst(Select(fold, w, rows))
  }

  /** The empty where record returns every stored row. */
  lemma FindManyEmptyWhere(fold: string -> string, rows: seq<JobPosting>)
    ensures multiset(FindMany(fold, EMPTY_WHERE, rows)) == multiset(rows)
    ensures |FindMany(fold, EMPTY_WHERE, rows)| == |rows|
  {
  }

  /** When no row matches, the result is the empty sequence, not an error. */
  lemma FindManyNoMatch(fold: string -> string, w: Where, rows: seq<JobPosting>)
    requires forall p :: p in rows ==> !Matches(fold, w, p)
    ensures FindMany(fold, w, rows) == []
  {
  }
}
