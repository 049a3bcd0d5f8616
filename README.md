# Job postings board: listing filter and ingestion rules

A model, in Dafny, of the logic at the centre of a small job-posting board:

- the backend's **ingestion** path: the `CreateJobDto` field rules, and `JobsService.create`, which copies a validated DTO into a new row and parses its deadline string into a date;
- the backend's **listing** path: the `JobFilterDto` field rules, and `JobsService.findAll`, which builds a `where` record from a partly filled filter and asks the ORM for the matching rows, newest first;
- the frontend **listing page**, whose `fetchJobs` turns the debounced filter form and the salary slider into query parameters, then updates the job list and the loading flag from the reply.

The ORM is modelled by a reference reading. `Listing.Matches` says when a row meets a `where` record: every present term must hold. `Listing.FindMany` keeps the matching rows and orders them by `createdAt`, newest first. The jobPosting table is the class `Jobs.JobTable`: rows in insertion order plus the next generated id.

Several things the program gets from outside become function-typed parameters:
- case-insensitive comparison uses a case-fold function `fold` (the database's collation);
- `new Date(...)` is a parser `parse`;
- `@IsDateString`'s ISO 8601 check is a predicate `isDateString`;
- the HTTP round trip is a function `respond` from the query pairs sent to the reply received;
- the current time is the parameter `now`.

The backend's query-string parser belongs to the web framework, not to these sources. The model assumes the framework's usual reading of a name, as `QueryParams.ParamValue`. A name carried by no pair is missing; a name carried once is that string; a repeated name becomes an array, which is not a string. `JobFilterValidation.FromParams` applies this reading to the five filter names.

Modules:
- `Wrappers` (Option, Result).
- `JobModel`: the entity, the four job types, and raw request values.
- `QueryParams`: `URLSearchParams.set` as the WHATWG URL Standard defines it, and how the backend's query parser reads a name.
- `CreateJobValidation` and `JobFilterValidation`: the two DTOs.
- `Listing`: the ORM reference.
- `Jobs`: the service.
- `JobsPage`: the listing page.

The model follows the code in these details:
- A filter property that is present but empty adds no term, because the service tests JavaScript truthiness, not presence.
- A query `jobType=` with an empty value is rejected by filter validation. `@IsOptional` lets only undefined or null through untested, and `@IsIn` fails on the empty string. The page never sends an empty value, so this does not show in practice.
- The salary bounds must be strings when supplied. No numeric or ordering check is made, and they never reach the `where` record.
- The deadline is checked as an ISO 8601 date string (`@IsDateString`). Whether a valid calendar date is denoted is left to the abstract check.

## Model

| member | source | states |
|---|---|---|
| `QueryParams.Set` | frontend/app/jobs/page.tsx:58-63 | after `set(k, v)`, exactly one pair is named k and it holds v; every other name keeps its count and first value; with k removed, the pairs are as before |
| `CreateJobValidation.Validate` | backend/src/jobs/dto/job.dto.ts:4-23 | a body passes exactly when all nine property rules hold; it then yields a DTO holding the body's strings, and otherwise yields exactly the set of failing properties, never empty |
| `CreateJobValidation.ValidIffEveryFieldValid` | backend/src/jobs/dto/job.dto.ts:4-23 | the nine-way conjunction is the same as "every property passes its rule" |
| `CreateJobValidation.TextFieldsMustBeNonEmptyStrings` | backend/src/jobs/dto/job.dto.ts:5-20 | each of the seven text properties passes only as a non-empty string; a missing, empty or non-string value is reported against that property |
| `CreateJobValidation.JobTypeMustBeListed` | backend/src/jobs/dto/job.dto.ts:11-12 | an accepted job type is one of Full-time, Part-time, Contract, Internship; anything else is reported against `jobType` |
| `CreateJobValidation.DeadlineMustBeDateString` | backend/src/jobs/dto/job.dto.ts:22 | an accepted deadline is a non-empty string that the date-string check accepts |
| `JobFilterValidation.Validate` | backend/src/jobs/dto/job-filter.dto.ts:4-14 | a query passes exactly when every supplied property meets its rule; it then carries each supplied string unchanged and None for each missing one, and a supplied job type is one of the four; otherwise it yields exactly the failing properties |
| `JobFilterValidation.EmptyQueryIsValid` | backend/src/jobs/dto/job-filter.dto.ts:5-13 | a query with every property absent is valid and yields the empty filter |
| `JobFilterValidation.EmptyStrings` | backend/src/jobs/dto/job-filter.dto.ts:5-10 | an empty string is a valid title or location but is rejected as a job type |
| `JobFilterValidation.SalaryBoundsUnchecked` | backend/src/jobs/dto/job-filter.dto.ts:12-13 | any two strings are accepted as salary bounds: validity does not depend on their contents or order |
| `Listing.ContainsAt` | backend/src/jobs/jobs.service.ts:29-34 | the recursive `contains` test holds exactly when the needle occurs at some position of the value |
| `Listing.SortNewestFirst` | backend/src/jobs/jobs.service.ts:47 | the result is ordered by creation time, newest first, and is a permutation of the input |
| `Listing.FindMany` | backend/src/jobs/jobs.service.ts:45-48 | newest first; every row that matches all present terms appears as often as it is stored; no other row appears |
| `Listing.FindManyEmptyWhere` | backend/src/jobs/jobs.service.ts:45-48 | an empty `where` record returns every stored row, with the same count |
| `Listing.FindManyNoMatch` | backend/src/jobs/jobs.service.ts:45-48 | when no stored row matches, the result is the empty sequence |
| `Jobs.BuildWhere` | backend/src/jobs/jobs.service.ts:23-40 | a title term exists exactly when the title is truthy, and then it is one case-insensitive contains term with that string; the same holds for location; a job-type term exists exactly when the job type is truthy, and it is an equality with that value |
| `Jobs.WhereOfReadsAsFilter` | backend/src/jobs/jobs.service.ts:27-40 | a row matches the built `where` record exactly when it satisfies the filter read directly: truthy title and location contained ignoring case, truthy job type equal |
| `Jobs.EmptyWhereIffNothingTruthy` | backend/src/jobs/jobs.service.ts:23-40 | the `where` record is empty exactly when no filter property is truthy |
| `Jobs.SalaryBoundsAreInert` | backend/src/jobs/jobs.service.ts:42-43 | replacing the salary bounds by any values leaves the `where` record unchanged |
| `Jobs.SalaryBoundsNeverChangeListing` | backend/src/jobs/jobs.service.ts:42-48 | two filters that differ only in their salary bounds list the same rows in the same order |
| `Jobs.NoFilterReturnsEverything` | backend/src/jobs/jobs.service.ts:23-48 | with no truthy filter property, the listing holds every stored row |
| `Jobs.ValidBodyGivesWellFormedRow` | backend/src/jobs/jobs.service.ts:11-18 | a body that passes validation becomes a row with seven non-empty texts and a listed job type; its properties are the body's strings and its deadline is the parsed deadline string |
| `Jobs.JobTable.Create` | backend/src/jobs/jobs.service.ts:12-18 | an insert appends one row holding the data under the next id and creation time `now`; ids stay distinct and below the next id |
| `Jobs.JobsService.Create` | backend/src/jobs/jobs.service.ts:11-19 | create stores every DTO property unchanged except the deadline, which becomes the parsed date; the row gets an id no earlier row has, and the id generator moves on by one; earlier rows are untouched |
| `Jobs.JobsService.FindAll` | backend/src/jobs/jobs.service.ts:22-49 | findAll returns rows newest first; each row that satisfies the filter appears as often as it is stored; no other row appears |
| `JobsPage.DecimalString` | frontend/app/jobs/page.tsx:62-63 | a number's decimal string is non-empty, all digits, without a leading zero |
| `JobsPage.DecimalRoundTrip` | frontend/app/jobs/page.tsx:62-63 | the decimal string of a number reads back as that number |
| `JobsPage.JobListContent.constructor` | frontend/app/jobs/page.tsx:40-42 | the page starts with no jobs, loading, and the slider at [50000, 200000] |
| `JobsPage.JobListContent.SetSalaryRange` | frontend/app/jobs/page.tsx:137-145 | the slider handler replaces the range and changes nothing else; the range stays within the slider bounds |
| `JobsPage.JobListContent.FetchJobs` | frontend/app/jobs/page.tsx:51-81 | the query sent is the page query for the filters and the slider range; an array reply replaces the job list wholesale; a non-array reply or a failed request leaves it empty; loading is off afterwards; the range is unchanged |
| `JobsPage.PageJobTypesAreBackendJobTypes` | frontend/app/jobs/page.tsx:35 | the select box's options are exactly the four job types the backend accepts |
| `JobsPage.SetIfTruthyView` | frontend/app/jobs/page.tsx:57-59 | a set guarded by truthiness makes the backend read the value under its name when the value is truthy; otherwise, and for every other name, the backend reads what it read before |
| `JobsPage.SetTwiceView` | frontend/app/jobs/page.tsx:62-63 | after two sets under distinct names, the backend reads each name as the string set under it, and every other name as before |
| `JobsPage.EntriesView` | frontend/app/jobs/page.tsx:57-59 | the entries loop sets each truthy form property under its own name with its value unchanged, and sets no empty property and no other name |
| `JobsPage.PageQueryContents` | frontend/app/jobs/page.tsx:57-63 | the page query carries each truthy form property once, under its own name, with its value unchanged, and no empty one; it carries both salary bounds once, as the decimal strings of the lower and upper slider ends |
| `JobsPage.PageQueryNoOtherNames` | frontend/app/jobs/page.tsx:57-63 | the page sends no name besides jobTitle, location, jobType, salaryRangeMin and salaryRangeMax |
| `JobsPage.PageQueryPassesFilterValidation` | frontend/app/jobs/page.tsx:121-133 | whenever the select box holds one of its options, an empty value or nothing, what the page sends passes filter validation; the backend reads back each truthy form property and both salary strings |
| `JobsPage.InitialFetchListsEverything` | frontend/app/jobs/page.tsx:44-46 | the first fetch uses the default form and the full slider range; it passes validation and lists every stored row |

## Left out

- HTTP routing, CORS, the module wiring and the ORM connection lifecycle (jobs.controller.ts, main.ts, app.module.ts, prisma.service.ts) have no logic of their own.
- Where the validation pipe is registered is not visible in these sources: main.ts registers none, and jobs.module.ts is not part of this model. The validators are modelled as the DTO decorators state them.
- `createdAt` ties: the database does not promise an order among rows created at the same instant. `Listing.FindMany` fixes one order, and its contracts promise only newest-first and the row multiset.
- Request-body properties beyond the nine `CreateJobDto` properties are not modelled. `JobsService.create` spreads the whole DTO into the insert, so an extra property such as a client-supplied `id` or `createdAt` would reach the database unless the pipe strips it, and an unknown one would make the insert throw. `Jobs.JobsService.Create`'s fresh id and its `createdAt == now` hold only for bodies without such properties.
- Storage failures (an insert or query that throws) are not modelled: `Jobs.JobTable.Create` always succeeds.
- Real date parsing, the ISO 8601 check and Unicode case folding are abstract parameters. So is the current time used for `createdAt`.
- The query string's percent-encoding (`params.toString()`), the API base URL and JSON serialization are not modelled. The page holds the records as the backend produced them, with no Date-to-string conversion.
- The debounce delay, the effect that refetches on change, and the race between overlapping fetches are timer and concurrency behaviour. They are left out.
- `loading` is set to true at the start of each fetch. `JobsPage.JobListContent.FetchJobs` states only the final state, in which it is false.
- `JobsPage.JobListContent.SetSalaryRange`: the slider's 10000 step is not part of the range invariant. Only the bounds and the order of the two ends are.
- Console diagnostics (`console.warn`, `console.error`), table rendering, the creation form (frontend/app/jobs/create/page.tsx), the layout, the providers and the redirect page are not modelled.
- There is no numeric salary filtering, because the code has none.
