# Clinic search service — a Dafny model

This project models the core of a clinic search service written in
TypeScript (`ApiService` in `src/services/api.service.ts`, and the
`/search` endpoint that calls it). The service takes a list of provider
URLs and an optional filter. It fetches every provider's JSON list of
clinics, maps each raw item onto one canonical `Clinic`, and answers the
clinics that satisfy every active criterion of the filter.

- **Normalisation** (`getSources`). A raw item's name is `name`, else
  `clinicName`. Its state is `state`, else `stateCode`, else `stateName`.
  Its time window comes from the `opening` container, else the
  `availability` container, each with `from`/`to` inside. "Present" means
  JavaScript truthiness: a non-empty string, or an existing object.
- **Aggregation** (`getSources`). The canonical records are appended to one
  list, provider by provider, each provider's items in their order. A
  provider whose fetch failed contributes no records.
- **Search** (`search`). Without a filter every record is answered. With a
  filter, each record gets two counters, `total` (active criteria) and
  `success` (satisfied ones), and is kept when they are equal. The
  criteria are the name and state, each a case-insensitive substring test,
  and the `from` and `to` bounds. Each kept record is projected into
  `{name, state, availability}`.

Modules: `Wrappers` (Option, Result), `Text` (ASCII `toLowerCase` and
`includes`), `Model` (the records), `Aggregator` (`getSource`,
`getSources`), `SearchEngine` (`search`), `Endpoint` (the controller),
`Scenarios` (worked examples stated as lemmas). Of their values, only
the name "Good Health Home", the states "FL" and "Florida" and the text
"09:00 ~ 20:00" come from the controller's schema examples
(`src/controllers/api.controller.ts:30-40`, `:79-84`). The clinic names
"A" and "B" and the other times are illustrative.

The source's loops are methods with loop invariants. `GetSources` is the
outer `for…of` loop of `getSources` (over the providers, awaiting each
fetch), and `PushNormalized` is its inner `clinics.forEach`;
`NormalizeRecord` is that callback's body. `FilterByCriteria` is
the `sources.forEach` loop of `search`, and `CountCriteria` is its
callback body up to the `total == success` test. `Project` is the
`filtered.forEach` loop, and `Respond` is its callback body. The methods
are tied to specification functions as follows:
- `GetSources` equals `Aggregate`, `PushNormalized` appends
  `NormalizeAll`, and `NormalizeRecord` equals `Canonical`.
- `FilterByCriteria` equals `Selected` (or the name rejection), `Project`
  equals `Responses`, `Respond` equals `ResponseOf`, and `Search` equals
  `SearchResult`.
- `CountCriteria` is tied to no single function: its postconditions say
  that `total` is `ActiveCount` and that `total == success` holds exactly
  when `MatchesAll` does.

The lemmas state the service's promises about those functions.

Some definitions model one source expression each. They have no row of
their own; the rows of the lemmas about them describe them.
- `Text.Includes` is `String.prototype.includes`.
- `Text.IncludesIgnoreCase` is the lowered `includes` test of
  `src/services/api.service.ts:113` and `:119`.
- `Model.Truthy` is the truthiness tests of `:54-77`.
- `SearchEngine.FromBound` and `SearchEngine.ToBound` are the parsed
  bounds of `:122-124`.
- `SearchEngine.AvailabilityText` is the availability text of `:150-155`.
- `SearchEngine.MatchesAll` is the keep rule `total == success` of `:140`.

Inputs the model takes as parameters:
- The time parser `DataUtils.parseAvailability` (in `src/utils/data.ts`)
  is a function parameter `parse: Option<string> -> Option<TimeValue>`.
  It takes an optional string because `search` also calls it with an
  undefined `filter.from` or `filter.to`.
- The result of each provider fetch is a `FetchOutcome` given in provider
  order: the response body, or `FetchFailed`.

### Behaviour of the code that a reader might not expect

The model follows the code in each of these cases.
- An active name filter and a record without a name make
  `item.name.toLowerCase()` throw a `TypeError`
  (`src/services/api.service.ts:113`). The whole search is then rejected;
  the record is not just skipped. `SearchResult` returns
  `Failure(UndefinedName)` exactly then. `NamedItemsNeverRejected` shows it
  cannot happen when every raw item names its clinic.
- A state filter `FL` also matches a clinic whose state is `Florida`,
  because `"florida".includes("fl")` holds
  (`Scenarios.TwoProvidersByState`).
- When only the closing time is known, the availability text is
  `" ~ " + to.at`, with a leading separator
  (`src/services/api.service.ts:150-155`).
- The time bounds are parsed only when `filter.from` or `filter.to` is
  truthy, and then both are parsed, even an undefined one
  (`src/services/api.service.ts:122-124`). If the parser maps an undefined
  or empty string to "no time", each bound is active exactly when it is
  given and parses (`SearchEngine.TimeBoundsIndependent`).

## Model

| member | source | states |
|---|---|---|
| `Aggregator.GetSource` | src/services/api.service.ts:20-36 | a failed fetch yields the empty list; a successful one yields the response body |
| `Aggregator.FirstTruthyIsFirst` | src/services/api.service.ts:54-65 | an alias list resolves to the first truthy alias, and every later alias is ignored; it is absent exactly when no alias is truthy |
| `Aggregator.NormalizeRecord` | src/services/api.service.ts:52-79 | the field-by-field `if`/`else if` assignments build the same record as the alias tables and the opening-before-availability container choice |
| `Aggregator.NameAliasPriority` | src/services/api.service.ts:54-57 | the name is `name` if truthy, else `clinicName` if truthy, else absent |
| `Aggregator.StateAliasPriority` | src/services/api.service.ts:60-65 | the state is `state`, else `stateCode`, else `stateName`, else absent, by truthiness |
| `Aggregator.CanonicalFieldsTruthy` | src/services/api.service.ts:54-65 | a resolved name or state is never the empty string |
| `Aggregator.OpeningShadowsAvailability` | src/services/api.service.ts:68-79 | when `opening` exists, `availability` is never consulted: items that differ only in `availability` normalise alike |
| `Aggregator.EmptyOpeningLeavesTimesAbsent` | src/services/api.service.ts:68-73 | an `opening` without truthy `from`/`to` leaves both times absent, whatever `availability` holds |
| `Aggregator.NormalizeAllSnoc` | src/services/api.service.ts:51-83 | normalising one more item appends its canonical record |
| `Aggregator.NormalizeAllAt` | src/services/api.service.ts:51-83 | one canonical record per raw item, at the same position |
| `Aggregator.PushNormalized` | src/services/api.service.ts:51-83 | the inner `forEach` appends the canonical records of one provider's items, in order, after the existing ones |
| `Aggregator.GetSources` | src/services/api.service.ts:43-87 | the nested loops produce exactly the provider-by-provider concatenation of canonical records |
| `Aggregator.FlattenAppend` | src/services/api.service.ts:46-84 | concatenating per-provider lists distributes over splitting the provider list |
| `Aggregator.PerProviderAppend` | src/services/api.service.ts:46-48 | the per-provider lists of a split provider list are the split per-provider lists |
| `Aggregator.AggregateAppend` | src/services/api.service.ts:46-84 | the aggregate of two provider lists is the aggregate of the first followed by that of the second |
| `Aggregator.AggregateSingle` | src/services/api.service.ts:48-83 | one provider aggregates to its own items, normalised, in order |
| `Aggregator.AggregateLength` | src/services/api.service.ts:43-86 | the aggregate's length is the sum of the providers' item counts |
| `Aggregator.AggregateLayout` | src/services/api.service.ts:43-86 | item `j` of provider `k` is at position (items of providers before `k`) + `j`, normalised |
| `Aggregator.FailedProviderContributesNothing` | src/services/api.service.ts:31-35 | a failed provider adds nothing and leaves the other providers' records and order unchanged |
| `Aggregator.AllFailedIsEmpty` | src/services/api.service.ts:31-35 | when every fetch failed, the aggregate is empty |
| `SearchEngine.CountCriteria` | src/services/api.service.ts:108-137 | `total` is the number of active criteria, `success` never exceeds it, and they are equal exactly when every active criterion holds; the name criterion throws on a nameless record |
| `SearchEngine.SelectedSnoc` | src/services/api.service.ts:139-141 | one more record is kept after the others exactly when it matches |
| `SearchEngine.FilterByCriteria` | src/services/api.service.ts:106-142 | the loop keeps exactly the matching records in order, or is rejected exactly when an active name criterion meets a nameless record |
| `SearchEngine.Respond` | src/services/api.service.ts:146-157 | the `+=` construction gives the name and state copied and the four-case availability text |
| `SearchEngine.Project` | src/services/api.service.ts:146-158 | one response per kept record, in the same order |
| `SearchEngine.Search` | src/services/api.service.ts:96-161 | `search` resolves to every record without a filter, otherwise to the matching records or the name rejection, each projected |
| `SearchEngine.NoActiveCriteriaMatchesAll` | src/services/api.service.ts:108-141 | a filter without active criteria matches every record; under a filter with an active criterion, a record with no fields does not match |
| `SearchEngine.AbsentStateNeverMatches` | src/services/api.service.ts:117-120 | a record without a state never satisfies an active state criterion |
| `SearchEngine.AbsentTimeFailsCriterion` | src/services/api.service.ts:126-136 | a record without an opening (closing) time fails an active from (to) criterion |
| `SearchEngine.TimeBoundsIndependent` | src/services/api.service.ts:122-137 | with a parser that rejects undefined and empty input, each time bound is active exactly when it is truthy and parses |
| `SearchEngine.SelectedAppend` | src/services/api.service.ts:106-142 | the filter distributes over concatenation, so kept records keep their relative order |
| `SearchEngine.SelectedMembership` | src/services/api.service.ts:139-141 | a record is kept exactly when it is an input record that matches every active criterion |
| `SearchEngine.SelectedAllMatching` | src/services/api.service.ts:106-142 | when every record matches, the filter returns the list unchanged |
| `SearchEngine.SelectedIdempotent` | src/services/api.service.ts:106-142 | filtering the filtered list again changes nothing |
| `SearchEngine.SearchWithoutFilter` | src/services/api.service.ts:101-102 | without a filter every record is answered in order with its name and state unchanged |
| `SearchEngine.EmptyFilterAnswersAll` | src/services/api.service.ts:108-141 | a filter with no truthy field (`{}` or all empty strings) answers the same as no filter |
| `SearchEngine.SearchAllMatching` | src/services/api.service.ts:106-158 | when every record matches, every record is answered, and the name criterion cannot throw |
| `SearchEngine.SearchFailsOnlyOnNamelessRecord` | src/services/api.service.ts:111-114 | the search is rejected exactly when a filter with a truthy name meets a record without a name |
| `SearchEngine.SearchAnswersMatching` | src/services/api.service.ts:139-158 | a successful filtered search answers exactly the responses of the matching records, in input order |
| `SearchEngine.AvailabilityShape` | src/services/api.service.ts:150-155 | the availability text starts with the opening time, ends with ` ~ ` and the closing time, and is empty when neither is known |
| `Text.Lower` | src/services/api.service.ts:113 | `toLowerCase` keeps the length, lowers each ASCII letter and leaves no upper-case ASCII letter |
| `Text.LowerIdempotent` | src/services/api.service.ts:113 | lowering twice is lowering once |
| `Text.IncludesIgnoreCaseIsCaseBlind` | src/services/api.service.ts:113 | the case of either argument does not change the case-insensitive test |
| `Text.IncludesImpliesIgnoreCase` | src/services/api.service.ts:119 | an exact occurrence is also a case-insensitive occurrence |
| `Text.OccursIgnoringCase` | src/services/api.service.ts:119 | an occurrence up to ASCII case at some position satisfies the case-insensitive test |
| `Endpoint.HandleSearch` | src/controllers/api.controller.ts:96-104 | the endpoint answers the "No Clinics" client error exactly when no provider returned an item; otherwise it passes on the search result |
| `Endpoint.AggregateNamed` | src/services/api.service.ts:54-57 | when every raw item has a truthy `name` or `clinicName`, every aggregated record has a name |
| `Endpoint.NamedItemsNeverRejected` | src/services/api.service.ts:111-114 | when every raw item names its clinic, searching the aggregate is never rejected |
| `Endpoint.AllFailedCountsNothing` | src/controllers/api.controller.ts:100-101 | when every fetch failed, the item count the endpoint tests is zero (with `HandleSearch`'s first postcondition, the endpoint then answers the client error) |
| `Scenarios.NameMatchIgnoresCase` | src/services/api.service.ts:113 | "Good Health Home" matches the name filter "health" |
| `Scenarios.StateMatchIgnoresCase` | src/services/api.service.ts:119 | "Florida" and "FL" both match the state filter "FL" |
| `Scenarios.WindowCoverage` | src/services/api.service.ts:122-137 | a clinic open 09:00 to 18:00 matches the window 10:00 to 17:00 but not a start of 08:00 |
| `Scenarios.AggregateTwoSingletons` | src/services/api.service.ts:46-83 | two one-item providers aggregate to the two canonical records, in provider order |
| `Scenarios.ScenarioCanonical` | src/services/api.service.ts:54-79 | `clinicName`/`stateCode`/`opening` and `name`/`state`/`availability` items normalise to the expected records |
| `Scenarios.SearchTwoMatching` | src/services/api.service.ts:106-158 | two records that match a filter are both answered, in order |
| `Scenarios.TwoProvidersByState` | src/services/api.service.ts:43-161 | the two-provider example with state filter "FL" answers both clinics, with texts "09:00 ~ 20:00" and "08:00 ~ 17:00" |

## Left out

- The HTTP fetch in `getSource` (`axios`, request headers, `console.log` of the error) is network I/O. Each fetch is an input `FetchOutcome`.
- `async`/`await` and the `@injectable` transient scope are runtime plumbing. The model treats the fetches as happening one after another.
- `DataUtils.parseAvailability` (`src/utils/data.ts`) is not part of this model. It is an abstract parameter: no property of the parser's results is modelled. It is assumed to return a result, never to throw, for every input, undefined included.
- `toLowerCase` is modelled for ASCII letters only. Unicode case mapping is not modelled.
- JavaScript's dynamic typing is not modelled: fields holding numbers or objects where strings are expected, a response body that is not an array (`forEach` would throw), a truthy non-object `opening`, or a `TimeValue` whose `value` or `at` is undefined.
- `Clinic`, `ClinicFilter` and `ClinicResponse` are plain immutable records. With no filter, the service's `filtered` array shares the `Clinic` objects of `sources`; that sharing is not modelled.
- The controller's request and response schema decorators are declarations for the web framework. They are left out.
