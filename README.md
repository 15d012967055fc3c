# Sales pipeline tracker — a verified model of the server core

This project models the server side of a sales-pipeline tracker in Dafny. The
server keeps two tables: users, and sales opportunities (deals with a stage, an
amount, a close date, an assignee and a win probability). It offers:

- four handlers that change the tables: create a user, create an opportunity,
  update an opportunity with a partial patch, and delete an opportunity;
- a filtered read of the opportunities;
- two aggregations for a persona (`IC`, `Manager` or `Executive`):
  - the dashboard's eight metrics;
  - the per-stage pipeline view.

The Dafny files, and the source each models:

- `schema.dfy` (module `Schema`):
  - the validated shapes of `server/src/schema.ts`: the role, stage and persona
    enumerations, the records, the create and update inputs, the filters and the
    two result shapes.
  - Amounts are whole cents. Instants are integers.
- `tables.dfy` (module `Tables`): the table definitions of
  `server/src/db/schema.ts`.
  - the primary keys, the `numeric(12,2)` amount column and the stage
    enumeration's declaration order;
  - lookups by key, and removal by key;
  - the referential property `AssigneesResolve`, which the database does not
    enforce.
- `selection.dfy` (module `Selection`): no source file of its own. It holds the
  filters and sums that `get_dashboard_metrics.ts` and
  `get_pipeline_stage_data.ts` both use, with partition lemmas.
- `dashboard_metrics.dfy` (module `DashboardMetricsView`): `getDashboardMetrics`,
  from `server/src/handlers/get_dashboard_metrics.ts`.
- `pipeline_stage_data.dfy` (module `PipelineStageDataView`): `getPipelineStageData`,
  from `server/src/handlers/get_pipeline_stage_data.ts`.
- `opportunity_query.dfy` (module `OpportunityQuery`): `getSalesOpportunities`,
  from `server/src/handlers/get_sales_opportunities.ts`.
  - The list of conditions is built by a method, one `if` per filter.
  - Selecting by that list is proved equal to a declarative conjunction, `Matches`.
- `user_ids.dfy` (module `UserIds`): one line of
  `server/src/handlers/create_user.ts`, the `user_<millis>_<base-36>` identifier
  that `createUser` generates.
- `store.dfy` (module `Store`): the class `SalesStore`. It models four handler
  files: `create_user.ts`, `create_sales_opportunity.ts`,
  `update_sales_opportunity.ts` and `delete_sales_opportunity.ts`, plus the
  read of `get_sales_opportunities.ts`.
  - It holds both tables as sequences.
  - Its invariant `Valid()` states that both primary keys hold and every stored
    opportunity satisfies the record schema and fits the amount column.
  - Its methods are the four mutating handlers and the filtered read.
  - Each method states the whole new state and every error outcome.

Things taken as parameters instead of read from the environment:

- the clock: `now`, the current month's first and last instant, and the instant
  thirty days ahead;
- `Date.now()` and the base-36 rendering of `Math.random()`, for user ids;
- the UUID for a new opportunity.

A generated id that collides with an existing one fails with the primary key's
error (`DuplicateId`). There is no freshness precondition.

Behaviour of the code worth noting, which the model keeps:

- **The `Manager` persona.** The dashboard treats `Manager` exactly like `IC`:
  only the rows assigned to the asking user
  (`server/src/handlers/get_dashboard_metrics.ts:12-17`). The stage view treats
  `Manager` as every row whose assignee is a stored user with role `IC`, and
  ignores the asking user (`server/src/handlers/get_pipeline_stage_data.ts:39-40`).
  `ManagerViewsDisagree` gives a concrete store on which the two views differ.
- **Row order in the stage view.** Rows are ordered by the stage enumeration's
  declaration order, not alphabetically
  (`server/src/handlers/get_pipeline_stage_data.ts:21`).
- **`closedWonThisMonth`.** It counts won deals by their creation instant, not
  by their close date (`server/src/handlers/get_dashboard_metrics.ts:45-47`).
- **`activitiesCompleted`.** It is always zero
  (`server/src/handlers/get_dashboard_metrics.ts:77`).

## Model

| member | source | states |
|---|---|---|
| `Schema.ParseRole` | server/src/schema.ts:5 | a role is accepted exactly when it is one of the three role names, and the accepted value renders back to the input |
| `Schema.ParseStage` | server/src/schema.ts:20-27 | a stage is accepted exactly when it is one of the six stage names, and the accepted value renders back to the input |
| `Schema.ParsePersona` | server/src/schema.ts:121 | a persona is accepted exactly when it is `IC`, `Manager` or `Executive`, and the accepted value renders back to the input |
| `Schema.ManagerIsNotFrontLineManager` | server/src/schema.ts:120-122 | `Manager` is a persona and no role; `Front Line Manager` is a role and no persona |
| `Schema.EmptyPatch` | server/src/schema.ts:70-80 | an update input needs only the id; with every other field absent it is still valid |
| `Tables.StageIndex` | server/src/db/schema.ts:7-14 | every stage has a position in the declaration order, and the order holds that stage there |
| `Tables.StageOrderIsPermutation` | server/src/db/schema.ts:7-14 | the declaration order lists every stage, each exactly once, at its own position |
| `Tables.FindUser` | server/src/db/schema.ts:17-23 | the lookup by primary key finds a row exactly when a user has the id, and the row found has it |
| `Tables.FindOpportunity` | server/src/db/schema.ts:26-37 | the lookup by primary key finds a row exactly when an opportunity has the id, and the row found has it |
| `Tables.FoundOpportunityIsOnly` | server/src/db/schema.ts:27 | under the primary key, the row with an id is the one the lookup finds |
| `Tables.WithoutId` | server/src/handlers/delete_sales_opportunity.ts:8-10 | after removal by id, no row has the id, and exactly the rows with other ids remain |
| `Tables.WithoutIdIsSplice` | server/src/handlers/delete_sales_opportunity.ts:8-10 | under the primary key, removal by id cuts out exactly the one row with that id and keeps the order of the others |
| `Tables.NoIdNoChange` | server/src/handlers/delete_sales_opportunity.ts:13 | removing an id that no row has leaves the table unchanged |
| `Tables.AppendFreshUser` | server/src/db/schema.ts:18 | inserting a user whose id is absent keeps the users' primary key |
| `Tables.AppendFreshOpportunity` | server/src/db/schema.ts:27 | inserting an opportunity whose id is absent keeps the opportunities' primary key |
| `Tables.ReplaceKeepsUnique` | server/src/db/schema.ts:27 | rewriting a row under its own id keeps the primary key |
| `Tables.SpliceKeepsUnique` | server/src/db/schema.ts:27 | cutting a row out keeps the primary key |
| `Selection.AssignedTo` | server/src/handlers/get_dashboard_metrics.ts:14-17 | keeps exactly the rows assigned to the user |
| `Selection.InStages` | server/src/handlers/get_dashboard_metrics.ts:37-51 | keeps exactly the rows whose stage is in the given set |
| `Selection.CreatedBetween` | server/src/handlers/get_dashboard_metrics.ts:45-47 | keeps exactly the rows created within the inclusive window |
| `Selection.ClosingBetween` | server/src/handlers/get_dashboard_metrics.ts:70-72 | keeps exactly the rows whose close date lies within the inclusive window |
| `Selection.TotalAmount` | server/src/handlers/get_dashboard_metrics.ts:54 | with positive amounts, the sum in cents is at least the number of rows |
| `Selection.WeightedAmount` | server/src/handlers/get_dashboard_metrics.ts:57-59 | the probability-weighted sum is a hundred times the plain sum when every probability is 100, and zero when every probability is 0 |
| `Selection.InStagesSplit` | server/src/handlers/get_dashboard_metrics.ts:37-51 | selecting by two disjoint stage sets splits the count and the amount total of their union |
| `Selection.InAllStages` | server/src/schema.ts:20-27 | every row has one of the six stages, so selecting all six keeps every row |
| `Selection.StageInAllStages` | server/src/schema.ts:20-27 | each stage is one of the six |
| `Selection.OpenWonLostPartition` | server/src/handlers/get_dashboard_metrics.ts:37-51 | open, won and lost rows partition the rows; won and lost make up the closed rows |
| `Selection.WeightedAmountBounds` | server/src/handlers/get_dashboard_metrics.ts:57-59 | with probabilities in [0, 100], the weighted sum lies between zero and a hundred times the plain sum |
| `DashboardMetricsView.DashboardVisible` | server/src/handlers/get_dashboard_metrics.ts:12-23 | `Executive` sees every row; `IC` and `Manager` see exactly the rows assigned to the asking user |
| `DashboardMetricsView.ManagerDashboardIsOwnRows` | server/src/handlers/get_dashboard_metrics.ts:12-17 | the dashboard's `Manager` rows are the `IC` rows of the same user |
| `DashboardMetricsView.WinRateHundredths` | server/src/handlers/get_dashboard_metrics.ts:62-64 | the win rate is zero with nothing closed or nothing won, a hundred percent when every closed deal is won, and within [0, 100] percent |
| `DashboardMetricsView.WinRateRange` | server/src/handlers/get_dashboard_metrics.ts:62-64 | the rounded ratio of won to closed deals lies in [0, 10000] hundredths and hits both ends exactly |
| `DashboardMetricsView.WinRateIsNearest` | server/src/handlers/get_dashboard_metrics.ts:78 | the rounded win rate is the nearest hundredth of a percent to the exact ratio, with halves rounded up |
| `DashboardMetricsView.Metrics` | server/src/handlers/get_dashboard_metrics.ts:36-83 | the win rate is a percentage; open, won and lost counts add up to the visible count; pipeline value plus closed amounts is the visible total; won-this-month is at most won; upcoming is at most open; when every visible row is valid (positive amount, probability in [0, 100]), the forecast lies in [0, pipeline value]; no rows gives all zeros |
| `DashboardMetricsView.GetDashboardMetrics` | server/src/handlers/get_dashboard_metrics.ts:7-83 | the metrics of the persona's visible rows are valid and partition the visible count; a non-executive with no rows of their own gets all zeros |
| `DashboardMetricsView.ThreeDealExample` | server/src/tests/get_dashboard_metrics.test.ts:30-89 | one open, one won and one lost deal give a 50% win rate, a forecast of half the open amount and one upcoming activity |
| `PipelineStageDataView.AssignedToIcUsers` | server/src/handlers/get_pipeline_stage_data.ts:38-40 | keeps exactly the rows whose assignee is a stored user with role `IC`; rows with an unknown assignee drop out |
| `PipelineStageDataView.PipelineVisible` | server/src/handlers/get_pipeline_stage_data.ts:10-62 | `IC` sees the rows assigned to the user; `Manager` sees the rows of `IC` users; `Executive` sees every row |
| `PipelineStageDataView.ManagerPipelineIgnoresUserId` | server/src/handlers/get_pipeline_stage_data.ts:30-43 | the stage view's `Manager` rows do not depend on who asks |
| `PipelineStageDataView.ManagerViewsDisagree` | server/src/handlers/get_pipeline_stage_data.ts:30-43 | a front-line manager with no deals of their own sees no dashboard rows but does see an `IC` user's deal in the stage view |
| `PipelineStageDataView.Group` | server/src/handlers/get_pipeline_stage_data.ts:13-20 | the group of a stage counts at most the visible rows, and is empty exactly when no visible row has the stage |
| `PipelineStageDataView.StageRows` | server/src/handlers/get_pipeline_stage_data.ts:13-21 | at most one row per listed stage; which rows, and in what order, is stated by `StageRowsAreGroups`, `StageRowsComplete` and `StageRowsAscending` |
| `PipelineStageDataView.StageRowsAreGroups` | server/src/handlers/get_pipeline_stage_data.ts:13-20 | every row carries the count and summed amount of the visible rows of its stage, and the count is positive |
| `PipelineStageDataView.StageRowsAscending` | server/src/handlers/get_pipeline_stage_data.ts:21 | rows come in strictly ascending declaration order of their stages, so no stage appears twice |
| `PipelineStageDataView.StageRowsComplete` | server/src/handlers/get_pipeline_stage_data.ts:20 | every stage with a visible row has its row |
| `PipelineStageDataView.StageRowsOfEmptyGroups` | server/src/handlers/get_pipeline_stage_data.ts:20 | stages without visible rows contribute no rows |
| `PipelineStageDataView.StageRowsTotals` | server/src/handlers/get_pipeline_stage_data.ts:15-16 | summed over the rows, counts and values equal the count and amount total of the selected rows |
| `PipelineStageDataView.StageOrderAscending` | server/src/db/schema.ts:7-14 | the declaration order is strictly ascending and covers all six stages |
| `PipelineStageDataView.GetPipelineStageData` | server/src/handlers/get_pipeline_stage_data.ts:7-74 | one row per stage with visible rows, carrying their count and amount total, in declaration order; totals match the visible rows; no visible rows gives no rows |
| `PipelineStageDataView.ThreeDealExample` | server/src/tests/get_pipeline_stage_data.test.ts:214-292 | with an `IC` user, a manager and an executive each assigned one deal (every assignee stored), the executive sees two prospecting deals and one qualification deal as two rows, prospecting first, with the counts and totals the test expects |
| `OpportunityQuery.LowerIdempotent` | server/src/handlers/get_sales_opportunities.ts:25 | lower-casing twice is lower-casing once |
| `OpportunityQuery.ContainsIgnoringCase` | server/src/handlers/get_sales_opportunities.ts:24-26 | the `%pattern%` match: an empty pattern matches every name, and a match needs a pattern no longer than the name |
| `OpportunityQuery.ContainsIgnoresCase` | server/src/handlers/get_sales_opportunities.ts:25 | the customer-name match ignores the case of both the name and the pattern |
| `OpportunityQuery.PrefixIgnoringCase` | server/src/handlers/get_sales_opportunities.ts:25 | a pattern that agrees with the start of the name up to case is found |
| `OpportunityQuery.AcmeExample` | server/src/tests/get_sales_opportunities.test.ts:137-148 | the pattern `acme` matches the customer `Acme Corp` |
| `OpportunityQuery.Matches` | server/src/handlers/get_sales_opportunities.ts:12-46 | with no filter in effect every row matches; an inverted amount range or close-date range matches no row |
| `OpportunityQuery.Query` | server/src/handlers/get_sales_opportunities.ts:50-57 | a row is returned exactly when it is stored and satisfies every filter in effect |
| `OpportunityQuery.BuildConditions` | server/src/handlers/get_sales_opportunities.ts:10-47 | the pushed conditions hold of a row exactly when the row matches the filters; the list is empty exactly when no filter is in effect |
| `OpportunityQuery.Select` | server/src/handlers/get_sales_opportunities.ts:50-54 | keeps exactly the rows that satisfy every condition |
| `OpportunityQuery.SelectIsQuery` | server/src/handlers/get_sales_opportunities.ts:50-54 | selecting by conditions equivalent to the filters returns the same rows, in the same order, as the query |
| `OpportunityQuery.QueryKeepsAllMatching` | server/src/handlers/get_sales_opportunities.ts:55-57 | when every row matches, the whole table is returned |
| `OpportunityQuery.NoFiltersSelectEverything` | server/src/handlers/get_sales_opportunities.ts:12-57 | with no filter object, or no filter in effect, every stored row is returned |
| `OpportunityQuery.EmptyStringFiltersIgnored` | server/src/handlers/get_sales_opportunities.ts:14-26 | an empty assignee or customer-name filter gives the same result as leaving it out |
| `OpportunityQuery.NarrowerFiltersSelectFewer` | server/src/handlers/get_sales_opportunities.ts:50-54 | adding filters never enlarges the result; the narrower result is the wider one filtered again |
| `UserIds.DecimalDigits` | server/src/handlers/create_user.ts:9 | the clock renders as one or more decimal digits without a leading zero |
| `UserIds.DecimalRoundTrip` | server/src/handlers/create_user.ts:9 | reading the decimal rendering back gives the clock value |
| `UserIds.Substr` | server/src/handlers/create_user.ts:9 | takes at most the requested number of characters from the start position, and nothing past the end |
| `UserIds.GeneratedUserId` | server/src/handlers/create_user.ts:9 | the id is `user_`, the clock digits, `_` and a suffix of at most nine characters, exactly nine when the rendering supplies them, none when the random number rendered as `0` |
| `UserIds.GeneratedIdShape` | server/src/handlers/create_user.ts:9 | the generated id matches `user_` digits `_` base-36 characters exactly when the random number was not zero |
| `UserIds.UserIdInjective` | server/src/handlers/create_user.ts:9 | equal generated ids come from equal clock readings and equal random suffixes |
| `Store.Patched` | server/src/handlers/update_sales_opportunity.ts:32-41 | the merged row keeps the key and the creation instant, and a patch with no field leaves the row unchanged |
| `Store.ApplyPatch` | server/src/handlers/update_sales_opportunity.ts:32-41 | the row built field by field is the patch merged onto the stored row |
| `Store.PatchIdempotent` | server/src/handlers/update_sales_opportunity.ts:32-41 | applying the same patch twice is applying it once |
| `Store.PatchesCompose` | server/src/handlers/update_sales_opportunity.ts:32-41 | two successive patches are one patch, the later one's fields taking precedence |
| `Store.PatchKeepsStored` | server/src/handlers/update_sales_opportunity.ts:32-41 | a validated patch whose amount fits the column keeps a stored row valid |
| `Store.EmptyAssigneeEscapesUserCheck` | server/src/handlers/update_sales_opportunity.ts:20-38 | an empty-string assignee skips the user check yet is written, leaving a row whose assignee names no user |
| `Store.NewOpportunity` | server/src/handlers/create_sales_opportunity.ts:24-34 | the inserted row is the input under the new id, created now, and valid when the input fits the column |
| `Store.SalesStore.Valid` | server/src/db/schema.ts:17-37 | both primary keys hold and every stored amount fits `numeric(12,2)`; hence no row is stored twice and every amount is positive |
| `Store.SalesStore.CreateUser` | server/src/handlers/create_user.ts:6-27 | exactly one user is appended, with the input's name, email and role under the generated id; an id collision fails and changes nothing |
| `Store.SalesStore.CreateSalesOpportunity` | server/src/handlers/create_sales_opportunity.ts:8-49 | an unknown assignee, an amount over the `numeric(12,2)` column, or a new id that is already stored each fail, in that order, and change nothing; otherwise exactly one row is appended with the input's fields, the new id and the current instant |
| `Store.SalesStore.UpdateSalesOpportunity` | server/src/handlers/update_sales_opportunity.ts:7-60 | an unknown id, a non-empty unknown assignee, a patch with no field or an amount over the column fails and changes nothing; otherwise only the row with the id is replaced by the patched row, which is returned |
| `Store.SalesStore.DeleteSalesOpportunity` | server/src/handlers/delete_sales_opportunity.ts:6-18 | reports whether a row had the id; afterwards no row has it and every other row is kept, in order |
| `Store.SalesStore.GetSalesOpportunities` | server/src/handlers/get_sales_opportunities.ts:7-68 | returns exactly the query's rows and changes nothing |
| `Store.DeleteTwice` | server/src/handlers/delete_sales_opportunity.ts:13 | deleting the same id twice reports a removal at most the first time |

## Left out

- Input validation happens before any handler runs. The handlers' `requires`
  (`ValidCreateInput`, `ValidUpdateInput`) stand for it. Email syntax is not
  modelled: an email is any string.
- Amounts are integer cents. Three things are not modelled:
  - `parseFloat` and the string conversions of the amount column;
  - rounding of inputs with more than two decimals;
  - floating-point sums.
  The forecast is the exact rational value in cents. The win rate is
  half-up rounding of the exact ratio to hundredths of a percent; the source
  uses `Math.round` on a double.
- Calendar and time-zone arithmetic are not modelled: the current month's
  bounds and the instant thirty days ahead are parameters, in `Clock`.
- The customer-name filter is an ASCII case-insensitive plain substring. The
  database's `ILIKE` differs in three ways, none modelled: it also folds
  non-ASCII case; it treats `%` and `_` in the pattern as wildcards; and it
  treats `\` as its escape character, since no `ESCAPE` clause is given. So
  the filter `a\b` matches the name `ab` in the database, but not in the model.
- The randomness and the clock behind generated ids are parameters.
  `randomUUID` is a parameter `newId` of `CreateSalesOpportunity`.
- Logging and the re-throw of errors are not modelled. Failures are `Result`
  values with a `StoreError`.
- Concurrency is not modelled. Each handler runs as one atomic step, although
  the source does not wrap its check and its write in a transaction.
- The router, the HTTP server and the client user interface are not part of
  this model.
- Store.SalesStore.UpdateSalesOpportunity: a patch that carries no field
  fails with `NothingToSet` after the two existence checks. This stands for the
  query builder's refusal of an update with nothing to set; that library is not
  part of this model, and its error message is not modelled.
- Store.SalesStore.CreateSalesOpportunity: the checks run in the order user,
  amount column, primary key. The last two stand for errors the database
  raises on insertion.
