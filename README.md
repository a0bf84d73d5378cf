# Job tracker: a verified model of its core logic

This project models, in Dafny, the logic of a job-application tracker: a Node/Express
server over MongoDB with a React client. The user records job applications, contacts
and reminders. The server keeps an activity log per job, links contacts and jobs,
values offers and e-mails due reminders. The client draws the application flow,
compares offers and the job market, and manages reminders.

One module per source file of the core:

- **Flow charts.**
  - `FlowGraph` holds what both copies of the application-flow reconstruction share: the stages, the path a job's status and evidence imply, and link counting.
  - `SankeyChart` (client) and `Analytics` (server) are the two copies, written as the counter loops of the source.
  - `FlowComparison` proves where the two copies disagree.
- **Offer valuation.**
  - `OfferComparison` covers the offer comparison page. It includes the edit handler as classes whose objects share one benefits object.
  - `JobValue` covers the server's scoring, ranking and lookup tables.
  - `MarketComparison` covers the market comparison panel.
- **Reminders.**
  - `ReminderForm` is the add and edit form.
  - `EditReminder` is the edit page's loading step.
  - `ReminderList` is the reminders page.
  - `Dashboard` holds the dashboard statistics.
  - `Notification` is the reminder e-mail service.
- **Server.**
  - `JobModel`, `ContactModel` and `ReminderModel` are the Mongoose schemas, written as validity predicates and create functions.
  - `Store` is the database: a class whose map fields hold the documents.
  - `JobsController`, `RemindersController` and `ContactsController` are the handlers that change documents. Each is a method on the store, proved against a function that states its result.
- **Shared helpers.**
  - `Common` holds the JavaScript string and number operations the source relies on.
  - `Paging` is the pagination rule the three listings share.
  - `ClientFetch` states what the client pages receive from those listings when they send no query.
  - `Sorting` is an in-place sort standing for `Array.prototype.sort` with a numeric comparator.

Money, indices and ratios are exact `real`s. Where the source computes NaN, the
model has `None`: the comparison scores of a job without a salary. Times are integers
in milliseconds. The clock, locale-formatted date text and one-calendar-month-later
are parameters. String lengths checked by `maxlength` count UTF-16 code units, as
JavaScript does.

## Model

| member | source | states |
|---|---|---|
| Analytics.GetSankeyData | server/src/controllers/analytics.js:140-236 | returns the six fixed nodes and exactly the links `ServerLinks(ServerCounts(jobs))`: the table counted over every job, its zero links dropped, sample links when none is left |
| Analytics.CountServerJob | server/src/controllers/analytics.js:168-217 | one pass of the status if-chain leaves the table equal to the counters raised along the job's inferred path |
| Analytics.Increment | server/src/controllers/analytics.js:174 | `find(...).value++` raises the value of exactly the link from `s` to `t` by one and nothing else |
| Analytics.FindLink | server/src/controllers/analytics.js:174 | `links.find` returns the first index whose link goes from `s` to `t` |
| Analytics.InitialTable | server/src/controllers/analytics.js:155-165 | the initial nine links are the server table at all-zero counters |
| Analytics.ServerOrderDistinct | server/src/controllers/analytics.js:155-165 | the nine (source, target) pairs of the table are pairwise distinct, so `find` always hits the one intended link |
| Analytics.TableAfterBump | server/src/controllers/analytics.js:174 | bumping one counter changes exactly one table entry, by one |
| Analytics.ServerAdds | server/src/controllers/analytics.js:168-217 | counting one more job raises exactly the links of that job's path |
| Analytics.ServerAddsLast | server/src/controllers/analytics.js:168-217 | the same, stated for the last job of a list |
| Analytics.ServerCountsNonNegative | server/src/controllers/analytics.js:154-217 | no counter is ever negative |
| Analytics.AppliedChangesNothing | server/src/controllers/analytics.js:170-171 | a job at Applied leaves every counter unchanged |
| Analytics.RejectedInterviewsFirst | server/src/controllers/analytics.js:184-200 | a Rejected job adds Applied→Rejected without interviews; with interviews, Offer Received→Rejected when an offer salary exists and Interviewing→Rejected otherwise |
| Analytics.WithdrawnOfferFirst | server/src/controllers/analytics.js:201-215 | a Withdrawn job is checked for an offer first, then interviews, then counted at Applied→Withdrawn |
| Analytics.ServerPathNoPending | server/src/controllers/analytics.js:145-152 | no inferred server path steps to Pending |
| Analytics.NoPendingCount | server/src/controllers/analytics.js:145-165 | the server never raises the Applied→Pending counter |
| Analytics.NonZeroLinksKept | server/src/controllers/analytics.js:220 | with some positive link the response is exactly the positive links, in table order |
| Analytics.SampleWhenNothingPositive | server/src/controllers/analytics.js:223-233 | with no positive link the response is exactly the six sample links |
| Analytics.PaddedMonth | server/src/controllers/analytics.js:114 | a month 1..12 padded to two digits is two characters that read back as the month |
| Analytics.LabelParts | server/src/controllers/analytics.js:114 | splitting `year-MM` at the dash three characters from the end gives back both parts |
| Analytics.MonthLabelRoundTrip | server/src/controllers/analytics.js:113-116 | every `YYYY-MM` label reads back as its year and month |
| Analytics.ApplicationsByMonth | server/src/controllers/analytics.js:113-116 | one labelled point per aggregation group, in order, with its count unchanged |
| SankeyChart.BuildFlow | client/src/components/SankeyChart.tsx:79-207 | yields the seven fixed nodes and exactly `ClientLinks(ClientCounts(jobs))`, the positive counters over every job |
| SankeyChart.CountJob | client/src/components/SankeyChart.tsx:104-155 | the status if-chain raises the counters exactly along the job's inferred client path |
| SankeyChart.EmitLinks | client/src/components/SankeyChart.tsx:163-205 | the ten guarded pushes produce exactly `ClientLinks(c)` |
| SankeyChart.PushIfPositive | client/src/components/SankeyChart.tsx:166-168 | a positive counter appends its link, a zero counter leaves the list unchanged |
| SankeyChart.EmittedIsFiltered | client/src/components/SankeyChart.tsx:163-205 | the pushes over the first `k` counters emit exactly the positive entries of the first `k` table links |
| SankeyChart.ClientLinksFiltered | client/src/components/SankeyChart.tsx:163-205 | the emitted links are the counter table with the zero entries filtered out, in emission order |
| SankeyChart.ClientAdds | client/src/components/SankeyChart.tsx:104-155 | counting one more job raises exactly the links of its inferred path |
| SankeyChart.AppliedAddsOnlyPending | client/src/components/SankeyChart.tsx:111-113 | a job still at Applied raises only Applied→Pending |
| SankeyChart.AcceptedAddsSuccessPath | client/src/components/SankeyChart.tsx:121-125 | an Accepted job raises exactly the three links of the successful path |
| SankeyChart.RejectedOfferFirst | client/src/components/SankeyChart.tsx:126-139 | a Rejected job is checked for an offer salary before interviews; with neither it raises Applied→Rejected |
| SankeyChart.WithdrawnOfferFirst | client/src/components/SankeyChart.tsx:140-153 | the same three-way branch for Withdrawn, ending at Withdrawn |
| SankeyChart.UntrackedAddsNothing | client/src/components/SankeyChart.tsx:111-154 | a Not Applied job matches no branch and changes no counter |
| SankeyChart.PathBalance | client/src/components/SankeyChart.tsx:104-155 | every tracked job leaves Applied exactly once, and every job entering Interviewing or Offer Received leaves it unless it stops there |
| SankeyChart.StepBalance | client/src/components/SankeyChart.tsx:104-155 | counting one job keeps the three flow balances |
| SankeyChart.ClientAddsLast | client/src/components/SankeyChart.tsx:104-155 | counting the last job of a list raises exactly the links of its path |
| SankeyChart.BalancedLast | client/src/components/SankeyChart.tsx:104-155 | the balances of a list follow from those of the list without its last job |
| SankeyChart.ClientFlowBalance | client/src/components/SankeyChart.tsx:104-155 | for any job list: outflow of Applied = tracked jobs; inflow − outflow of Interviewing = jobs at Interviewing; the same for Offer Received |
| SankeyChart.ClientCountsNonNegative | client/src/components/SankeyChart.tsx:89-155 | no counter is ever negative |
| SankeyChart.SomeLinkIffTracked | client/src/components/SankeyChart.tsx:163-205 | balanced non-negative counters have a positive link iff some job is tracked |
| SankeyChart.HasDataIffTracked | client/src/components/SankeyChart.tsx:245 | the chart has data iff some job has one of the six tracked statuses |
| SankeyChart.PendingLast | client/src/components/SankeyChart.tsx:202-205 | when some job is still at Applied, the Pending link is the last one emitted |
| FlowGraph.SnapshotOf | client/src/components/SankeyChart.tsx:105-106 | a job has interviews iff its interview list is non-empty, and an offer iff its offer has a non-zero base salary |
| FlowGraph.ClientOrderExtendsServer | server/src/controllers/analytics.js:155-165 | the client's emission order is the server's nine-link table followed by Applied→Pending |
| FlowGraph.BumpEdges | client/src/components/SankeyChart.tsx:116 | one `counter++` raises its own link by one and leaves every other link unchanged |
| FlowGraph.BumpPathEdge | client/src/components/SankeyChart.tsx:114-153 | counting along a path raises each link by the number of times the path steps across it |
| FlowGraph.CountsAreCrossings | client/src/components/SankeyChart.tsx:104-155 | every link's value is the number of times the jobs' inferred paths cross it |
| FlowGraph.CountsAppend | client/src/components/SankeyChart.tsx:104-155 | the counters of `jobs + [j]` are those of `jobs` counted along `j`'s path |
| FlowGraph.BumpPathAdds | client/src/components/SankeyChart.tsx:114-153 | counting a job along a path raises exactly the links of its steps |
| FlowGraph.Table | server/src/controllers/analytics.js:155-165 | one link per pair of the order, in that order, carrying that pair's counter |
| FlowGraph.PositiveMembers | server/src/controllers/analytics.js:220 | the filter keeps exactly the links with a positive value |
| FlowGraph.NothingPositive | server/src/controllers/analytics.js:220-223 | nothing survives the filter of a list without positive links |
| FlowGraph.PositiveAppend | server/src/controllers/analytics.js:220 | filtering distributes over concatenation, so the filter keeps the table order |
| FlowGraph.PositiveTable | client/src/components/SankeyChart.tsx:245 | the filtered table has data iff one of its pairs has a positive counter |
| FlowGraph.AddsNonNegative | client/src/components/SankeyChart.tsx:89-155 | counters only grow, so non-negative counters stay non-negative |
| FlowGraph.StatusCountNonNegative | client/src/components/SankeyChart.tsx:104 | a count of jobs is never negative |
| FlowComparison.PathsDiffer | server/src/controllers/analytics.js:168-217 | the client and server paths differ exactly for jobs at Applied and for Rejected jobs with an offer but no interviews |
| FlowComparison.PathDelta | server/src/controllers/analytics.js:184-200 | how many more times the client path crosses each link than the server path, per job |
| FlowComparison.StepRelated | server/src/controllers/analytics.js:168-217 | counting one more job on both sides keeps the client/server relation |
| FlowComparison.RelatedLast | server/src/controllers/analytics.js:168-217 | the relation for a list follows from the list without its last job |
| FlowComparison.CountsRelated | server/src/controllers/analytics.js:168-217 | over any job list the server counters are the client counters with Pending dropped and each divergent job moved from the offer path to Applied→Rejected |
| FlowComparison.ServerFlowBalance | server/src/controllers/analytics.js:168-217 | the server flow keeps the same conservation laws, with the jobs at Applied left out |
| FlowComparison.ServerSomeLinkIffProgress | server/src/controllers/analytics.js:220-223 | balanced non-negative server counters have a positive link iff some job has moved past Applied |
| FlowComparison.ServerLinksByProgress | server/src/controllers/analytics.js:220-235 | on balanced counters the server answers with its positive links when a job has moved, with the sample links otherwise |
| FlowComparison.SampleIffNoProgress | server/src/controllers/analytics.js:220-235 | the server sends the sample links exactly when no job has moved past Applied |
| OfferComparison.CalculateTotalValue | client/src/pages/JobValueComparison.tsx:88-105 | the running total equals `TotalValue(o)`: salary, bonus, each switched-on flag's value and 500 per day of paid time off |
| OfferComparison.PlainOfferTotal | client/src/pages/JobValueComparison.tsx:88-105 | with no flag on and no paid time off the total is salary plus bonus |
| OfferComparison.FlagRaisesTotal | client/src/pages/JobValueComparison.tsx:95-102 | switching on one flag raises the total by exactly that flag's value (5000, 1000, 500, 3000, 5000, 3000 or 5000) |
| OfferComparison.PaidTimeOffRaisesTotal | client/src/pages/JobValueComparison.tsx:99 | each extra day of paid time off adds 500 |
| OfferComparison.AddOffer | client/src/pages/JobValueComparison.tsx:66-76 | the intended add: at four offers nothing changes; otherwise one default offer with id `length + 1` and default benefits is appended and the others are kept |
| OfferComparison.RemoveOffer | client/src/pages/JobValueComparison.tsx:78-86 | at two offers or fewer nothing changes; otherwise exactly the offer at `index` is dropped, the others keep their order |
| OfferComparison.OfferCountBounded | client/src/pages/JobValueComparison.tsx:66-86 | any sequence of additions and removals keeps between two and four offers |
| OfferComparison.InitialOffersBounded | client/src/pages/JobValueComparison.tsx:43-46 | from the two initial offers the count always stays within two to four |
| OfferComparison.RepeatedIdReachable | client/src/pages/JobValueComparison.tsx:74 | add, remove the first, add again yields two offers with the same id |
| OfferComparison.HandleCompare | client/src/pages/JobValueComparison.tsx:107-117 | results are shown iff every offer has a company, a role and a positive salary; otherwise `failed` is the 1-based number of the first incomplete offer |
| OfferComparison.EditAt | client/src/pages/JobValueComparison.tsx:49-64 | the intended edit: only the offer at `index` changes, by exactly that edit |
| OfferComparison.BenefitEditKeepsHeader | client/src/pages/JobValueComparison.tsx:56-58 | a benefit edit never touches the id, company, role or salary |
| OfferComparison.BenefitsObject.constructor | client/src/pages/JobValueComparison.tsx:39 | a fresh copy of the default benefits |
| OfferComparison.BenefitsObject.AssignFlag | client/src/pages/JobValueComparison.tsx:58 | assigning a flag field sets exactly that flag |
| OfferComparison.BenefitsObject.Assign | client/src/pages/JobValueComparison.tsx:58 | `benefits[field] = value` changes exactly the named benefit |
| OfferComparison.OfferObject.Spread | client/src/pages/JobValueComparison.tsx:44-45 | `{ ...offer, id }` copies the header, sets the id and shares the same benefits object |
| OfferComparison.OfferObject.Default | client/src/pages/JobValueComparison.tsx:34-40 | the module's default offer: empty header and its own fresh benefits |
| OfferComparison.Values | client/src/pages/JobValueComparison.tsx:43-46 | the value of each offer object, position by position |
| OfferComparison.ModuleDefaultOffer | client/src/pages/JobValueComparison.tsx:34-40 | the module-level default offer, built once with the default values and its own benefits object |
| OfferComparison.MountPage | client/src/pages/JobValueComparison.tsx:42-46 | a mount's two initial offers are the default offer's current values with ids 1 and 2, both holding its benefits object |
| OfferComparison.InitialObjects | client/src/pages/JobValueComparison.tsx:34-46 | on the first mount after the module loads, the two initial offers hold the initial values but both point at the default offer's one benefits object |
| OfferComparison.RemountKeepsEdits | client/src/pages/JobValueComparison.tsx:34-64 | ticking Health, leaving the page and coming back gives two initial offers with Health ticked, not the initial offers |
| OfferComparison.HandleInputChange | client/src/pages/JobValueComparison.tsx:49-64 | the edit is applied to the object at `index` (and, through it, to its benefits object); no offer's benefits reference changes |
| OfferComparison.SharedBenefitLeaks | client/src/pages/JobValueComparison.tsx:43-61 | on the initial offers, ticking Health on the first offer also ticks it on the second, so the result differs from `EditAt` |
| OfferComparison.AddOfferObject | client/src/pages/JobValueComparison.tsx:66-76 | at four offers nothing changes; otherwise a new object spread from the default offer is appended, with id `length + 1` and the default offer's own benefits object; while that object is still the default, the values are those `AddOffer` gives |
| OfferComparison.AddedOfferInheritsEdits | client/src/pages/JobValueComparison.tsx:43-76 | ticking Health on the first initial offer and then adding one gives a third offer with Health ticked, unlike the default offer `AddOffer` appends |
| OfferComparison.NewSeparateOffer | client/src/pages/JobValueComparison.tsx:34-40 | a default offer with the given id and its own fresh benefits object |
| OfferComparison.InitialSeparateObjects | client/src/pages/JobValueComparison.tsx:43-46 | the initial offers with one benefits object each |
| OfferComparison.EditSeparate | client/src/pages/JobValueComparison.tsx:49-64 | with separate benefits objects every edit changes exactly the offer at `index`, as `EditAt` says |
| JobValue.Patched | server/src/controllers/jobValue.js:200-202 | every weight the request names is overwritten, every other weight is kept |
| JobValue.SalaryScoreAtNationalAverage | server/src/controllers/jobValue.js:214-216 | at index 100, or with no truthy index, the salary score is the salary (or 0 without one) |
| JobValue.SalaryScoreScales | server/src/controllers/jobValue.js:214-216 | the salary score times the index is the salary times 100 |
| JobValue.BenefitsValue | server/src/controllers/jobValue.js:219-241 | a number exactly when the job has a salary: the always-present benefits block multiplies paid time off by `salary / 260`, which is NaN without a salary |
| JobValue.BenefitsScore | server/src/controllers/jobValue.js:219-241 | the running `benefitsScore +=` total, NaN included, equals `BenefitsValue` of the job's salary and offer |
| JobValue.BenefitsWithoutDetails | server/src/controllers/jobValue.js:220-239 | NaN without a salary; with a salary, empty offer details give 0, and details whose benefits are all unset give bonus plus stock options |
| JobValue.FullYearOfLeave | server/src/controllers/jobValue.js:239 | 260 days of paid time off are worth exactly one salary |
| JobValue.Score | server/src/controllers/jobValue.js:210-271 | the raw scores are `SalaryScore` and `BenefitsValue`; each is weighted by its weight; the total is a number exactly when the job has a salary, and is then weighted salary plus weighted benefits |
| JobValue.CostOfLivingWeightUnused | server/src/controllers/jobValue.js:244-254 | changing the cost-of-living weight never changes any part of the comparison row |
| JobValue.DefaultWeightsScore | server/src/controllers/jobValue.js:244-254 | with the default weights and a salary, the total is the salary score plus half the benefits value |
| JobValue.OwnedEntries | server/src/controllers/jobValue.js:146-187 | at most one entry per requested id: the owned ones, in request order, each with its stored or new valuation |
| JobValue.Created | server/src/controllers/jobValue.js:159-180 | the store after the lookup holds exactly the old valuations plus one for every owned requested job |
| JobValue.OwnedEntriesOwned | server/src/controllers/jobValue.js:149-187 | every entry kept is a stored job of the requesting user, named in the request, with the valuation the store then holds for it; the kept ids are the owned requested ids |
| JobValue.CreatedStep | server/src/controllers/jobValue.js:159-180 | one more requested id adds a new valuation only for an owned job without one |
| JobValue.EntriesStep | server/src/controllers/jobValue.js:149-182 | one more requested id adds one entry when the job is owned and none otherwise |
| JobValue.FindOwned | server/src/controllers/jobValue.js:146-187 | the lookup loop yields exactly `OwnedEntries` and leaves the store as `Created` says |
| JobValue.FoundInStore | server/src/controllers/jobValue.js:159-182 | each found entry carries the valuation the store holds for its job |
| JobValue.ApplyCustomWeights | server/src/controllers/jobValue.js:194-207 | every array entry gets the custom weights written into its valuation, in place, and each is saved into the store; without custom weights nothing changes |
| JobValue.NoCustomNoChange | server/src/controllers/jobValue.js:194 | without custom weights the save step changes no valuation |
| JobValue.ScoredRows | server/src/controllers/jobValue.js:210-271 | one scored row per found job, position by position, scored with the custom weights applied; a row's total is a number exactly when its salary is present |
| JobValue.ScoredNumbers | server/src/controllers/jobValue.js:214-254 | when every found job has a salary, every total is a number |
| JobValue.ScoreEntries | server/src/controllers/jobValue.js:210-271 | scoring the array after the weights were written gives `ScoredRows` of the found entries with the custom weights |
| JobValue.RankRows | server/src/controllers/jobValue.js:274 | a permutation of the rows, ranked highest total first whenever every total is a number |
| JobValue.RankedByScore | server/src/controllers/jobValue.js:274 | rows sorted by the rank key with numeric totals are in non-increasing total order |
| JobValue.SaveAndScore | server/src/controllers/jobValue.js:193-274 | the store gets the custom weights of every found job; the rows are a permutation of the scored rows, highest first when every found job has a salary |
| JobValue.AnsweredStore | server/src/controllers/jobValue.js:159-207 | an answered comparison leaves the created valuations with the custom weights saved into the found ones |
| JobValue.ComparisonStoresWeights | server/src/controllers/jobValue.js:159-207 | after an answered comparison every owned requested job has a valuation carrying the patched weights; every other valuation is unchanged |
| JobValue.CompareJobs | server/src/controllers/jobValue.js:138-281 | 400 with fewer than two ids and the store unchanged; otherwise valuations are created for owned jobs without one; then 400 with fewer than two owned jobs; else the custom weights are saved and the answer is a permutation of the scored rows, highest total first when every job has a salary |
| JobValue.CopyBody | server/src/controllers/jobValue.js:102-105 | each key the body gives (location, index and its source, industry average, normalised salary, value ratio, custom weights) replaces the stored one; every other field is kept |
| JobValue.UpdateJobValue | server/src/controllers/jobValue.js:75-133 | 404/401 as in the handler; otherwise the stored (or new) valuation with the body copied in, salary normalised to index 100 when salary and index are truthy, value ratio recomputed when the industry average is positive, update time set |
| JobValue.NormalizedIsSalaryScore | server/src/controllers/jobValue.js:112 | the normalised salary of an update is the salary score of a comparison |
| JobValue.NormalizedAtIndex | server/src/controllers/jobValue.js:111-112 | at index 100 a salary is unchanged; at 200 it is halved |
| JobValue.TitleRow | server/src/controllers/jobValue.js:491-510 | each salary row has min ≤ median ≤ max, and only the senior row is as long as "senior software engineer" |
| JobValue.LocationRow | server/src/controllers/jobValue.js:513-533 | every location factor is positive |
| JobValue.FirstTitleOverlap | server/src/controllers/jobValue.js:537-539 | the first title key, in declaration order, that overlaps the text, or none when no key does |
| JobValue.MatchTitle | server/src/controllers/jobValue.js:535-539 | a valid row; the software developer row when no key overlaps |
| JobValue.FirstLocationOverlap | server/src/controllers/jobValue.js:545-547 | the first location key that overlaps the text, or none when no key does |
| JobValue.LocationModifier | server/src/controllers/jobValue.js:541-552 | a positive factor; 1 for an absent or empty location and for an unknown one |
| JobValue.LocalSalary | server/src/controllers/jobValue.js:560-564 | each bound scaled and rounded, and the local min ≤ median ≤ max |
| JobValue.RowSalaryData | server/src/controllers/jobValue.js:555-568 | the matched row's national range and its local range under the factor |
| JobValue.SimulateSalaryData | server/src/controllers/jobValue.js:486-571 | the matched title's national range, the location factor, the local range from them, and local min ≤ median ≤ max |
| JobValue.SeniorTitleShadowed | server/src/controllers/jobValue.js:491-539 | every title naming "senior software engineer" is matched to the plain "software engineer" row (median 105000) |
| JobValue.LongestTitleContained | server/src/controllers/jobValue.js:491-510 | the longest title key the text contains (first among equals), or none |
| JobValue.MatchTitleIntended | server/src/controllers/jobValue.js:535-539 | when the title contains some key, it gets a contained key of greatest length |
| JobValue.SimulateSalaryDataIntended | server/src/controllers/jobValue.js:486-571 | the salary service with the intended title match |
| JobValue.SeniorTitleMatched | server/src/controllers/jobValue.js:491-539 | with the intended match a senior title gets the senior row (median 140000) |
| JobValue.CityRow | server/src/controllers/jobValue.js:410-421 | every city's index is positive |
| JobValue.ExactCity | server/src/controllers/jobValue.js:424 | the row whose key is exactly the location, or none |
| JobValue.CityWithin | server/src/controllers/jobValue.js:434-436 | the first city whose lower-case name the lower-case location contains, or none |
| JobValue.SimulateCostOfLiving | server/src/controllers/jobValue.js:405-458 | exact key first, then the first contained city under its own name, else index 100; the national average is always 100 |
| JobValue.KnownCityExact | server/src/controllers/jobValue.js:424-431 | a table city named exactly gets its own row |
| MarketComparison.TitleBase | client/src/components/JobMarketComparison.tsx:272-290 | an ordered range of at least 70000/100000; a senior or lead title has median ≥ 135000, an engineering title ≥ 115000 |
| MarketComparison.LocationMultiplier | client/src/components/JobMarketComparison.tsx:293-300 | one of the factors 1, 1.1, 1.25 and 1.4, equal to 1 unless the location names one of the six priced cities |
| MarketComparison.RoundedFigures | client/src/components/JobMarketComparison.tsx:303-305 | `Math.round` keeps the order of three figures and never drops below an integer under each |
| MarketComparison.ScaledFigures | client/src/components/JobMarketComparison.tsx:302-306 | with any of the four multipliers, the rounded scaled minimum, median and maximum stay in order and none is below its unscaled value |
| MarketComparison.Scaled | client/src/components/JobMarketComparison.tsx:302-307 | an ordered range stays ordered and no bound shrinks |
| MarketComparison.MockSalary | client/src/components/JobMarketComparison.tsx:270-308 | the local estimate is ordered and no bound is below the title's range |
| MarketComparison.GenerateMockSalaryData | client/src/components/JobMarketComparison.tsx:270-308 | the in-place adjustments yield exactly `MockSalary`, an ordered range with median ≥ 100000 |
| MarketComparison.MockSalaryUnpricedPlace | client/src/components/JobMarketComparison.tsx:292-300 | outside the six priced cities the estimate is the title range itself |
| MarketComparison.MockCostOfLiving | client/src/components/JobMarketComparison.tsx:310-359 | national average 100, every index ≥ 100, and the default data exactly when the location names none of the five priced cities |
| MarketComparison.HighestMultiplierHighCost | client/src/components/JobMarketComparison.tsx:294-334 | where salaries get the 1.4 factor the cost-of-living index is at least 187.2 |
| MarketComparison.MockData | client/src/components/JobMarketComparison.tsx:67-70 | both local estimates: ordered salary with median ≥ 100000 and index ≥ 100 |
| MarketComparison.LoadJobs | client/src/components/JobMarketComparison.tsx:55-81 | every job gets its offer flag and, without an offer, the local estimates; the panel is consistent; the first three ids are pre-selected |
| MarketComparison.Without | client/src/components/JobMarketComparison.tsx:247 | the ids of the selection other than `id`, none added |
| MarketComparison.WithoutAbsent | client/src/components/JobMarketComparison.tsx:247 | removing an id that is not selected changes nothing |
| MarketComparison.WithoutKeepsOrder | client/src/components/JobMarketComparison.tsx:247 | the remaining ids keep their order |
| MarketComparison.ToggleSelection | client/src/components/JobMarketComparison.tsx:244-256 | a selected job is removed; another is appended while fewer than four are selected, else nothing changes |
| MarketComparison.ToggleTwice | client/src/components/JobMarketComparison.tsx:244-256 | selecting and then deselecting a job restores the selection |
| MarketComparison.WithoutAppendedId | client/src/components/JobMarketComparison.tsx:247-251 | removing an id just appended gives the selection without that id |
| MarketComparison.WithoutDistinct | client/src/components/JobMarketComparison.tsx:247 | removing an id keeps the selection free of duplicates |
| MarketComparison.SelectionStaysCapped | client/src/components/JobMarketComparison.tsx:244-256 | however the user clicks, at most four distinct jobs are selected |
| MarketComparison.InitialSelectionCapped | client/src/components/JobMarketComparison.tsx:76-81 | the initial selection has at most four distinct ids when job ids are distinct |
| MarketComparison.FindJob | client/src/components/JobMarketComparison.tsx:104 | the first index holding the id, or none when no job has it |
| MarketComparison.FindJobSameIds | client/src/components/JobMarketComparison.tsx:125 | lists with the same ids answer every lookup alike |
| MarketComparison.Needing | client/src/components/JobMarketComparison.tsx:103-105 | a position is listed iff it is the first job with a selected id and has no offer |
| MarketComparison.Filled | client/src/components/JobMarketComparison.tsx:191-202 | the job keeps its fields, stops loading and gets market data, from the service iff the service answered |
| MarketComparison.FetchMarketData | client/src/components/JobMarketComparison.tsx:100-239 | every selected job without an offer that has no service data and is not loading is filled in; every other job is left as it is |
| MarketComparison.FillPending | client/src/components/JobMarketComparison.tsx:116-235 | the loop over a copy of the list fills exactly the listed pending jobs |
| MarketComparison.FetchKeepsConsistent | client/src/components/JobMarketComparison.tsx:100-239 | filling in market data keeps the panel consistent |
| MarketComparison.AdjustedSalary | client/src/components/JobMarketComparison.tsx:537-543 | defined iff the base figure and the index are truthy, and then adjusted × index = base × 100 |
| MarketComparison.AdjustedAtNationalAverage | client/src/components/JobMarketComparison.tsx:541-543 | at index 100 the adjusted salary is the base figure |
| MarketComparison.EstimatedJobAdjusted | client/src/components/JobMarketComparison.tsx:537-543 | a job with local estimates always has an adjusted salary, never above its median |
| MarketComparison.DeflatedNotAbove | client/src/components/JobMarketComparison.tsx:541-542 | dividing by an index ≥ 100 never raises a salary |
| MarketComparison.OfferColumnsNeverAdjusted | client/src/components/JobMarketComparison.tsx:537-543 | a job with an offer never carries market data, so its adjusted salary is never shown |
| ReminderForm.InitialForm | client/src/pages/reminders/AddReminder.tsx:38-49 | the add form starts with priority Medium, notification App, not repeating, frequency None, due today and every other field empty |
| ReminderForm.HandleChange | client/src/pages/reminders/AddReminder.tsx:86-102 | a text change sets only the named field to the input's value; the checkbox sets only `repeating` to its state |
| ReminderForm.SameValueNoChange | client/src/pages/reminders/AddReminder.tsx:96-100 | typing the value a field already holds changes nothing |
| ReminderForm.Normalize | client/src/pages/reminders/AddReminder.tsx:116-129 | afterwards `repeating` holds iff the frequency is not "None"; empty links and reminder time are dropped; title, description, due date, priority and notification type pass through; a repeating payload keeps its frequency |
| ReminderForm.NormalizePayload | client/src/pages/reminders/AddReminder.tsx:116-129 | the step-by-step deletions and reassignments of handleSubmit leave exactly the normalised payload |
| ReminderForm.NormalizeIdempotent | client/src/pages/reminders/AddReminder.tsx:116-129 | normalising twice is normalising once |
| ReminderForm.Submit | client/src/pages/reminders/AddReminder.tsx:104-132 | a request is sent iff the trimmed title is non-empty and a due date is set; it carries the title, due date and non-empty links, and repeats iff the box is ticked and the frequency is not "None" |
| ReminderForm.InitialFormNeedsTitle | client/src/pages/reminders/AddReminder.tsx:38-49 | the untouched add form is refused |
| ReminderForm.TitledInitialFormSubmits | client/src/pages/reminders/AddReminder.tsx:38-132 | typing a title into the add form is enough; the request asks for a one-off Medium/App reminder with no link |
| EditReminder.TextOr | client/src/pages/reminders/EditReminder.tsx:86-93 | a truthy loaded value, else the fallback |
| EditReminder.RefId | client/src/pages/reminders/EditReminder.tsx:94-95 | the populated document's id, else the bare id, else '' |
| EditReminder.LoadForm | client/src/pages/reminders/EditReminder.tsx:77-96 | each loaded field falls back to the add page's default: title '', priority Medium, notification App, not repeating, frequency None, due today |
| EditReminder.EmptyResponseLoadsInitialForm | client/src/pages/reminders/EditReminder.tsx:77-96 | an empty response loads exactly the add page's initial form |
| EditReminder.UnchangedEditSendsStoredFields | client/src/pages/reminders/EditReminder.tsx:77-170 | opening a stored reminder and saving it unchanged sends back its own title, due day, priority, notification type, repeat settings and links |
| ReminderList.Filtered | client/src/pages/reminders/Reminders.tsx:115-119 | the kept reminders are exactly those the filter accepts, each as often as in the list |
| ReminderList.AllKeepsEverything | client/src/pages/reminders/Reminders.tsx:113-119 | the "all" view keeps the whole list |
| ReminderList.ViewsPartition | client/src/pages/reminders/Reminders.tsx:115-119 | the upcoming and completed views together are the list, as a multiset |
| ReminderList.GetFilteredReminders | client/src/pages/reminders/Reminders.tsx:112-133 | the result is a permutation of the filtered list, sorted by the chosen key |
| ReminderList.PriorityViewOrder | client/src/pages/reminders/Reminders.tsx:126-128 | in the priority order every High comes before every Medium and Low, every Low last |
| ReminderList.DueDateViewOrder | client/src/pages/reminders/Reminders.tsx:123-124 | in the due-date order the dates never decrease |
| ReminderList.ToggleComplete | client/src/pages/reminders/Reminders.tsx:62-66 | the reminders with the id get `!completed`, the others are unchanged, the length is kept |
| ReminderList.ToggleTwice | client/src/pages/reminders/Reminders.tsx:62-66 | toggling twice from the displayed state gives the list back |
| ReminderList.Delete | client/src/pages/reminders/Reminders.tsx:82 | exactly the reminders with another id are kept |
| ReminderList.DeleteKeepsOthers | client/src/pages/reminders/Reminders.tsx:82 | every other reminder is kept as often as it occurred |
| ReminderList.DeleteAppend | client/src/pages/reminders/Reminders.tsx:82 | `filter` keeps the order: deleting from two runs laid end to end is deleting from each |
| ReminderList.ToggledLeavesUpcoming | client/src/pages/reminders/Reminders.tsx:62-66 | a reminder toggled to completed leaves the upcoming view |
| ReminderList.OverdueStays | client/src/pages/reminders/Reminders.tsx:135-139 | a date that does not parse is never overdue, and an overdue date stays overdue as time passes |
| Dashboard.Midnight | client/src/pages/Dashboard.tsx:68-69 | `setHours(0, 0, 0, 0)` gives the local midnight of the same day: at most the time, less than a day before it |
| Dashboard.MidnightOrder | client/src/pages/Dashboard.tsx:74-77 | comparing two midnights compares their local days |
| Dashboard.UpcomingCount | client/src/pages/Dashboard.tsx:71-78 | the count is at most the list's length and zero exactly when no reminder is upcoming |
| Dashboard.UpcomingByDay | client/src/pages/Dashboard.tsx:71-78 | a reminder counts iff it is not completed and due today or on a later local day |
| Dashboard.UpcomingBounds | client/src/pages/Dashboard.tsx:71-78 | every open reminder due from now on counts, no reminder due before today counts |
| Dashboard.UpcomingAtMostOpen | client/src/pages/Dashboard.tsx:71-78 | completed reminders are never counted: the count is at most the open reminders |
| Dashboard.DashboardStats | client/src/pages/Dashboard.tsx:80-85 | the totals are the three list lengths and the upcoming count is at most the reminder total |
| Common.ToLower | server/src/controllers/jobValue.js:536 | `toLowerCase` keeps the length and lowers each letter in place |
| Common.ContainsTransitive | server/src/controllers/jobValue.js:536-539 | `includes` is transitive: a window of a window is a window |
| Common.ContainedNoLonger | server/src/controllers/jobValue.js:536-539 | a contained string is no longer than its container, and of equal length only when equal |
| Common.TrimEmptyIffBlank | client/src/pages/reminders/AddReminder.tsx:107 | `!s.trim()` holds exactly for the strings made only of white space |
| Common.TrimmedIffFixed | server/src/models/Job.js:7 | the strings `trim` leaves unchanged are exactly those with no white space at either end |
| Common.TrimIdempotent | server/src/models/Job.js:7 | trimming a trimmed value changes nothing |
| Common.AcceptedTextIsValid | server/src/models/Job.js:4-15 | a value that passes `required`, `trim` and `maxlength` is stored non-empty, trimmed and within the length, counted in UTF-16 code units |
| Common.Utf16Length | server/src/models/Job.js:8 | the length `maxlength` checks lies between the number of characters and twice that number |
| Common.Utf16LengthBasic | server/src/models/Job.js:8 | for characters up to U+FFFF the code-unit length is the number of characters |
| Common.AstralCountsTwice | server/src/models/Contact.js:8 | a character beyond U+FFFF counts twice, so fifty of them reach a length of 100 |
| Common.NatToString | server/src/controllers/analytics.js:114 | `toString` of a month number is a non-empty string of decimal digits |
| Common.ParseNatToString | server/src/controllers/analytics.js:114 | `toString` on a month number is read back as the same number |
| Common.PadStart | server/src/controllers/analytics.js:114 | `padStart(width, fill)` yields the string right-aligned in `width`, with `fill` before it |
| Common.RoundMonotone | server/src/controllers/jobValue.js:561-563 | `Math.round` never reverses the order of two amounts |
| Paging.ParamOr | server/src/controllers/jobs.js:45-46 | `parseInt(x, 10) \|\| fallback`: the parsed value unless it is missing, unparsable or zero |
| Paging.Paginate | server/src/controllers/jobs.js:44-73 | page and limit default to 1 and 10; `next` is offered iff `page * limit < total`, `prev` iff `startIndex > 0`, each pointing at the neighbouring page with the same limit |
| Paging.PageItems | server/src/controllers/jobs.js:52-56 | a negative skip is refused; otherwise at most `limit` documents |
| Paging.DefaultPage | server/src/controllers/jobs.js:44-73 | with no query the first ten documents are shown, no `prev`, and `next` iff there are more than ten |
| Paging.LinksMatchNeighbours | server/src/controllers/reminders.js:54-84 | for a positive page and limit, `next` is offered exactly when the next page is not empty and `prev` exactly on page 2 and later |
| Paging.PagesTile | server/src/controllers/contacts.js:36-70 | pages 1 to k laid end to end are the first `k * limit` documents: no document is skipped or shown twice |
| Paging.FirstPage | server/src/controllers/jobs.js:44-56 | a request with no query receives the first `min(10, n)` documents, in listing order; that is the whole listing iff it holds at most ten |
| Paging.FetchAllPages | server/src/controllers/jobs.js:58-73 | following the `next` links from page 1 under the default limit collects exactly the whole listing |
| ClientFetch.SankeySeesFirstPage | client/src/components/SankeyChart.tsx:61-62 | with more than ten tracked jobs, the chart built from the unqueried listing shows at most ten jobs leaving Applied, while every tracked job leaves Applied in the chart over all jobs |
| ClientFetch.SankeyOverAllPages | client/src/components/SankeyChart.tsx:61-62 | a chart built after collecting every page has the links of all the user's jobs, and every tracked job leaves Applied in it |
| ClientFetch.DashboardSeesFirstPages | client/src/pages/Dashboard.tsx:37-41 | the dashboard totals from the unqueried listings are at most ten each, and each equals the real total iff that is at most ten |
| ClientFetch.DashboardOverAllPages | client/src/pages/Dashboard.tsx:37-85 | after collecting every page the totals are the real list lengths and the upcoming count is over every reminder |
| Sorting.SwapStep | client/src/pages/reminders/Reminders.tsx:122-130 | swapping an element with its larger left neighbour keeps the prefix sorted except at the moved gap |
| Sorting.Swap | client/src/pages/reminders/Reminders.tsx:122-130 | exchanges two neighbours and nothing else; the contents as a multiset are kept |
| Sorting.InsertAt | client/src/pages/reminders/Reminders.tsx:122-130 | extends the sorted prefix by one element, keeping the contents |
| Sorting.SortBy | server/src/controllers/jobValue.js:273-274 | the array ends sorted by the key and is a permutation of what it held |
| JobModel.ParseStatus | server/src/models/Job.js:16-20 | the status validator accepts exactly the seven names, and an accepted name is the status it denotes |
| JobModel.StatusRoundTrip | server/src/models/Job.js:19 | every status's name is accepted as that status |
| JobModel.ParseSalaryTimeFrame | server/src/models/Job.js:36-40 | exactly Hourly, Weekly, Monthly and Yearly are accepted |
| JobModel.ParseRemoteStatus | server/src/models/Job.js:45-49 | exactly Remote, Hybrid and On-site are accepted |
| JobModel.SaveJob | server/src/models/Job.js:3-119 | `save()` stores the document unchanged iff it passes every validator, else fails with 400 |
| JobModel.CreateJobDocument | server/src/models/Job.js:3-119 | `Job.create` succeeds iff the body passes the validators; the stored job is valid, has trimmed company and title, the named status, time frame and remote status (Yearly and On-site when absent), `dateApplied` defaulting to now, the trimmed location, the body's link, salary, description, notes, offer and contacts, and no interviews or activities |
| JobModel.ResubmittedJobRecreated | server/src/models/Job.js:3-119 | a valid job without interviews or activity, sent back field by field as a create body, is recreated exactly |
| JobModel.BlankCompanyRefused | server/src/models/Job.js:4-9 | a company made only of white space is refused with 400, because `required` sees the trimmed value |
| ContactModel.ParseRole | server/src/models/Contact.js:25-29 | exactly the five role names are accepted, each as the role it names |
| ContactModel.ParseInteractionType | server/src/models/Contact.js:53-57 | exactly the five interaction types are accepted |
| ContactModel.NewInteraction | server/src/models/Contact.js:48-59 | an absent type defaults to Other; a given type is accepted iff it is one of the five and is stored as given |
| ContactModel.SampleEmailAccepted | server/src/models/Contact.js:10-16 | an ordinary address such as `ann@x.io` passes the e-mail pattern |
| ContactModel.NoTopLevelRefused | server/src/models/Contact.js:13 | an address without any dot is refused: the pattern demands a top-level part |
| ContactModel.CreateContactDocument | server/src/models/Contact.js:3-64 | `Contact.create` succeeds iff the body passes the validators; the contact is valid, with trimmed name and company, the given e-mail, phone, notes and jobs, the named role (Recruiter when absent), no `lastContacted`, no interactions and `createdAt` now |
| ContactModel.ResubmittedContactRecreated | server/src/models/Contact.js:3-64 | a valid contact never contacted, sent back as a create body at its creation time, is recreated exactly |
| ReminderModel.ParsePriority | server/src/models/Reminder.js:22-26 | exactly Low, Medium and High are accepted |
| ReminderModel.ParseNotificationType | server/src/models/Reminder.js:27-31 | exactly Email, App and Both are accepted |
| ReminderModel.ParseFrequency | server/src/models/Reminder.js:39-43 | exactly the five frequency names, "None" among them, are accepted |
| ReminderModel.FrequencyRoundTrip | server/src/models/Reminder.js:41 | every frequency's name is accepted as that frequency |
| ReminderModel.CreateReminderDocument | server/src/models/Reminder.js:3-72 | `Reminder.create` succeeds iff the body passes the validators; the reminder is valid with a trimmed title, the given due date, description, reminder time, job and contact, the named priority, notification type and frequency (Medium, App and None when absent), completion and repetition as given or false, no e-mail sent, no notification dates, `createdAt` now |
| ReminderModel.ResubmittedReminderRecreated | server/src/models/Reminder.js:3-72 | a valid reminder never notified, sent back as a create body at its creation time, is recreated exactly |
| ReminderModel.MinimalReminderDefaults | server/src/models/Reminder.js:18-43 | a body naming only a title and a due date is accepted and carries every default |
| Store.StoreJob | server/src/models/Job.js:3-119 | storing a valid job under its own id keeps the job collection valid |
| Store.StoreContact | server/src/models/Contact.js:3-64 | storing a valid contact under its own id keeps the contact collection valid |
| Store.StoreReminder | server/src/models/Reminder.js:3-72 | storing a valid reminder under its own id keeps the reminder collection valid |
| Store.JobStaysValid | server/src/models/Job.js:3-119 | a job changed outside the validated fields is valid iff the original was |
| Store.ContactStaysValid | server/src/models/Contact.js:3-24 | a contact changed outside name, company and e-mail stays valid |
| Store.OwnedJob | server/src/controllers/jobs.js:148-157 | the job is returned iff it exists and belongs to the user; a missing job is 404, a foreign one 401 |
| Store.OwnedContact | server/src/controllers/contacts.js:191-200 | the same for contacts: 404 exactly when missing, otherwise 401 when foreign |
| Store.OwnedReminder | server/src/controllers/reminders.js:155-164 | the same for reminders: 404 exactly when missing, otherwise 401 when foreign |
| Store.Push | server/src/controllers/jobs.js:229-232 | `push` appends exactly one element and keeps the rest |
| Store.Occurrences | server/src/controllers/contacts.js:241 | zero exactly when `includes` is false; never more than the list's length |
| Store.OccurrencesPush | server/src/controllers/contacts.js:245-250 | a push adds one occurrence of the pushed id and none of any other |
| Store.Pull | server/src/controllers/jobs.js:193-197 | `$pull` removes every occurrence of the id and keeps every other id |
| Store.PullKeepsOthers | server/src/controllers/contacts.js:167-171 | every other id keeps its number of occurrences |
| JobsController.MergeScraped | server/src/controllers/jobs.js:116 | `{ ...jobData, ...req.body }`: each of title, company, location and description comes from the body when it gives one, else from the scraped page; every other field is the body's |
| JobsController.MergeScrapedIdempotent | server/src/controllers/jobs.js:116 | merging twice is merging once, and a body naming all four fields is not changed by the merge |
| JobsController.LinkJob | server/src/controllers/jobs.js:129-133 | linking one listed contact keeps the set of contacts |
| JobsController.LinkJobValid | server/src/controllers/jobs.js:129-133 | linking one listed contact keeps the contact collection valid |
| JobsController.LinkJobAll | server/src/controllers/jobs.js:126-136 | linking every listed contact keeps the set of contacts |
| JobsController.LinkJobAllEffect | server/src/controllers/jobs.js:126-136 | each contact changes only in its jobs list, which gains the new job once per time the contact is listed if the user owns it, and not at all otherwise |
| JobsController.CreateJob | server/src/controllers/jobs.js:107-142 | the result is `Job.create` on the body, merged with the scraped fields when a link and auto-population are given; on success the job is stored under its new id and the listed contacts are linked; on failure nothing changes |
| JobsController.LinkContacts | server/src/controllers/jobs.js:126-136 | the loop leaves the contacts as `LinkJobAll` describes and every other collection unchanged |
| JobsController.Patched | server/src/controllers/jobs.js:167-170 | each field the body names replaces the stored one: company, title and location trimmed as the schema trims them, status, salary and notes as given; every other field, the id, owner and activity log included, is kept |
| JobsController.PatchedValid | server/src/controllers/jobs.js:167-170 | fields that pass the update validators keep a valid job valid |
| JobsController.ApplyPatch | server/src/controllers/jobs.js:167-170 | with `runValidators` the update succeeds iff the body passes them, else 400; on success it is the field-by-field update `Patched` states, and it keeps validity |
| JobsController.UpdateJobAsWritten | server/src/controllers/jobs.js:147-176 | as written, a successful update returns the job with its activity log exactly as stored: the pushed entry is never saved |
| JobsController.LogStatusChange | server/src/controllers/jobs.js:159-165 | one Status Change entry is appended exactly when the body names a different status; nothing else changes |
| JobsController.UpdateJobIntended | server/src/controllers/jobs.js:147-176 | 404, then 401, then 400 for a body the validators refuse; on success the job keeps its id and owner, stays valid, and its log gains one Status Change entry exactly when the status changes |
| JobsController.StatusChangeLost | server/src/controllers/jobs.js:159-170 | when the body changes the status, the code as written keeps the stored log while the intended update adds one entry, and the two results differ in nothing else |
| JobsController.UpdateJob | server/src/controllers/jobs.js:147-176 | the stored job becomes the intended update's result; other collections are unchanged |
| JobsController.WithNote | server/src/controllers/jobs.js:228-239 | one Note Added entry is appended; the notes become the old notes, a blank line and the note, or just the note when there were none |
| JobsController.NotesKeepHistory | server/src/controllers/jobs.js:235-236 | the old notes stay at the front and the note ends the new notes |
| JobsController.AddNoteResult | server/src/controllers/jobs.js:210-247 | an empty note is 400 before the lookup; then 404 and 401; a success is the job with the note |
| JobsController.NoteAlwaysSaved | server/src/controllers/jobs.js:210-247 | a non-empty note on an owned valid job is always saved |
| JobsController.AddJobNote | server/src/controllers/jobs.js:210-247 | the stored job becomes the result on success and is unchanged otherwise |
| JobsController.WithInterview | server/src/controllers/jobs.js:264-276 | the interview is appended, Applied becomes Interviewing, one Status Change entry is appended; nothing else changes |
| JobsController.InterviewStatusRule | server/src/controllers/jobs.js:267-270 | the status stays or moves from Applied to Interviewing, never elsewhere |
| JobsController.AddInterviewResult | server/src/controllers/jobs.js:252-284 | 404, then 401; for a valid job the save succeeds iff the interview type is in the enumeration, and the result is the job with the interview |
| JobsController.AddInterview | server/src/controllers/jobs.js:252-284 | the stored job becomes the result on success and is unchanged otherwise |
| JobsController.MergeInterview | server/src/controllers/jobs.js:311-314 | the interview keeps its id, and an empty body leaves it unchanged |
| JobsController.InterviewIndex | server/src/controllers/jobs.js:302-304 | the index of the first interview with that id, or none when no interview has it |
| JobsController.UpdateInterviewResult | server/src/controllers/jobs.js:289-322 | 404 for the job, 401, 404 for the interview; on success only that interview changes, to the body's fields over the stored ones |
| JobsController.UpdateInterviewLocal | server/src/controllers/jobs.js:310-314 | the number of interviews is kept and every interview with another id is unchanged |
| JobsController.UpdateInterview | server/src/controllers/jobs.js:289-322 | the stored job becomes the result on success and is unchanged otherwise |
| JobsController.MergeOffer | server/src/controllers/jobs.js:340-343 | `{ ...offerDetails, ...req.body }`: each of base salary, bonus, stock options, benefits, negotiation notes and deadline is the body's when it names it, else the stored one |
| JobsController.WithOffer | server/src/controllers/jobs.js:339-354 | the offer is merged and the job ends at the offer stage; a job already there keeps status and log, any other becomes Offer Received with one Status Change entry |
| JobsController.OfferBodyGivesEvidence | server/src/controllers/jobs.js:339-354 | an offer with a non-zero base salary leaves the offer evidence both application-flow charts look for |
| JobsController.AddOfferResult | server/src/controllers/jobs.js:327-362 | 404, then 401; for an owned valid job the result is the job with the offer |
| JobsController.AddOfferDetails | server/src/controllers/jobs.js:327-362 | the stored job becomes the result on success and is unchanged otherwise |
| JobsController.ContactsWithoutJob | server/src/controllers/jobs.js:193-197 | no contact, whoever owns it, lists the job any more; each keeps its other jobs and every other field, and a contact that did not list it is unchanged |
| JobsController.DeleteJob | server/src/controllers/jobs.js:181-205 | 404 before 401 with nothing changed; otherwise the job is removed and unlinked from every contact; reminders are untouched |
| RemindersController.Condition | server/src/controllers/reminders.js:20-32 | a text parameter becomes a condition exactly when it is present and not empty, with its own value |
| RemindersController.BuildFilter | server/src/controllers/reminders.js:11-52 | the filter is always restricted to the user; priority, job and contact become conditions when given; without `upcoming=true` the due-date range is the given start and end |
| RemindersController.CompletedOnlyForTrue | server/src/controllers/reminders.js:16-18 | a present `completed` parameter filters on true only for the string "true", on false for anything else |
| RemindersController.UpcomingOverrides | server/src/controllers/reminders.js:47-52 | `upcoming=true` replaces any range by "due from now on" and, with no `completed` parameter, keeps only open reminders |
| RemindersController.UpcomingListsOpenFutureReminders | server/src/controllers/reminders.js:47-52 | such a listing shows only the user's open reminders due from now on |
| RemindersController.Matching | server/src/controllers/reminders.js:59-67 | the selected reminders are exactly the stored ones that meet every condition, no more of them than stored |
| RemindersController.ListingPagination | server/src/controllers/reminders.js:54-84 | page and limit default to 1 and 10; `next` is offered iff more matching reminders lie beyond this page, which for a positive page and limit means the next page is not empty; `prev` iff this is page 2 or later |
| RemindersController.UpcomingReminders | server/src/controllers/reminders.js:214-236 | exactly the user's open reminders due from now up to the same time tomorrow |
| RemindersController.UpcomingWithinListing | server/src/controllers/reminders.js:214-236 | each of them is also in the `upcoming=true` listing |
| RemindersController.SendTestEmail | server/src/controllers/reminders.js:241-271 | 404 before 401, 404 without the user document, then the reminder is marked as `sendReminderEmail` marks it when the mail goes out (500 otherwise); a one-off reminder tested this way is never found by the periodic pass again |
| RemindersController.SendTestEmailIntended | server/src/controllers/reminders.js:241-271 | the same answers, with the stored reminder left as it was |
| RemindersController.ListingIsPrivate | server/src/controllers/reminders.js:13 | a listing only ever shows stored reminders of the user who asks |
| RemindersController.JobsAfterReminderSet | server/src/controllers/reminders.js:124-141 | without a job in the body the jobs are unchanged; a missing or foreign job is 404 or 401; otherwise that job gains one Reminder Set entry |
| RemindersController.CreateReminderResult | server/src/controllers/reminders.js:120-149 | the job check's error, else `Reminder.create` on the body |
| RemindersController.RefusedReminderStillLogged | server/src/controllers/reminders.js:135-143 | the job is saved before the reminder is validated: a refused reminder is 400 yet its Reminder Set entry stays on the job |
| RemindersController.CreateReminder | server/src/controllers/reminders.js:120-149 | the result is `CreateReminderResult`; the jobs become the job check's result when it succeeds; the reminder is stored under its new id iff it is created |
| RemindersController.ApplyPatch | server/src/controllers/reminders.js:178-181 | the update succeeds iff the named fields pass the validators, else 400; then the title (trimmed), description, due date, completion and priority are the body's when given and the stored ones otherwise, every other field is kept, and validity is kept |
| RemindersController.LogCompletion | server/src/controllers/reminders.js:166-176 | the jobs become `JobsAfterUpdate`, the store stays valid, and nothing else changes |
| RemindersController.JobsAfterUpdate | server/src/controllers/reminders.js:166-176 | the reminder's job, if it exists, gains one "Completed reminder" entry exactly when the update completes an open reminder; every other job is unchanged; the job's owner is not checked |
| RemindersController.CompletionLoggedOnlyOnce | server/src/controllers/reminders.js:167 | reopening a reminder, completing a completed one or one without a job never touches the jobs |
| RemindersController.UpdateReminder | server/src/controllers/reminders.js:154-187 | 404 before 401 with nothing changed; otherwise the jobs as `JobsAfterUpdate` describes and the reminder replaced by the update's result when it succeeds |
| ContactsController.LinkContact | server/src/controllers/contacts.js:109-115 | linking one listed job keeps the set of jobs |
| ContactsController.LinkContactValid | server/src/controllers/contacts.js:109-115 | linking one listed job keeps the job collection valid |
| ContactsController.LinkContactAll | server/src/controllers/contacts.js:106-118 | linking every listed job keeps the set of jobs |
| ContactsController.LinkContactAllEffect | server/src/controllers/contacts.js:106-118 | linking one after the other, each job is unchanged or gains the contact once at the end; it lists the contact afterwards iff it did before or it is owned and listed; the `includes` check then keeps a new contact from being listed twice |
| ContactsController.LinkContactAllAtOnce | server/src/controllers/contacts.js:106-118 | under `Promise.all` every callback tests the job as loaded before any save, and each save appends; the set of jobs is kept |
| ContactsController.LinkContactAllAtOnceEffect | server/src/controllers/contacts.js:106-118 | under `Promise.all` an owned job that did not list the contact lists it once per time the body names it; other jobs are unchanged; only contacts change |
| ContactsController.RepeatedJobListedTwice | server/src/controllers/contacts.js:106-118 | a body naming an owned job twice lists the contact twice under `Promise.all`, once when linked one after the other |
| ContactsController.AtOnceWithoutRepeats | server/src/controllers/contacts.js:106-118 | when the body names each job at most once, both schedules give the same jobs |
| ContactsController.CreateContact | server/src/controllers/contacts.js:99-124 | the result is `Contact.create` on the body; on success the contact is stored under its new id and the listed jobs are linked one after the other; on failure nothing changes |
| ContactsController.LinkJobs | server/src/controllers/contacts.js:106-118 | the loop leaves the jobs as `LinkContactAll` describes and every other collection unchanged |
| ContactsController.WithInteraction | server/src/controllers/contacts.js:202-212 | the type is accepted iff it is in the enumeration; then one interaction is appended, `lastContacted` becomes now, nothing else changes |
| ContactsController.AddInteractionResult | server/src/controllers/contacts.js:184-218 | missing or empty type or notes is 400 before the lookup; then 404 and 401; an owned contact is saved iff the type is valid, with one interaction more and `lastContacted` now |
| ContactsController.AddInteraction | server/src/controllers/contacts.js:184-218 | the stored contact becomes the result on success and is unchanged otherwise |
| ContactsController.LinkError | server/src/controllers/contacts.js:227-243 | 404 for a missing contact, then for a missing job, 401 when either is foreign, 400 when already linked from the contact's side; no error exactly when both exist, both are owned and not yet linked |
| ContactsController.LinkContactToJob | server/src/controllers/contacts.js:223-264 | on an error nothing changes; otherwise the job is appended to the contact's jobs, the contact to the job's contacts and one Contact Added entry to the job's log |
| ContactsController.LinkTwiceRefused | server/src/controllers/contacts.js:240-250 | after a link the job lists the contact, and a second request for the same pair is refused with 400 |
| ContactsController.JobsWithoutContact | server/src/controllers/contacts.js:167-171 | no job, whoever owns it, lists the contact any more; each keeps its other contacts and every other field, and a job that did not list it is unchanged |
| ContactsController.DeleteContact | server/src/controllers/contacts.js:155-179 | 404 before 401 with nothing changed; otherwise the contact is removed and unlinked from every job; reminders are untouched |
| Notification.NextReminderDate | server/src/utils/reminderNotificationService.js:136-158 | a next date exists iff the frequency is not None; it is now plus one, seven or fourteen days, or one calendar month later, and so after now |
| Notification.NextDateOrder | server/src/utils/reminderNotificationService.js:142-150 | Daily comes before Weekly, which comes before Bi-weekly |
| Notification.Sent | server/src/utils/reminderNotificationService.js:108-126 | a sent reminder records now as its last notification; it is marked sent iff it does not repeat; a repeating one moves its reminder time and next date to the next date; nothing else changes |
| Notification.SentOnceNeverDueAgain | server/src/utils/reminderNotificationService.js:108-112 | a reminder that does not repeat is never found again after its e-mail |
| Notification.RescheduledDueFromNextDate | server/src/utils/reminderNotificationService.js:116-126 | a repeating reminder is found again exactly from its next date on, while it is open and e-mailed, and never in the same pass |
| Notification.SentValid | server/src/utils/reminderNotificationService.js:108-126 | sending keeps a reminder valid and under its id |
| Notification.SendReminderEmail | server/src/utils/reminderNotificationService.js:19-133 | the result is whether the mail went out; only then the reminder is replaced by its sent state; nothing else changes |
| Notification.NotifiedStep | server/src/utils/reminderNotificationService.js:181-191 | handling one more found reminder changes that reminder alone, and only when its mail is delivered |
| Notification.OnlyUndeliveredStayDue | server/src/utils/reminderNotificationService.js:161-198 | after a pass, the reminders found at the same instant are exactly the found ones whose user is missing or whose mail failed |
| Notification.CheckAndSendReminders | server/src/utils/reminderNotificationService.js:161-198 | a failing query sends nothing and answers false; otherwise every found reminder with a user is sent, in any order, and only the reminders change |

## Left out

- HTTP and database plumbing are not modelled: Express routing, `populate`, ObjectId casting and `countDocuments`. Documents live in in-memory maps and references are plain ids.
- The listings' result order is not modelled: the `sort` of the job and reminder listings and Mongo's storage order. `RemindersController.Matching` keeps a given order.
- The text search of the listings is not modelled.
- The job and contact listing filters are not modelled. Only the pagination arithmetic the three listings share is.
- The read-only handlers `getJob`, `getContact` and `getReminder`, and the handlers `deleteReminder` and `updateContact`, are not part of this model. They look a document up, check the 404/401 order modelled in `Store`, and then return, delete or update it through Mongoose with no rule of their own. `deleteJob` and `deleteContact` are modelled (`JobsController.DeleteJob`, `ContactsController.DeleteContact`) because they also pull the deleted id from every linked document.
- The job statistics of `analytics.js` (rates, average response days) are not modelled. They are floating-point presentation figures.
- `scrapeJobPosting` performs network I/O. Its result is the parameter `scrape`, and a failed scrape is `None`.
- `Promise.all` over the listed contacts or jobs is modelled as a loop in list order. For createContact the schedule in which every callback loads its job before any save is modelled as well (`ContactsController.LinkContactAllAtOnce`). Other interleavings of the concurrent saves are not modelled.
- JobsController.ApplyPatch: the body fields modelled are company, title, status, location, salary and notes. Other keys `findByIdAndUpdate` would copy are not modelled.
- RemindersController.ApplyPatch: only title, description, due date, completion and priority are modelled.
- JobsController.MergeInterview: its contract states only that the id is kept and that an empty body changes nothing. The field-by-field override is in its body and in `UpdateInterviewResult`.
- JobValue.UpdateJobValue: the body keys modelled are location, the cost-of-living index and its source, the industry average, the normalised salary, the value ratio and `customWeights`. The schema's `compareData`, `job` and `user` keys, and keys outside the schema, are not modelled. A `customWeights` value is modelled as a complete set of weights. A partial object, whose missing weights Mongoose fills with the schema defaults, is not modelled.
- JobValue.CompareJobs: a job without a salary has a NaN score, which makes the comparator inconsistent, so the engine decides the order. The model ranks such a row as a score of 0 and promises only a permutation unless every total is a number.
- JobValue.CompareJobs: the custom-weight saves are started and not awaited. The model applies them all before answering, and a failed save is not modelled.
- JobValue.CompareJobs: an owned id listed twice without a valuation may get two valuations created concurrently. The model creates one.
- Common.Utf16Length: Dafny characters are Unicode scalar values, so strings holding unpaired surrogates are not modelled.
- Dates and locales are parameters: `toLocaleDateString` and the other formatted date texts are `dateText`, `dueText`, `amountText`, `day` and `minute`. Invalid dates are modelled only where a page checks them (`isOverdue`, where a date that does not parse is `None`).
- Notification.NextReminderDate: a day is exactly 86400000 ms, so daylight-saving shifts of `setDate` are not modelled. "One calendar month later" is the parameter `monthLater`.
- Dashboard.Midnight: the local time-zone offset is a fixed parameter. Daylight-saving changes between two dates are not modelled.
- Notification.SendReminderEmail: the e-mail text and HTML, `formatDate` and `sendEmail` are not modelled. The mail server's answer is the parameter `delivered`. A database error between marking and rescheduling, which leaves a reminder marked but not rescheduled, is not modelled. Neither is a `User.findById` that throws inside the pass of `checkAndSendReminders`: it ends the whole pass through the outer `catch` after some e-mails have gone out, while the model has only `queryFails` for the initial query.
- The cron schedule that runs the e-mail pass (`initReminderNotifications`) is not modelled. Neither is console logging.
- MarketComparison.FetchMarketData: the retry and back-off loop against the job-value service is not modelled. What it finally obtains is the parameter `answers`, the jobs for which both requests succeeded. Toasts and the loading flags' rendering are not modelled.
- SankeyChart.BuildFlow, Dashboard.DashboardStats, MarketComparison.LoadJobs, FlowComparison.CountsRelated: each takes the list it is given. In the program the client pages request the listings with no query and so receive only the first ten documents (`Paging.FirstPage`), while the server's flow data counts every job. `ClientFetch` states the consequence for the chart and the dashboard; `CountsRelated` relates the two copies on the same input, which in the program they share only when the user has at most ten jobs.
- The reminders page, and the job and contact menus of the reminder form, also receive only the first page of their listing. `ReminderList` takes the list it is given.
- The duck-typed unwrapping of responses (`data.data` or a bare array) on the client pages is not modelled. The lists arrive already unwrapped.
- `OfferComparison` values the offers over exact reals. `NaN` from an empty numeric input is not modelled.
- `ReminderList` sorting compares exact times. The `NaN` an invalid date gives the comparator is not modelled.
- Common.ToLower: only ASCII letters are lowered. Likewise `trim`'s white space is a fixed character set, and `\w` is ASCII.
- Sorting.SortBy: the sort is stable, as `Array.prototype.sort` is, but stability is not stated.
- `JobValue` looks cities up only in the tables' own keys. JavaScript's inherited object keys (such as `constructor`) are not modelled.

## Findings

| source | as written | input that shows it | evidently intended | confidence | as-written member | corrected member |
|---|---|---|---|---|---|---|
| server/src/controllers/jobs.js:159-170 | the Status Change entry is pushed onto the loaded job, which is never saved; `findByIdAndUpdate` then writes the body alone, so the entry is lost | an owned job at Applied, body `{ status: "Interviewing" }`: the returned and stored job has the same activity log as before | the status change is recorded in the job's activity log | not executed | JobsController.UpdateJobAsWritten | JobsController.UpdateJobIntended |
| client/src/pages/JobValueComparison.tsx:32-61 | `defaultOffer` holds one benefits object, and every offer spread from it shares that object; a benefit edit writes into the shared object | the initial page: ticking health insurance on the first offer ticks it on the second as well | a benefit edit changes only the offer being edited | not executed | OfferComparison.SharedBenefitLeaks | OfferComparison.EditSeparate |
| client/src/pages/JobValueComparison.tsx:66-76 | `addJobOffer` spreads `defaultOffer`, so the new offer holds the same benefits object that earlier benefit edits wrote into | the initial page: tick health insurance on the first offer, then add an offer; the third offer starts with health insurance ticked | a new offer starts with the default benefits | not executed | OfferComparison.AddedOfferInheritsEdits | OfferComparison.AddOffer |
| server/src/controllers/contacts.js:106-117 | under `Promise.all` every callback loads its job before any save, so the `includes` test does not see the other callbacks' pushes | a body listing the same owned job twice, `jobs: [J, J]`: the job lists the new contact twice | each job lists the contact once | not executed | ContactsController.RepeatedJobListedTwice | ContactsController.LinkContactAllEffect |
| client/src/components/SankeyChart.tsx:61-62 | the chart requests `/api/jobs` with no query, meaning to analyse every job, and the listing answers only the first page of ten | eleven or more jobs that are not Not Applied: the chart shows at most ten jobs leaving Applied | the chart covers every job of the user, as the server's flow data does | not executed | ClientFetch.SankeySeesFirstPage | ClientFetch.SankeyOverAllPages |
| client/src/pages/Dashboard.tsx:37-41 | the three totals are the lengths of the unqueried listings, each at most ten | a user with eleven jobs: the dashboard reports ten | the totals count every job, contact and reminder | not executed | ClientFetch.DashboardSeesFirstPages | ClientFetch.DashboardOverAllPages |
| client/src/pages/JobValueComparison.tsx:34-46 | `defaultOffer` is built once at module level, and every mount spreads its initial offers from it, so its benefits object outlives the page | tick health insurance on the first offer, leave the page and open it again: both initial offers start with health insurance ticked | every visit starts from the default benefits | not executed | OfferComparison.RemountKeepsEdits | OfferComparison.InitialSeparateObjects |
| server/src/controllers/reminders.js:241-271 | the test e-mail goes through `sendReminderEmail`, which marks the reminder as sent (or moves a repeating one to its next date) whatever its state | an owned one-off reminder due tomorrow, test e-mail delivered today: the periodic pass never sends its real e-mail | a test e-mail leaves the reminder's schedule alone | not executed | RemindersController.SendTestEmail | RemindersController.SendTestEmailIntended |
| server/src/controllers/jobValue.js:491-539 | the first table key the title contains wins, and "software engineer" precedes "senior software engineer" | title "Senior Software Engineer": matched to the "software engineer" row, median 105000 | the senior row, median 140000 | not executed | JobValue.SeniorTitleShadowed | JobValue.SeniorTitleMatched |
