# Verification of the Qiniu exporter's collection core

This Dafny 4.11 project models the collection core of a Prometheus exporter for Qiniu and proves laws about it. The
exporter polls Qiniu's CDN, Kodo and billing interfaces under strict rate limits. The centre is the CDN usage engine: it
isolates rejected domains by bounded bisection, backfills a month of five-minute bandwidth into a resumable cache,
aggregates per-domain and account figures over aligned grids, and publishes whole-account snapshots while discovery
changes the scope. Around it stand the limiter and HTTP client, the billing caches, telemetry, the snapshot stores and
bucket discovery.

`dafny verify dfyconfig.toml` checks everything.

## How it is built

Instants are nanoseconds on the UTC+8 wall clock; a month-length function supplies the calendar. Code that changes state
step by step is a method or a class over the same fields, proved equal to a specification function or predicate; the
laws are lemmas about those functions and hold for every run. An upstream is a function of the request and of how many
requests came before, so it may fail, reject or answer in any pattern. Where a law needs the upstream's reports to be
consistent, it compares them with a fixed ground truth. Amounts are exact reals with the largest finite float64 as the
overflow limit; bandwidth laws use only the order and one fixed left-to-right sum.

| file | models |
|---|---|
| `Core`, `Clock` | sequences, sums, earliest maximum, chunks; calendar |
| `UsagePoints`, `Usage`, `UsageAggregation`, `TrafficAggregation`, `UsageTable`, `UsageReports` | time axes, validation and the two aggregators, against one table of buckets by domains and against the responses' own values |
| `CdnMerge` | merging adjacent periods |
| `Isolation`, `Metering` | the bisection, and its use per batch of fifty |
| `MonthCache` | the resumable month-to-date bandwidth cache |
| `MonitoringRound`, `UsageSnapshot`, `UsageLaws`, `UsageJob` | a round of requests, the snapshot built from it, and the laws of the whole job |
| `ScopeProtocol`, `Stores` | discovery against concurrent rounds; catalog and snapshot stores |
| `Freshness` | configuration bound, scheduler jitter, safe window and staleness together |
| `Limiter`, `AuthHttp`, `Slots` | adaptive pacing, the attempt loop, slots shared by many clients |
| `BillingSchedule`, `BillingHistory`, `DailyEstimates` | finance calendar, rolling history, telescoping daily costs |
| `Telemetry` | per-resource health and its aggregates |
| `Buckets` | paginated bucket listing |

## What the proofs brought to light

- Admission reserves 208 requests per batch of fifty domains. A bisection in which nothing fails uses an odd number of
  attempts, so it stops at fifteen of sixteen, and a failing chunk ends the backfill: 197 is already an upper bound, and
  48 once any domain failed monitoring (`UsageJob.RoundRequests`). With healthy upstreams the number is exact
  (`UsageJob.HealthyRequests`).
- The hour of a snapshot can be built exactly when it does not start before the queried midnight; a slowest batch one
  hour behind is always fine, five minutes more is not (`UsageLaws.HourCoverage`, `WindowAllowsAnHour`, `WindowIsTight`).
- The configuration bound keeps a snapshot loadable until the next round starts, not until that round publishes; the
  exact bound for the latter is larger, and accepted defaults lie below it (`Freshness.LoadableUntilPublished`,
  `GapBelowBound`, `DefaultsAllowAGap`).
- A round loses nothing but the invalid domains: when the upstream rejects exactly the requests that name one, and every
  batch of fifty holds at most one it has not met before, all others are collected and exactly the invalid ones enter the
  negative cache (`UsageLaws.RejectingRound`, `OneUnknownIsWithinBudget`).
- The collector's last-success gauge depends on map iteration order exactly when the gauge is present, one resource has no
  recorded success and another failed after a success (`Telemetry.OrderMattersForLastSuccess`); one success, one failure
  and one discovery lead there (`ReachOrderDependence`).
- The daily estimates recover after a failed run exactly when the bills cached for the earlier days of the month are all in
  one supported currency (`DailyEstimates.RecoverableExactly`). A bill is cached before it is checked, so one run answered
  in two currencies ends that (`BadBillIsCached`), and then every later run of the month fails whatever the upstream
  answers (`BadBillSticks`).
- Host before endpoint is one common order for all clients only because no limiter is one client's host and another's
  endpoint. The exporter wires them so, and then they never block each other (`Slots.WireClients`,
  `ClientsNeverDeadlock`, against `OppositeOrdersDeadlock`).
- `DESIGN.md` justifies 208 as two calls over sixteen attempts, sixteen traffic calls and ten windows of sixteen; the
  code makes fewer, as above, and the model follows the code.

## Model

| member | source | states |
|---|---|---|
| UsagePoints.AlignedIsMultiple | internal/qiniu/cdn/usage.go:356-370 | the field-by-field alignment test is exactly divisibility of the instant by the bucket length |
| UsagePoints.ParseUsagePoints | internal/qiniu/cdn/usage.go:291-310 | accepts exactly the non-empty, aligned, gap-free axes and returns them unchanged; an empty axis is the no-safe-point error |
| UsagePoints.UsagePeriodIndexes | internal/qiniu/cdn/usage.go:312-354 | succeeds exactly when the period is valid and lies within the axis, and then selects exactly the period's bucket starts |
| UsagePoints.LatestSafeIndex | internal/qiniu/cdn/transform.go:331-364 | finds the last bucket that ends no later than the safe point, and succeeds exactly when the axis is a grid whose first bucket is safe |
| Usage.ValidateUsageDomains | internal/qiniu/cdn/client.go:444-459 | accepts exactly one to fifty distinct domains |
| Usage.ValidateSeries | internal/qiniu/cdn/transform.go:366-386 | accepts exactly an empty series, or one value per point, each finite and not negative |
| Usage.ValidateUsageResponse | internal/qiniu/cdn/usage.go:253-289 | accepts exactly the business-ok responses on a grid, without foreign domains and with valid series |
| Usage.AcceptDomains | internal/qiniu/cdn/usage.go:219-228 | a batch's domains are appended exactly when they are well formed and none was seen before, across batches too |
| Usage.ValidateUsageBatches | internal/qiniu/cdn/usage.go:200-251 | succeeds exactly when every batch is valid, covers the period and no domain repeats; the axes then agree |
| UsageAggregation.ObserveExtendsPeak | internal/qiniu/cdn/usage.go:165-172 | scanning buckets one by one computes the earliest maximum and whether any bucket was positive |
| UsageAggregation.AggregateBandwidthUsage | internal/qiniu/cdn/usage.go:123-185 | returns the earliest peaks of every domain and of the account over the period, exactly when the input is valid five-minute data and no account value overflows; each domain's peak is its largest reported value, dated by the first bucket that reports it |
| TrafficAggregation.SumSeries | internal/qiniu/cdn/usage.go:92-109 | both regional sums of a domain over the range, failing exactly when their total overflows; an omitted domain counts as zero |
| TrafficAggregation.AggregateTrafficUsage | internal/qiniu/cdn/usage.go:72-118 | per-domain and account totals over the period, exactly when the input is valid and the account total does not overflow; each regional total is the sum of what the response reports for the period |
| UsageReports.CellCarries | internal/qiniu/cdn/transform.go:388-393 | every table cell carries the two regional values of its own response at its own instant, zero for an empty series or an omitted domain |
| UsageReports.ColumnsAreReported | internal/qiniu/cdn/usage.go:92-109 | a domain's column is its series at those of the response's instants that lie in the period, region by region |
| UsageReports.BucketsCounted | internal/qiniu/cdn/usage.go:312-354 | a period has one bucket for each of the response's instants in it |
| UsageReports.TrafficReports | internal/qiniu/cdn/usage.go:72-118 | period, bucket count, regional totals, bytes and activity of every domain in its response's own values |
| UsageReports.WholeAxisTraffic | internal/qiniu/cdn/usage.go:92-109 | on an axis that is the period itself the totals are the sums of the whole series |
| UsageReports.PeaksReport | internal/qiniu/cdn/usage.go:149-172 | no reported value of the period exceeds the peak, earlier ones are smaller, and the peak is reported at its own time |
| UsageReports.AccountReports | internal/qiniu/cdn/usage.go:173-183 | no bucket's sum over all domains exceeds the account peak, earlier ones are smaller, and the peak is the sum at its own time |
| UsageTable.RowsAreTruth | internal/qiniu/cdn/usage.go:200-251 | batch boundaries and points outside the period leave no trace: valid honest batches of the same flattened domains give the same table |
| UsageTable.TruthRowsSplit | internal/qiniu/cdn/usage.go:312-354 | the buckets of a period are those of its two halves, for every split on the grid |
| UsageTable.RowsSplit | internal/qiniu/cdn/usage.go:312-354 | the same for the table of any batches |
| UsageTable.EarliestMaxConcat | internal/app/cdn.go:935-947 | the earliest maximum of two adjacent stretches: a tie goes to the earlier one |
| CdnMerge.MergeCdnBandwidthUsage | internal/app/cdn.go:913-949 | the loop computes the merge function, the misalignment errors included |
| CdnMerge.PeakConcat | internal/app/cdn.go:930-947 | keeping the earlier of two equal peaks is taking the peak of the concatenated buckets |
| CdnMerge.MergeIsConcatenation | internal/app/cdn.go:913-949 | merging the aggregates of two adjacent tables is aggregating the joined table, empty periods included |
| CdnMerge.SplitIsInvisible | internal/app/cdn.go:913-949 | for a < b < c on the grid, merging [a,b) and [b,c) equals aggregating [a,c), tie rule included |
| CdnMerge.MergeCdnTrafficUsage | internal/app/cdn.go:877-911 | with non-negative inputs it fails exactly on different domains or on overflow of the merged account total |
| CdnMerge.TrafficMergeIsConcatenation | internal/app/cdn.go:877-911 | merging traffic of adjacent tables is aggregating the joined table, and never meets different domains |
| CdnMerge.AccountIsBucketSum | internal/qiniu/cdn/usage.go:89-116 | summing by domain and summing by bucket give the same account total |
| Isolation.Search.Collect | internal/app/cdn.go:440-482 | the recursive closure over shared counters, results, failures and negative cache computes the outcome function |
| Isolation.IsolationPartitions | internal/app/cdn.go:440-482 | for any upstream the collected and the failed domains interleave to exactly the input, each in input order |
| Isolation.ExactlyOneFate | internal/app/cdn.go:440-482 | no domain is both collected and failed, and none is dropped |
| Isolation.AttemptsWithin | internal/app/cdn.go:443-449 | sixteen attempts are never exceeded |
| Isolation.SearchIsLogged | internal/app/cdn.go:440-482 | for any upstream a list of attempts, numbered by the requests they made, accounts for all requests, every collected batch and every failure |
| Isolation.LogNumbers | internal/app/cdn.go:449-450 | attempts never share a request number, and the next number is behind all of them |
| Isolation.CallsCounted | internal/app/cdn.go:449-450 | every attempt counts, and every answered attempt in full |
| Isolation.OtherErrorsEnd | internal/app/cdn.go:466-475 | any error but 400032 ends the search after one attempt, and every domain fails with it |
| Isolation.CallsWithin | internal/app/cdn.go:449-450 | requests are bounded by attempts times the requests of one attempt |
| Isolation.CompleteSearchIsOdd | internal/app/cdn.go:442-481 | a search without failures uses twice its collected batches minus one attempts and marks nothing |
| Isolation.CompleteSearchAttempts | internal/app/cdn.go:443-449 | hence it stops at fifteen |
| Isolation.InvalidWasRejectedAlone | internal/app/cdn.go:473-480 | only a domain that was itself answered 400032 on its own enters the negative cache, and it is also reported failed |
| Isolation.SucceededWasAnswered | internal/app/cdn.go:450-465 | every collected batch is a non-empty contiguous piece of the input that the upstream answered with exactly the recorded payload |
| Isolation.CeilLog2IsLeast | internal/app/cdn.go:467-472 | the level count is the least exponent whose power of two reaches the number of domains |
| Isolation.IsolationCost | internal/app/cdn.go:440-482 | when exactly the pieces of the input that name an invalid domain are rejected, k invalid ones among n cost at most 1 + 2k·ceil(log2 n) attempts; within that budget exactly the valid ones are collected and exactly the invalid ones marked |
| Isolation.SingleInvalidDomain | internal/app/cdn.go:440-482 | one invalid domain in a batch of fifty costs at most thirteen attempts, so the other forty-nine are always collected |
| Isolation.AllRejectedCost | internal/app/cdn.go:440-482 | when everything is rejected n domains take exactly 2n - 1 attempts, or all that are left |
| Isolation.SixteenAttempts | internal/app/cdn.go:443-449 | a batch has sixteen attempts, no more and no fewer |
| Isolation.StillSeparated | internal/app/cdn.go:440-482 | they always tell apart one invalid domain among fifty, two among eight, three among four |
| Metering.Batches | internal/app/cdn.go:977-984 | cuts a list into consecutive pieces of the given size |
| Metering.FetchMeteringBatches | internal/app/cdn.go:575-616 | one fresh attempt budget per batch over shared results and failures |
| Metering.AllPartitioned | internal/app/cdn.go:575-616 | over all batches every domain has one fate and the order is kept |
| Metering.CompleteIsInput | internal/app/cdn.go:649-660 | when nothing failed, the collected requests spell out the input, so index-wise merges line up |
| Metering.AllSucceed | internal/app/cdn.go:592-600 | when every request is answered at once, nothing fails and the collected requests are those made |
| Metering.AllSeparate | internal/app/cdn.go:575-616 | over all batches, too, exactly the valid domains are collected and exactly the invalid ones fail, in input order |
| Metering.OneInvalidIsAffordable | internal/app/cdn.go:584-592 | one invalid domain in every batch of fifty stays within sixteen attempts each |
| Metering.AllCalls | internal/app/cdn.go:575-616 | at most 16 attempts' requests per batch of fifty, 15 when nothing failed |
| Metering.AllLogged | internal/app/cdn.go:575-616 | one log of attempts accounts for all batches |
| MonthCache.FetchChunk | internal/app/cdn.go:644-659 | a chunk yields its aggregate exactly when every domain answered and the data is valid and finite |
| MonthCache.LoadCompletedMonthBandwidth | internal/app/cdn.go:618-671 | the chunk loop over the shared cache leaves the cache, the result and the request count of the load function; a missing cache is an error |
| MonthCache.ChunkIsTruth | internal/app/cdn.go:649-659 | an accepted chunk is the true aggregate of its days |
| MonthCache.MergeKeepsTruth | internal/app/cdn.go:660-668 | extending a true cache by a true chunk never fails and gives the true cache of the longer period |
| MonthCache.ExtendKeepsTruth | internal/app/cdn.go:643-670 | whatever chunk fails, the cache left behind is true, its boundary never moves back, and a result is returned exactly when the target is reached |
| MonthCache.LoadKeepsTruth | internal/app/cdn.go:618-671 | one whole load: reset exactly when month, scope or boundary demand it, then resume; the returned aggregate is the cached one |
| MonthCache.CacheIsOneShot | internal/app/cdn.go:618-671 | a true cache equals what one aggregation over [month start, boundary) of any honest batches returns: peaks, earliest times, flags, count |
| MonthCache.RunKeepsTruth | internal/app/cdn.go:618-671 | over any run of loads, with failures, scope changes and month rollovers, the cache stays true |
| MonthCache.ProgressIsKept | internal/app/cdn.go:632-669 | while month and scope stay and the day does not move back, the boundary never moves back over the run |
| MonthCache.ServedBatches | internal/app/cdn.go:649-652 | a fully answered query collects every domain in batches valid for exactly the queried days |
| MonthCache.RejectingQuery | internal/app/cdn.go:575-616 | a metering query collects exactly its valid domains, in batches valid for exactly the queried days, and loses exactly the invalid ones |
| MonthCache.ServedChunk | internal/app/cdn.go:644-656 | the inclusive dates asked for are exactly the days of the chunk, so an answered chunk always arrives |
| MonthCache.ServedLoad | internal/app/cdn.go:618-671 | when every query is served one load reaches today, whatever the cache held before |
| MonthCache.RequestsAreCounted | internal/app/cdn.go:592-600 | a metering query counts every request: the k-th attempt is request number calls + k, and nothing else is counted |
| MonthCache.WindowLength | internal/app/cdn.go:644-652 | a window spans three days, and only one that ends at today may be shorter |
| MonthCache.LoadKeepsWindows | internal/app/cdn.go:644-670 | every window that arrived is kept: a failed load leaves the boundary at the window that did not, the last one asked for, and each window counts at least one request a batch |
| MonthCache.ServedLoadCalls | internal/app/cdn.go:644-670 | when every query is served a load makes exactly one request for each batch of fifty and three-day window it lacks |
| MonthCache.LoadAsks | internal/app/cdn.go:644-652 | a load asks for nothing but five-minute data of at most three days at a time between its boundary and today |
| MonthCache.LoadCalls | internal/app/cdn.go:643-669 | at most ten windows: 151 requests per batch of fifty for every day, cached boundary and failure |
| MonitoringRound.SelectLatestSafe | internal/qiniu/cdn/transform.go:289-329 | accepts exactly valid responses with a safe bucket, and returns where that bucket ends; API codes are passed on |
| MonitoringRound.WindowShape | internal/app/cdn.go:532-554 | every instant of the window by what it means: safe point, today, hour, first and last queried day |
| MonitoringRound.FetchedIsUsable | internal/app/cdn.go:486-530 | an answered attempt carries the valid answers to its bandwidth and its flow request, whose data ends at one common bucket |
| MonitoringRound.CollectMonitoring | internal/app/cdn.go:425-484 | domains in the negative cache fail without a request, the rest are searched |
| MonitoringRound.CollectRound | internal/app/cdn.go:167-174 | the loop over batches of fifty, sharing results, failures and negative cache |
| MonitoringRound.RoundFates | internal/app/cdn.go:167-174 | every domain of the scope is answered or failed exactly once; without failures the answered requests spell out the scope |
| MonitoringRound.RoundCollects | internal/app/cdn.go:425-484 | what earlier batches mark does not disturb later ones: over the round exactly the valid unknown domains are collected, in scope order, and exactly the invalid ones marked |
| MonitoringRound.RoundSeparates | internal/app/cdn.go:425-484 | for every domain: collected exactly when valid and not known to be invalid, failed exactly otherwise, in the negative cache afterwards exactly when known before or invalid |
| MonitoringRound.RoundIsUsable | internal/app/cdn.go:450-465 | every batch handed to the usage snapshot is usable for exactly its domains, and both responses answer one attempt |
| MonitoringRound.TwoRequestsPerAttempt | internal/app/cdn.go:494-508 | an attempt makes at most two requests |
| MonitoringRound.AskCounts | internal/app/cdn.go:494-508 | an attempt makes its flow request exactly when the answer to its bandwidth request was usable, and counts both |
| MonitoringRound.RoundIsLogged | internal/app/cdn.go:164-174 | a log of attempts accounts for all requests of a round; every failure was answered, or its domain was known to be invalid |
| MonitoringRound.AnswersAreNumbered | internal/app/cdn.go:494-508 | the two requests of an answered attempt have their own numbers, shared with no other attempt |
| MonitoringRound.RoundCounted | internal/app/cdn.go:164-174 | a round counts at least two requests for each collected batch |
| MonitoringRound.RoundAsks | internal/app/cdn.go:486-498 | a round asks for nothing but the days of its window |
| MonitoringRound.RoundCalls | internal/app/cdn.go:167-174 | at most 32 requests per batch, 30 when no domain failed |
| MonitoringRound.CommonEndIsLeast | internal/app/cdn.go:460-462 | the round's data ends where its slowest batch ends |
| MonitoringRound.RoundDomains | internal/app/cdn.go:744-750 | bandwidth and traffic batches list the same domains in the same order |
| MonitoringRound.RoundCarries | internal/app/cdn.go:456-459 | bandwidth batches carry the answers to the bandwidth requests, traffic batches those to the flow requests of the same attempt |
| UsageSnapshot.BuildHour | internal/app/cdn.go:769-780 | the last complete hour before the common data end, failing on covered data only by overflow |
| UsageSnapshot.BuildToday | internal/app/cdn.go:781-794 | today up to the data end, or zero traffic when today has no data yet |
| UsageSnapshot.BuildMonthTraffic | internal/app/cdn.go:796-808 | completed days merged with today, failing on covered data of the same domains only by overflow |
| UsageSnapshot.BuildMonthBandwidth | internal/app/cdn.go:809-818 | completed days merged with today when both exist |
| UsageSnapshot.BuildDailyTraffic | internal/app/cdn.go:842-859 | the loop lists one entry per completed day and one for today, exactly when every day is valid and finite |
| UsageSnapshot.BuildCdnUsageSnapshot | internal/app/cdn.go:752-840 | every period, flag and day of the snapshot, in the responses' own values; it succeeds exactly when all its parts are covered and no account total overflows |
| UsageSnapshot.DailyOfReports | internal/app/cdn.go:842-859 | every listed day before the last has the bytes its own day responses report, the last one today's |
| UsageSnapshot.SnapshotIsReported | internal/app/cdn.go:752-840 | the hour is the last complete clock hour before the data end; flow responses are summed and bandwidth responses taken at their peaks; the month adds the completed days to today |
| UsageLaws.RoundIsAnswered | internal/app/cdn.go:164-174 | a round over distinct domains hands over distinct, usable batches |
| UsageLaws.RoundCovers | internal/app/cdn.go:769-794 | all batches together cover a period up to the data end exactly when it does not start before the queried midnight |
| UsageLaws.HourCoverage | internal/app/cdn.go:769-780 | the hour can be built exactly when its start does not precede the queried midnight |
| UsageLaws.WindowAllowsAnHour | internal/app/cdn.go:532-554 | for every clock and source lag, data at most one hour behind the safe point keeps hour and today inside the query |
| UsageLaws.WindowIsTight | internal/app/cdn.go:542-545 | a concrete clock at which five minutes more put the hour outside |
| UsageLaws.HourAndTodayCovered | internal/app/cdn.go:769-794 | with that lag both periods are covered by every batch |
| UsageLaws.CooperationIsPossible | internal/app/cdn.go:486-530 | for every clock and every set of invalid domains there is an upstream that rejects exactly the requests naming one |
| UsageLaws.CooperativeSearch | internal/app/cdn.go:486-530 | the two requests of an attempt together answer or reject every piece of a batch as the search expects, by error or by response code |
| UsageLaws.OneUnknownIsWithinBudget | internal/app/cdn.go:440-449 | one invalid domain not yet known in every batch of fifty stays within sixteen attempts each |
| UsageLaws.RejectingRound | internal/app/cdn.go:164-174 | when exactly the requests naming an invalid domain are rejected, the round collects every other domain not known to be invalid, the negative cache gains exactly the invalid ones, and the answered batches meet what coverage asks |
| UsageLaws.CooperativeRound | internal/app/cdn.go:164-174 | with no invalid domain the round is complete and meets what coverage asks |
| UsageLaws.CooperativeCalls | internal/app/cdn.go:164-174 | and makes exactly two requests for each batch of fifty |
| UsageLaws.MonthCoversDays | internal/app/cdn.go:849-856 | a day series covering the month covers each of its days |
| UsageLaws.MonthBandwidthIsOneShot | internal/app/cdn.go:809-818 | month-to-date bandwidth is the one-shot aggregate from the first of the month to the data end |
| UsageLaws.SnapshotIsCovered | internal/app/cdn.go:752-840 | with data at most one hour behind and the day series present, no coverage or alignment error is possible |
| UsageLaws.DaysAddUp | internal/app/cdn.go:842-859 | the listed days are consecutive and their bytes are the completed days' total plus today's |
| UsageLaws.Conservation | internal/app/cdn.go:796-859 | in a complete snapshot the days run from the first of the month to today, and their bytes, the month's account bytes and the two regions of all domains are one total |
| UsageJob.FetchCdnPriorMonthTraffic | internal/app/cdn.go:556-571 | day series of the completed days, none on the first of the month |
| UsageJob.CollectCdnUsage | internal/app/cdn.go:688-710 | the job up to publication: requests, cache, negative cache and snapshot are those of the specification |
| UsageJob.PriorDomains | internal/app/cdn.go:691-707 | a complete day series belongs to exactly the domains that answered, so the merge lines up |
| UsageJob.JobSuppliesMonth | internal/app/cdn.go:695-707 | the job leaves a true cache and supplies the month part that the snapshot assumes |
| UsageJob.JobIsCovered | internal/app/cdn.go:688-710 | whatever fails upstream, the snapshot itself can fail only by overflow |
| UsageJob.PriorServed | internal/app/cdn.go:563-570 | a served day series covers exactly the completed days of the month |
| UsageJob.HealthyJobCompletes | internal/app/cdn.go:688-710 | with healthy upstreams one job, from any true cache, has every part of a complete and covered snapshot |
| UsageJob.HealthyJobPublishes | internal/app/cdn.go:688-710 | such a job publishes unless an account total overflows |
| UsageJob.HealthyRequests | internal/config/config.go:384-391 | and makes exactly two requests for each batch of fifty, one more after the first of the month, and one for each three-day window the cache lacks |
| UsageJob.MonthPartMeans | internal/app/cdn.go:691-702 | the month is complete exactly when every domain answered, its traffic wanted exactly when every day series arrived, its bandwidth exactly when a complete round's cache has reached today |
| UsageJob.JobKeepsCache | internal/app/cdn.go:692-698 | an incomplete round leaves the cache as it was, a complete one never moves its boundary back |
| UsageJob.JobAsks | internal/app/cdn.go:688-702 | a job asks for nothing but its window's monitoring data, day series from the first of the month to yesterday, and the windows its cache lacks |
| UsageJob.RoundRequests | internal/config/config.go:384-391 | at most 197 requests per batch of fifty for every failure pattern, day and boundary, 48 after a monitoring failure |
| UsageJob.AdmittedRoundFits | internal/config/config.go:366-396 | an admitted scope's usage round, its requests counted for every upstream, fits the first-request rate beside the analytics share that admission computes |
| UsageJob.AdmitsExactly | internal/config/config.go:366-396 | a scope is admitted exactly when its counts are sound and its rates fit the budget |
| ScopeProtocol.StepKeepsInvariant | internal/app/cdn.go:125-138 | every atomic step of discovery, usage and top-IP rounds keeps published snapshots on the current scope |
| ScopeProtocol.AlwaysSafe | internal/app/cdn.go:714-723 | so it holds at every state of every interleaving, and a complete snapshot covers the whole scope |
| ScopeProtocol.HolderAdvances | internal/app/cdn.go:125-138 | the scope mutex is exclusive and its holder is never blocked |
| ScopeProtocol.HolderLeaves | internal/app/cdn.go:125-138 | the holder leaves after at most five of its own steps, undisturbed by others |
| ScopeProtocol.OutdatedRoundIsDropped | internal/app/cdn.go:286-296 | a round whose scope changed meanwhile publishes nothing |
| ScopeProtocol.RoundPublishes | internal/app/cdn.go:714-723 | a round whose scope is still current publishes in two steps, whatever others do in between |
| ScopeProtocol.DiscoveryReplaces | internal/app/cdn.go:125-138 | a discovery that finds the same list leaves both stores, one that finds another clears both, and either has set the scope when it leaves |
| ScopeProtocol.OnlyTheseChange | internal/app/cdn.go:125-138 | only publishing fills a store, and only discovery clears one or moves the scope |
| ScopeProtocol.WholeRound | internal/app/cdn.go:688-723 | a whole usage round on its own is always possible and publishes the current scope with the domains that answered |
| Stores.ResourceCatalog.Snapshot | internal/app/resources.go:21-25 | a fresh copy of the contents |
| Stores.ResourceCatalog.Replace | internal/app/resources.go:27-31 | the new contents, in the same buffer while it is large enough, otherwise in a new one |
| Stores.SnapshotSurvivesReplace | internal/app/resources.go:21-31 | a snapshot taken earlier is untouched by a later replacement of the buffer |
| Stores.StaleMeans | internal/snapshot/snapshot.go:114-123 | fresh means both instants are recent enough, and staleness is final |
| Stores.ResourceStore.Publish | internal/snapshot/snapshot.go:29-41 | stores the value unless the store is managed and the resource departed |
| Stores.ResourceStore.Retain | internal/snapshot/snapshot.go:45-59 | keeps exactly the listed resources, in any map order |
| Stores.ResourceStore.Load | internal/snapshot/snapshot.go:61-72 | exactly the values that are not stale |
| Stores.StoreHoldsLastGood | internal/snapshot/snapshot.go:20-59 | over every history each resource holds its own last accepted value since it was last retained |
| Stores.DepartedHoldsNothing | internal/snapshot/snapshot.go:32-36 | a departed resource holds nothing, however late a result arrives |
| Stores.Store.Load | internal/snapshot/snapshot.go:96-105 | the published value unless cleared or stale; metadata even when stale |
| Freshness.AcceptedInterval | internal/config/config.go:244-259 | the one bound on the longest realtime interval serves every enabled one |
| Freshness.AcceptsExactly | internal/config/config.go:244-259 | a configuration is accepted exactly when its floors hold and every enabled realtime interval meets the bound |
| Freshness.NeverOverlaps | internal/poller/scheduler.go:151-167 | a pass that honours its timeout never overlaps, and the next starts one jittered interval after it |
| Freshness.ScheduleDrift | internal/poller/scheduler.go:151-177 | over any run the drift stays within a tenth of the intervals |
| Freshness.LoadableAtNextStart | internal/config/config.go:254-259 | for every accepted configuration a snapshot is loadable until the next jittered pass starts |
| Freshness.LoadableUntilPublished | internal/config/config.go:254-259 | a larger bound suffices for loadability until the next publication |
| Freshness.GapBelowBound | internal/config/config.go:254-259 | and is necessary: below it some pass leaves a gap |
| Freshness.DefaultsAllowAGap | internal/config/config.go:173-176 | accepted default durations lie below that larger bound |
| Limiter.PacingInterval | internal/limiter/limiter.go:126-135 | between one nanosecond and the largest duration for every positive rate |
| Limiter.PacingAntitone | internal/limiter/limiter.go:126-135 | a slower rate never waits less |
| Limiter.PacingHonoursRate | internal/limiter/limiter.go:126-135 | the interval is the exact period rounded up, unless that exceeds every duration |
| Limiter.RateLimiter.TakeOrDelay | internal/limiter/limiter.go:93-120 | the new state, the delay and the grant are those of the transition function |
| Limiter.RateLimiter.OnRateLimited | internal/limiter/limiter.go:139-155 | cooldown, halving with its floor, and the recovery deadline |
| Limiter.RateLimiter.Acquire | internal/limiter/limiter.go:56-88 | granted at a poll that pacing and cooldown admit, and refused only when cancelled, without a slot, or never admitted; only a granted caller keeps its slot and moves the pacing clock |
| Limiter.GrantsPacing | internal/limiter/limiter.go:108-119 | consecutive grants are at least one base interval apart |
| Limiter.GrantWindow | internal/limiter/limiter.go:93-120 | n grants inside W nanoseconds satisfy (n-1) base intervals <= W, in every run |
| Limiter.CooldownRespected | internal/limiter/limiter.go:143-149 | nothing is granted for max(5s, retryAfter) after any rate-limit event |
| Limiter.DelayIsExact | internal/limiter/limiter.go:108-117 | a delayed caller is granted exactly from the instant it was told |
| Limiter.GrantPace | internal/limiter/limiter.go:118 | a grant moves the pacing clock by exactly one interval of the halved rate |
| Limiter.SteadyGrants | internal/limiter/limiter.go:93-120 | without rate limiting a caller is granted exactly when one interval has passed since the last grant |
| Limiter.CooldownIsSomeEvent | internal/limiter/limiter.go:143-149 | a cooldown ends no later than some event asked for: five seconds after it, or as much later as it said |
| Limiter.LimitedLevel | internal/limiter/limiter.go:150-154 | an event halves the rate, at most four times in all, and sets the recovery deadline |
| Limiter.TakeLevel | internal/limiter/limiter.go:97-106 | an attempt undoes at most one halving; recovery is pending exactly below the base rate |
| Limiter.RisesOnlyWhenQuiet | internal/limiter/limiter.go:97-106 | the rate rises only by one doubling, five quiet minutes after the last event or recovery |
| Limiter.FourAttemptsRestore | internal/limiter/limiter.go:97-106 | from every reachable state four such attempts restore the base rate |
| AuthHttp.Client.Acquire | internal/authhttp/client.go:229-285 | all distinct limiters of the attempt, each exactly once, or none |
| AuthHttp.Client.ReleaseAll | internal/authhttp/client.go:255-259 | gives back exactly one slot of each limiter held |
| AuthHttp.Client.RoundTrip | internal/authhttp/client.go:113-126 | the transport may be called only while every slot of the attempt is held |
| AuthHttp.Client.OnRateLimited | internal/authhttp/client.go:287-297 | host and endpoint are slowed once each, also when they are one limiter |
| AuthHttp.Client.Attempt | internal/authhttp/client.go:102-207 | one attempt leaves every held count as it found it, moves the cooldown of host and endpoint exactly after a rate-limited answer, and is refused only when its limiters are not all open or it was not backed off, replayable or signed |
| AuthHttp.Client.Do | internal/authhttp/client.go:78-214 | at most three attempts, retried only for retryable replies, ending with the last reply: two server errors lead to a third attempt, another answer ends at once; every refusal has its reason; every exit restores all held counts, and host and endpoint stay cooled after rate-limited answers |
| AuthHttp.Client.RetriesMean | internal/authhttp/client.go:93-99 | the configured retries, between none and two |
| AuthHttp.Client.RetryableMeans | internal/authhttp/client.go:209-213 | server errors are retried, other answers that are not rate-limited are returned |
| AuthHttp.CoolingCovers | internal/authhttp/client.go:199-201 | the cooldown that Do leaves on host and endpoint covers every rate-limited answer of its attempts |
| AuthHttp.ChainIsDistinct | internal/authhttp/client.go:239-282 | no attempt takes a limiter twice, and it takes every configured one |
| Slots.StepConserves | internal/authhttp/client.go:229-285 | every step of every client keeps slots in use equal to slots held and within capacity |
| Slots.AlwaysConserved | internal/authhttp/client.go:229-285 | so it is over every interleaving |
| Slots.AllFreeAtRest | internal/authhttp/client.go:255-259 | when no request is pending every slot is free |
| Slots.NoDeadlock | internal/authhttp/client.go:271-282 | with one order common to all chains, some client can always take its next slot or finish |
| Slots.ChainClimbs | internal/authhttp/client.go:261-282 | the slots of every attempt, first or repeated, climb in one order shared by all clients, when budgets have no slots and no limiter is one client's host and another's second limiter |
| Slots.ClientsNeverDeadlock | internal/authhttp/client.go:229-285 | in every run of attempts of such clients, some client can always take its next slot or finish |
| Slots.WireClients | cmd/qiniu-exporter/main.go:83-219 | the exporter's five clients over the limiters they share meet that condition |
| Slots.DropFrees | internal/authhttp/client.go:255-259 | a client may give up at any time and frees each slot it held |
| Slots.OppositeOrdersDeadlock | internal/authhttp/client.go:271-282 | without a common order two clients can block each other for good |
| BillingSchedule.SnapshotDayIsCurrent | internal/qiniu/billing/schedule.go:22-32 | a ready snapshot day is today or yesterday and in the current month |
| BillingSchedule.SnapshotDayIs | internal/qiniu/billing/schedule.go:22-32 | today from 08:15 on, before that yesterday, or nothing on the first of the month |
| BillingSchedule.FinalizedExactly | internal/qiniu/billing/schedule.go:34-41 | a month is finalized exactly when at least four full days have passed since its end |
| BillingSchedule.FinalizedHasSettled | internal/qiniu/billing/schedule.go:34-41 | a finalized month ended at least four full days ago |
| BillingSchedule.FinalizedMonotone | internal/qiniu/billing/schedule.go:34-41 | time never un-finalizes a month |
| BillingSchedule.Last12FinalizedPeriods | internal/qiniu/billing/schedule.go:48-55 | the loop yields the twelve calendar months ending at the latest finalized one |
| BillingSchedule.ValidMeansMonth | internal/qiniu/billing/schedule.go:66-76 | the validator accepts exactly the calendar months |
| BillingSchedule.TwelveConsecutiveMonths | internal/qiniu/billing/schedule.go:48-55 | those twelve are valid, adjacent, and end with the selected period |
| BillingHistory.FinalizedHistoryCache.Fetch | internal/app/billing.go:84-99 | a cached month costs no request; only a valid answer is cached |
| BillingHistory.FinalizedHistoryCache.Collect | internal/app/billing.go:41-82 | the loops over the cache compute the collection function, and keep the client's answers as below |
| BillingHistory.CallKeepsAnswers | internal/app/billing.go:41-99 | one call asks for missing months of the window, each once, up to the first failure; every supported answer is then cached, nothing else is, and exactly the cached months of the window are listed in order, on failure too |
| BillingHistory.CollectKeepsWindow | internal/app/billing.go:41-82 | a failure drops no month of the window, and complete means exactly twelve consecutive months ending at the latest |
| BillingHistory.RunIsConsistent | internal/app/billing.go:41-82 | over any run with a nondecreasing clock every supported answer is still cached or its month is behind every later window |
| BillingHistory.AtMostOnce | internal/app/billing.go:41-99 | no two requests of a run for one month are both answered with a supported bill, and at most twelve are ever cached |
| DailyEstimates.EstimateCache.Fetch | internal/app/billing.go:253-262 | only a missing day is requested, and its answer is cached before it is checked |
| DailyEstimates.EstimateCache.CollectDailyEstimates | internal/app/billing.go:245-277 | succeeds exactly when every bill is then present in one supported currency; only missing days are asked for, once each, every answer is kept, and a failure stops at the first day whose request fails or whose bill does not fit |
| DailyEstimates.EstimateCache.RunEstimate | internal/app/billing.go:145-183 | the scheduled job: its new state, requests and success are those of the run function, and the bill is published only with the estimates of its month |
| DailyEstimates.FillMeans | internal/app/billing.go:245-277 | what filling the days guarantees, from any cache and for any upstream |
| DailyEstimates.AnsweredIsNotAskedAgain | internal/app/billing.go:253-262 | a day answered in one collection stays cached and is never asked for by a later one, failed or not |
| DailyEstimates.RunKeepsBills | internal/app/billing.go:160-165 | a run replaces only its own day's bill and asks for no other cached day of the month |
| DailyEstimates.RecoversExactly | internal/app/billing.go:149-168 | with an upstream answering in one supported currency a run succeeds exactly when the bills cached for earlier days of the month are in that currency |
| DailyEstimates.RecoverableExactly | internal/app/billing.go:149-168 | some upstream makes a run succeed exactly when those bills are all in one supported currency |
| DailyEstimates.BadBillIsCached | internal/app/billing.go:255-272 | a run on the third of any month whose second day is answered in another currency leaves a cache that is not, supported or not; the same run succeeds otherwise |
| DailyEstimates.EstimatesTelescope | internal/app/billing.go:263-275 | the costs add up to the last cumulative bill, over consecutive days in one currency |
| DailyEstimates.EstimateIsDifference | internal/app/billing.go:263-275 | each cost is the difference of its day's bill and the one before, the first one its whole bill |
| DailyEstimates.PublicationAddsUp | internal/app/billing.go:166-176 | bill and daily estimates published together agree: the costs add up to the bill, in its currency |
| DailyEstimates.PublishedDifferences | internal/app/billing.go:263-275 | so it is for every published estimate |
| DailyEstimates.DaysOfTheMonth | internal/app/billing.go:245-277 | the days are exactly those of the month before the snapshot |
| DailyEstimates.ReadyAsksNothing | internal/app/billing.go:253-262 | with every day cached no bill is requested |
| DailyEstimates.BadBillSticks | internal/app/billing.go:149-168 | from such a cache every later run of the month fails, whatever the upstreams answer |
| DailyEstimates.PeriodIsMonthOfLastDay | internal/app/billing.go:279-286 | the covered period is the month of the last covered day, from its first day to the snapshot day |
| Telemetry.WalkMeans | internal/telemetry/metrics.go:298-325 | what each way of ending the walk over the resources says about them |
| Telemetry.OrderIrrelevantForSuccess | internal/telemetry/metrics.go:298-325 | success and oldest success do not depend on map order |
| Telemetry.OrderMattersForLastSuccess | internal/telemetry/metrics.go:308-322 | two orders of the map leave different last-success gauges exactly when the gauge is present, one resource has no success and another failed after one |
| Telemetry.ReachOrderDependence | internal/telemetry/metrics.go:125-168 | a success, a failure and a discovery lead to such a state, where discovery itself keeps or deletes the gauge |
| Telemetry.FailingKeepsGauge | internal/telemetry/metrics.go:314-317 | while every resource failed after a success the gauge is left as it was |
| Telemetry.Collector.UpdateAggregates | internal/telemetry/metrics.go:298-325 | for any map order, each resource visited once, the gauges are those of a walk in that order |
| Telemetry.Collector.UpdateDataTimestamp | internal/telemetry/metrics.go:327-347 | the oldest data time over all resources, or absent while one has none |
| Telemetry.Collector.ReplaceResources | internal/telemetry/metrics.go:125-168 | unchanged resources keep their history, removed ones leave no series, the gauges are those of some walk, and all gauge invariants hold |
| Telemetry.Collector.ObserveResourceResults | internal/telemetry/metrics.go:224-254 | results of configured resources only; the gauges are those of some walk, success is 1 exactly when all last succeeded, and last success is never later than any resource's |
| Telemetry.Collector.SetResourceDataTimestamp | internal/telemetry/metrics.go:274-296 | ignores zero times and unknown resources, and keeps every invariant |
| Buckets.AcceptPage | internal/qiniu/kodo/discovery.go:107-124 | a page is accepted exactly when its entries are well formed and no name repeats on any page so far |
| Buckets.SortBuckets | internal/qiniu/kodo/discovery.go:127-132 | a sorted permutation by name and region |
| Buckets.ListBuckets | internal/qiniu/kodo/discovery.go:80-150 | ends after at most 200 requests for every upstream; succeeds exactly when some number of pages is a well-formed listing, and returns one bucket for each of its entries, with name, region and visibility, in ascending order of names; otherwise nothing |
| Buckets.SortedIsInventory | internal/qiniu/kodo/discovery.go:119-132 | the sorted buckets show exactly the entries, and names strictly ascend |
| Buckets.BelowMeans | internal/qiniu/kodo/discovery.go:127-132 | the order is that of the first differing character, a prefix coming first |
| Buckets.OnePage | internal/qiniu/kodo/discovery.go:100-133 | up to a hundred well-formed buckets on a single page are a complete listing |
| Buckets.TwoPages | internal/qiniu/kodo/discovery.go:100-149 | so are up to two hundred on two pages |
| Buckets.ListingIsUnique | internal/qiniu/kodo/discovery.go:80-150 | that number of pages is determined by the upstream |

## Left out

- IEEE rounding: amounts are exact reals with a finite limit, so no claim is made about float associativity of traffic sums.
- HTTP, JSON, request signing and URL checks: each call is a function returning a typed answer or an error.
- Timestamps as text, domain-name and label validators: times start as integers, and those checks reject before the modelled code runs.
- Prometheus descriptors and histograms, dashboards, charts, process lifecycle and YAML loading.
- Top-IP merging, per-domain analytics samples, Kodo queries, resource packs and display of amounts.
- The Kodo part of admission.
- UsageJob.AdmittedRoundFits: takes the analytics and top-IP share as admission's own formula; only the usage round's requests are counted against the code that makes them.
- MonitoringRound.SelectLatestSafe: does not tell validation errors other than API codes apart, because no later decision depends on the kind; the per-domain sample values it also returns are not modelled.
- MonitoringRound.CollectRound: reads one negative cache that only this round extends, while the source lets analytics rounds and discovery change it between batches.
- MonthCache.RunKeepsTruth: takes the upstream's reports of completed days as fixed; a later correction of history is not noticed by the source either.
- UsageLaws.MonthBandwidthIsOneShot: assumes the monitoring and the metering interface report the same five-minute bandwidth.
- UsageLaws.SnapshotIsCovered: takes the day series as valid and covering when every domain answered, since the source checks it only while building the snapshot.
- Freshness.NeverOverlaps: takes a tenth of an interval as integer division where the source multiplies by 0.1 in floating point.
- Limiter.PacingInterval: divides exact reals and rounds up, where the source divides float64 values.
- Limiter.RateLimiter.Acquire: shows the caller a finite list of polls; whether a waiting caller is ever woken is left to the timer.
- Stores.ResourceCatalog.Replace: a buffer that is too small is replaced by one of exactly the new length, while Go may allocate more.
- Telemetry.Collector.ReplaceResources: models one collector key; the source keeps one such record per key and never mixes them. Direct writes of InitCollector, ObserveJob and SetDataTimestamp to unmanaged keys are not modelled.
- DailyEstimates.EstimatesTelescope: counts money in whole smallest units without the 64-bit wrap-around of the fixed-point type.
- Buckets.ListBuckets: identifier and marker checks are arbitrary predicates, the storage-region label is dropped, and the standard sort is an insertion sort.
