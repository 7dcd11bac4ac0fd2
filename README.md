# synapse-cloudwatch-dashboard, modelled in Dafny

The system keeps a CloudWatch dashboard for the Synapse stacks. It has two halves that share
one JSON document in S3:

* `configuration.py` discovers, for one stack version, the EC2 instance ids of the repo,
  workers and portal environments, the memory-reporting VM ids, the worker names and the
  repository load balancer's name. It merges each list into the document under a key
  `{version}-{category}`, adding only values not yet recorded, and saves the document.
* `synapse_cloudwatch_dashboard_stack.py` loads that document when the stack is built. It
  turns the stored lists, together with the stack versions from the context, into the metric
  series of the dashboard's graph widgets.

The model has six modules:

* `Common` holds the document type, the shared key convention, and the error taxonomy: one
  constructor per exception the source raises. `Result` and `Option` stand for raised
  exceptions and `None`.
* `Text` holds Python's `str.find`, `str.split(',')` with its inverse `Join`, and the pieces
  of the ALB regular expression: digit runs, and `.+` up to a newline.
* `Providers` holds `AwsProvider` (a class built from an optional session) and
  `ConfigurationProvider` (a class with its setters and the precondition checks of
  `load_raw_configuration`).
* `RealTime` holds the instance-label grammar, the namespace builders, the resolvers over
  cloud responses (passed in as values) and the ALB ARN parser.
* `AppConfig` holds the merge, specified by `MergeEntry` and implemented in place with a
  loop by `AppConfiguration.UpdateConfigurationEntry`. It also holds the seven-step
  discovery run and its specification `ApplyEntries`.
* `Dashboard` holds the document location, `init_config` and the series of every widget
  that depends on the document or the versions, except FileScanner: CPU, network, memory,
  worker statistics, RDS, active connections, CloudSearch, query performance and the ALB.
  The per-version widgets that read the document are `for` loops proved against the
  recursive specification `SeriesMetrics`. `BuildStack` is the stack's constructor. A
  closing lemma ties the writer to the reader: after an update that did not fail, the
  dashboard of that version finds every key it reads, and every discovered EC2 id, VM id,
  worker name and ALB name among its series.

The model follows the code in these behaviours, some of which its comments and names do not suggest:

* `update_configuration` has no partial-failure recovery. The first exception ends the run,
  the merges already done stay in memory, and nothing is saved (`UpdateConfiguration`,
  `ApplyEntriesAbsorbs`).
* The ALB name is everything after `:loadbalancer/` up to the first newline. It is not
  the last path segment (`ParseAlbArnComplete`, `AlbNameExample`).
* Nothing keeps a stored list free of duplicates, although the merge only adds values not
  yet recorded. `MergeKeepsUnique` proves a list stays duplicate-free when the offered values
  are distinct. `MergeKeepsRepeatedValues` shows a new value offered twice is stored twice.
* `update_configuration` and `get_repo_alb_name` use module-level globals
  (`realtime_config`, `app_config`, `aws_provider`) instead of `self`. The model reads
  them as the object's own collaborators, which is what the script at the bottom of
  `configuration.py` binds them to.
* A document that could not be loaded is `None`, and the first `update_configuration_entry`
  then fails on it (configuration.py:222, 258; `NoDocumentFails`).
* A missing provider makes the final save fail after every step has run
  (configuration.py:255; `UpdateConfiguration`).
* The dashboard fails on a version whose `vmids` or `workers-names` key is missing
  (stack file lines 43 and 57; `SeriesFirstMissing`), while a missing EC2 or ALB key only
  contributes nothing (`FlattenSingle`).

## Model

| member | source | states |
|---|---|---|
| `Text.Find` | configuration.py:103-105 | the index of the first occurrence, or -1 exactly when the character is absent |
| `Text.Split` | synapse_cloudwatch_dashboard/synapse_cloudwatch_dashboard_stack.py:323 | at least one field, no field holds the separator, and joining the fields restores the input (empty fields kept) |
| `Text.SplitJoin` | synapse_cloudwatch_dashboard/synapse_cloudwatch_dashboard_stack.py:316-323 | splitting a comma-join of separator-free parts gives the parts back |
| `Text.DigitRun` | configuration.py:207 | the longest prefix of ASCII digits that `\d+` consumes |
| `Text.Line` | configuration.py:207 | the longest newline-free prefix that the greedy `(.+)` consumes |
| `Providers.AwsProvider.constructor` | configuration.py:10-23 | with a session, the five clients and the s3/ec2 resources built from it; without one, none |
| `Providers.AwsProvider.GetClient` | configuration.py:25-35 | raises exactly for names outside the five client types; returns an error value for an unbound valid name, else the bound client |
| `Providers.AwsProvider.GetResource` | configuration.py:37-43 | the same three outcomes over s3, ec2, rds |
| `Providers.NoSessionBindsNothing` | configuration.py:10-43 | without a session every valid name yields the returned error value |
| `Providers.SessionBindsClients` | configuration.py:16-43 | with a session each valid client name yields that session's client; "rds" is accepted as a resource but never bound |
| `Providers.ConfigurationProvider.constructor` | configuration.py:47-50 | stores the client, bucket and key as given |
| `Providers.ConfigurationProvider.SetFileKey` | configuration.py:55-56 | replaces the key, keeps the rest |
| `Providers.ConfigurationProvider.SetBucketName` | configuration.py:61-62 | replaces the bucket, keeps the rest |
| `Providers.ConfigurationProvider.SetS3Client` | configuration.py:67-68 | replaces the client, keeps the rest |
| `Providers.ConfigurationProvider.LoadRawConfiguration` | configuration.py:70-84 | a `None` location part raises first, an empty one next; the result is `Ok` exactly when both checks pass, and then the document exactly when the client is a bound s3 client and the read parsed |
| `Providers.LoadFailuresAreSwallowed` | configuration.py:76-84 | past the checks, a bad body, a storage failure or an unusable client all give `None`, never an exception |
| `RealTime.InstanceFromStackInstance` | configuration.py:102-107 | fails exactly when the label has no '-', else the (possibly empty) text before the first '-' |
| `RealTime.InstanceCodeUnique` | configuration.py:102-107 | a label has one instance code |
| `RealTime.InstanceOfLabel` | configuration.py:102-107 | the code of `code-rest` is `code` when `code` has no '-' |
| `RealTime.WithPrefix` | configuration.py:109-125 | a family namespace: the prefix followed by the label's instance code, or the label error |
| `RealTime.WorkerStatsNamespace` | configuration.py:109-113 | "Worker-Statistics-" and the code, failing exactly on a label without '-' |
| `RealTime.AsyncWorkersNamespace` | configuration.py:115-119 | "Asynchronous Workers - " and the code, same failure |
| `RealTime.AsyncJobStatsNamespace` | configuration.py:121-125 | "Asynchronous-Jobs-" and the code, same failure |
| `RealTime.MemoryNamespace` | configuration.py:127-141 | a bad instance type raises whatever the label; "R" and "W" select the repository and workers prefixes |
| `RealTime.NamespaceDeterminesCode` | configuration.py:109-141 | two labels give the same namespace exactly when they have the same code |
| `RealTime.MemoryNamespacesDisjoint` | configuration.py:127-141 | repository and workers memory namespaces never coincide |
| `RealTime.NamespaceFamiliesDisjoint` | configuration.py:109-141 | namespaces of different builders never coincide: all nine pairs among worker statistics, asynchronous workers, asynchronous jobs and the two memory families |
| `RealTime.FirstDimensionValues` | configuration.py:146-147 | the first dimension value of each listed metric, in order; fails exactly when some metric has no dimension |
| `RealTime.CloudwatchMemoryInstances` | configuration.py:143-148 | a bad instance type raises first, then a label without '-'; otherwise the first dimension values of the "used" metrics under the repository or workers memory prefix followed by the label's code |
| `RealTime.CloudwatchWorkerStatsInstances` | configuration.py:150-155 | a label without '-' raises; otherwise the first dimension values of the metrics of that name under "Worker-Statistics-" and the code |
| `RealTime.CompletedJobCountInstances` | configuration.py:158-159 | the worker-statistics query for "Completed Job Count" |
| `RealTime.TimeRunningInstances` | configuration.py:161-162 | the same query for "% Time Running" |
| `RealTime.CumulativeTimeInstances` | configuration.py:164-165 | the same query for "Cumulative runtime" |
| `RealTime.Ec2NameTagDistinct` | configuration.py:167-170 | for environments without '-', two name-tag queries coincide exactly when environment and label do |
| `RealTime.MatchingIds` | configuration.py:178-184 | fails exactly when some instance lacks a database name; otherwise the filter `Matching` |
| `RealTime.MatchingMembers` | configuration.py:183 | an id is kept exactly when some instance with that database name has it |
| `RealTime.MatchingFirst` | configuration.py:191-192 | the first id kept belongs to the first instance with that name |
| `RealTime.MatchingAppend` | configuration.py:183 | the filter keeps response order: it distributes over concatenation |
| `RealTime.MatchingIdsAppend` | configuration.py:181-184 | two successful responses resolve to their matches one after the other |
| `RealTime.RdsInstanceIds` | configuration.py:178-184 | fails exactly on a nameless instance; otherwise exactly the filter `Matching` of stack followed by release, so response order and repeats are kept, and an id is there exactly when an instance with that name has it |
| `RealTime.RdsIdgenId` | configuration.py:186-192 | succeeds exactly when every instance has a database name and one is `{stack}idgen`; a nameless instance raises the missing-name error even after an idgen one; all named and none idgen raises the index error; the result is the first idgen instance's id |
| `RealTime.MatchingNone` | configuration.py:191-192 | the filter is empty exactly when no instance has that database name |
| `RealTime.MatchCapture` | configuration.py:207-209 | a capture that is returned is a match of prefix, digits, marker and group |
| `RealTime.MatchCaptureComplete` | configuration.py:207-209 | every string of that shape is matched with that capture |
| `RealTime.ParseAlbArn` | configuration.py:207-208 | a matched ARN has the load-balancer shape |
| `RealTime.ParseAlbArnComplete` | configuration.py:207-209 | every ARN of that shape is matched, capturing the whole remainder |
| `RealTime.AlbNameFromArns` | configuration.py:204-210 | no load balancer gives ""; otherwise the first ARN's capture, failing exactly when it does not match |
| `RealTime.AlbNameExample` | configuration.py:207-209 | a name with path segments is captured whole |
| `RealTime.RepoAlbName` | configuration.py:194-210 | queries the tag `repo-{stack}-{label}`; no load balancer gives ""; otherwise a name exactly when the first ARN has the load-balancer shape, the name is that ARN's capture, and the failure names the ARN |
| `AppConfig.NewValues` | configuration.py:262-265 | never more values than offered, each one offered and not yet recorded |
| `AppConfig.NewValuesMembers` | configuration.py:262-265 | a value is added exactly when offered and not yet recorded |
| `AppConfig.NewValuesCount` | configuration.py:262-265 | each new value is added once per occurrence in the offer |
| `AppConfig.NewValuesAppend` | configuration.py:263-265 | additions keep discovery order |
| `AppConfig.NewValuesNone` | configuration.py:262-266 | nothing is added when every value is recorded |
| `AppConfig.MergeEntry` | configuration.py:257-266 | an absent key gets the values as given; a present key keeps its list and gains the new values at the end; other keys are untouched |
| `AppConfig.MergeGrows` | configuration.py:257-266 | the old list is a prefix of the merged one, which holds every offered value |
| `AppConfig.MergeAbsorbed` | configuration.py:257-266 | a merge of recorded values changes nothing |
| `AppConfig.MergeIdempotent` | configuration.py:257-266 | merging twice equals merging once |
| `AppConfig.NewValuesNoDuplicates` | configuration.py:262-265 | distinct offers give distinct additions |
| `AppConfig.MergeKeepsUnique` | configuration.py:257-266 | a duplicate-free list stays duplicate-free under a duplicate-free offer |
| `AppConfig.MergeKeepsRepeatedValues` | configuration.py:257-266 | a new value offered twice is stored twice, with or without the key |
| `AppConfig.MergeScenarios` | configuration.py:257-266 | a first discovery and a rediscovery with one new instance |
| `AppConfig.InstanceLabel` | configuration.py:225 | the environment's label, or a failure exactly when it has none |
| `AppConfig.Ec2Entry` | configuration.py:224-226 | the step writes `{version}-{env}-ec2-instances` |
| `AppConfig.Ec2EntryDiscovered` | configuration.py:224-226 | an environment without a label raises; otherwise the ids the `{env}-{stack}-{label}` name-tag query returns |
| `AppConfig.MemoryEntry` | configuration.py:235-238 | the step writes `{version}-{env}-vmids` |
| `AppConfig.MemoryEntryDiscovered` | configuration.py:235-238 | the label lookup raises first; otherwise the memory instances of the label for the given type |
| `AppConfig.WorkerNamesEntry` | configuration.py:241-243 | the step writes `{version}-workers-names` |
| `AppConfig.WorkerNamesEntryDiscovered` | configuration.py:241-243 | a missing workers label raises; otherwise the "Completed Job Count" worker names |
| `AppConfig.AlbEntry` | configuration.py:251-252 | the step writes `{version}-repo-alb-name` |
| `AppConfig.AlbEntryDiscovered` | configuration.py:251-252 | a missing repo label raises; otherwise the one-element list of the ALB name or its failure, `[""]` when no load balancer is tagged |
| `AppConfig.Entries` | configuration.py:228-252 | seven steps in source order under the keys `{v}-repo/workers/portal-ec2-instances`, `{v}-repo/workers-vmids`, `{v}-workers-names`, `{v}-repo-alb-name`; a successful ALB step offers one name |
| `AppConfig.ApplyEntries` | configuration.py:228-255 | a run keeps a document a document and `None` as `None` |
| `AppConfig.ApplyEntriesGrows` | configuration.py:228-252 | a run never drops a key and only extends lists |
| `AppConfig.ApplyEntriesUntouched` | configuration.py:228-252 | keys no step names are unchanged |
| `AppConfig.ApplyEntriesAbsorbs` | configuration.py:228-252 | a run fails exactly with the first resolver failure and records every value found before it |
| `AppConfig.RecordedEverywhere` | configuration.py:228-252 | after a run without failure, every step's values are under its key |
| `AppConfig.ApplyEntriesAbsorbed` | configuration.py:228-252 | a run over a document that already holds everything changes nothing |
| `AppConfig.ApplyEntriesIdempotent` | configuration.py:228-252 | repeating the discovery leaves the document as one run left it |
| `AppConfig.NoDocumentFails` | configuration.py:258 | a document that is `None` fails at the first step |
| `AppConfig.AppConfiguration.constructor` | configuration.py:214-222 | `{}` without a provider, otherwise what it loaded |
| `AppConfig.AppConfiguration.Create` | configuration.py:214-222 | the provider's precondition failures escape the construction; otherwise a fresh object with the loaded document |
| `AppConfig.AppConfiguration.UpdateConfigurationEntry` | configuration.py:257-266 | the in-place loop leaves exactly `MergeEntry` of the old document, and fails on `None` |
| `AppConfig.AppConfiguration.Record` | configuration.py:235-236 | one step: a failed resolver raises before anything is merged |
| `AppConfig.AppConfiguration.UpdateEc2Instances` | configuration.py:224-226 | the EC2 step of one environment |
| `AppConfig.AppConfiguration.UpdateConfiguration` | configuration.py:228-255 | the new state is the run over `Entries`; success exactly when no step failed and a provider is there to save |
| `Dashboard.LocationDeterminesStack` | synapse_cloudwatch_dashboard/synapse_cloudwatch_dashboard_stack.py:12-13 | bucket and key are non-empty and different stacks get different ones |
| `Dashboard.InitConfig` | synapse_cloudwatch_dashboard/synapse_cloudwatch_dashboard_stack.py:11-22 | the load never raises: the stored document, or `None` when it could not be read |
| `Dashboard.GraphMetrics` | synapse_cloudwatch_dashboard/synapse_cloudwatch_dashboard_stack.py:26-32 | one single-dimension metric per value, in order |
| `Dashboard.GraphMetricsRoundTrip` | synapse_cloudwatch_dashboard/synapse_cloudwatch_dashboard_stack.py:25-34 | a graph's dimension values are the values it was built from |
| `Dashboard.CreateGraphWidget` | synapse_cloudwatch_dashboard/synapse_cloudwatch_dashboard_stack.py:25-34 | title and size as given, one single-dimension metric per value in order, and the values read back unchanged |
| `Dashboard.Ec2CpuUtilizationWidget` | synapse_cloudwatch_dashboard/synapse_cloudwatch_dashboard_stack.py:64-65 | a 24x6 graph with one CPUUtilization series per instance id, in order |
| `Dashboard.Ec2NetworkOutWidget` | synapse_cloudwatch_dashboard/synapse_cloudwatch_dashboard_stack.py:68-69 | a 24x3 graph with one NetworkOut series per instance id, in order |
| `Dashboard.GraphMetricsAppend` | synapse_cloudwatch_dashboard/synapse_cloudwatch_dashboard_stack.py:26-32 | building from two lists equals building from each in turn |
| `Dashboard.DimensionValuesAppend` | synapse_cloudwatch_dashboard/synapse_cloudwatch_dashboard_stack.py:26-32 | reading dimension values distributes over concatenation |
| `Dashboard.FlattenAppend` | synapse_cloudwatch_dashboard/synapse_cloudwatch_dashboard_stack.py:342 | the per-version concatenation distributes over the version list |
| `Dashboard.FlattenSingle` | synapse_cloudwatch_dashboard/synapse_cloudwatch_dashboard_stack.py:342 | one version contributes its stored list, or nothing when the key is missing |
| `Dashboard.FlattenMembers` | synapse_cloudwatch_dashboard/synapse_cloudwatch_dashboard_stack.py:342-347 | an id is shown exactly when it is stored under one of the versions' keys |
| `Dashboard.FlattenLength` | synapse_cloudwatch_dashboard/synapse_cloudwatch_dashboard_stack.py:342-347 | as many ids as the present keys store |
| `Dashboard.Ec2IdsAppend` | synapse_cloudwatch_dashboard/synapse_cloudwatch_dashboard_stack.py:342-346 | the EC2 ids of two version lists are those of each in turn |
| `Dashboard.Ec2IdsSingle` | synapse_cloudwatch_dashboard/synapse_cloudwatch_dashboard_stack.py:342-346 | one version shows its `{v}-{env}-ec2-instances` list or nothing |
| `Dashboard.Ec2Ids` | synapse_cloudwatch_dashboard/synapse_cloudwatch_dashboard_stack.py:342-346 | an id is shown exactly when it is stored under one of the versions' `{v}-{env}-ec2-instances` keys, as many as those keys store; a missing key contributes nothing |
| `Dashboard.VersionDbIds` | synapse_cloudwatch_dashboard/synapse_cloudwatch_dashboard_stack.py:76-77 | two ids per version, main then table database |
| `Dashboard.RdsIds` | synapse_cloudwatch_dashboard/synapse_cloudwatch_dashboard_stack.py:75-79 | those ids, then the id generator, always last |
| `Dashboard.RdsWidget` | synapse_cloudwatch_dashboard/synapse_cloudwatch_dashboard_stack.py:82-118 | title, size per metric, and one series per RDS id in order |
| `Dashboard.RdsIoWidgets` | synapse_cloudwatch_dashboard/synapse_cloudwatch_dashboard_stack.py:91-118 | six 12x4 graphs titled as the stack titles them, read and write throughput, latency and IOPS, each with one series per RDS id in order |
| `Dashboard.SeriesAppendFails` | synapse_cloudwatch_dashboard/synapse_cloudwatch_dashboard_stack.py:39-43 | a missing key in an earlier version fails the whole widget the same way |
| `Dashboard.SeriesAppend` | synapse_cloudwatch_dashboard/synapse_cloudwatch_dashboard_stack.py:39-44 | the series of two version lists are those of each, in turn |
| `Dashboard.SeriesAppendOk` | synapse_cloudwatch_dashboard/synapse_cloudwatch_dashboard_stack.py:39-44 | when the first list succeeds, the series of both lists are its series followed by those of the second |
| `Dashboard.SeriesAppendErr` | synapse_cloudwatch_dashboard/synapse_cloudwatch_dashboard_stack.py:39-43 | when the first list fails, the two lists fail with its error |
| `Dashboard.SeriesSingle` | synapse_cloudwatch_dashboard/synapse_cloudwatch_dashboard_stack.py:39-44 | one version with its key stored shows exactly the stored list |
| `Dashboard.SeriesExtend` | synapse_cloudwatch_dashboard/synapse_cloudwatch_dashboard_stack.py:39-44 | one more version with its key stored appends that version's series |
| `Dashboard.SeriesStops` | synapse_cloudwatch_dashboard/synapse_cloudwatch_dashboard_stack.py:39-43 | the first version with a missing key fails the whole widget with that key |
| `Dashboard.SeriesOk` | synapse_cloudwatch_dashboard/synapse_cloudwatch_dashboard_stack.py:37-61 | a series widget succeeds exactly when every version's key is stored |
| `Dashboard.SeriesFirstMissing` | synapse_cloudwatch_dashboard/synapse_cloudwatch_dashboard_stack.py:39-43 | the failure names the first version's missing key |
| `Dashboard.SeriesValues` | synapse_cloudwatch_dashboard/synapse_cloudwatch_dashboard_stack.py:37-61 | the series show the stored values version after version, one metric per value |
| `Dashboard.SeriesShape` | synapse_cloudwatch_dashboard/synapse_cloudwatch_dashboard_stack.py:37-61 | every series has the widget's metric name, dimension name and its version's namespace |
| `Dashboard.CollectSeries` | synapse_cloudwatch_dashboard/synapse_cloudwatch_dashboard_stack.py:37-61 | the loop over versions computes `SeriesMetrics`, failing at the first missing key |
| `Dashboard.CreateWorkerStatsWidget` | synapse_cloudwatch_dashboard/synapse_cloudwatch_dashboard_stack.py:37-47 | a 24x3 graph of the worker series, or the missing key |
| `Dashboard.MemoryMetrics` | synapse_cloudwatch_dashboard/synapse_cloudwatch_dashboard_stack.py:50-58 | no versions give no series; an unknown environment raises only when there is a version |
| `Dashboard.CreateMemoryWidget` | synapse_cloudwatch_dashboard/synapse_cloudwatch_dashboard_stack.py:50-61 | a 24x3 graph of the memory series, or the failure |
| `Dashboard.MemoryKeysAndNamespaces` | synapse_cloudwatch_dashboard/synapse_cloudwatch_dashboard_stack.py:50-58 | the widgets read the keys the update writes, under the namespaces the resolvers query |
| `Dashboard.SeriesSameKeys` | synapse_cloudwatch_dashboard/synapse_cloudwatch_dashboard_stack.py:351-353 | the three statistics succeed or fail together |
| `Dashboard.ActiveConnectionsMetrics` | synapse_cloudwatch_dashboard/synapse_cloudwatch_dashboard_stack.py:227-239 | three metrics per version, idgen, main, tables, under `{env}-Database-{sv}` |
| `Dashboard.ActiveConnectionsWidget` | synapse_cloudwatch_dashboard/synapse_cloudwatch_dashboard_stack.py:235-247 | a 24x6 graph whose series are those three metrics per version |
| `Dashboard.CloudsearchMetrics` | synapse_cloudwatch_dashboard/synapse_cloudwatch_dashboard_stack.py:253-266 | one metric per version for domain `prod-{sv}-sagebase-org` |
| `Dashboard.CloudsearchDomainInjective` | synapse_cloudwatch_dashboard/synapse_cloudwatch_dashboard_stack.py:263 | different versions watch different domains |
| `Dashboard.CloudsearchWidget` | synapse_cloudwatch_dashboard/synapse_cloudwatch_dashboard_stack.py:262-266 | a 24x4 graph with one CloudSearch series per version |
| `Dashboard.CloudsearchWidgetSeries` | synapse_cloudwatch_dashboard/synapse_cloudwatch_dashboard_stack.py:253-264 | the i-th series watches domain `prod-{sv}-sagebase-org` of the i-th version |
| `Dashboard.QueryQueueInjective` | synapse_cloudwatch_dashboard/synapse_cloudwatch_dashboard_stack.py:127 | different versions watch different `{stack}-{sv}-QUERY` queues |
| `Dashboard.QueryPerformanceWidget` | synapse_cloudwatch_dashboard/synapse_cloudwatch_dashboard_stack.py:124-131 | a 24x6 graph with one series per version, read back as the versions' query queues |
| `Dashboard.QueryPerformanceSeries` | synapse_cloudwatch_dashboard/synapse_cloudwatch_dashboard_stack.py:125-127 | the i-th series is the SQS ApproximateAgeOfOldestMessage of the i-th version's queue |
| `Dashboard.AlbDimensionValues` | synapse_cloudwatch_dashboard/synapse_cloudwatch_dashboard_stack.py:271 | a name is shown exactly when it is stored under a present `{v}-repo-alb-name` key, as many as those keys store |
| `Dashboard.AlbDimensionValuesAppend` | synapse_cloudwatch_dashboard/synapse_cloudwatch_dashboard_stack.py:271 | the names of two version lists are those of the first followed by those of the second |
| `Dashboard.AlbDimensionValuesSingle` | synapse_cloudwatch_dashboard/synapse_cloudwatch_dashboard_stack.py:271 | one version shows its `{v}-repo-alb-name` list, or nothing when the key is missing |
| `Dashboard.CreateRepoAlbResponseWidget` | synapse_cloudwatch_dashboard/synapse_cloudwatch_dashboard_stack.py:269-282 | the loop gives the average and then the p95 metric for each stored name, in order; it never fails |
| `Dashboard.StackParameters` | synapse_cloudwatch_dashboard/synapse_cloudwatch_dashboard_stack.py:312-323 | a missing stack raises first, then missing versions; the versions are the comma fields, the profile optional |
| `Dashboard.StackVersionsRoundTrip` | synapse_cloudwatch_dashboard/synapse_cloudwatch_dashboard_stack.py:316-323 | a comma-joined version list is read back unchanged |
| `Dashboard.CreateVersionWidgets` | synapse_cloudwatch_dashboard/synapse_cloudwatch_dashboard_stack.py:335-338 | the CloudSearch, the two connection and the query-performance widgets show the series of the versions |
| `Dashboard.CreateRdsWidgets` | synapse_cloudwatch_dashboard/synapse_cloudwatch_dashboard_stack.py:340-362 | the CPU, free-storage and six I/O widgets each show one series per RDS id |
| `Dashboard.CreateEc2Widgets` | synapse_cloudwatch_dashboard/synapse_cloudwatch_dashboard_stack.py:342-348 | each EC2 widget shows its environment's stored ids |
| `Dashboard.CreateStoredWidgets` | synapse_cloudwatch_dashboard/synapse_cloudwatch_dashboard_stack.py:349-353 | the first missing key among repo memory, workers memory and jobs fails; otherwise the five widgets show their series |
| `Dashboard.DocumentWidgets` | synapse_cloudwatch_dashboard/synapse_cloudwatch_dashboard_stack.py:335-362 | fails exactly with `WidgetFailure`, otherwise the version, RDS, EC2, stored-key and ALB widgets all show their series, the ALB one as an average and a p95 metric per stored name |
| `Dashboard.BuildStack` | synapse_cloudwatch_dashboard/synapse_cloudwatch_dashboard_stack.py:309-362 | the context failures, an unloaded document failing at the EC2 lists, else the outcome `DocumentWidgets` states |
| `Dashboard.DashboardReadsWhatUpdateRecorded` | synapse_cloudwatch_dashboard/synapse_cloudwatch_dashboard_stack.py:342-354 | after an update without failure, the version's memory and worker widgets succeed, and every discovered EC2 id, VM id, worker name and the ALB name is among the series |
| `Dashboard.StepsReadBack` | synapse_cloudwatch_dashboard/synapse_cloudwatch_dashboard_stack.py:342-354 | any seven successful steps under the update's keys are read back by the dashboard of that version |
| `Dashboard.StoredSeriesRead` | synapse_cloudwatch_dashboard/synapse_cloudwatch_dashboard_stack.py:37-61 | values stored under a series key show up in that widget's series |
| `Dashboard.StoredEc2Read` | synapse_cloudwatch_dashboard/synapse_cloudwatch_dashboard_stack.py:342-346 | values stored under an EC2 key show up among that environment's ids |
| `Dashboard.StoredAlbRead` | synapse_cloudwatch_dashboard/synapse_cloudwatch_dashboard_stack.py:271 | values stored under the ALB key show up among the ALB names |

## Left out

- Storage and JSON: the S3 read is an input (`Fetch`: a parsed document, a non-JSON body or a storage failure); UTF-8 decoding and JSON parsing are not modelled.
- `save_raw_configuration` (configuration.py:86-94) is reduced to the point where the document is handed over; its logged-and-swallowed failures are not modelled.
- Logging is not modelled.
- boto3 is left out: sessions, clients and resources are opaque `Handle` values.
- Cloud inventory calls (`list_metrics`, `instances.filter`, `describe_db_instances`, `get_resources`) are functions or sequences in the `Cloud` input, and `get_ec2_instances_by_name` is folded into `Ec2InstanceIds`.
- The resolvers do not go through `get_client`. The case of a client lookup that returns an error value and then fails on use is not modelled in them.
- The getters of `ConfigurationProvider` (configuration.py:52-65) only read a field, so they have no members.
- The command-line script at the bottom of `configuration.py` (lines 269-295) is not modelled. Its argument handling is I/O.
- The CDK constructs are not modelled: `Dashboard`, the `add_widgets` layout order, and the graph options `view`, `stacked`, `period` and `set_period_to_time_range`. The widget-level `statistic` (for example "Maximum" on active connections) is also not modelled. Only the per-metric statistic of the ALB series is kept.
- The SES and the two Docker widgets (stack file lines 135-195 and 284-304) are built from constants and a title only, and are not modelled.
- The FileScanner widget (stack file lines 200-221) is not modelled. Its series depend on the versions, not on the document, and carry labels, colours and a right axis, which the `Graph` model does not have.
- Unicode `\d` is not modelled: the ARN digit run is ASCII `0`-`9`, while Python's `\d` also accepts other decimal digits.
- List aliasing is not modelled. `update_configuration_entry` stores the caller's list for a new key and extends a stored list in place; the model works on values.
- Context values are strings: `try_get_context` may return other JSON types, and that is not modelled.
- `Dashboard.DocumentWidgets`: `ShowsSeries` states what every widget shows, not its title and size; the widget functions (`RdsIoWidgets`, `CloudsearchWidget`, `QueryPerformanceWidget` and the others) state those.
- `Dashboard.BuildStack`: the same limit as `DocumentWidgets`, whose result it returns.
- `RealTime.Ec2InstanceIds` passes the name-tag query through and has no contract of its own; `Ec2EntryDiscovered` and `Ec2NameTagDistinct` state what it queries.
