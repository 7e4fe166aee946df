# Verified model of the operations scripts

A Dafny model of the scripts that watch, report on and protect a small cluster, with proofs about
whole runs of them. `dafny verify dfyconfig.toml` checks everything. One module follows one program
part; each states its rules as functions on values, the programs' own loops and in-place updates as
methods proved equal to those functions, and the properties as lemmas.

* **Incidents** (`IncidentTracking`, `ServiceMonitor`, `MailLedger`, `MailOrder`): health samples become
  numbered incidents; mails about them are stored as attempted before they are sent.
* **Alerts** (`AlertOutbox`, `AlertDispatch`, `AlertSafety`, `AlertCapacity`, `ServiceReports`, `AlertProtocol`,
  `AlertRuns`): the consumer polls the producer's snapshots at any time, keeps a cursor and an outbox,
  and sends through a webhook. Producer, consumer, disk and crashes form one transition system.
* **Inference metrics** (`Numbers`, `Histogram`, `HistogramWitness`, `MetricSnapshot`,
  `MetricVocabulary`, `SampleText`, `SampleRoundTrip`, `SnapshotLines`, `PayloadLines`, `SnapshotDraft`,
  `SnapshotParser`, `SeriesDelta`, `MetricInterval`, `MetricPipeline`): text to snapshots, histogram
  checks against real observations, and differences between snapshots.
* **Spool** (`SpoolNames`, `ObservationSpool`): a directory of immutable records as a bounded map.
* **Backups** (`BackupRetention`, `CoreEvidence`, `CoreSummary`, `DatabaseEvidence`): paired retention
  over a remote store whose calls fail, and the evidence that passes between programs.
* **Allocation and budgets** (`CpuSets`, `CpuPartition`, `ProbeBudget`): CPU partition and request
  budgets. `Prelude` and `Sorting` are shared.

## What came out

* The histogram check accepts every real histogram; the converse needs the sum to be attainable. A sum
  at the lower edges, or outside the edges by less than the tolerance, is accepted although no
  observations have it (`HistogramWitness.RealisedExactly` gives the exact condition,
  `HistogramWitness.EdgeSumSlipsThrough` and `HistogramWitness.LowSumSlipsThrough` give inputs).
* The Prometheus text exposition format escapes line feeds in label values but no other line end, and
  payloads are cut with `splitlines`, so a value with a carriage return, a form feed or a Unicode line
  separator is cut there. Of a known metric, that refuses the whole payload
  (`PayloadLines.BrokenPayloadIsRefused`); of an unknown one, the payload can be accepted and report a
  metric name that never was (`PayloadLines.UnknownMetricIsMadeUp`).
* An interval is complete although an engine appeared during it, when that engine reports gauges only
  (`MetricInterval.GaugesOnlyIsOverlooked`, with an input in `MetricInterval.NewEngineUnnoticed`).
* A recovery mail goes out for an incident whose failure mail was withdrawn before its first try
  (`MailOrder.RecoveryFollowsFailure` gives the exact condition, `MailOrder.RecoveryOfSilence` an input).
* The Discord outbox never drops a message whose outcome is unknown or that was refused for good; a
  thousand of them end all alerting (`AlertCapacity.FullForEver`, `AlertCapacity.FullIsReached`).
* The daily request caps never refuse anything: the spacing alone keeps the day below them, with no
  assumption on the clock (`ProbeBudget.CapIsNeverReached`).
* The core monitor can store a healthy report its reader refuses, before the first due date, for the one
  container without a baseline, or with a volume named for a time before 1970
  (`CoreSummary.AcceptedByInput`, with an input in `CoreSummary.EarlyReportIsRefused`).
* The overlap check at the end of `derive` cannot fail (`CpuPartition.ReservedAlways`).

## How it is modelled

Numbers and times are exact reals and integers. Disk is the last atomic write. Transport, mail, remote
calls and clocks are parameters with the outcomes the code distinguishes: answers to webhook calls and
mails, a script of remote call outcomes for retention, the view one freshness check got, a query that
answered or not. Python exceptions are results with a reason. The metric vocabulary is a parameter with
the properties its construction gives it, and the value of a number text is a parameter. The parser keeps
its readings in one table by place instead of nested dictionaries; where dictionaries or sets are walked
in an order that does not matter, the model picks any order. Directory entries of the spool are carried
as what their names denote, with the names themselves related to keys in `SpoolNames`. A retention
preview is an arbitrary list of rows; only `BackupRetention.RerunFinishes` takes the next preview to be
the old rows whose proofs remain, with unchanged verdicts, where the server decides afresh.

## Model

| member | source | states |
|---|---|---|
| `IncidentTracking.Entry.ObserveSample` | scripts/lib/llm_health.py:109-147 | updating the record field by field leaves exactly the state and event that the value-level `Observe` specifies, for every status, gap, duplicate and negative time |
| `IncidentTracking.OpensExactly` | scripts/lib/llm_health.py:109-147 | over any trace, an incident opens if and only if none is open and the last `failure_count` counted samples all failed with no gap longer than the freshness |
| `IncidentTracking.RecoversExactly` | scripts/lib/llm_health.py:109-147 | over any trace, an incident closes if and only if one is open and the gap-free healthy suffix has enough samples and spans the recovery time |
| `IncidentTracking.TraceIsTracked` | scripts/lib/llm_health.py:109-147 | the failure streak, healthy streak and healthy start kept in the record are those of the whole trace of counted samples, whose times strictly increase |
| `IncidentTracking.StreakIsLongestTail` | scripts/lib/llm_health.py:117-137 | the streak that the counters hold is the longest tail of equal status without a gap |
| `IncidentTracking.ObserveRenumbers` | scripts/lib/llm_health.py:109-147 | a sample is counted if and only if it is later than the last one; incident numbers only grow, one at a time, and an event happens only on a sample of its own status |
| `IncidentTracking.IncidentsAlternate` | scripts/lib/llm_health.py:127-146 | openings and recoveries strictly alternate and incidents are numbered 1, 2, 3 and so on |
| `ServiceMonitor.Monitor.Collect` | scripts/service-health-monitor.py:146-210 | the loop over sources with its supersede rules, observer suppression and reservations produces the specified targets, and an earlier clock changes nothing |
| `ServiceMonitor.Monitor.CollectRecord` | scripts/service-health-monitor.py:159-198 | one record of one source: observation, interruption, superseding of unsent mails and reservation of a new one |
| `ServiceMonitor.Monitor.DeliverMail` | scripts/lib/llm_health.py:158-176 | a mail is claimed and stored before the sender is called and stored again with its outcome; a mail that is not due is left alone |
| `MailLedger.MailIsSafe` | scripts/service-health-monitor.py:180-204 | over any collections, notification settings, answers and crashes: each mail is tried at most three times, never after a try that was not refused, and in the log of every reservation that reached the disk no record has the same notice for the same incident twice |
| `MailLedger.NoMailUnlogged` | scripts/service-health-monitor.py:180-204 | the log misses nothing: after any step of any history, each mail on disk continues the one before it, withdrawn or tried further, or that step logged its reservation |
| `MailLedger.SlotsChangeOpenly` | scripts/service-health-monitor.py:165-198 | one collection leaves a slot as it was, withdraws its mail, or fills it with a fresh mail that is reported as reserved |
| `MailLedger.MailIsTrueWhenSent` | scripts/service-health-monitor.py:222-239 | a failure mail goes out only while its incident is open; a recovery mail only in a run whose current status is healthy, for the incident last closed |
| `MailLedger.DeliverIsFourSteps` | scripts/lib/llm_health.py:158-176 | an uninterrupted `deliver` is claim, write, call, write of the crash machine, so the machine refines the program |
| `MailOrder.FailureComesFirst` | scripts/service-health-monitor.py:180-204 | over any history, a failure mail is never called once the recovery mail of its incident has been |
| `MailOrder.RecoveryFollowsFailure` | scripts/service-health-monitor.py:180-204 | when a recovery mail is about to be called, the failure mail of its incident was called before if and only if it is the one on record and was claimed more often than a crash hid |
| `MailOrder.RecoveryOfSilence` | scripts/service-health-monitor.py:180-193 | a concrete history of two runs with a recovery mail about to go out whose failure mail was reserved, withdrawn and never called |
| `ServiceReports.LifeIsSound` | scripts/discord-ops-alerts.py:195-218 | every record reachable through `observe` and the resets of `collect` satisfies all the incident-history conditions the consumer checks |
| `ServiceReports.HistoryIsNeverRefused` | scripts/discord-ops-alerts.py:195-218 | for a reachable record `service_entry` refuses if and only if the sample shown is not the one the record last took; what it returns describes the record |
| `ServiceReports.LifeSucceeds` | scripts/lib/llm_health.py:109-147 | between two moments of one record, times and incident numbers only move forward |
| `ServiceReports.LaterSnapshotsNeverRegress` | scripts/discord-ops-alerts.py:303-311 | two snapshots of one record read in order never trip the consumer's regression checks |
| `ServiceReports.GenuineSnapshotsAreUnderstood` | scripts/discord-ops-alerts.py:221-282 | a genuine published snapshot read within its validity is classified if and only if both records took the sample shown and the probe is not too old, and then as the true incident history |
| `AlertDispatch.Dispatcher.Enqueue` | scripts/discord-ops-alerts.py:297-352 | the in-place update of cursors and outbox equals the value-level queueing rule, including the refusal of a regressed report |
| `AlertDispatch.Dispatcher.ReviewOutbox` | scripts/discord-ops-alerts.py:312-327 | exactly the waiting messages overtaken by a report are withdrawn; every other item stays |
| `AlertDispatch.Dispatcher.RememberServiceDelivery` | scripts/discord-ops-alerts.py:471-479 | a receipt is kept only for the alarm of the incident the cursor stands at |
| `AlertDispatch.Dispatcher.Dispatch` | scripts/discord-ops-alerts.py:482-539 | the two loops, with every write to disk and call in its place, end where the small-step machine ends when nothing interrupts it |
| `AlertSafety.OutboxIsSafe` | scripts/discord-ops-alerts.py:482-539 | with a crash allowed between any two steps: a message is called again only after an explicit rejection, at most three times apart from rate limits, at most three calls a run, and no call before the recorded retry times |
| `AlertSafety.ClaimedBeforeCalled` | scripts/discord-ops-alerts.py:512-520 | a call is made only for a message whose claim is already on disk |
| `AlertSafety.LostOutcomeIsFinal` | scripts/discord-ops-alerts.py:486-492 | a crash that hides the outcome of a call ends that message: no continuation calls it again |
| `AlertSafety.TrimKeeps` | scripts/discord-ops-alerts.py:583-584 | trimming drops only sent or withdrawn messages and changes none of the others |
| `AlertCapacity.StartsExactly` | scripts/discord-ops-alerts.py:580-604 | a run starts if and only if the clock has not gone back and the unresolved messages, at most a hundred resolved ones and the new ones together are at most a thousand; otherwise nothing changes |
| `AlertCapacity.OutboxFits` | scripts/discord-ops-alerts.py:603-607 | over any history no more than a thousand messages are stored or in memory |
| `AlertCapacity.DeadStays` | scripts/discord-ops-alerts.py:482-539 | a stored message whose outcome is unknown or final stays stored unchanged through any continuation |
| `AlertCapacity.FullForEver` | scripts/discord-ops-alerts.py:582-604 | once a thousand such messages are stored, no continuation stores, sends or withdraws anything |
| `AlertCapacity.FullIsReached` | scripts/discord-ops-alerts.py:482-539 | a history of runs with unclear answers that leads there |
| `AlertRuns.EachIncidentOnce` | scripts/discord-ops-alerts.py:297-352 | producer, consumer, gaps, restarts and send outcomes together: item identities never repeat, and each incident gets at most one alarm and at most one recovery over the whole history |
| `AlertRuns.RecoveryAfterAlarm` | scripts/discord-ops-alerts.py:334-342 | a recovery is stored only for an incident whose own alarm was stored and may have been delivered, even after the tail is trimmed |
| `AlertRuns.RecoveryExactly` | scripts/discord-ops-alerts.py:328-342 | when a healthy report closes the incident last announced, its recovery is due if and only if its alarm may have been delivered |
| `AlertRuns.AnnouncedIsStored` | scripts/discord-ops-alerts.py:344-351 | a cursor that stands at an alarm has stored that alarm |
| `Histogram.Check` | scripts/lib/inference_metrics.py:217-256 | accepts exactly the complete tuples that are well-shaped, matched and feasible, and reports an infeasible sum exactly when only the sum is wrong |
| `Histogram.CheckSum` | scripts/lib/inference_metrics.py:239-256 | the running lower and upper edges decide feasibility as specified |
| `Histogram.SumIsWithinEdges` | scripts/lib/inference_metrics.py:239-256 | the sum of any non-negative observations lies between the edges of their buckets, strictly above the lower one unless all are in the first bucket |
| `Histogram.RealHistogramsAreAccepted` | scripts/lib/inference_metrics.py:217-256 | every histogram built from any non-negative observations within the number limits is accepted |
| `HistogramWitness.WitnessRealises` | scripts/lib/inference_metrics.py:217-256 | for an accepted tuple whose sum is attainable, explicit observations have exactly these counts and this sum |
| `HistogramWitness.RealisedExactly` | scripts/lib/inference_metrics.py:217-256 | an accepted tuple is the histogram of some observations if and only if its sum is above the lower edge (or all are in the first bucket) and, unless the last bucket is occupied, at most the upper edge |
| `HistogramWitness.EdgeSumSlipsThrough` | scripts/lib/inference_metrics.py:239-256 | for every legal boundary, one observation above it with a sum equal to it is accepted, and no observations have that histogram |
| `HistogramWitness.LowSumSlipsThrough` | scripts/lib/inference_metrics.py:239-256 | a sum below every possible one, but within the tolerance, is accepted |
| `SeriesDelta.Difference` | scripts/lib/inference_metrics.py:519-564 | the record filled in step by step is the specified change, with the first obstacle as its reason |
| `SeriesDelta.HistogramDeltaIsWhatHappened` | scripts/lib/inference_metrics.py:544-560 | from the histogram of A to that of A followed by B, the change is valid if and only if the sum of B is a legal number, and then it is the histogram of B with its true mean |
| `SeriesDelta.RateCarriesGrowth` | scripts/lib/inference_metrics.py:535-543 | the rate of a valid counter change times its seconds is the growth |
| `SeriesDelta.ChainsTelescope` | scripts/lib/inference_metrics.py:507-564 | over any chain of valid changes, seconds, growth, counts at each boundary, counts and sums add up to last minus first |
| `SeriesDelta.ChainsKeepTheirSeries` | scripts/lib/inference_metrics.py:530-549 | a chain of valid changes never crosses a creation epoch or a change of boundaries |
| `MetricInterval.CompareSeries` | scripts/lib/inference_metrics.py:613-629 | one change for each current series in order, then one record for each vanished one |
| `MetricInterval.AccountedOnce` | scripts/lib/inference_metrics.py:613-629 | the keys reported for an engine are the union of old and new keys, once each |
| `MetricInterval.Interval` | scripts/lib/inference_metrics.py:567-643 | refuses exactly what validation and the gap limit refuse; otherwise accounts for both snapshots, names every vanished engine and judges as specified |
| `MetricInterval.CompleteExactly` | scripts/lib/inference_metrics.py:593-642 | the result is VALID if and only if both snapshots were observed under the same fully known identity within the gap, no engine vanished, some series exists, new engines bring none, and every other engine has the same series on both sides with no obstacle (`Seamless`) |
| `MetricInterval.GaugesOnlyIsOverlooked` | scripts/lib/inference_metrics.py:606-642 | an engine that appears with gauges only never changes whether the interval is VALID |
| `MetricInterval.NewEngineUnnoticed` | scripts/lib/inference_metrics.py:606-642 | two concrete valid snapshots, the second with one engine more, and the VALID report of them |
| `MetricVocabulary.BuildVocabulary` | scripts/lib/inference_metrics.py:60-67 | from any legal families the loop derives a table in which each name has one meaning and no two names share one; every part of every family is found under its own name if and only if no two parts have the same name |
| `MetricPipeline.CompareScrapes` | scripts/lib/inference_metrics.py:567-643 | from the lines of two payloads to one report: the comparison never refuses what the parser made, and accounts exactly once for every counter and histogram series that either payload tells of, naming the engines that are gone |
| `SampleText.ParseLabels` | scripts/lib/inference_metrics.py:131-179 | the position-moving loops compute the specified reading of the text, with the same refusals |
| `SampleText.FindBrace` | scripts/lib/inference_metrics.py:188-204 | the quote- and escape-aware scan finds the first brace outside quotes |
| `SampleText.ParseSample` | scripts/lib/inference_metrics.py:182-214 | the whole line is read as specified |
| `SampleRoundTrip.LabelsReadBack` | scripts/lib/inference_metrics.py:131-179 | reading any written labels gives what adding them one by one gives: the same map or the same refusal |
| `SampleRoundTrip.CollectExactly` | scripts/lib/inference_metrics.py:162-169 | written labels are accepted if and only if names are distinct, values short and at most eight, and the map then holds each of them |
| `SampleRoundTrip.BraceIsFound` | scripts/lib/inference_metrics.py:188-204 | for every label text the reader accepts, in any spacing and with any braces or quotes in values, the scan stops right behind it |
| `SampleRoundTrip.SampleReadBack` | scripts/lib/inference_metrics.py:182-214 | writing a sample with up to eight labels of any content and reading it gives the sample |
| `PayloadLines.JoinedIsSplit` | scripts/lib/inference_metrics.py:287-287 | lines joined by line feeds are split back into the same lines if and only if none of them holds a line end of its own |
| `PayloadLines.PayloadIsSplit` | scripts/lib/inference_metrics.py:287-287 | any written samples, one to a line, are cut back into exactly those lines if and only if no label value holds a line end other than the line feed |
| `PayloadLines.CutIsRefused` | scripts/lib/inference_metrics.py:182-204 | whatever was read before, a written line of a known metric that is cut between its two braces is refused |
| `PayloadLines.BrokenPayloadIsRefused` | scripts/lib/inference_metrics.py:287-340 | a payload of any written samples is refused when some label value of a known metric holds a line end other than the line feed |
| `PayloadLines.UnknownMetricIsMadeUp` | scripts/lib/inference_metrics.py:311-319 | for any two metric names outside the vocabulary, one sample of the first is accepted as both: its label value starts a line with the second |
| `SnapshotLines.ParseLines` | scripts/lib/inference_metrics.py:288-365 | the loop over lines computes the specified table or the first refusal |
| `SnapshotDraft.PlaceIsFree` | scripts/lib/inference_metrics.py:327-364 | an accepted sample line never replaces a reading of an earlier one |
| `SnapshotDraft.LinesAreKept` | scripts/lib/inference_metrics.py:287-365 | the table holds exactly what the sample lines said, one place for each, and stays within all limits |
| `SnapshotParser.SortBounds` | scripts/lib/inference_metrics.py:386-389 | boundaries come out in increasing order, the infinite one last |
| `SnapshotParser.SortedOneWay` | scripts/lib/inference_metrics.py:386-389 | boundaries can be sorted in one way only |
| `SnapshotParser.ParseSnapshot` | scripts/lib/inference_metrics.py:259-402 | a snapshot comes out if and only if the request is sound, every line is accepted and every series can be presented; it passes validation and shows exactly what the lines said |
| `SpoolNames.NameReadBack` | scripts/lib/observation_spool.py:55-63 | the key of a record is read back from its name |
| `SpoolNames.KeyReadBack` | scripts/lib/observation_spool.py:206-213 | a file name the store recognises is the name of the key read from it |
| `SpoolNames.NamesSortAsKeys` | scripts/lib/observation_spool.py:55-63 | names sort as keys do, by epoch and then by sequence, because their parts have fixed widths |
| `ObservationSpool.RecordHasOneName` | scripts/lib/observation_spool.py:195-214 | a record has one file name |
| `ObservationSpool.Store.Entries` | scripts/lib/observation_spool.py:195-220 | lists all records in key order with their total size, and refuses exactly a directory with a foreign entry or over a limit |
| `ObservationSpool.Store.Put` | scripts/lib/observation_spool.py:222-236 | succeeds exactly when the same content is stored already or the record fits; then the records are the old ones with this one; a conflict or any refusal changes nothing |
| `ObservationSpool.Store.Get` | scripts/lib/observation_spool.py:260-266 | returns the stored payload of a key, or none; it refuses exactly a key that is none and a stored payload over the sample limit |
| `ObservationSpool.Store.Ack` | scripts/lib/observation_spool.py:268-280 | removes exactly the record whose content was handed out, and nothing otherwise |
| `ObservationSpool.Store.Pending` | scripts/lib/observation_spool.py:238-254 | returns the smallest keys that are not excluded, in order, with their payloads, as many as the limit allows |
| `ObservationSpool.Store.Stats` | scripts/lib/observation_spool.py:256-258 | counts the records and their bytes |
| `ObservationSpool.PayloadStays` | scripts/lib/observation_spool.py:222-280 | over any run of operations a stored payload is unchanged until its own content is acknowledged |
| `ObservationSpool.RunStaysWithin` | scripts/lib/observation_spool.py:222-280 | over any run the sample, byte and size limits hold |
| `ObservationSpool.BatchesAscend` | scripts/lib/observation_spool.py:238-280 | acknowledging a batch and asking again moves on in key order |
| `BackupRetention.Remote.ForgetConfirmed` | scripts/lib/db_pbs_backup.py:390-398 | success means the snapshot is gone; otherwise at most that snapshot is gone |
| `BackupRetention.Remote.Prune` | scripts/lib/db_pbs_backup.py:400-428 | however remote calls fail: only dropped epochs with a valid receipt and matching data are touched, a proof goes only after its data, a completed run leaves neither half of any dropped epoch, and without failures it completes |
| `BackupRetention.KeptIsSafe` | scripts/lib/db_pbs_backup.py:400-428 | in a preview that lists no epoch twice, an epoch that is to be kept is never among the dropped ones, so pruning does not touch it |
| `BackupRetention.PrunedFurther` | scripts/lib/db_pbs_backup.py:400-428 | what retention guarantees carries over from run to run |
| `BackupRetention.VerifiedIsSafe` | scripts/lib/db_pbs_backup.py:409-411 | the newly verified epoch is never dropped, even if the preview repeats epochs |
| `BackupRetention.AnyRerunFinishes` | scripts/lib/db_pbs_backup.py:400-428 | whatever preview comes next, completing it finishes the selection of a stopped run if and only if it selects what that run left behind |
| `BackupRetention.RerunFinishes` | scripts/lib/db_pbs_backup.py:400-428 | wherever a run stopped, a preview of the remaining rows with unchanged verdicts can be carried out over vouched epochs only, and completing it leaves neither half of any dropped epoch |
| `CpuSets.ParseCpus` | scripts/lib/cpu_isolation.py:80-90 | a text gives a set if and only if it is a list of numbers and ranges in range without repetition |
| `CpuSets.CpuText` | scripts/lib/cpu_isolation.py:93-96 | fails only on the empty set; the text, read again, is the set |
| `CpuSets.ListReadBack` | scripts/lib/cpu_isolation.py:80-96 | any list of distinct CPUs, written and read, is the set of them |
| `CpuPartition.Derive` | scripts/lib/cpu_isolation.py:148-174 | succeeds if and only if the policy is valid and the topology is a sound whole-SMT one; the texts then name the host's, the platform's, each container's and all remaining threads |
| `CpuPartition.ReadTopology` | scripts/lib/cpu_isolation.py:150-164 | accepts exactly the topologies with distinct CPUs, two threads a core and truthful sibling texts |
| `CpuPartition.ReservedAlways` | scripts/lib/cpu_isolation.py:165-169 | the last check, on overlap and sizes, cannot fail once the others passed |
| `CpuPartition.PartitionIsWhole` | scripts/lib/cpu_isolation.py:165-174 | the masks are disjoint, cover all threads, have four, eight and the remaining threads, and leave capacity to allocate |
| `CpuPartition.PairsStayTogether` | scripts/lib/cpu_isolation.py:165-167 | no mask takes one thread of a core without the other |
| `CpuPartition.ContainerFits` | scripts/lib/cpu_isolation.py:171-171 | a container's mask has exactly its declared threads, all of them the platform's |
| `CpuPartition.ThreadsAreNameable` | scripts/lib/cpu_isolation.py:163-164 | every thread of an accepted topology is one a CPU set text can name |
| `ProbeBudget.Prober.Run` | scripts/public-service-health-probe.py:327-364 | the steps around the one write before the request leave the specified state and send only a request that was recorded |
| `ProbeBudget.RequestsAreBounded` | scripts/llm-health-probe.py:247-265 | over any run with any clock and crashes, requests are at least 300 s (900 s) apart, and at most 288 (96) fall in one UTC day |
| `ProbeBudget.CapIsNeverReached` | scripts/public-service-health-probe.py:42-44 | the stored daily count never exceeds 288 (96), so the caps of 312 (120) are never reached |
| `CoreEvidence.Inspect` | scripts/core-pbs-monitor.py:83-142 | the status, the last valid point and today's archive of each container are those the inventory has |
| `CoreEvidence.Monitor.Run` | scripts/core-pbs-monitor.py:286-312 | a run is refused only for a clock more than a second back; otherwise it stores what the query gave or what a failed query may carry over |
| `CoreSummary.Summarise` | scripts/backup-health-summary.py:70-134 | a verdict is given if and only if the observation is acceptable, recent, from an answered query and the clock is safe |
| `CoreSummary.StoredIsAccepted` | scripts/core-pbs-monitor.py:145-179 | after any run of answered and failed queries the stored observation is accepted by every later reader, except exactly when it is a healthy report that lacks a point or has one from before 1970 |
| `CoreSummary.AcceptedByInput` | scripts/core-pbs-monitor.py:107-179 | the same exception on the input of the last run: the stored observation is refused later if and only if the last query answered and the newest valid archive of some container is from before 1970, or some container has none in a healthy inventory |
| `CoreSummary.DueIsAccepted` | scripts/core-pbs-monitor.py:107-179 | once archives are due, whatever ran before, an inventory of times from 1970 on leaves an observation that every later reader accepts |
| `CoreSummary.EarlyReportIsRefused` | scripts/core-pbs-monitor.py:107-138 | a concrete inventory of the four baselines before the first due date is stored as healthy and never accepted |
| `CoreSummary.LackIsEarly` | scripts/core-pbs-monitor.py:107-138 | a healthy report lacks a point only before the first due date, for the container without a baseline |
| `CoreSummary.SilenceInventsNothing` | scripts/core-pbs-monitor.py:162-177 | a failed query is stored as failed and never creates or advances point evidence |
| `CoreSummary.HealthyMeansArchived` | scripts/backup-health-summary.py:124-131 | a healthy verdict means an answered query at most 720 s ago that showed a valid archive of every container, from that day's window once due |
| `DatabaseEvidence.Checker.Check` | scripts/lib/db_pbs_backup.py:635-671 | healthy if and only if the newest proof, its receipt and its data agree and the point is fresh; only then is the cache written |
| `DatabaseEvidence.Summarise` | scripts/backup-health-summary.py:183-232 | healthy if and only if the cache is good evidence of the unit's last, successful and recent invocation |
| `DatabaseEvidence.CacheStaysGood` | scripts/backup-health-summary.py:137-158 | what any healthy check wrote is accepted at every later time, exactly for points after 1970 began |
| `DatabaseEvidence.HealthyBoundsAge` | scripts/backup-health-summary.py:222-229 | a healthy verdict from any history of checks means a remote confirmation at most 180 s ago of a point at most 779 s old, so below 600 + 180 |
| `DatabaseEvidence.BoundIsReached` | scripts/backup-health-summary.py:222-229 | the bound of 779 seconds is reached |

## Left out

- File permissions, ownership, locks, fsync and the double read of producer files.
- Subprocess, SSH, HTTP, SMTP and Discord transport; JSON, UTF-8, hashing and regular expression engines.
- Rounding to floating point, numbers too small or too large for a double, and rates that overflow one.
- ParseSnapshot: takes the payload as lines (`PayloadLines` relates them to the text), and does not check the sizes of the encoded payload and of the encoded snapshot, because encoding is not modelled; every other limit of the parser is.
- RerunFinishes: takes the next preview to be the remaining rows with their old verdicts, because how the server chooses is not modelled; `AnyRerunFinishes` covers every other preview.
- BuildVocabulary: the table of 32 family names itself is left out; the result holds for every table of legal names, and that the 32 have no derived name in common is not shown.
- Digits outside ASCII in CPU set texts.
- Texts of messages and mails; configuration files and command lines; calendar formatting.
- `validate_state` of the alert program and `validate` of the monitor, which only check shapes.
- The order in which the mails of one run are delivered is left free; so is the order of engines and series in a parsed snapshot and of vanished series in an interval.
- A crash inside the spool's `_write`, which can leave a temporary file that makes the store refuse to list itself until it is removed.
- Two different payloads with the same SHA-256; the model compares payloads.
- The legacy state upgrade of `record_observation`, the notification transitions of the core monitor, and the reuse of an earlier summary when the database cache is unreadable.
- `clean_owned_failed_spool`, `run_backup` and `notify` of the database backup: command plumbing around the retention and freshness modelled here.
- `measurement`: a single range check. `_validate_snapshot` is stated as a predicate on snapshots, without its loops.
- The alert program's `collect` for other kinds of sources, and the `inspect` mode of its `run`.
- Summer time in Korea before 1989; the core monitor's local day is a fixed nine hours ahead.
- `scripts/production-network.py`, `scripts/production-sdn.py`, provisioning, deploy and registration scripts.
