# zlink tooling: verified models

The zlink repository ships its engine with a set of concurrent and stateful tools: a package
cache shared by all worktrees of a machine, the runners that start and stop benchmark processes,
the pipeline that turns their output into reports, and the gates that accept or reject those
reports. This project models those tools in Dafny and proves what they are there for.

* **Package cache** (`CacheModel`, `CacheLocks`, `CacheSafety`, `CacheLinks`, `CacheCompletion`,
  `CacheDecisions`, `CacheCalm`, `CacheProvenance`, `CacheRuns`, `CacheLimits`, `PackageLayout`,
  `PackageContents`, `StagingCleanup`, `TreeHash`). Any number of
  `prepare` and `prune` processes run against one cache. The protocol is a step machine over
  processes, file locks, the cache directory, the links in all output directories and the
  worktrees. Every lock operation, file read, file copy, rename, link replacement, directory listing
  and file removal is a step of its own; a crash is a step that frees the locks of a process; edits
  and dropped links are steps of the environment, and every prune scans a list of outputs of its
  own. The theorems hold for every run, which is every interleaving.
* **Stream start barrier** (`StartTrace`, `StartBarrier`, `CppStreamBarrier`). Both runners start a
  server and a client per message size through the lines CLIENT_READY, START, SERVER_START_READY,
  START. `StartTrace` is an automaton over the lines alone; the runners' sets and maps are proved
  to follow it, with any pattern of failed and retried writes. The handlers are classes that update
  their fields in place, proved against the step functions.
* **Benchmark results** (`ResultPipeline`, `ReportTotals`, `Report`, `ReportAudit`, `RunReport`,
  `RegressionGate`, `RegressionChain`, `Text`). From isolated size cases to runs, medians, classified cells, printed
  lines, parsed reports, completion checks and the regression gate over chains of releases. Values
  are exact reals; printed values are whole numbers of units of the printed precision.
* **Smaller tools**: the bounded output capture (`BoundedTextBuffer`), the STREAM packet encoders
  with partial writes (`StreamPacket`), the include-closure worklist (`IncludeClosure`), the
  sanitizer exit code (`SanitizerSummary`) and the shrink-only reflection allowlist
  (`ReflectionRatchet`).

`dafny verify dfyconfig.toml` checks the whole project.

Some promises turned out not to hold as broadly as one might read them; each has a run or an
input that shows it and the condition under which it holds.

* A package can be built from something other than the inputs of its key when a name of the
  worktree returns to an earlier value during a prepare, on disk or in the index. That no whole tree
  and no whole content returns is not enough, because the checks are separate reads and a key is
  read name by name (`CacheLimits`, `CacheProvenance.PackagesComeFromTheirKey`).
* A cache link can dangle in an output that a prune does not scan, and in an output that joins in
  the middle of a scan (`CacheScanLimits`, `CacheLinks.CoverageIsExact`).
* A C++ run that ends on an early UNSUPPORTED or SKIP line forgets the handshake errors it has
  recorded (`CppStreamBarrier.EarlySkipForgetsTheError`, `CppStreamBarrier.ErrorsAreFinal`).
* The bounded buffer marks a single text of exactly the limit as truncated although nothing is lost
  (`BoundedTextBuffer.MarkMeansLoss`).
* The per-cell limits of the regression gate do not add up along a chain of releases while the
  aggregates do (`RegressionChain.CellLimitsDoNotCompose`,
  `RegressionChain.EndsPassExactlyWithinCellLimits`).

## Model

| member | source | states |
|---|---|---|
| `InputTrees.CleanTreesWithEqualKeys` | scripts/local-package/package-cache.py:33-106 | two clean worktrees with one cache key are the same tree, tracked files and index included |
| `CacheLocks.LocksAlwaysAgree` | scripts/local-package/package-cache.py:161-172 | in every reachable state the lock tables name exactly the processes inside the guarded parts |
| `CacheLocks.MutualExclusion` | scripts/local-package/package-cache.py:286-309 | never two processes at once under one output lock or one key lock, prune's try-lock included |
| `CacheLocks.UnblockedCanStep` | scripts/local-package/package-cache.py:281-401 | every process that does not wait for a lock has an enabled step of its own |
| `CacheLocks.NoDeadlock` | scripts/local-package/package-cache.py:281-401 | in every reachable state with an unfinished process some process can step: the waiting one, the holder of the lock it waits for, or the holder of the key lock which that holder waits for |
| `CacheSafety.StepKeepsSafe` | scripts/local-package/package-cache.py:281-401 | every step of every process and of the environment, crashes included, keeps the safety invariant |
| `CacheLinks.LinksNeverDangle` | scripts/local-package/package-cache.py:355-401 | in every interleaving, crashes included, a scannable link leads to a whole package if every prune of the run scans its output, although the scan walks directory by directory and looks at one link at a time |
| `CacheLinks.StepKeepsCovered` | scripts/local-package/package-cache.py:355-401 | every step of every process and of the environment keeps an output covered, except a prune that leaves the output out |
| `CacheLinks.LinksNeverDangleSince` | scripts/local-package/package-cache.py:355-401 | the same from any moment on at which the output is covered, for a worktree that joins later |
| `CacheLinks.FreshOutputNeverDangles` | scripts/local-package/package-cache.py:355-401 | a worktree that joins without cache links can rely on its later links from then on, whatever scans and removals are under way |
| `CacheLinks.CoverageIsExact` | scripts/local-package/package-cache.py:355-401 | the links of an output lead on every continuation in which each prune scans it, if and only if they lead now and no scan or removal of their keys has passed it |
| `CacheSafety.PublishedMatchesManifest` | scripts/local-package/package-cache.py:144-150 | a published directory matches its manifest unless a removal has started on it, and then it fails `verify` for every version |
| `CacheSafety.LinkAndRenameNeverFail` | scripts/local-package/package-cache.py:182-197 | a partly removed directory is never linked into any output, the digest check after a link replacement never fails and the publishing rename never finds its target taken |
| `CacheSafety.PublishedIsImmutable` | scripts/local-package/package-cache.py:341-342 | between two moments without a removal from it a published directory is unchanged |
| `CacheSafety.OneBuildBetweenRemovals` | scripts/local-package/package-cache.py:312-347 | two publications under one key and language have the removal of that directory between them |
| `CacheCompletion.StepKeepsProgress` | scripts/local-package/package-cache.py:281-401 | every step keeps, for every prepare under its locks, that its languages are the finished ones followed by those left, and that the finished ones and the linked part of the current one are whole and linked, but for links somebody removed |
| `CacheCompletion.FinishedPrepareIsComplete` | scripts/local-package/package-cache.py:312-351 | whenever a prepare finishes, in whatever interleaving, the package of every language of its job is in the cache and matches its manifest, and each of its files is linked into the output, unless that link was dropped after it was put in place |
| `CacheCompletion.LinkStaysAsPut` | scripts/local-package/package-cache.py:182-197 | a link leads where the last prepare put it, to a private build or to a file of the cache, until somebody replaces or removes it |
| `CacheDecisions.SharesExactlyWhenCleanAndPlain` | scripts/local-package/package-cache.py:293-306 | in every run a prepare uses the shared cache exactly if its worktree was clean and no build flags were set when it decided, and otherwise builds privately to its end |
| `CacheDecisions.FinishedPruneIsComplete` | scripts/local-package/package-cache.py:380-401 | whenever a prune finishes, each of its candidates was in use when its turn came, or the scan saw a link to it, or all its directories are gone |
| `CacheCalm.OnlyOwnCauses` | scripts/local-package/package-cache.py:281-351 | while nobody edits its worktree, a prepare stops with an error only for a failed build or package check, or a directory that is being removed or was built for another version: never for changed inputs, a missing file or a taken name |
| `CacheScanLimits.UnregisteredLinksMayDangle` | scripts/local-package/package-cache.py:355-377 | for every job of one language, clean tree, package file and set of scanned outputs without that of the job, a run that leaves the link without its target |
| `CacheScanLimits.LateRegistrationMayDangle` | scripts/local-package/package-cache.py:355-377 | an output that joins in the middle of a scan with links that all lead can lose their targets although every later prune scans it |
| `CacheProvenance.StepKeepsProvenance` | scripts/local-package/package-cache.py:309-342 | every step keeps the link between the trees a prepare has seen, its copy and its key, while no name returned in the listing, on disk or in the index |
| `CacheProvenance.EqualKeysMeanCalm` | scripts/local-package/package-cache.py:310-342 | two equal keys, each read name by name, one before a first clean check and one after a second, mean that files and index did not change between the checks, if no name returns |
| `CacheProvenance.PackagesComeFromTheirKey` | scripts/local-package/package-cache.py:243-342 | if no name of a worktree returns, in the listing, on disk or in the index, while a prepare works on it, every cached package was built from exactly the inputs its key stands for, although keys and source copies are read name by name while the tree may change |
| `CacheRuns.AnyPassingTimesPublish` | scripts/local-package/package-cache.py:287-342 | for a job of any languages and whatever trees a worktree shows at the reads of a prepare, the two scopes of each key apart, if the checks pass on them a run publishes the package of the first language, built from the tree shown at the copy; the other languages are the subject of `CacheCompletion.FinishedPrepareIsComplete` |
| `CacheLimits.DistinctTreesBreakProvenance` | scripts/local-package/package-cache.py:310-342 | it is not enough that no whole tree returns: a run over trees that never return publishes a package built from other inputs, because the clean check and the key check read different trees |
| `CacheLimits.TornKeysBreakProvenance` | scripts/local-package/package-cache.py:97-100 | nor is it enough that what is hashed never returns as a whole: keys whose two scopes are read before and after an edit agree without there ever having been such a tree |
| `CacheLimits.ReturningFileBreaksProvenance` | scripts/local-package/package-cache.py:310-342 | without the condition on the files a run breaks provenance although listing and index never change |
| `CacheLimits.ReturningIndexBreaksProvenance` | scripts/local-package/package-cache.py:255-262 | without the condition on the index a run breaks provenance although listing and files never change |
| `PackageLayout.SelectionKeepsPackageFiles` | scripts/local-package/package-cache.py:109-141 | keeping only the package files leaves the package file map unchanged |
| `PackageLayout.DamagedFailsVerify` | scripts/local-package/package-cache.py:144-150 | a directory that lost its marker or a listed file never passes `verify` |
| `PackageContents.SelectsExactlyItsParts` | scripts/local-package/package-cache.py:111-120 | the patterns of a language select exactly its named files, the whole install tree for C++ and Java, and the wheels for Python |
| `PackageContents.AcceptedExactly` | scripts/local-package/package-cache.py:111-141 | a package is accepted if and only if it holds the files named for its language, a wheel for Python, and no symbolic link among its parts; its file map then lists exactly the parts |
| `StagingCleanup.StagingTree.Cleanup` | scripts/local-package/package-cache.py:326-333 | the cleanup ends with exactly the allowed files and the directories that lead to them |
| `StagingCleanup.DescendantsComeFirst` | scripts/local-package/package-cache.py:328 | reverse path order visits every descendant before its directory |
| `StagingCleanup.ChildrenDecide` | scripts/local-package/package-cache.py:328-333 | when a directory is reached it is empty exactly when no allowed file lies below it |
| `StagingCleanup.CleanedTreeMatchesManifest` | scripts/local-package/package-cache.py:324-337 | the package file map of the cleaned tree is the manifest just written |
| `TreeHash.TreeBytes` | scripts/local-package/package-cache.py:33-51 | the hashed bytes are the records of the sorted distinct names, or an error exactly when a name is of an unsupported kind |
| `TreeHash.DecodeInverts` | scripts/local-package/package-cache.py:41-50 | the byte string decodes back into its records although digests may contain NUL |
| `TreeHash.AscendingIsCanonical` | scripts/local-package/package-cache.py:39 | the hashing order is determined by the set of names |
| `TreeHash.SameBytesSameTree` | scripts/local-package/package-cache.py:36-50 | two trees feed the same bytes to the hash if and only if they have the same names and the same kind, mode and value under each |
| `TreeHash.KeyFieldsRecoverable` | scripts/local-package/package-cache.py:97-102 | the six key fields can be read back if and only if none contains NUL |
| `TreeHash.SeparatorInAFieldCollides` | scripts/local-package/package-cache.py:101-102 | with a NUL inside a field two different keys hash the same text |
| `StartTrace.Conservation` | bindings/cpp/perf/run_comparison.py:1195-1261 | a handshake without a START out of turn conserves ready lines, STARTs and acknowledgements per size |
| `StartTrace.ClientStartInTurn` | bindings/c/perf/run_comparison.py:1365-1431 | each START at the client follows a ready line, a START at the server and an acknowledgement, all newer than the previous START |
| `CStreamBarrier.StreamRunner.RequestServerStart` | bindings/c/perf/run_comparison.py:1365-1396 | sends at most one START per outstanding size and leaves no trace of a failed write |
| `CStreamBarrier.StreamRunner.ForwardStartAck` | bindings/c/perf/run_comparison.py:1399-1431 | starts the client exactly for a pending and requested size whose write succeeds, and then clears it everywhere |
| `CStreamBarrier.StreamRunner.Dispatch` | bindings/c/perf/run_comparison.py:2006-2038 | every handler is the step function, keeps the barrier invariant and sends exactly the lines the lines before call for |
| `CStreamBarrier.InvOnEveryRun` | bindings/c/perf/run_comparison.py:1946-2038 | on every run the sets say where each size stands in the handshake |
| `CStreamBarrier.StartsAreExact` | bindings/c/perf/run_comparison.py:1365-1431 | on every run, failed writes included, the STARTs sent are exactly those told by an automaton over the lines alone: to the server for a ready size not yet requested, to the client for an acknowledged request |
| `CStreamBarrier.HealthyRunsNeverStall` | bindings/c/perf/run_comparison.py:1727-1739 | while both processes are up and writes succeed, after every handler each size is idle or requested: a ready size has been requested and an acknowledged one started |
| `CStreamBarrier.RetryRequests` | bindings/c/perf/run_comparison.py:2006-2038 | after any run a retry whose write succeeds sends the START for the pending size it picks |
| `CStreamBarrier.StartsAreCovered` | bindings/c/perf/run_comparison.py:1365-1431 | requested sizes stay within the pending ones; client STARTs never exceed ready lines, server STARTs or acknowledgements |
| `CStreamBarrier.NeverStartedTwice` | bindings/c/perf/run_comparison.py:1399-1431 | the client is never started twice for one ready line |
| `CppStreamBarrier.StreamRunner.SendStart` | bindings/cpp/perf/run_comparison.py:1837-1856 | an error is added exactly when no request is outstanding for the size and none can be sent |
| `CppStreamBarrier.StreamRunner.AppendServerAck` | bindings/cpp/perf/run_comparison.py:1613-1633 | no error is added exactly for a pending and requested size whose START reaches the client, which clears it everywhere; otherwise the sets stay |
| `CppStreamBarrier.StreamRunner.OnClientReady` | bindings/cpp/perf/run_comparison.py:1916-1926 | no error is added exactly for an expected size whose request is or becomes outstanding |
| `CppStreamBarrier.StreamRunner.OnClientSample` | bindings/cpp/perf/run_comparison.py:1935-1959 | a run stays free of errors exactly when no deadline has passed, no server with an open request has exited and the retry is not refused |
| `CppStreamBarrier.StreamRunner.Dispatch` | bindings/cpp/perf/run_comparison.py:1916-1959 | every handler is the step function and keeps the runner invariant |
| `CppStreamBarrier.InvOnEveryRun` | bindings/cpp/perf/run_comparison.py:1837-1959 | on every run, with every pattern of failed writes and deadlines, the runner invariant holds |
| `CppStreamBarrier.SameBarrierAsC` | bindings/cpp/perf/run_comparison.py:1195-1261 | whatever errors it records, the C++ runner keeps the sets of the C runner on the same inputs and sends exactly the STARTs the lines before call for |
| `CppStreamBarrier.NoErrorExactly` | bindings/cpp/perf/run_comparison.py:1837-1959 | a run records no error if and only if none of its inputs is faulty, told from lines and times alone: a malformed, unexpected or unanswerable line, a START that cannot be sent, a passed deadline, a server that is gone while it is needed |
| `CppStreamBarrier.VerdictIsExact` | bindings/cpp/perf/run_comparison.py:2018-2120 | for every run and ending: success if and only if it completed in time with both exits good, without a faulty input, with every START delivered and something parsed; unsupported and skip exactly after an early line of that kind, or as flawless but with nothing parsed and a token or message that says so |
| `CppStreamBarrier.FailureReasons` | bindings/cpp/perf/run_comparison.py:2018-2075 | the reason of a completed run that failed is the first thing that went wrong: barrier incomplete, timeout, client exit, server exit |
| `CppStreamBarrier.NoErrorMeansInStep` | bindings/cpp/perf/run_comparison.py:1195-1261 | without errors pending, requested and timed sizes coincide, and server STARTs exceed client STARTs by one exactly for requested sizes |
| `CppStreamBarrier.SuccessConservesStarts` | bindings/cpp/perf/run_comparison.py:1730-2142 | a run reported as a success, which `CppStreamBarrier.VerdictIsExact` characterises, has on every path equal server STARTs, acknowledgements and client STARTs per size, each in order |
| `CppStreamBarrier.NotFailedConservesExactly` | bindings/cpp/perf/run_comparison.py:1760-2120 | a run not reported as failed conserves the STARTs of a size if and only if it got past the wait for the server or the server never acknowledged that size |
| `CppStreamBarrier.ErrorsAreFinal` | bindings/cpp/perf/run_comparison.py:1796-2142 | a run that recorded an error is reported as failed with its first error if and only if it got past the wait for the server and raised no exception, and as failed at all unless it ended on an early token |
| `CppStreamBarrier.EarlySkipForgetsTheError` | bindings/cpp/perf/run_comparison.py:1771-1806 | an acknowledgement and then a SKIP line before the server is ready: the error is forgotten and the acknowledgement unanswered |
| `CppStreamBarrier.MergeRuns` | bindings/cpp/perf/run_comparison.py:1427-1468 | with several sizes the merged run is a success exactly when each size's run ended well and in time without a faulty input, with every START delivered and something parsed, and then each conserves its STARTs |
| `ResultPipeline.MergeSizes` | bindings/c/perf/run_comparison.py:2953-3034 | the merge fails exactly the sizes with an unsuccessful case, keeps exactly the values of successful ones, and ends early only on a first unsupported or skipped case |
| `ResultPipeline.CheckSizes` | bindings/c/perf/run_comparison.py:3406-3463 | exactly the sizes that failed or lack one of five metrics are recorded as failures |
| `ResultPipeline.FailAll` | bindings/c/perf/run_comparison.py:3378-3404 | a run without any result fails every size not yet reported |
| `ResultPipeline.AddRun` | bindings/c/perf/run_comparison.py:3339-3480 | one more run adds its samples and its failures, or ends the transport for the stated reason |
| `ResultPipeline.CollectTransport` | bindings/c/perf/run_comparison.py:3270-3519 | over all runs the recorded failures are the sizes some run was not good for, and every value is the median of the delivered samples |
| `ResultPipeline.ClassifyCell` | bindings/c/perf/run_comparison.py:4706-4750 | a cell is unsupported, skipped or failed exactly as the first run says that ends the transport; without such a run it succeeds exactly when every run delivered all five metrics for it, and then shows the median of one sample per run |
| `ResultPipeline.ClassifyFits` | bindings/c/perf/run_comparison.py:4706-4735 | the classification of every size follows from the runs alone |
| `ResultPipeline.MedianIsInTheMiddle` | bindings/c/perf/run_comparison.py:3517-3519 | the median is the mean of the two middle samples in sorted order, which are one for an odd number, and lies between the lower and the upper half |
| `ReportTotals.Tally` | bindings/c/perf/run_comparison.py:4706-4764 | actual lines are 5 per success, expected 5 per success or failure, complete exactly without failures; distinct cells give one result per line |
| `ReportTotals.PrintedIsRounded` | bindings/c/perf/run_comparison.py:4254-4257 | the printed number is within half of its last decimal of the real value, with three decimals for throughput and bandwidth and six for the latencies, and is positive exactly from half of the last decimal on |
| `ReportTotals.ReportOfRunAccepted` | bindings/c/perf/run_comparison.py:4706-4785 | the printed report of a run over distinct cells passes the completion checks if and only if every cell succeeded with values of at least half of the last printed decimal |
| `RunReport.TransportMeaning` | bindings/c/perf/run_comparison.py:4706-4750 | all sizes of a transport succeed exactly when every run counts and delivered five metrics for each; the cells then show the medians and no failure is on record |
| `RunReport.RunTransport` | bindings/c/perf/run_comparison.py:4706-4750 | each size of a transport gets the status its runs call for, and every size fails once fail-fast has ended the pattern |
| `RunReport.RunAll` | bindings/c/perf/run_comparison.py:4679-4753 | over all patterns, with or without fail-fast, every cell succeeds exactly when every measurement is good, and then the cells are the medians of all places in order |
| `RunReport.CheckRuns` | bindings/c/perf/run_comparison.py:4679-4796 | runs, classification, printing, parsing and completion checks together: accepted if and only if every run of every cell delivered all five metrics and every median is at least 0.0005, or 0.0000005 for a latency; each parsed value is then within that distance of its median |
| `Text.ParseNumberInverts` | bindings/c/perf/run_comparison.py:4254-4257 | a fixed-point number parses back to the same number of units |
| `Report.ResultLinesParse` | bindings/c/perf/run_comparison.py:4250-4258 | parsing the printed RESULT lines adds exactly the result map and no duplicate |
| `Report.CompletionParses` | bindings/c/perf/run_comparison.py:4773-4780 | parsing the completion section gives back the totals and the status |
| `Report.ParseReport` | bindings/c/perf/perf_regression_gate.py:85-166 | the parser loop computes the fold of its line handler followed by the final checks |
| `ReportAudit.ParsedCells` | bindings/c/perf/perf_regression_gate.py:100-128 | for any text the cells are exactly those of the well-formed RESULT lines, each with its first value, and the duplicates exactly the cells given more than once |
| `ReportAudit.ObjectionsAreExact` | bindings/c/perf/perf_regression_gate.py:94-157 | for any text an error is recorded exactly when some line is a malformed RESULT line, a count that is no number, or the heading of skips or failures |
| `ReportAudit.CleanExactly` | bindings/c/perf/perf_regression_gate.py:94-166 | for any text the report is free of errors and duplicates if and only if every line is in order, every cell is given once and there is one, the last skip and fail counts are 0 and the status, if any, is complete |
| `Report.ReportRoundTrip` | bindings/c/perf/perf_regression_gate.py:94-166 | parsing a whole printed report gives back results and totals, with one issue per section of skips or failures |
| `Report.CompletionErrors` | bindings/c/perf/ws_roundtrip_gate.py:76-115 | the checks are silent exactly on complete reports with matching counts and positive values |
| `Report.CleanReportAcceptance` | bindings/c/perf/ws_roundtrip_gate.py:76-115 | a clean non-empty report is accepted if and only if every printed value is positive and it has no section of skips or failures |
| `Report.UncleanReportRejected` | bindings/c/perf/ws_roundtrip_gate.py:79-106 | a report with a failed, skipped or unsupported cell, or with missing lines, is never accepted |
| `RegressionGate.AddReport` | bindings/c/perf/perf_regression_gate.py:398-409 | new cells are added, known ones kept and reported, with an error exactly on overlap |
| `RegressionGate.LoadReports` | bindings/c/perf/perf_regression_gate.py:391-410 | no error exactly when every report is clean and no two share a cell; the first report provides a value |
| `RegressionGate.NothingIsLost` | bindings/c/perf/perf_regression_gate.py:391-410 | loadable reports keep all their cells and values in the combination |
| `RegressionGate.PrintedReportIsClean` | bindings/c/perf/perf_regression_gate.py:158-166 | when a printed report is free of errors for the gate, and that the gate compares the printed values |
| `RegressionGate.CompareReports` | bindings/c/perf/perf_regression_gate.py:191-223 | exactly one verdict per cell of either side |
| `RegressionGate.VerdictNames` | bindings/c/perf/perf_regression_gate.py:199-218 | the status of a cell names the missing side, a value that is not finite, a zero to divide by, or a ratio out of bounds |
| `RegressionGate.CompareAggregates` | bindings/c/perf/perf_regression_gate.py:226-304 | every series seen gets an aggregate for each of the five metrics, passing exactly when all four sizes are available and the product of ratios is on the right side of 1, and naming a missing size or an unavailable ratio otherwise |
| `RegressionGate.Gate` | bindings/c/perf/perf_regression_gate.py:413-454 | PASS if and only if in every suite the reports load, both sides have the same cells, throughput and bandwidth keep 0.95 of their values, latencies grow to at most 1.05, and over the sizes 64, 256, 1024 and 65536 no metric gets worse |
| `RegressionGate.PassMeansNoRegression` | bindings/c/perf/perf_regression_gate.py:20-31 | a comparison passes if and only if, metric by metric and size by size, throughput and bandwidth have ratio at least 0.95 and a four-size product of at least 1, and the three latencies ratio at most 1.05 and a product of at most 1 |
| `RegressionGate.MeanAndProductAgree` | bindings/c/perf/perf_regression_gate.py:277-289 | the geometric mean of four ratios is on the same side of 1 as their product |
| `RegressionChain.AggregatesPassAlongChains` | bindings/c/perf/perf_regression_gate.py:226-304 | along any chain of passing comparisons the first and last release have the same cells and all aggregates pass between them |
| `RegressionChain.EndsPassExactlyWithinCellLimits` | bindings/c/perf/perf_regression_gate.py:209-218 | the ends of a passing chain pass directly if and only if every cell is within its limit |
| `RegressionChain.DriftAlongChains` | bindings/c/perf/perf_regression_gate.py:209-218 | over n passing steps a throughput or bandwidth cell keeps at least 0.95 to the power n of its value, and a latency cell that is of a required size or never negative grows at most by 1.05 to the power n |
| `RegressionChain.NegativeLatencyEscapesTheBound` | bindings/c/perf/perf_regression_gate.py:209-218 | two passing comparisons through a negative latency of another size break the bound |
| `RegressionChain.CellLimitsDoNotCompose` | bindings/c/perf/perf_regression_gate.py:209-218 | two passing comparisons whose ends fail |
| `RegressionChain.SelfComparison` | bindings/c/perf/perf_regression_gate.py:191-304 | a release passes against itself if and only if its values are finite and non-zero and every series is complete |
| `BoundedTextBuffer.LongestFitIsMaximal` | bindings/c/perf/run_comparison.py:503-508 | the chunks kept are a suffix that fits, and one more chunk would not |
| `BoundedTextBuffer.DroppedIsExact` | bindings/c/perf/run_comparison.py:505-508 | exactly as many of the oldest chunks go as have to: with the last one that went the rest would not fit |
| `BoundedTextBuffer.DroppingEarlyIsHarmless` | bindings/c/perf/run_comparison.py:503-508 | dropping while appending keeps the same chunks as dropping once at the end |
| `BoundedTextBuffer.PayloadIsSuffix` | bindings/c/perf/run_comparison.py:491-508 | the payload is a suffix of everything written, no longer than the limit |
| `BoundedTextBuffer.PayloadIsHistoryIffItFits` | bindings/c/perf/run_comparison.py:491-508 | the payload is the whole history if and only if that fits the limit |
| `BoundedTextBuffer.MarkMeansLoss` | bindings/c/perf/run_comparison.py:500-514 | unmarked output is complete; marked output is complete exactly for a single text as long as the limit |
| `BoundedTextBuffer.Buffer.DropOldest` | bindings/c/perf/run_comparison.py:505-508 | the loop leaves the longest run of newest chunks that fits and keeps the size equal to their total |
| `BoundedTextBuffer.Buffer.Append` | bindings/c/perf/run_comparison.py:491-508 | the buffer always holds what the reference keeps of all non-empty texts, with its size and mark |
| `BoundedTextBuffer.Buffer.Text` | bindings/c/perf/run_comparison.py:510-514 | everything written, or the mark followed by a bounded suffix |
| `StreamPacket.DecodeInvertsFrame` | bindings/c/samples/stream_packet_recv_sample.c:43-60 | a big-endian decoder recovers header, body and what follows if and only if both lengths fit their fields |
| `StreamPacket.PartialFrameIsIncomplete` | bindings/c/samples/stream_packet_recv_sample.c:43-60 | no proper prefix of a frame decodes to a packet |
| `StreamPacket.FramesSplitBack` | bindings/c/samples/stream_packet_recv_sample.c:43-60 | any concatenation of frames, with any part of a next one, splits back into the same packets and leftover |
| `StreamPacket.StoreU16` | bindings/c/samples/stream_packet_recv_sample.c:15-19 | two big-endian bytes at the place, nothing else changed |
| `StreamPacket.StoreU32` | bindings/c/samples/stream_packet_recv_sample.c:21-27 | four big-endian bytes at the place, nothing else changed |
| `StreamPacket.FillFrame` | bindings/c/samples/stream_packet_recv_sample.c:49-58 | the front of the buffer is the frame of the packet |
| `StreamPacket.EncodePacketFrame` | bindings/cpp/samples/stream_packet_pull_sample.cpp:14-26 | the C++ encoder writes the frame of the packet with an empty header, for payloads of any length |
| `StreamPacket.Socket.SendAll` | bindings/c/samples/stream_packet_recv_sample.c:29-41 | under every schedule of short writes all bytes leave, or the call fails having sent exactly the prefix the schedule allows |
| `StreamPacket.Socket.SendFrame` | bindings/c/samples/stream_packet_recv_sample.c:43-60 | the frame leaves as `SendAll` allows |
| `StreamPacket.SendPackets` | bindings/c/samples/stream_packet_recv_sample.c:43-60 | exactly the packets that the schedule carries in full are sent, and a receiver gets exactly those |
| `IncludeClosure.Pruner.ProcessFile` | core/tools/prune_boost.py:30-61 | a new header is marked, copied if readable, and its unvisited includes are queued |
| `IncludeClosure.Pruner.Run` | core/tools/prune_boost.py:63-77 | the loop ends; visited are exactly the headers reachable from the roots, copied exactly the readable ones, closed under includes |
| `IncludeClosure.ReachableIsLeast` | core/tools/prune_boost.py:63-77 | whatever holds the roots and is closed under includes holds everything reachable |
| `IncludeClosure.CopiesAreLeast` | core/tools/prune_boost.py:30-61 | no smaller set of copies is closed under includes of readable headers |
| `SanitizerSummary.ParseJunit` | scripts/ci/sanitizer-summary.py:77-106 | one result per case; assertion words count only for failed cases |
| `SanitizerSummary.LogIsAccountedFor` | scripts/ci/sanitizer-summary.py:163-188 | exactly the reports of the cases and of the log are shown, and something fails exactly when a case, the log or the return code gives a reason |
| `SanitizerSummary.RunSuite` | scripts/ci/sanitizer-summary.py:136-188 | a suite always has a result, no report is lost or invented, and a result fails exactly when the suite is not clean |
| `SanitizerSummary.Summarize` | scripts/ci/sanitizer-summary.py:59-74 | failed and passed results add up, and the failed ones are exactly the failing ones |
| `SanitizerSummary.Exit` | scripts/ci/sanitizer-summary.py:214-235 | exit 0 if and only if every suite has a parsed case, none failed, ctest returned 0 and no case or log shows a report or deadly signal; every report is in a failed result |
| `ReflectionRatchet.EqualCounters` | scripts/ci/check-java-test-private-access.py:387-392 | both Counter differences are empty if and only if the counters are equal |
| `ReflectionRatchet.ReadAllowlist` | scripts/ci/check-java-test-private-access.py:364-379 | entries are accepted exactly when each is well formed, with positive counts |
| `ReflectionRatchet.Check` | scripts/ci/check-java-test-private-access.py:382-400 | no error if and only if the sources hold exactly the allowed accesses, the allowlist did not grow and no private member is accessed |
| `ReflectionRatchet.AccessesNeverGrow` | scripts/ci/check-java-test-private-access.py:386-397 | along any chain of passing revisions the count of every access in every file never grows |
| `ReflectionRatchet.RemovedAccessesStayRemoved` | scripts/ci/check-java-test-private-access.py:386-397 | an access once removed never returns, and a clean file stays clean |

## Left out

- The engine, the language bindings and the framework runtimes.
- Real file system, git, flock, subprocess, thread and clock behaviour: rename, link replacement, one lock operation, one directory listing, one file copy and one removal are single atomic steps, and deadlines may expire at any moment.
- SHA-256 and the 16-character truncation of keys: digests and keys are taken to be injective in what they are computed from. Injectivity is proved for the encodings only.
- One clean check, one listing of a scope by git and one read of a file are single reads of the worktree. The package versions, which also enter a key, are not read separately: they are contained in the hashed files.
- CacheProvenance.PackagesComeFromTheirKey: the condition is sufficient, and each half of it is shown to be needed for files and index, but no condition is stated that is also necessary for every single history.
- In the walk of an output, directories without links are left out, and one directory is listed in one step.
- Where a prune gets its outputs from (its worktree list, its baseline, the directory test): the list and the skipped outputs are arbitrary, and the theorems on links name the outputs they rely on. A `git worktree move` is a new output with links, to which the exact condition of `CacheLinks.CoverageIsExact` applies.
- The order in which prune picks its candidates (marker times, `--keep`) and its dry run: the list of candidates is arbitrary, so the safety theorems hold for every choice.
- The staging directory is private to its process until the rename; leftovers of a crashed process are outside the cache directories and are not modelled.
- What a private build puts in its directory, and the NuGet and npm cache invalidation.
- `package_files` follows no symbolic links in parent directories.
- The control-plane branches of both runners, which are switched off, and how the client process is stopped after an error.
- CppStreamBarrier.StreamRunner.OnClientSample: which of several expired requests is named in the timeout error is an input, because the reason text does not affect the verdict.
- The C++ runner's per-transport merge and aggregation, and the texts of the C++ verdict's reasons.
- ResultPipeline.ClassifyCell: the texts of failure reasons and return codes are not modelled beyond which size they belong to. A successful case is taken to carry at least one value of its own size, as bindings/c/perf/run_comparison.py:2139 and the size filter of its parser guarantee.
- Report.ParseReport: numbers are plain decimals as the runners print them; a leading `+`, exponents, `nan`, `inf` and digit separators that Python would also accept are not parsed. The gate model takes non-finite values as inputs of their own. Pattern names are the displayed, upper-case ones, and transports are lower-case.
- ReportTotals.ReportOfRunAccepted: values exactly between two printable ones round up, where Python rounds the binary value.
- Provenance META lines, the q-value computation of the round-trip gate and table rendering.
- Floating-point rounding: ratios are exact, and a geometric mean is compared with 1 through the product of its ratios.
- Regular expressions: diagnostics, include directives and reflective accesses are inputs that have already been matched.
- The Java scanner and the .NET checks, option parsing, path discovery, automatic builds and version synchronisation.
