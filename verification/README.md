# Verified models of the nervix build tooling

nervix's continuous integration moves build artifacts, plans fuzz shards, merges coverage, publishes
caches and checks its source rules with Python scripts. This project models the parts of them that are
protocols and algorithms, and proves what they promise.

- **Artifact transfer** (`Ranges`, `Transfer`, `TransferInvariant`, `TransferSteps`, `PartRuns`,
  `Download`, `RetryBound`, `TotalBound`, `StopBound`, `Retries`, `PartTraces`,
  `ReceivedParts`). A download is a state machine:
  every lock-protected block of a thread, every read of shared state and every answer of the store is one
  action, so a run is one interleaving. A part is fetched as byte ranges by many threads, slow ranges are
  split onto spare requests, failures are retried, and a prefix hash runs while blocks arrive out of
  order. The invariant counts, for every byte, the ranges that hold it. `ReceivedParts` has the same
  operations as classes that update their fields, proved against the machine's functions. `Retries` and
  `PartTraces` tell from the steps of a run alone how often ranges failed, attempts were opened and answers taken.
- **Attempts and pace** (`Attempts`, `Pace`). Connections that a watch and any number of stopping
  threads may cut, and the rule by which a body is too slow.
- **Part files** (`PartFiles`). The stream cut into parts, and read back.
- **Shard planning and combining** (`LoadBalance`, `SortKeys`, `ShardPlan`, `Planner`, `Combiner`).
  Longest-first dealing with its balance bounds, the plan, and the evidence that relies on it.
- **Coverage** (`Lcov`, `LcovMerge`, `LcovLaws`, `LcovSums`, `LcovWritten`, `LcovMerger`, `FullUnion`,
  `UnionCounts`, `FullCoverage`). The LCOV merge as a sum of counters, its printed form, and the union of all producers
  with its attribution.
- **Publication** (`Publication`, `Answers`). A step that a signal may reach between any two of its actions, and
  what it waits for and records, from the answers it heard.
- **Source analysis** (`Cfg`, `LoomFiles`, `UseTree`, `Routes`, `Libtest`, `LibtestBinaries`).
  Conditional compilation predicates, module reachability, use trees, governed paths, and the output of
  nested test runs.

`Options` and `Products` hold a datatype and a few facts about products that several of these share.

Loops and updated objects of the scripts are methods and classes here, each proved against a function or a
relation; the theorems are about those. A hash is any function of the bytes appended to it. The answers of
the store, of the daemon and of the clock, the sizes of reads and writes, and the failures of each are
parameters of the steps.

## Where the code does less than its text says

- A write of a block that fails is retried from the byte after the block, which the digest already has.
  `PartRuns.LostWriteEndsFine` is a run that ends normally with an empty file. `PartRuns.FinePartMatches`
  says exactly when the file of a part that ended normally is the bytes that were hashed: when it has the
  part's length and every byte a failed write gave up is zero.
- The pace rule is stated over 30 seconds. A body can move less than its quota over such a window and not
  be cut (`Pace.SlowWindowSurvives`); `Pace.CutExactly` is the rule, and `Pace.SurvivorsKeepPace` bounds
  the windows.
- A cancelled record is said to name the phase in which the signal was received. Between a phase's check and
  its naming it names the next one (`Publication.PhaseNamedExactly`, `Publication.RacedPhaseIsMisnamed`).
- A test left without an outcome by one binary takes an outcome from the next
  (`LibtestBinaries.BinariesStayApart`, `LibtestBinaries.OutcomeMayLeak`).
- Reading zero bytes of the parts drops the rest of the stream (`PartFiles.PartReader.Read`).
- A use tree that ends early is meant to end in the reader's own error. Inside a group it may end in an index
  past the tokens instead. Whether it does is not a matter of the group being closed
  (`UseTree.ClosingDoesNotDecide`), since after `::` the reader takes any token for a name.
  `UseTree.FailsExactly` gives the condition, which one pass over the tokens with a counter decides: some group
  is still open, and the tokens do not end where a name is wanted after `::`.

## Model

| member | source | states |
|---|---|---|
| Download.NoSilentSuccess | scripts/ci_artifacts.py:1086-1126 | In every interleaving of parts, split-off ranges, stops and interrupts, a download that returned was never stopped, every part ended without an exception, and every part hashes to its manifest entry over its whole length. |
| Download.StopIsRaised | scripts/ci_artifacts.py:837-865 | Once the stop flag is set the download never returns: while the main thread waits, some part holds a failure it is bound to raise. |
| Download.FailureIsHeeded | scripts/ci_artifacts.py:837-846 | In every reachable state the stop is set once a range split off ended in a failure, a part went on to join its ranges after one or ended in one, or the waiting thread raised one. |
| Download.ObserveDecides | scripts/ci_artifacts.py:1110-1126 | The waiting thread raises exactly when some part ended in a failure, and returns exactly when each ended otherwise. |
| StopBound.FailureEndsAll | scripts/ci_artifacts.py:1086-1100 | From the state in which a part ended in a failure on, no part opens more attempts than it had ranges past their last look at the flag. |
| Download.RequestsConserved | scripts/ci_artifacts.py:645-660 | In every reachable state the free spare requests and those taken and not given back add up to the initial count, also when fewer were granted than wanted. |
| Download.ActionFaithful | scripts/ci_artifacts.py:536-602 | Every action of every thread keeps a failed part failed, stops a part only under a set stop flag, sets the flag only for a failure or a stop, and conserves requests. |
| Download.TakeWholeFaithful | scripts/ci_artifacts.py:768-784 | Taking a whole answer for a ranged request, which restarts the part, forgets neither a failed or stopped range nor a spare request. |
| TransferSteps.WholeIsAlone | scripts/ci_artifacts.py:768-784 | A range that spans the whole part is the only one, so restarting for it discards no other range. |
| TransferSteps.ActionKeeps | scripts/ci_artifacts.py:758-885 | Every action of a range or a part thread keeps the whole invariant: tiling, byte accounting, file contents, running hash, range limits and outcomes. |
| PartRuns.RangesTile | scripts/ci_artifacts.py:714-726 | Under every mix of blocks, cut-offs, retries, nested splits and restarts, each byte of the part is received by, or still wanted by, exactly one range, and no byte outside it is. |
| PartRuns.SplitsStayLarge | scripts/ci_artifacts.py:813-835 | In every reachable state with two or more ranges each spans at least the smallest size, and the count of live ranges is exact and never above the limit. |
| PartRuns.EachByteOnce | scripts/ci_artifacts.py:848-865 | Once a part joined its ranges cleanly each byte was written or given up exactly once; it was written once exactly when no failed write gave it up. |
| PartRuns.DigestIsOfPrefix | scripts/ci_artifacts.py:799-811 | In every arrival order of blocks the running digest is that of exactly the delivered bytes before `hashed`, each received once. |
| PartRuns.FinePartMatches | scripts/ci_artifacts.py:992-1022 | A part that ends normally hashed to its manifest entry, and its file holds those bytes wherever they were written. The file is those bytes if and only if it has the part's length and every byte given up by a failed write is zero; so it is when no write of the last pass failed. |
| PartRuns.VerifiesExactly | scripts/ci_artifacts.py:867-876 | A part whose ranges ended matches its entry if and only if its digest or its file reaches its length and the bytes received, zero where one was given up before it was hashed, hash to the entry; if none was given up, if and only if the bytes received do. |
| PartRuns.DigestIsCompleted | scripts/ci_artifacts.py:870-875 | Completing a digest that is a prefix of a long enough file makes it the prefix of the file of the part's length. |
| PartRuns.JoinFinds | scripts/ci_artifacts.py:848-865 | Joining finds a failure if and only if some range failed, and a stop if and only if none failed and some stopped. |
| PartRuns.EndsAreGrounded | scripts/ci_artifacts.py:999-1022 | In every run a part ends in a failure only if a range of it failed or it did not match as often as the limits allow, and is stopped only if no range failed. |
| PartRuns.LostWriteEndsFine | scripts/ci_artifacts.py:799-811 | A run, for any hash, in which a write fails after its block was hashed and the part still ends normally with an empty file. |
| RetryBound.AttemptsBounded | scripts/ci_artifacts.py:536-602 | Against a store that honours ranges, one pass over a part opens at most 2 (length + 1) max(1, attempts) max(1, length / smallest range) attempts, whatever fails, stops or is split. |
| RetryBound.ActionBounded | scripts/ci_artifacts.py:1043-1054 | Each action spends no more of that bound than it opens attempts: progress, a split or the failure count pays for every retry. |
| Retries.FailuresCounted | scripts/ci_artifacts.py:553-570 | In every run a range's count of failures is the number of its attempts that failed in a row since the part last grew during one of them, and the part holds the bytes counted since it last started over. |
| Retries.GivesUpExactly | scripts/ci_artifacts.py:536-602 | A range gives up if and only if the store refused it in a way no retry changes, or it was not split and failed in a row as often as the limits allow. |
| Retries.AttemptEndsExactly | scripts/ci_artifacts.py:1030-1040 | A range ends fine if and only if it has all its bytes and its body ended or none was left to ask for; and exactly which answers, bodies and writes fail an attempt. |
| Retries.VerifyDecides | scripts/ci_artifacts.py:1010-1021 | A part none of whose bytes was given up completes if and only if the bytes received hash to its entry; otherwise it fails if and only if as many of its passes ended so as the limits allow, and starts over if not. |
| TotalBound.AllAttemptsBounded | scripts/ci_artifacts.py:992-1022 | Against a store that honours ranges, all passes over a part together open at most max(1, attempts) times the attempts of one pass: a mismatch ends a pass, and mismatches are bounded. |
| PartTraces.OpensBounded | scripts/ci_artifacts.py:536-602 | The same bound on the number of steps of a run that open an attempt. |
| PartTraces.AnswersTaken | scripts/ci_artifacts.py:768-784 | In every run a range receives bytes only of an answer of the length it asked for, and of a whole part only while the part is one range; ranges count as honoured if and only if the part's last answer was one. |
| PartTraces.SplitsAsFarAsAllowed | scripts/ci_artifacts.py:813-835 | A range is split into as many pieces as the limits and the spare requests allow if the last answer was a range, and into none otherwise. |
| StopBound.NoneStartsAfterStop | scripts/ci_artifacts.py:407-411 | From any state in which the stop flag is set, however the run goes on, a part opens no more attempts than it had ranges past their last look at the flag. |
| StopBound.StoppedCanOnlyStop | scripts/ci_artifacts.py:557-602 | Under a set flag a range that has yet to look at it, failed, or waits to retry stays there or ends stopped, and so does a part that waits to start over. |
| Ranges.PiecesTile | scripts/ci_artifacts.py:813-835 | The pieces cut off a range are consecutive, stay within it, end where it ended, and have no fewer bytes than the range keeps. |
| Ranges.PiecesAreEqual | scripts/ci_artifacts.py:827-830 | Each piece but the last has as many bytes as the range keeps. |
| Ranges.StepIsLargeEnough | scripts/ci_artifacts.py:813-835 | As many ways as the limits allow leave every piece at least the smallest range. |
| ReceivedParts.SpareRequests.Take | scripts/ci_artifacts.py:645-650 | Grants as many requests as are wanted and free, and takes exactly those. |
| ReceivedParts.SpareRequests.GivenBack | scripts/ci_artifacts.py:658-660 | One request is free again. |
| ReceivedParts.ReceivedPart.Whole | scripts/ci_artifacts.py:758-762 | One more live range, over the whole part. |
| ReceivedParts.ReceivedPart.RangeDone | scripts/ci_artifacts.py:764-766 | One live range fewer. |
| ReceivedParts.ReceivedPart.Accept | scripts/ci_artifacts.py:768-784 | Which answers are taken, refused or restart the part, and the state each leaves. |
| ReceivedParts.ReceivedPart.Write | scripts/ci_artifacts.py:799-811 | The range moves past the block, and the digest grows exactly when the block continues it, whether or not a write fails. The file holds the whole block at its place however many writes it took, or the bytes before the failing write, which is raised. |
| ReceivedParts.ReceivedPart.Split | scripts/ci_artifacts.py:813-835 | As many pieces as requests were granted, equal to the specified tiling, the range shortened to the first, and nothing changed where none was granted. |
| ReceivedParts.ReceivedPart.Verified | scripts/ci_artifacts.py:867-876 | The digest is completed from the file, and the answer is whether it covers the part and matches its entry. |
| ReceivedParts.ReceivedPart.Restart | scripts/ci_artifacts.py:878-885 | The file, the digest, the split-off ranges and the count of held bytes start over. |
| ReceivedParts.WriteOut | scripts/ci_artifacts.py:799-811 | A loop of partial writes leaves the file as one whole write of the bytes before the failing one would, and raises exactly when one fails. |
| Attempts.NothingEscapesStop | scripts/ci_artifacts.py:349-411 | For any number of stopping threads and every interleaving with begin, connect, close, end and the watch: once one stop is over, every open attempt whose begin returned is cut, and its socket, if it has one, was shut. |
| Attempts.CutsAreSound | scripts/ci_artifacts.py:244-283 | No cut ever reaches a closed socket, a shut socket belongs to a cut attempt, and only the pace watch shuts the read side alone. |
| Attempts.FirstCutDecides | scripts/ci_artifacts.py:260-283 | In every interleaving an open connection that was cut was shut on its read side alone if and only if the watch was the first to cut it and its body was being received then, and otherwise on both sides. |
| Attempts.Attempt.Connected | scripts/ci_artifacts.py:244-248 | A connection that opens after the cut is shut at once. |
| Attempts.Attempt.CloseConnection | scripts/ci_artifacts.py:250-258 | The socket is closed and forgotten, so no later cut can reach it. |
| Attempts.Attempt.ShutDown | scripts/ci_artifacts.py:275-283 | The open connection is shut on the sides the cut calls for. |
| Attempts.Attempt.Cut | scripts/ci_artifacts.py:260-273 | The first cut alone counts, and shuts the connection there is. |
| Pace.CutExactly | scripts/ci_artifacts.py:285-301 | A watch cuts an attempt if and only if it is not the first, the quota was not moved since the last look that kept pace, and at least the watched seconds passed since. |
| Pace.QuotaIsRate | scripts/ci_artifacts.py:285-301 | The quota is the slowest rate over the watched seconds. |
| Pace.CutWasSlow | scripts/ci_artifacts.py:285-301 | An attempt is cut only after at least the watched seconds with fewer bytes than the quota. |
| Pace.SteadyIsNeverCut | scripts/ci_artifacts.py:285-301 | A body that moves the quota in every window of the watched seconds is never cut. |
| Pace.StalledIsCut | scripts/ci_artifacts.py:285-301 | A body that stands still from some look on is cut at a later one if and only if the watched seconds passed since the look it last kept pace at. |
| Pace.SurvivorsKeepPace | scripts/ci_artifacts.py:401-405 | A body that is not cut moves less than the quota only over windows shorter than twice the watched seconds and one tick. |
| Pace.SlowWindowSurvives | scripts/ci_artifacts.py:26-28 | A body that moves less than the quota over the watched seconds and is not cut, against the module text read as a claim on every window. |
| Pace.Pacer.Watch | scripts/ci_artifacts.py:285-301 | The watch of one attempt, as the specified step of the mark. |
| PartFiles.PartWriter.Write | scripts/ci_artifacts.py:1251-1266 | Finished parts and the open one depend on the bytes written so far alone, not on how they were written. |
| PartFiles.PartWriter.Seal | scripts/ci_artifacts.py:1271-1275 | The open part, if any, becomes the last one, every entry giving its part's length and digest. |
| PartFiles.SealedIsChunks | scripts/ci_artifacts.py:1237-1275 | Writing then sealing cuts the stream into the specified chunks. |
| PartFiles.ChunksShape | scripts/ci_artifacts.py:1237-1275 | The chunks joined are the stream, all but the last have the full size and none is empty. |
| PartFiles.PartReader.Read | scripts/ci_artifacts.py:1285-1295 | A read of any size but zero returns the next bytes and is empty only at the end; a read of zero bytes drops the rest of the stream. |
| PartFiles.RoundTrip | scripts/ci_artifacts.py:1237-1300 | Any writes, sealed and read back with any sizes but zero, return the written stream from parts and entries that are functions of it. |
| LoadBalance.GapWithinLargest | scripts/bolero.py:652-676 | After every dealing step two shards' loads differ by at most the largest estimate. |
| LoadBalance.LoadNearAverage | scripts/bolero.py:652-676 | No load times the count exceeds the total and one less than the count times the largest estimate. |
| LoadBalance.GrahamBound | scripts/bolero.py:652-676 | Dealing longest first keeps every load within 4/3 - 1/(3 count) of the fullest load of any assignment whatever. |
| LoadBalance.NoneEmpty | scripts/bolero.py:652-676 | With at least as many harnesses as shards, none of which takes no time, no shard stays empty. |
| ShardPlan.PlanIsBalanced | scripts/bolero.py:652-676 | The three balance bounds, for the planned seconds of every shard of every accepted plan. |
| ShardPlan.PlanPartitions | scripts/bolero.py:652-676 | The shards of every accepted plan together hold every target of the inventory exactly once. |
| ShardPlan.HarnessesStayWhole | scripts/bolero.py:652-676 | Targets of one harness are in one shard. |
| ShardPlan.NoShardEmpty | scripts/bolero.py:652-676 | No shard of an accepted plan is empty. |
| ShardPlan.OneShard | scripts/bolero.py:652-676 | Every harness is dealt to exactly one shard. |
| ShardPlan.SortKeyDistinct | scripts/bolero.py:94-95 | Two harnesses share a sort key exactly when they are equal or differ only in a missing manifest and one named `None`. |
| ShardPlan.SortKeyOrder | scripts/bolero.py:94-95 | Sort keys compare manifests, then packages, test targets and features. |
| ShardPlan.SortedUnique | scripts/bolero.py:666 | With distinct sort keys there is one sorted order of the estimates. |
| ShardPlan.ReorderingChangesNothing | scripts/bolero.py:652-676 | Listing the inventory in another order changes neither which counts are accepted nor which shard a harness goes to. |
| ShardPlan.DealtIsGreedy | scripts/bolero.py:669-672 | Each estimate goes to a shard that had the least load then. |
| ShardPlan.LongestFirst | scripts/bolero.py:666 | The longest estimated harness is dealt first, and harnesses of equal estimate in the order of their sort keys. |
| Planner.GatherMembers | scripts/bolero.py:638-649 | The loop over targets finds each harness in the order of its first target, and its number of targets. |
| Planner.HarnessEstimates | scripts/bolero.py:638-649 | The gathered estimates are the specified ones. |
| ShardPlan.OneMoreTarget | scripts/bolero.py:638-649 | One more target adds one campaign to its harness's estimate, and the longer build if it is the first prepared one; it adds nothing to another harness. |
| Planner.IndexOfLeast | scripts/bolero.py:669-672 | The first shard with the least load. |
| Planner.Deal | scripts/bolero.py:667-672 | The dealing loop puts each harness where the specification deals it. |
| Planner.SelectTargets | scripts/bolero.py:673-676 | A shard's targets are those of its harnesses, in inventory order. |
| Planner.MakePlan | scripts/bolero.py:652-676 | A plan is made if and only if the count is from one to the number of harnesses, and it is the plan. |
| Combiner.Combine | scripts/bolero_coverage.py:349-389 | Evidence is combined if and only if shards 1 to N of one plan each completed exactly their own targets at one inventory, plan and revision; the final check that every target was selected once never fails. |
| Combiner.EvidenceIsRecorded | scripts/bolero_coverage.py:324-389 | What each record must say for its evidence to be combined, field by field: number, count, verdict, report, inventory, plan, selection, counts, completions and revision. |
| Combiner.PlannedIsEverything | scripts/bolero_coverage.py:371-389 | Shards that each selected their planned targets together selected every registered target once. |
| Combiner.ByNumberSorts | scripts/bolero_coverage.py:301-314 | The evidence in the order of its shard numbers, nothing lost or added. |
| Combiner.CheckShards | scripts/bolero_coverage.py:324-346 | Whether every shard completed exactly its planned targets. |
| Lcov.FunctionRoundTrip | scripts/bolero_coverage.py:442-453 | A function's line reads back as the function if and only if it records an end or its name does not start with digits and a comma. |
| Lcov.ReadsExactly | scripts/bolero_coverage.py:476-517 | A report is read if and only if each line may stand where it does and its last record ends; otherwise its first fault is the error. |
| Lcov.ReadAllAdds | scripts/bolero_coverage.py:476-517 | Reading reports after others only adds what they add alone, and fails exactly as they fail alone. |
| LcovSums.CountsAreSums | scripts/bolero_coverage.py:496-513 | A merged count exists exactly for what some line mentions, and is the sum of what the lines of all reports say, a branch that never ran adding nothing. |
| LcovSums.FunctionsAreFirst | scripts/bolero_coverage.py:496-498 | The merged functions are exactly those declared, each as its first line declares it. |
| LcovSums.OrderChangesNothing | scripts/bolero_coverage.py:469-539 | Whether reports merge, every count, and which sources and functions there are do not depend on the order of the reports. |
| LcovSums.MergesExactly | scripts/bolero_coverage.py:518-524 | Reports that are read are merged if and only if every counted function has its line in a record of the same source. |
| LcovWritten.RecordsAddUp | scripts/bolero_coverage.py:525-538 | In every record of the merged report each summary stands once and counts the lines written: functions, branches and lines, and those that ran; and the lines stand in their order, one count for each function. |
| LcovWritten.RecordsStandInOrder | scripts/bolero_coverage.py:519-520 | The records stand in the order of their sources. |
| SortKeys.StringsByCharacter | scripts/bolero_coverage.py:519-525 | Strings stand in the order of the first characters in which they differ, a prefix first. |
| LcovLaws.PrintRestores | scripts/bolero_coverage.py:518-539 | Reading the written report restores the merged counters, every function now counted. |
| LcovLaws.MergeOfMerged | scripts/bolero_coverage.py:469-539 | Whenever each group merges, merging the merged reports succeeds and writes the very report that merging all inputs at once writes. |
| LcovLaws.CompleteAdds | scripts/bolero_coverage.py:526-527 | Counting uncounted functions as zero before or after adding counters is the same. |
| LcovMerger.ReadLines | scripts/bolero_coverage.py:478-517 | The line loop with its open record and its errors reads what the specification reads. |
| LcovMerger.Count | scripts/bolero_coverage.py:496-513 | One line's dictionary updates add exactly what the line says. |
| LcovMerger.Write | scripts/bolero_coverage.py:518-539 | The writing loop writes the specified report. |
| LcovMerger.MergeReports | scripts/bolero_coverage.py:469-539 | The whole merge, with every error, is the specified merge. |
| FullUnion.UnionCoversExactly | scripts/coverage_full.py:1101-1109 | A line is covered in the union if and only if some contribution covers it. |
| FullUnion.HitsAdd | scripts/coverage_full.py:1101-1109 | Hits and coverers are sums over the contributions. |
| FullUnion.OrdinaryAndBeyond | scripts/coverage_full.py:1140-1164 | Covered lines of the union are the ordinary ones and those beyond, and so for executable lines. |
| FullUnion.ExclusiveAndShared | scripts/coverage_full.py:1113-1129 | Lines exclusive to one contribution and lines with two or more coverers add up to the covered lines of the union. |
| FullUnion.BeyondIsAttributed | scripts/coverage_full.py:1173-1188 | A line lies beyond the ordinary report exactly when the section of some contribution lists it, and a section lists just that contribution's own hits, of lines the ordinary report does not cover. |
| UnionCounts.TotalsBalance | scripts/coverage_full.py:1140-1164 | The reported totals satisfy all three balances. |
| UnionCounts.SumAll | scripts/coverage_full.py:1101-1109 | The loops sum every line's hits, gather the files and count each line's coverers. |
| UnionCounts.Attribute | scripts/coverage_full.py:1116-1129 | One contribution's executable, covered, exclusive and beyond-ordinary lines are counted exactly. |
| UnionCounts.CountTotals | scripts/coverage_full.py:1140-1164 | The totals' loop counts the union, the lines and files beyond the ordinary report, the added executable lines and the wrapped counters exactly. |
| UnionCounts.CountWrapped | scripts/coverage_full.py:1163 | The wrapped counters of all contributions. |
| UnionCounts.BeyondSection | scripts/coverage_full.py:1173-1188 | The loop over one contribution's lines gathers exactly its section. |
| FullCoverage.FindOrdinary | scripts/coverage_full.py:1134-1138 | The first ordinary contribution, or none. |
| FullCoverage.Coverage.AttributeAll | scripts/coverage_full.py:1111-1129 | Every contribution's attribution, and the lines each mode covers and covers beyond. |
| FullCoverage.Coverage.Combine | scripts/coverage_full.py:1099-1132 | The union, attributions, modes and totals are the specified ones; without an ordinary contribution only the counters are summed. |
| Publication.CancelledOnlyAtChecksAndInWaits | scripts/kache_remote.py:700-722 | For every placement of signals a cancellation is raised only at a check or by the handler inside a wait; anywhere else a signal leaves the step where it stands, and inside a wait the first one is raised at once. |
| Publication.RecordedOnce | scripts/kache_remote.py:964-974 | However signals fall, the record is never written twice; a step that exited wrote it once, with an outcome, if and only if no other exception ended publication or the writing of the record. |
| Publication.CancelledExactly | scripts/kache_remote.py:964-969 | The recorded outcome is cancelled if and only if the first handled signal was handled before the check after publication. |
| Publication.ExitsWithFirstSignal | scripts/kache_remote.py:1017-1035 | The step exits with 128 plus the first signal it handled, or with 0 if it handled none; after any other exception, with 1. |
| Publication.PhaseNamedExactly | scripts/kache_remote.py:897-901 | The reason a cancelled record gives names the first signal and the phase in which it was handled if and only if it was not handled between a phase's check and its naming. |
| Publication.RacedPhaseIsMisnamed | scripts/kache_remote.py:897-901 | A run in that gap, whose record gives a later phase. |
| Publication.PublishedMeansComplete | scripts/kache_remote.py:802-895 | Published only with no reason against it: the manifest saved, no upload pending, failed or unread at the last reading and the daemon still answering. Incomplete only when one of these failed, and the reasons gathered on the way are exactly those that hold of the last readings. |
| Answers.EndsAsHeard | scripts/kache_remote.py:802-895 | An outcome other than a cancellation is recorded if and only if the job and the answers of the waits warrant it: which of them end as not run, unavailable, read-only, published or incomplete. |
| Answers.WaitsInOrder | scripts/kache_remote.py:826-881 | What publication waits for is what must follow what it heard; a reading with uploads pending is followed by a pause and another reading, and only out of time does it leave waits out. |
| Answers.WaitsForUploads | scripts/kache_remote.py:855-893 | With time left at every action, a publication is incomplete for pending uploads only if a reading failed, and has no manifest status only if the command that saves it had none. |
| Answers.BeginsOnlyInTime | scripts/kache_remote.py:848-870 | Saving the manifest, a reading and a pause each begin only with an action that found time left. |
| Answers.ReasonsAreHeard | scripts/kache_remote.py:855-895 | The reasons of an incomplete publication are exactly those that the answers give. |
| Answers.ReasonsInTurn | scripts/kache_remote.py:855-895 | Each reason stands once, in its turn. |
| Publication.FirstIsRemembered | scripts/kache_remote.py:700-706 | Whatever came after, the step keeps the first signal it handled. |
| Publication.ExitIsFinal | scripts/kache_remote.py:1017-1035 | No continuation of a run changes the step once it exited. |
| Publication.Termination.Handle | scripts/kache_remote.py:700-706 | The handler keeps the first signal, and raises it exactly when a wait is running, once. |
| Publication.Termination.Check | scripts/kache_remote.py:708-711 | A check raises the kept signal, if there is one. |
| Cfg.ParsesExactly | scripts/check_primitive_boundary.py:955-1002 | Reading returns a predicate if and only if the tokens spell it in the grammar, trailing commas allowed and a negation with exactly one operand. |
| Cfg.WordsMean | scripts/check_primitive_boundary.py:1004-1029 | A spelled `all` holds if each of its operands does, `any` if one does, and `not` if its one operand does not. |
| Cfg.ParseUndoesPrint | scripts/check_primitive_boundary.py:955-1002 | Reading a printed predicate restores it if and only if each of its negations has one operand. |
| Cfg.ParseAt | scripts/check_primitive_boundary.py:974-1002 | The index-moving reader finds what the specification reads, and where it ends. |
| Cfg.ParseOperands | scripts/check_primitive_boundary.py:989-1002 | The operand loop reads the operands up to their closing parenthesis. |
| Cfg.ParseCondition | scripts/check_primitive_boundary.py:955-972 | A whole condition, with nothing left over. |
| Cfg.WithoutLoomIsSound | scripts/check_primitive_boundary.py:1004-1029 | A definite answer is the predicate's value under every setting of the other options with Loom off. |
| Cfg.WithoutLoomIsExact | scripts/check_primitive_boundary.py:1004-1029 | Where no option stands in two operands, the answer is definite if and only if every setting with Loom off agrees. |
| Cfg.ReadTwiceMayBeUndecided | scripts/check_primitive_boundary.py:1004-1029 | A predicate that always holds, reads an option twice and is left undecided. |
| Cfg.CheckLoomOnly | scripts/check_primitive_boundary.py:1032-1039 | The first condition that rules out a build without Loom, or cannot be read, decides; such an item is in no build without Loom. |
| LoomFiles.LoomOnlyFiles | scripts/check_primitive_boundary.py:1609-1628 | Exactly the files reachable through declarations from one declared only for Loom, also on cyclic declarations, where it ends. |
| LoomFiles.Roots | scripts/check_primitive_boundary.py:1615-1619 | The files some declaration compiles only for Loom. |
| UseTree.SpelledTreesImport | scripts/check_primitive_boundary.py:548-596 | Every spelling of a use tree is read as exactly the paths and aliases it imports, in order. |
| UseTree.PrintedTreesImport | scripts/check_primitive_boundary.py:548-596 | The same of a printed tree. |
| UseTree.FailsExactly | scripts/check_primitive_boundary.py:548-596 | The reader runs past the tokens if and only if they end inside a group other than where a name is wanted, and reads a tree if and only if they end with every group closed and a tree complete, as one pass with a counter of groups decides. |
| UseTree.ClosingDoesNotDecide | scripts/check_primitive_boundary.py:570-576 | A closed group that runs past the tokens, an unclosed one that ends in the reader's error, and an unclosed one that runs past them. |
| UseTree.ParseTree | scripts/check_primitive_boundary.py:564-591 | The index-moving reader appends what the specification reads, and fails as it fails. |
| UseTree.ParseGroup | scripts/check_primitive_boundary.py:570-576 | The loop over a group's trees appends what the specification reads, and fails or runs past the tokens as it does. |
| UseTree.ReadUse | scripts/check_primitive_boundary.py:593-596 | One whole use item. |
| Routes.NothingIsHidden | scripts/check_primitive_boundary.py:614-654 | For any table of routes, some extension of a path, of any length, is governed if and only if the path is governed or is reported to govern below. |
| Routes.RouteOf | scripts/check_primitive_boundary.py:614-634 | A path is routed exactly when governed: by the first of the longest matching prefixes, else by the first module that blocks it. |
| Routes.BestRoute | scripts/check_primitive_boundary.py:620-625 | The loop keeps the first of the longest matching prefixes. |
| Libtest.NestedRunsAreErased | scripts/libtest_accounting.py:97-142 | Inserting or removing a whole well-nested run anywhere inside a run in progress changes nothing of the report. |
| Libtest.ReportNarrows | scripts/libtest_accounting.py:83-95 | In every report discovered >= selected >= executed >= completed. |
| Libtest.CountsAddUp | scripts/libtest_accounting.py:83-142 | The report's counts are sums of the fields of the binaries' own result lines. |
| Libtest.ReadReport | scripts/libtest_accounting.py:97-142 | The line loop reads the specified report. |
| LibtestBinaries.ReportIsSum | scripts/libtest_accounting.py:97-142 | Every log reports the sum of the results of its binaries and the outcomes their own lines credit, those of a last binary that never finished included. |
| LibtestBinaries.EveryLogSplits | scripts/libtest_accounting.py:97-142 | Every sequence of lines is its binaries, each a well-nested run with the lines before it, then lines that start no run, then at most one run that did not finish. |
| LibtestBinaries.BinariesStayApart | scripts/libtest_accounting.py:97-142 | A log credits what its binaries credit alone if and only if no binary reached with a test left waiting gives an outcome before it names a test; and then those are the outcomes reported. |
| LibtestBinaries.OutcomeMayLeak | scripts/libtest_accounting.py:128-141 | A log in which a test that got no outcome takes the next binary's. |

## Left out

- HTTP, TLS, request signing, tar and gzip, file selection and glob patterns: behaviour of libraries and of the file system.
- The store may answer anything, but the body of a ranged answer is not longer than the range asked for; the code enforces this only where the answer declares its length.
- Retry termination against a store that ignores ranges: every answer restarts the part and renews the failure count, which the code leaves to the job's time limit.
- Liveness: that a download or a publication eventually ends is not stated, apart from the bound on attempts.
- Waits, jitter, backoff and the size of the thread pools: a wait is a step, and any number of threads may run.
- Progress reports, log lines, Markdown and the text of errors.
- Uploads of parts and `MeteredBody`: they retry whole parts, and add only easier cases of the download.
- Signals before the publication step installs its handler.
- Splitting text into tokens and lines: LCOV lines, use trees, conditions and libtest output are read as classified lines and tokens. A digit is an ASCII digit.
- Nested dictionaries by file are flattened to one dictionary by file and key, in the LCOV merge and in the union.
- The checks of `combine` after the selection, on the run and attempt the shards name, and the combined record's fields.
- `plan_digest` and other digests of plans and inventories: any function of the plan.
- The text of the beyond-ordinary report and its order by producer: only the lines each contribution lists, with their hits, are stated.
- Cfg.WithoutLoomIsExact: the answer is complete only where no option stands in two operands; `Cfg.ReadTwiceMayBeUndecided` shows why.
- The rules of `check_primitive_boundary.py` on permissions, manifests and scanned text.
- `deloxide_lane.py`, `loom_models.py`, `model_evidence.py`, `coverage_merge.py`, `patch_coverage.py`, `crap_report.py` and the remaining scripts: process supervision and reporting, with easier properties.
- The Rust sources: consensus, runtime and relays are not part of this model.
