# Verified models of the graph oracle, the recorder protocols and the release tools

This project models the parts of codex-info whose logic is hardest to see by reading, and proves what they are
for. `dafny verify dfyconfig.toml` checks all of it.

**The graph oracle** (`scripts/graph_live_evidence.py`), over exact reals. Sparse cumulative readings become a
monotone series (`ModelProjection`), overlapping local-usage pages become one timeline (`LocalUsage`), token
lines are cut around local-usage holds (`TokenSegments`), sustained idle runs are found (`IdleIntervals`), and
the drawing helpers interpolate (`MonotoneCubic`, `SampledSmoothing`), dash (`DashWalk`) and place labels
(`LabelLayout`).

**Protocols.** Each is a state machine whose runs are arbitrary sequences of steps, with failures and crashes at
any step. `SqliteGenerations` has any number of callers making, scanning and cleaning private generations under
a root lock and one owner lock each; `UndisturbedCalls` shows that what nobody disturbs goes through.
`StopProtocol` interleaves every system call of `stop_daemon` with arbitrary process exits, pid reuse, exec and
lock replacement. `Recorder` says what each recorder command does
to the outside for every outcome of every call it makes, and `RecorderWorker` is the command loop over the
worker's fields, proved against it. `AccountRegistry` is the epoch registry with failing writes and restarts, and
`RegistryRaces` the same calls by many callers, step by step.

**Readers and release tools.** `JsonlReader` is the bounded record reader over a buffered reader with any
chunking. `ProductVersion` is decimal increment, version order and beta identities. `AtomicReplace` is the
multi-file replacement with rollback.

Where the source updates state step by step, the model is a method with loops or a class, proved against a
function of the old state; the properties are then proved about that function. What such a function computes is
pinned in turn by laws that speak of the inputs and outputs alone, such as `ShownIsGreatest`, `LineLooks`,
`PrecedesIff`, `GrantedIff` or `AloneItJudges`.

Four claims one would like to make are false of the code. Each is settled by the exact condition and a run:

- A recovery scan can remove entries of a generation whose owner lock another caller still holds. It happens
  only while an owner whose `cleanup` failed halfway has released the root lock but not yet returned
  (`src/app_server_sqlite.rs:172-179` drops the owner lock last). `ScanRemovesExactly`: a scan that reaches a
  held generation goes on to remove from it if and only if the lock file has lost its name and what is left
  still has an acceptable shape. `HeldGenerationsAreSafe` covers every other step, and `HalfCleanedIsNotSafe`
  is a run in which it happens.
- Not every write to a partition's database is under the writer lock: a missing database is created as a
  candidate and renamed before the lock is taken (`src/daemon.rs:1432-1447`). `GuardedUnlessPrepared`: every such
  write of a run is guarded if and only if no activation in it finds its directory, no database, and a readable
  candidate path while the partition is not active already. `ActivationLeavesUnguarded` counts the unguarded
  writes of one activation from those conditions, and `FirstActivationIsUnguarded` is a run that has one.
- The file transaction does not always end old or new: an interrupt escapes from its rollback, which catches
  only operating-system errors (`scripts/product_version.py:535-537`), and from its clean-up. `ReplaceAll` says
  from the fates of the calls where the rollback begins (`Going`) and how the transaction ends (`Ending`): in
  one of the promised ways unless a call after that point is interrupted, and even then every file is old or
  new; `RollbackCanBeInterrupted` is a run that ends with one of each.
- Accounts do not keep their epochs for ever when callers overlap: nothing holds the registry between loading
  it and renaming a changed copy into place (`src/account_scope.rs:878-985`). `NothingIsLostUnlessStale`: in a run
  of any callers the registry only ever grows if and only if no caller replaces a registry that is neither the
  one it loaded nor already the one it writes. Then epochs are shared by none (`EpochsAreSharedByNone`), and
  `TwoCallersShareAnEpoch` is a run in which two accounts are granted the same one.

## Model

| member | source | states |
|---|---|---|
| MonotoneCubic.MonotoneSlopes | scripts/graph_live_evidence.py:1388-1430 | slopes exist exactly for strictly increasing anchors, one an anchor, whose values the next rows give |
| MonotoneCubic.SlopesTame | scripts/graph_live_evidence.py:1388-1430 | every slope is between 0 and 3 times each secant it touches, with its sign: the bound that makes the interpolation shape preserving |
| MonotoneCubic.InnerSlopeIsHarmonic | scripts/graph_live_evidence.py:1416-1428 | an inner slope is zero at a turn or flat piece; otherwise it lies between the secants a and b beside it and is 3(w+v)ab over (2v+w)a + (v+2w)b for widths w and v |
| MonotoneCubic.FirstSlopeIsParabolic | scripts/graph_live_evidence.py:1404-1415 | the first slope is the derivative of the parabola through the three outer anchors, made zero against the end secant and limited to three times it at a turn |
| MonotoneCubic.LastSlopeIsParabolic | scripts/graph_live_evidence.py:1404-1429 | and so is the last slope |
| MonotoneCubic.IntervalValues | scripts/graph_live_evidence.py:1433-1455 | the error cases in order, and otherwise the cubic at every fraction |
| MonotoneCubic.CubicMeetsKnots | scripts/graph_live_evidence.py:1433-1455 | the cubic takes both knot values at fractions 0 and 1 |
| MonotoneCubic.CubicIsDetermined | scripts/graph_live_evidence.py:1446-1455 | the value is that of the one cubic with the knots' values and the two slopes |
| MonotoneCubic.LineIsDrawn | scripts/graph_live_evidence.py:1388-1455 | anchors on a straight line, two or more, are drawn as that line |
| MonotoneCubic.CubicStaysMonotone | scripts/graph_live_evidence.py:1433-1455 | for fractions s <= t in [0,1] it moves monotonically from the left knot to the right one and never leaves their range, for all real anchors |
| SampledSmoothing.Smooth | scripts/graph_live_evidence.py:1458-1506 | the knot collection and per-sample evaluation give the smoothed series of the specification, errors included |
| SampledSmoothing.SmoothPoint | scripts/graph_live_evidence.py:1481-1505 | one sample: its knot's own value, a clamped end, or the cubic between its neighbouring knots |
| SampledSmoothing.SmoothingKeepsShape | scripts/graph_live_evidence.py:1458-1506 | a rising series never fails, keeps its length, every knot and both ends exactly, and stays non-decreasing, whatever is preserved |
| SampledSmoothing.KnotIff | scripts/graph_live_evidence.py:1467-1476 | a sample gives up its value only inside the series, unpreserved, and equal to a neighbour |
| SampledSmoothing.OnlyKnotsMatter | scripts/graph_live_evidence.py:1458-1506 | series with the same knots are smoothed to the same values |
| ModelProjection.ReadingsAreNonNegative | scripts/graph_live_evidence.py:446-494 | with non-negative published dollars every reading is non-negative, the derived dollars of the one repriced model included |
| ModelProjection.ReadingIs | scripts/graph_live_evidence.py:446-494 | what the reading of a model is: none unless listed by a published row, its tokens, its dollars, or the derived price in terms of the four token counts |
| ModelProjection.ScreenRows | scripts/graph_live_evidence.py:501-532 | the running baseline of the loop is the last accepted reading, and marks every row as the specification of spikes and decreases does |
| ModelProjection.AcceptedIff | scripts/graph_live_evidence.py:507-532 | a reading is accepted exactly when it is measured, no one-row spike, and no smaller than any reading accepted before it |
| ModelProjection.RejectedIff | scripts/graph_live_evidence.py:507-532 | in terms of the readings alone: rejected are one-row excursions beside no gap and readings below an earlier accepted one |
| ModelProjection.FillHoles | scripts/graph_live_evidence.py:540-565 | the loops over anchor pairs fill exactly the rows between a previous and a next direct reading, as the shown values below are shown to come from |
| ModelProjection.HoldTail | scripts/graph_live_evidence.py:567-584 | rows after the last reliable value hold it |
| ModelProjection.HoldDisplay | scripts/graph_live_evidence.py:588-606 | rows after the last displayed value hold it |
| ModelProjection.FloorDisplay | scripts/graph_live_evidence.py:612-623 | the running floor is the highest renderable value so far, and only values under it are raised |
| ModelProjection.ProjectModel | scripts/graph_live_evidence.py:497-624 | the five passes compose to the projection of the raw readings |
| ModelProjection.ProjectionIsFaithful | scripts/graph_live_evidence.py:497-624 | for all non-negative readings the output never falls, direct points are exactly the accepted confirmed readings with their raw values, nothing is missing after the first, and values between two direct ones lie between theirs |
| ModelProjection.ShownIsGreatest | scripts/graph_live_evidence.py:497-624 | the value shown at any row is the greatest of the accepted readings up to it and the points of rows without a reading on the straight line between the measured readings around them |
| ModelProjection.ShownWhere | scripts/graph_live_evidence.py:497-624 | exactly which rows show a value |
| ModelProjection.HoleIsOnItsLine | scripts/graph_live_evidence.py:558-563 | a row without a reading between two measured rows shows its point on the straight line between them, or the greatest accepted reading before it if that is higher |
| ModelProjection.ReliableIff | scripts/graph_live_evidence.py:538-565 | reliable are exactly the measured rows and the holes between two equal measured readings |
| ModelProjection.FloorKeepsDirect | scripts/graph_live_evidence.py:612-623 | the floor pass demotes no direct point and changes none of their values |
| LocalUsage.ValidateLocalUsage | scripts/graph_live_evidence.py:173-197 | a page is accepted exactly when its intervals tile its scope inside the period |
| LocalUsage.ClippedTiles | scripts/graph_live_evidence.py:182-197 | what an accepted page yields tiles the scope cut off at the period's end and keeps the states |
| LocalUsage.MergeLocalPages | scripts/graph_live_evidence.py:200-224 | succeeds exactly when the pages leave no gap and never disagree at any instant; the result is the shortest timeline that agrees with every page at every instant |
| LocalUsage.MergeIgnoresOrder | scripts/graph_live_evidence.py:200-224 | the answer, timeline or refusal, depends only on the set of intervals, not on page order or grouping |
| LocalUsage.ValidPagesArePositive | scripts/graph_live_evidence.py:173-197 | accepted pages satisfy what the sweep asks for |
| TokenSegments.BaseSegments | scripts/graph_live_evidence.py:912-993 | the segments between exact points, with styles and causes, and the dashed tail |
| TokenSegments.BaseChain | scripts/graph_live_evidence.py:912-993 | they tile the stretch from the first exact point to the last renderable one, each of positive length |
| TokenSegments.DrawnIff | scripts/graph_live_evidence.py:912-993 | an instant is drawn exactly if it lies between a point of the line and a value that can be shown |
| TokenSegments.LineLooks | scripts/graph_live_evidence.py:923-963 | between neighbouring points of the line, style and causes are exactly what gaps, missing rows, unavailable sources, rejected rows, falls and idle spans tell |
| TokenSegments.TailLooks | scripts/graph_live_evidence.py:964-993 | and what the dashed tail looks like |
| TokenSegments.LocalTokenHolds | scripts/graph_live_evidence.py:873-891 | the unused intervals with an anchor that nothing after it contradicts |
| TokenSegments.HoldsIff | scripts/graph_live_evidence.py:873-891 | an unused interval holds exactly if the last row that tells the tokens by its start is not disputed up to its end |
| TokenSegments.HeldIff | scripts/graph_live_evidence.py:873-891 | an instant of a token series is held exactly if such an interval covers it |
| TokenSegments.BridgesIff | scripts/graph_live_evidence.py:420-443 | a slot is bridged for tokens, and for dollars exactly if a member of the model or family is listed before it and none has an unknown or different amount after it |
| TokenSegments.ApplyHolds | scripts/graph_live_evidence.py:994-1008 | the clipping loop is the cut of the specification, hold after hold |
| TokenSegments.HoldsRepaint | scripts/graph_live_evidence.py:994-1008 | any list of positive holds repaints exactly the held instants and leaves pieces positive and disjoint |
| TokenSegments.ModelSegments | scripts/graph_live_evidence.py:894-1009 | for tokens and dollars the result is sorted and holds exactly the cut pieces |
| TokenSegments.CuttingPreservesTheLine | scripts/graph_live_evidence.py:894-1009 | for tokens and dollars: pieces are positive and follow one another without overlap; together they are the original tiling united with the holds; each instant keeps its style and causes, or is idle if held |
| IdleIntervals.RecoverableSlots | scripts/graph_live_evidence.py:376-417 | the set of indices that are one-minute sampling slots |
| IdleIntervals.SlotIff | scripts/graph_live_evidence.py:376-417 | what a sampling slot is, in terms of the three rows around it and the projections beside it |
| IdleIntervals.SlotsHideNothing | scripts/graph_live_evidence.py:359-417 | two slots are never adjacent, and the rows around one carry the same vector, quota and values |
| IdleIntervals.ObservedIff | scripts/graph_live_evidence.py:1120-1121 | a row is observed exactly when it is no slot |
| IdleIntervals.FindIdleIntervals | scripts/graph_live_evidence.py:1094-1173 | the joining loop gives the sustained quiet spans, or the long unused intervals of local usage |
| IdleIntervals.QuietIff | scripts/graph_live_evidence.py:1122-1157 | what makes two rows in turn quiet: time without a gap, the same models with the same tokens, and own evidence of the same value |
| IdleIntervals.UnusedSpansAre | scripts/graph_live_evidence.py:1099-1103 | with local usage: exactly its unused intervals of 600 seconds or more |
| IdleIntervals.IdleIsQuiet | scripts/graph_live_evidence.py:1105-1173 | every idle interval is a run of quiet pairs that lasts 600 seconds or more |
| IdleIntervals.QuietPairsAreIdle | scripts/graph_live_evidence.py:1105-1173 | and every run of quiet pairs of observed rows that lasts 600 seconds or more lies inside an idle interval |
| IdleIntervals.IdleSpansApart | scripts/graph_live_evidence.py:1105-1173 | idle intervals are ordered, strictly apart, at least 600 seconds long, and overlap no gap of positive length |
| IdleIntervals.IdleSpansShareOneVector | scripts/graph_live_evidence.py:1105-1173 | all observed rows inside one idle interval carry the same raw token vector |
| IdleIntervals.QuietRunsAreIdle | scripts/graph_live_evidence.py:1105-1173 | no quiet run of ten minutes is left out |
| DashWalk.WalkEdge | scripts/graph_live_evidence.py:1271-1320 | the walk terminates, never takes its no-progress branch, leaves the phase more than epsilon below its next boundary, and draws exactly the pattern |
| DashWalk.WalkPolyline | scripts/graph_live_evidence.py:1271-1320 | the phase carries over the edges and stays true to the distance walked up to one epsilon an edge |
| DashWalk.PatternShape | scripts/graph_live_evidence.py:1271-1320 | dashes of an edge are non-empty, inside it, at most 0.45 long, ordered, and a full gap apart |
| DashWalk.PatternUnique | scripts/graph_live_evidence.py:1271-1320 | the pattern determines the dashes |
| DashWalk.DrawnIff | scripts/graph_live_evidence.py:1271-1320 | a point of an edge is drawn exactly if its distance along the line lies in the first 0.45 of a period of 0.75, save for the last 1e-12 |
| LabelLayout.ArrangeLabels | scripts/graph_live_evidence.py:1774-1795 | the forward, backward and shift passes end at a closed form |
| LabelLayout.LayoutSeparates | scripts/graph_live_evidence.py:1774-1795 | labels keep their order and separation, and all are in bounds exactly when at most twelve share the band |
| LabelLayout.NoPlacementWhenFull | scripts/graph_live_evidence.py:1774-1795 | otherwise no legal placement exists at all |
| LabelLayout.LegalUnchanged | scripts/graph_live_evidence.py:1774-1795 | a legal placement is left as it is |
| LabelLayout.LayoutIsTopmost | scripts/graph_live_evidence.py:1774-1795 | no legal placement that respects the ideals puts any label higher |
| LabelLayout.LabelsAreHeld | scripts/graph_live_evidence.py:1774-1795 | a displaced label rests against a neighbour or the end of the band |
| LabelLayout.ClampIsNearest | scripts/graph_live_evidence.py:1781 | an ideal place is moved to the nearest place inside the band |
| LabelLayout.TooManyAreStacked | scripts/graph_live_evidence.py:1784-1794 | more than twelve labels are stacked from the top |
| SqliteGenerations.ValidateShape | src/app_server_sqlite.rs:526-594 | the flag loop accepts exactly sound listings of an acceptable shape, keeps their order, and reports the lock |
| SqliteGenerations.RunKeepsInv | src/app_server_sqlite.rs:96-179 | in every interleaving of prepare, cleanup, drop, failure and crash: root lock and region agree, owner locks and their holders agree, live generations are whole, and the scan's bookkeeping matches the directory |
| SqliteGenerations.OneInsideTheRootLock | src/app_server_sqlite.rs:256-331 | at most one caller is between taking and releasing the root lock |
| SqliteGenerations.HeldGenerationsAreSafe | src/app_server_sqlite.rs:620-717 | no step takes another's owner lock or removes anything from a generation held under its name; without the name, its owner is one whose cleanup stopped halfway |
| SqliteGenerations.ScanSkipsExactlyTheHeld | src/app_server_sqlite.rs:620-649 | the scan gives up on an unacceptable shape, leaves an acceptable generation alone exactly when its lock is held and the lock file has its name, and otherwise goes on to remove it |
| SqliteGenerations.ScanRemovesExactly | src/app_server_sqlite.rs:620-717 | a scan that reaches a generation held by another can remove from it if and only if the lock file lost its name and the remaining shape is acceptable |
| SqliteGenerations.HalfCleanedIsNotSafe | src/app_server_sqlite.rs:172-179 | a run in which the exception happens |
| SqliteGenerations.PrepareLeavesOnlyTheHeld | src/app_server_sqlite.rs:96-158 | after a successful prepare the root holds the new complete locked generation and only generations whose lock was held when this prepare's scan reached them |
| UndisturbedCalls.PrepareCannotFail | src/app_server_sqlite.rs:96-158 | from any state with a free root lock and acceptable directories, an undisturbed prepare can always go on until its generation is live, and then there are that one and exactly those held under their name, unchanged |
| UndisturbedCalls.PrepareGoesThrough | src/app_server_sqlite.rs:96-158 | and it gets there in finitely many steps |
| UndisturbedCalls.AnyoneCanPrepare | src/app_server_sqlite.rs:96-158 | so after any run of all callers |
| UndisturbedCalls.CleanupCannotFail | src/app_server_sqlite.rs:172-179 | an undisturbed cleanup can always go on until its generation is out of the directory and its lock is let go, everything else unchanged |
| UndisturbedCalls.OwnersCanCleanUp | src/app_server_sqlite.rs:172-179 | and gets there in finitely many steps after any run |
| StopProtocol.OnlyTheRecordedIsSignalled | src/daemon.rs:1044-1093 | under any interleaving at most one signal is tried, and it can reach only the instance (pid and start time) in the record first read, which was read again, equal, after the pidfd was bound |
| StopProtocol.SignalNeedsTheSameInstance | src/daemon.rs:1055-1073 | the pidfd that is about to be signalled is bound to the recorded instance |
| StopProtocol.StoppedMeansAbsent | src/daemon.rs:797-873 | success only at a step where the lock has no name, with nobody signalled if it had none from the start and the recorded instance otherwise |
| StopProtocol.RefusedBeforeSignal | src/daemon.rs:1044-1068 | a refusal before the signal has signalled nobody |
| StopProtocol.AloneItStops | src/daemon.rs:1044-1093 | undisturbed, the recorded process is signalled |
| StopProtocol.AloneIsARun | src/daemon.rs:1044-1093 | being left alone is one of the interleavings |
| StopProtocol.ReadingEnds | src/daemon.rs:797-873 | what an undisturbed reading of the lock finds decides how it ends, before the signal, right before it and after it |
| StopProtocol.AloneItJudges | src/daemon.rs:1044-1068 | undisturbed, it stops at once without a lock, refuses a lock that is unacceptable or names no running process of that start time and program, and otherwise binds the process |
| StopProtocol.SignalSeesTheProgram | src/daemon.rs:1059-1068 | the step to the signal sees a complete record's program run under its pid |
| StopProtocol.VanishedName | src/daemon.rs:797-873 | what a name that vanishes between two calls means, by phase |
| StopProtocol.ReplacedName | src/daemon.rs:833-866 | a name that leads elsewhere is a changed owner |
| StopProtocol.FaultMeans | src/daemon.rs:1044-1093 | the error that a failing call is reported as |
| StopProtocol.SignalSends | src/daemon.rs:1070-1073 | the signal goes out exactly if the bound instance still runs |
| StopProtocol.WaitsForTheLock | src/daemon.rs:1075-1086 | after the signal it waits for as long as the same lock stays |
| Recorder.EveryEventIsGuarded | src/daemon.rs:1540-1945 | for all commands and failures: at most one writer lock at any event, stores touched only under their own lock, candidates made and renamed only with no lock held at all; the state file becomes Ready only right after a read-back of what the same command committed, under the number of that commit or of the reload after bridging, and an acknowledgement follows right after that |
| Recorder.CommitTells | src/daemon.rs:1742-1878 | a commit is acknowledged if and only if it and all calls after it succeed and the read-back is this generation under the committed or reloaded number |
| Recorder.ReceiptIs | src/daemon.rs:1742-1878 | what an acknowledgement says: the number found by the read-back, which is that of the commit or of the reload, the epoch, the cycle and the time |
| Recorder.PublishableIff | src/daemon.rs:205-256 | which states may be written to the state file |
| Recorder.GuardedUnlessPrepared | src/daemon.rs:1419-1452 | every write of a run to a partition's database files is under its lock if and only if no activation in the run has to prepare a missing database |
| Recorder.ActivationLeavesUnguarded | src/daemon.rs:1425-1447 | after any run, an activation adds exactly zero, one or two unguarded writes, told from what it finds on disk and which calls fail |
| Recorder.FirstActivationIsUnguarded | src/daemon.rs:1432-1447 | a run with an unguarded write |
| Recorder.LockFollowsActive | src/daemon.rs:1540-1580 | between commands the lock held is that of the active partition, and none after the worker stopped |
| Recorder.OneRestartGap | src/daemon.rs:1572-1617 | at most one restart gap per run, only in the partition of the previous owner's state, with a sound interval |
| Recorder.OtherAccountKeepsEvidence | src/daemon.rs:283-292 | activating another account keeps the evidence for the right one |
| Recorder.RestartOpensItsGap | src/daemon.rs:1572-1617 | the first activation of the right account opens the gap unless one is pending |
| Recorder.GapBegun | src/daemon.rs:283-339 | exactly when a gap is begun, and its partition, start, end, cursor, epoch, cycle and bound in terms of the previous state and the calls |
| Recorder.OtherPartitionIsUntouched | src/daemon.rs:1699-1706 | a store or forget request for another partition reaches no store |
| RecorderWorker.WorkerThread.PersistState | src/daemon.rs:354-409 | on success the state file holds the state; on failure the one before or, if only the rename was reached, the new one; a state that fails validation never gets there; nothing is answered |
| RecorderWorker.WorkerThread.ActivatePartition | src/daemon.rs:1419-1466 | opens exactly when every call it needs goes well, ends holding the writer lock exactly on success and none otherwise, and publishes and answers nothing |
| RecorderWorker.WorkerThread.BeginRestartGap | src/daemon.rs:1571-1620 | an owed gap that succeeds uses up the evidence and is opened once unless pending; on failure, or if none is owed, evidence and gaps stay as they were |
| RecorderWorker.WorkerThread.ActivateAccount | src/daemon.rs:1546-1650 | keeps the worker sound and answers success exactly when the partition ends active; a newly active one is on disk as degraded, and an already active one is left alone |
| RecorderWorker.WorkerThread.CommitGeneration | src/daemon.rs:1706-1878 | acknowledges a generation if and only if the commit succeeded, everything after it did, and the read-back, the very last event, agrees with the committed or reloaded number, the epoch and the cycle; then with exactly these, all under the writer lock |
| RecorderWorker.WorkerThread.StoreGeneration | src/daemon.rs:1651-1923 | keeps the worker sound; answers success if and only if the partition is active, no failure is injected, the commit is confirmed by the read-back and Ready is on disk, and then the state file claims this generation under the number it was committed with; after a refusal the file claims nothing new if it could be written; only an injected death stops it, unanswered |
| RecorderWorker.WorkerThread.ForgetSessions | src/daemon.rs:1924-1943 | keeps the worker sound and the state file, answers success only for the active partition, and reaches no store for any other |
| RecorderWorker.WorkerThread.ServeCommands | src/daemon.rs:1540-1946 | for every command sequence the loop refines the specification and ends sound: a legal trace, no lock held, nothing active, at most one restart gap |
| AccountRegistry.ValidateMetadata | src/account_scope.rs:529-553 | accepts exactly the known schema, identifiers in lower-case hex of their lengths, and positive epochs below a positive next epoch |
| AccountRegistry.ValidIff | src/account_scope.rs:529-553 | what a registry file must say, character by character |
| AccountRegistry.ValidateArtifacts | src/account_scope.rs:710-871 | accepts exactly directories that fit their registry entries |
| AccountRegistry.RunIsConsistent | src/account_scope.rs:878-985 | after any calls epochs are unique, below the next one, and belong to this installation |
| AccountRegistry.RunOnlyGrows | src/account_scope.rs:878-985 | along any run ids and epochs stay, the next epoch never falls, and entries only move from allocated to initialized |
| AccountRegistry.EpochsAreForever | src/account_scope.rs:878-952 | over any calls, restarts and late write failures an account always gets the same partition and two accounts never share an epoch |
| AccountRegistry.LostRegistryIsNotReplaced | src/account_scope.rs:646-663 | a missing registry is replaced exactly when no account directory is left |
| AccountRegistry.GrantedIff | src/account_scope.rs:878-952 | whom a readable registry grants which partition: registered accounts that are initialized or have no more than database and candidate, new ones while epochs last and the write completes, and nobody while the directories do not fit |
| AccountRegistry.FirstIsGranted | src/account_scope.rs:646-660 | the first call in an empty root gives out epoch 1 if both writes complete |
| AccountRegistry.MarkedIff | src/account_scope.rs:954-985 | which partitions can be marked |
| AccountRegistry.MarkedIsGranted | src/account_scope.rs:878-985 | a marked partition is what every later fitting call for its account is granted |
| AccountRegistry.LateFailureIsTakenUp | src/account_scope.rs:578-629 | a call that failed after the rename is followed by one that grants the very epoch it allocated |
| AccountRegistry.ValidationMissesSharedEpochs | src/account_scope.rs:529-553 | the file checks alone do not rule out a shared epoch |
| AccountRegistry.RegistryFiles.ResolvePartition | src/account_scope.rs:878-952 | keeps a consistent registry consistent and only lets it grow, and what it grants is what the registry on disk then says; equal to the function the run lemmas are about |
| AccountRegistry.RegistryFiles.MarkInitialized | src/account_scope.rs:954-985 | keeps a consistent registry consistent and only lets it grow; success means the registry on disk knows the partition and has it initialized; equal to the function the run lemmas are about |
| RegistryRaces.AloneIsResolve | src/account_scope.rs:878-952 | the load and rename steps of a call that nobody interrupts are the sequential call |
| RegistryRaces.AloneIsMark | src/account_scope.rs:954-985 | and likewise for marking |
| RegistryRaces.LosesNothingExactly | src/account_scope.rs:578-629 | renaming a changed copy over a registry that came after the loaded one loses nothing if and only if that is the loaded one or already the same |
| RegistryRaces.NothingIsLostUnlessStale | src/account_scope.rs:878-985 | for all interleavings of callers, failures and crashes: the registry only grows if and only if no caller overwrites one it neither loaded nor writes |
| RegistryRaces.EpochsAreSharedByNone | src/account_scope.rs:878-952 | unless that happens, all callers are granted one partition an account and different epochs for different accounts |
| RegistryRaces.TwoCallersShareAnEpoch | src/account_scope.rs:878-952 | a run in which two callers are granted epoch 1 for different accounts and the entry of the first is lost |
| JsonlReader.ReadRecord | src/security.rs:536-587 | result and position are those of the stream whatever its chunks; the line is gathered in a buffer that never holds more than the limit nor anything but a beginning of the line, and a record is what that buffer holds |
| JsonlReader.DrainUntilNewline | src/security.rs:516-531 | reads exactly past the next newline, or to the fault or end |
| JsonlReader.ReadLine | src/security.rs:589-597 | only a terminated record is a line |
| JsonlReader.ReadAll | src/security.rs:536-587 | repeated reading classifies the whole stream, going on after every error |
| JsonlReader.RecordsAreTheSplit | src/security.rs:533-587 | without faults the records are the split of the stream on newlines, each judged by length, termination and validity |
| JsonlReader.LineMakes | src/security.rs:536-587 | what the bytes of a line make of it: a record of up to 4 MiB of valid text without its carriage return, or which error |
| JsonlReader.SplitAndJoin | src/security.rs:533-587 | that split is the inverse of joining with newlines |
| JsonlReader.SentIsReceived | src/security.rs:533-587 | lines written with LF or CRLF are read back as they were |
| ProductVersion.IncrementDecimal | scripts/product_version.py:393-407 | the carry loop gives the canonical decimal of n+1 for any length |
| ProductVersion.CanonicalUnique | scripts/product_version.py:25-28 | canonical decimals of equal numbers are equal strings |
| ProductVersion.ParseIsText | scripts/product_version.py:440-453 | exactly the texts of well-formed identities are accepted, each identity from one text |
| ProductVersion.TextIs | scripts/product_version.py:440-441 | how stable and beta identities are written |
| ProductVersion.CompareAccepts | scripts/product_version.py:434-455 | exactly the texts of well-formed identities of 1 to 32 characters are compared |
| ProductVersion.PrecedenceIsTotal | scripts/product_version.py:449-455 | any two identities are ordered exactly one way unless they are the same |
| ProductVersion.PrecedenceIsTransitive | scripts/product_version.py:449-455 | the order is transitive |
| ProductVersion.PrecedesIff | scripts/product_version.py:449-455 | the order on the numbers: major, minor, patch, then betas before the stable version, then run, then attempt |
| ProductVersion.BetaLiesBetween | scripts/product_version.py:415-431 | a beta is given exactly for positive canonical counters and lies strictly between its base and the version after it |
| ProductVersion.OnlyStableHasNext | scripts/product_version.py:410-431 | only texts of stable versions have a next version and betas, the latter for positive canonical counters |
| ProductVersion.NextIsLeast | scripts/product_version.py:410-431 | the next version is the least stable version after one, and its betas come right before it |
| ProductVersion.BetasFollowRuns | scripts/product_version.py:421-431 | betas of one base are ordered by run number, then attempt, as numbers |
| ProductVersion.CompareIsPrecedence | scripts/product_version.py:434-455 | on all accepted texts the comparison is the order of the numbers, and 0 exactly for identical texts |
| AtomicReplace.ReplaceAll | scripts/product_version.py:498-544 | for any number of files and failures before or after any call took effect: all new and verified, or all as before, or a reported rollback failure with every file old or new, each exactly as the fates of the calls decide; the rollback begins exactly where installing or verifying stopped and puts back what was begun in turn until one of its calls fails; interrupted exactly when an interrupt arrives from there on, and then still old or new; no other file is touched and no temporary is left unless a call failed while staging or cleaning up |
| AtomicReplace.StageAll | scripts/product_version.py:509-514 | both copies of every file are staged under fresh names, or nothing else changed but strays that an error or interrupt left behind; how many calls that took and whether it succeeded is decided by their fates |
| AtomicReplace.InstallAll | scripts/product_version.py:516-529 | targets are new or old below the point reached and untouched above it; the fates of the calls decide the point, and the count covers a replacement that failed, even one that had taken effect |
| AtomicReplace.InterruptedInstall | scripts/product_version.py:528-531 | counted before it is begun, a replacement cut short before or after its effect is one the rollback covers |
| AtomicReplace.Rollback | scripts/product_version.py:532-539 | puts the begun targets back, last first, until a call fails or is interrupted, and the target of that call is restored exactly if the call had taken effect |
| AtomicReplace.PuttingBack | scripts/product_version.py:532-539 | putting back the last m begun targets leaves each old or new, and all old once every begun target is back |
| AtomicReplace.RollbackCanBeInterrupted | scripts/product_version.py:535-537 | a run ending with one file new and one old |

## Left out

- Floating point: all graph arithmetic is over exact reals, so rounding, infinities, NaN, negative zero and bit comparison of floats are not modelled; finiteness checks always pass.
- HTTP, evidence files, fixtures, argument parsing, SVG text, float32 quantization, the remaining-quota series, windows family projections and the smooth-path emitter of the graph oracle.
- TokenSegments.ModelSegments: a model of the left row that the right row does not list counts as not bridging, where the source raises; dollars compare as exact reals.
- TokenSegments.CuttingPreservesTheLine: rows are taken to have strictly increasing timestamps and local usage positive intervals, as fixture validation and page validation ensure.
- LocalUsage.MergeLocalPages: pages are taken as validated, so every interval has positive length; an empty input is the error the source's list index raises.
- DashWalk.WalkPolyline: edges are given by their lengths instead of end points, so no hypotenuse and no interpolated coordinates.
- IdleIntervals.IdleSpansApart: says nothing about intervals taken directly from local usage, which the source returns in page order.
- ModelProjection.ProjectionIsFaithful: keeps raw values for direct points only; the floor pass may hold a legacy point at a higher value.
- Lists that the oracle updates in place are value sequences in local variables; aliasing between them is not modelled.
- SqliteGenerations, StopProtocol and RegistryRaces: given as step functions and runs instead of methods, because other processes act between any two steps; only the shape check is a method.
- SqliteGenerations: ownership, modes, symlinks, inode identity and foreign names count as the failure of a step; the process-wide mutex around prepare and cleanup is not modelled, which only adds interleavings; writing the marker is one step, so a partial marker is not a separate state; copying the database is a step whose failure may come after it.
- SqliteGenerations.HeldGenerationsAreSafe: recovery is not claimed for every crash point; the scan refuses databases without a marker.
- StopProtocol: a (pid, start time) pair is taken never to occur twice; a process that exited but was not reaped counts as running; the executable is a device and inode pair; only the Linux path of `stop_daemon` is modelled.
- The profile lock's own acquire, stale check and removal in `DaemonLock`; in `Recorder` taking a writer lock is one step.
- Recorder.PublishableIff: upper bounds of a state's times (a commit in the future of the clock) count as a write that fails.
- Recorder.OneRestartGap: a failed begin of a gap is taken to have opened none; the store and SQLite are outcomes given with each command; hashes of partition ids are taken injective; the idle state published at start replaces the previous owner's state on disk, so evidence does not survive a second restart before activation.
- Recorder.GuardedUnlessPrepared: counts writes to database files only; creating the partition directory and setting its mode (`src/daemon.rs:1359-1384`), which every activation does before the lock, is no event.
- Recorder.EveryEventIsGuarded: does not promise that candidate creation and promotion are locked, because they come before the writer lock in the source; `GuardedUnlessPrepared` has the exact condition.
- AccountRegistry: calls are atomic here; `RegistryRaces` has them in steps, where reading the registry together with the directories is still one step. The file size limit and unsafe directories are a write that fails; HMAC scopes (section 2 of RFC 2104) are taken injective; nobody but these calls writes the registry file.
- JsonlReader.ReadRecord: UTF-8 validity (section 4 of RFC 3629) is any predicate on bytes.
- ProductVersion: version files, their TOML and XML parsing and the AssemblyVersion limits of stamping.
- AtomicReplace.ReplaceAll: nobody else writes the files meanwhile; target paths are distinct, as the callers' are; file modes of restored files are those the caller read; which temporary file a failed removal or an interrupted staging leaves behind is not told.
- Localization, calendar formatting, workflow gates, the path classifier and its gate, price scraping and coverage selection: table lookups and text.
