# Conduit: verified protocol cores

Conduit runs agent-written code and single governed calls behind a daemon: a policy may ask an operator
for approval, an execution may pause and be resumed in another process, and one daemon owns one store.
This project models the parts of it where the difficulty is in interleavings, crashes and chunk
boundaries, and proves what they promise over every run.

Where the program is a set of callbacks around `await`, the model is a step system: synchronous code
between two awaits is one step, the replies of stores, sockets, clocks and operators are events, and a
result is a lemma over every sequence of events. Where the program updates an object in place, the model
also has the object as a class, each of whose methods is proved to do exactly that step.

- `DirectDrive`, `DirectDriveSafety`, `DirectDriveAnswers`: a direct execution from its start or its claim
  to its answer. A continuation and a timer race for one latch; the winner makes one fenced, time-bounded
  write, and the client is told what its own call came to.
- `Attempts`, `AttemptsProgress`, `StartRefines`, `ResumeRefines`, `Decisions`, `DispatchCells`: the same
  execution across starts, resumes, crashes, sweeps and tampering, with every run of a start and of a resume
  mapped to it; the operator's decision; the cell that says whether the call went out.
- `Causes`, `ReplayJournal`, `Replay`, `ReplayEnds`: pause and resume of code by deterministic replay.
- `Rotation`, `RotationEnds`: rotating the master key over a file system that crashes and forgets, and what
  each way of failing leaves behind.
- `Ownership`, `OwnershipProgress`: any number of daemons, offline commands and probing clients over two
  kernel locks, the recovery sweep, and who gets which lock.
- `SourceLocks`, `Catalogs`, `Provision`, `ProvisionEffects`, `ProvisionProgress`: the per-namespace lock,
  the tool catalog and its search, and source provisioning under that lock.
- `Streams`, `Frames`, `ReadyGate`, `EventStreams`, `EventStreamsRoundTrip`: incremental decoders, and the
  client's hand-off from the READY gate to its reader.
- `AdmissionQueue`, `AdmissionQueueEffects`, `DaemonClient`, `StateDirs`, `InlineRefs`: the bounded queue,
  the client's decision loop, path resolution and `$ref` inlining.

Beside each safety theorem stands what the operation is for: who is admitted and who is refused, each as an
if-and-only-if over every reachable state, what one step leaves and what it leaves alone, and that what
should succeed can.

## Where the code and its promises differ

The model follows the code. Each of these is a lemma, most with an exact condition beside it.

- A resume of a direct row is bounded in time in every run whose kind lookup says `direct`, times out or
  never comes back. A lookup that rejects leaves it without a drive, and the guard reads after it have no
  timer: whenever the lookup answers, every continuation is in time exactly when the answer is `direct`
  (`DirectDriveSafety.LateResumeHasNoDrive`, `DirectDriveSafety.ResumeInTimeIffKindKnown`).
- Such a resume ends its row with a statement that does not say whether it matched. Its `failed` is what
  the row holds exactly when no other writer took the row first, and is answered all the same
  (`DirectDriveSafety.AnswerIsWhatTheRowSays`, `DirectDriveSafety.FailedOverATakenRow`). Its `expired` is
  a put that overwrites whatever another writer stored (`DirectDriveSafety.DriveRules`).
- The live guest sees a failure's raw text, a resumed one the stored, sanitized and cut text. For any
  answers given before a resume, every run of every guest resumed with them is invisible exactly when
  storing changes none of them; the result alone may show it (`Replay.ReplayIsInvisible`,
  `Replay.InvisibleIffStable`, `Replay.ChangedAnswerIsSeen`, `Causes.FormatKeepsExactly`).
- An execution can end as a divergence for two reasons. An answer that storing changed before a resume can
  turn the guest to another call than the approved one (`Replay.NeverDivergesIffStable`). And if the
  approved call fails in the lookup of its tool or scope, before its decision is looked up, the decision
  stays staged, and the next turn diverges exactly when the guest goes on with another call
  (`Replay.EarlyFaultDivergesIff`). Without either no run diverges (`Replay.NoEarlyFaultNoDivergence`), and
  `Replay.DivergesIff` says of every turn of every run whether it does.
- A provision whose batch commits but whose read-back of the generation fails is answered as an error and
  never refreshes the catalog. The catalog is at another commit than the store exactly inside a request's
  commit-to-refresh window and after such a fault or a refresh that failed twice, until the next refresh or
  a restart (`Provision.CatalogShowsTheStore`, `Provision.LateFaultLeavesCatalogBehind`,
  `Provision.RestartHeals`).
- Frames completed in the same push as a later fault are lost with it, and no others, so up to a fault the
  cut into chunks matters; without a fault it never does (`Frames.FaultTakesItsPushAlong`,
  `Frames.FaultNeedsItsOwnPush`).
- A bare JSON `null` that no reader waits for is dropped: the hand-off keeps every message in every run
  exactly when none of them is `null` (`ReadyGate.NothingLostIffNoNull`).
- A `$ref` whose value is itself a ref object can be inlined into a string. The result mentions no ref
  exactly when no object the expansion reaches has such a `$ref` whose refs lead, uncut, to a string
  (`InlineRefs.SelfContainedIff`).
- A serving daemon that outlives its maintenance lock lets an offline command in beside its open store
  exactly when nobody else holds the lock; single ownership needs the release and the exit to be one step
  (`Ownership.LingeringOverlapsRotation`).

## Model

| member | source | states |
|---|---|---|
| DispatchCells.CellIsHighWaterMark | packages/sdk/src/pipeline/dispatch.ts:20-30 | after any advances the cell holds the highest state it was ever given, and no order of advances lowers it |
| DispatchCells.DispatchCell.Advance | packages/sdk/src/pipeline/dispatch.ts:26-28 | the cell becomes exactly the higher of its state and the new one |
| DirectDrive.Latch.Settle | packages/sdk/src/execution/direct.ts:96-166 | the first caller wins, every later one loses, and the winner alone goes on to the one settle write |
| DirectDrive.Latch.Remaining | packages/sdk/src/execution/direct.ts:128-133 | the budget the dispatch gate reads: positive exactly when a call about to go out may go, so never once the latch is taken |
| DirectDriveSafety.NothingGoesOutOnceSettled | packages/sdk/src/execution/direct.ts:128-137 | once the latch is taken nothing is dispatched any more, in any continuation |
| DirectDriveSafety.StepKeepsInv | packages/sdk/src/execution/manager.ts:864-1067 | every step of start, resume, timer, guard read and store reply keeps the state machine the code documents |
| DirectDriveSafety.RunKeepsInv | packages/sdk/src/execution/manager.ts:864-1067 | so does every run of such steps |
| DirectDriveSafety.SettledOnce | packages/sdk/src/execution/manager.ts:1183-1223 | in every interleaving one caller wins the latch, one settle write is issued per attempt and the outcome resolves once |
| DirectDriveSafety.AnswerIsWhatTheRowSays | packages/sdk/src/execution/manager.ts:1160-1223 | a published answer that claims a state is the state its write put in the row: confirmed by the fence, or, for a resume without a drive, carried out by its own bounded write, where `failed` yields only to another writer; without a settle write nothing can have been dispatched. Which answer it is, is `DirectDriveAnswers.AnswerHasItsCause` |
| DirectDriveSafety.FailedOverATakenRow | packages/sdk/src/execution/manager.ts:1115-1181 | wherever a resume without a drive refuses its call, another writer may take the row first and the client is told `failed` all the same |
| DirectDriveSafety.AnswerIsFinal | packages/sdk/src/execution/manager.ts:1282-1550 | what a client was told never changes, whatever timers and late replies do afterwards |
| DirectDriveSafety.DidNotRunIsTrue | packages/sdk/src/execution/manager.ts:1239-1276 | "did not run" stays true for ever after it is said, and a dispatched call is answered only as completed, too large, ambiguous or unknown |
| DirectDriveSafety.DriveRules | packages/sdk/src/execution/manager.ts:864-910 | in every run a drive issues one write at most, dispatches nothing after it, pauses only as a start and only unsent, and its write changes only its own running attempt's row; only the put of a resume without a drive overwrites a row another writer took |
| DirectDriveSafety.StartNeverThrows | packages/sdk/src/execution/manager.ts:1673-1857 | a start never rejects with the fault itself; only a resume's preparation can |
| DirectDriveSafety.BackstopNeverAnswers | packages/sdk/src/execution/manager.ts:1826-1843 | the last-resort settle of a start never wins: every path before it has taken the latch |
| DirectDriveSafety.StartAnswersInTime | packages/sdk/src/execution/manager.ts:1673-1857 | whatever store calls hang, reject or throw, a start is answered within drive plus write budget and its slot is let go within the retention |
| DirectDriveSafety.ResumeInTimeIffKindKnown | packages/sdk/src/execution/manager.ts:1895-2059 | at every point of every run where the kind lookup answers, all continuations are answered within two drive budgets and a write budget if and only if it says direct |
| DirectDriveSafety.LateResumeHasNoDrive | packages/sdk/src/execution/manager.ts:1895-1984 | in every run without a rejected or non-direct kind lookup a resume is answered within two drive budgets and a write budget; one past the bound is waiting without a drive |
| DirectDriveSafety.CodeGuardWaits | packages/sdk/src/execution/manager.ts:2000-2059 | without a drive nothing ever falls due: the guard waits for any length of time |
| DirectDriveSafety.SilentKindAnswersInTime | packages/sdk/src/execution/manager.ts:1902-1932 | a kind lookup that never replies is answered unknown within one drive and one write budget |
| DirectDriveSafety.StoreCallsFire | packages/sdk/src/execution/direct.ts:283-350 | every bounded store call that is due can be timed out without time passing |
| DirectDriveSafety.TimersFire | packages/sdk/src/execution/direct.ts:96-166 | every due timer can fire without time passing, so the bounds are not met by a stuck clock |
| DirectDriveSafety.ClockNeverStuck | packages/sdk/src/execution/direct.ts:283-350 | from every reachable state the clock can go on |
| DirectDriveAnswers.LatchGoesToVerdict | packages/sdk/src/execution/manager.ts:1282-1550 | while the latch is free exactly the events with a verdict take it, each for the plan the code makes of that event: the value returned, too large, a refusal, an expiry, a pause, a fault or the timer |
| DirectDriveAnswers.AnswerHasItsCause | packages/sdk/src/execution/manager.ts:1183-1223 | in every run, what a client is told, unless it is unknown, is the verdict of the one event that took the latch |
| DirectDriveAnswers.CompletedIsReturned | packages/sdk/src/execution/manager.ts:1373-1419 | a client is told `completed` with a value only if its own call returned that value within the limit after it went out, and the write keeps that value for a resume; `too large` only if it returned more |
| DirectDriveAnswers.VerdictIsAnswered | packages/sdk/src/execution/manager.ts:1183-1223 | conversely, wherever an event has a verdict while the latch is free, the client is told it: at once without a row, and once the write lands and is confirmed on a row still its own |
| DirectDriveAnswers.RejectedIsUnknown | packages/sdk/src/execution/manager.ts:1183-1223 | a settle write that is rejected is answered as unknown, landed or not |
| DirectDriveAnswers.TakenIsUnknown | packages/sdk/src/execution/manager.ts:1183-1223 | a settle write that finds the row no longer its own is answered as unknown and changes nothing |
| DirectDriveAnswers.StartIsAnswered | packages/sdk/src/execution/manager.ts:1673-1857 | a start whose call goes out and returns is answered with what it returned, its row settled so |
| DirectDriveAnswers.ResumeIsAnswered | packages/sdk/src/execution/manager.ts:2059-2480 | a resume whose six guard reads pass and whose call returns is answered with what it returned, kept in its row |
| DirectDriveAnswers.NoReadSkipped | packages/sdk/src/execution/manager.ts:2059-2440 | in no run does a resume invoke its call before every guard read has passed |
| DirectDriveAnswers.DeniedStartPauses | packages/sdk/src/execution/manager.ts:1495-1525 | a start whose call policy refuses pauses, and its row waits under that call |
| DirectDriveAnswers.RejectedStartIsAnswered | packages/sdk/src/execution/manager.ts:1745-1785 | a start whose row cannot be created is answered as a conflict if the row is another one's, and as not run otherwise |
| DirectDriveAnswers.NonJsonIsRefused | packages/sdk/src/execution/manager.ts:1684-1710 | a start whose input is not JSON is told it did not run, and no run of it creates a row, issues a write or sends a call |
| DirectDriveAnswers.ExpiredCreateIsSettled | packages/sdk/src/execution/manager.ts:1037-1046 | a start that runs out of time before its row exists is answered then, and a row that still comes is ended as interrupted |
| DirectDriveAnswers.DrivelessIsAnswered | packages/sdk/src/execution/manager.ts:1012-1035 | without a drive a refusal and an expiry are told once their own write is carried out, and a fault is thrown |
| DirectDriveAnswers.SilentWriteIsGivenUp | packages/sdk/src/execution/manager.ts:1012-1023 | without a drive a write not answered in time is told as unknown, a fault as itself, and the row stays as it is |
| DirectDriveAnswers.LostGuardDefers | packages/sdk/src/execution/manager.ts:933-970 | a guard read that lost to the expiry writes nothing and answers nothing: it waits for the outcome the expiry settled |
| DirectDriveAnswers.NothingGivenUpEarly | packages/sdk/src/execution/direct.ts:96-166 | in every run a budget is called elapsed, a write or lookup given up and a slot let go only after its whole time |
| Decisions.ConsumedOnceByItsOwnCall | packages/sdk/src/execution/decisions.ts:106-131 | a take that succeeds returns the decision some stage bound to exactly that call, with no other use in between |
| Decisions.StagedComesFromStage | packages/sdk/src/execution/decisions.ts:106-139 | what is staged was staged by the last operation on that execution that was not a mismatched take |
| Decisions.ConsumedMeansApplied | packages/sdk/src/execution/decisions.ts:141-143 | `consumed` is true if and only if a matching take happened after the last stage |
| Decisions.ApprovalDecisions.Stage | packages/sdk/src/execution/decisions.ts:106-113 | sets the decision of that execution alone and clears its consumed mark; that it then lasts is `Decisions.StagedIff` |
| Decisions.ApprovalDecisions.Take | packages/sdk/src/execution/decisions.ts:115-131 | a match is consumed and returned; a mismatch returns nothing and leaves the decision staged |
| Decisions.ApprovalDecisions.Peek | packages/sdk/src/execution/decisions.ts:133-135 | true exactly while a decision is staged |
| Decisions.ApprovalDecisions.Discard | packages/sdk/src/execution/decisions.ts:137-139 | drops the staged decision without marking it consumed |
| Decisions.ApprovalDecisions.Consumed | packages/sdk/src/execution/decisions.ts:141-143 | reads the consumed mark |
| Decisions.OthersUntouched | packages/sdk/src/execution/decisions.ts:106-143 | an operation on one execution changes neither the staged decision nor the consumed mark of any other |
| Decisions.StagedIff | packages/sdk/src/execution/decisions.ts:106-139 | over every run a decision is staged if and only if a stage of that execution put it there and only takes of other calls followed |
| Decisions.TakenIff | packages/sdk/src/execution/decisions.ts:115-131 | over every run a take answers a decision if and only if such a stage bound that decision to that very call |
| Attempts.SentAtMostOnce | packages/sdk/src/execution/manager.ts:2184-2480 | over all starts, resumes, crashes, sweeps and tampering the call goes out at most once, and after a pause only for an approve naming exactly the pending call, which is the stored one |
| Attempts.OneClaimWins | packages/sdk/src/execution/manager.ts:1873-1883 | of all resumes one claim at most ever wins, and never after the start has sent |
| Attempts.StepKeepsInvWith | packages/sdk/src/store/sqlite.ts:753-898 | every claim, guard read, invocation, settle write, crash, sweep and tampering keeps who may still send |
| Attempts.ClaimedNeverPausesAgain | packages/sdk/src/store/sqlite.ts:753-808 | once claimed, a direct row never pauses again |
| AttemptsProgress.ApprovedCallGoesOut | packages/sdk/src/execution/manager.ts:2184-2480 | from every run that led to a pause, a resume sends the call, once, if and only if it approves under the pending id and the paused call is the stored one |
| AttemptsProgress.ClaimWinsIff | packages/sdk/src/store/sqlite.ts:753-808 | a claim wins if and only if the row is paused and its pause names no other call; a claim that loses changes nothing |
| AttemptsProgress.PauseOutlivesCrashes | packages/mcp/src/daemon/sweep.ts:50-71 | any number of crashes before the decision leave what the resume sends as it was |
| AttemptsProgress.StartSendsIff | packages/sdk/src/execution/manager.ts:1673-1857 | a start sends its call if and only if policy allows it |
| AttemptsProgress.DeniedStartPauses | packages/sdk/src/execution/manager.ts:1495-1525 | a start sent to an operator waits under the id it was given, on the call it was made with |
| AttemptsProgress.EndLandsIff | packages/sdk/src/store/sqlite.ts:853-898 | an attempt's end lands if and only if the row is still running under that very attempt |
| AttemptsProgress.CrashThenSweep | packages/mcp/src/daemon/sweep.ts:9-19 | after a crash the sweep ends a row if and only if it was running; a paused row keeps its pause and its call |
| AttemptsProgress.RowMovesOnlySo | packages/sdk/src/store/sqlite.ts:753-898 | a row starts running by a create or a claim, pauses by its own attempt's write, and the stored call never changes but by tampering |
| StartRefines.EveryStartIsAnAttempt | packages/sdk/src/execution/manager.ts:1673-1857 | refinement: every run of a start, with all its timers and late replies, is a run of the attempts over the shared row, which see exactly its row, its one write and whether its call was sent |
| ResumeRefines.EveryResumeIsAnAttempt | packages/sdk/src/execution/manager.ts:1862-2480 | refinement: from any claim that wins, every run of the resume, with a drive or without one, is a run of the attempts, which see exactly its row, its one write and whether its call was sent, and it never pauses again; a run that sends needs an approval naming the paused and stored call |
| Causes.CleanedIsPrintable | packages/sdk/src/policy.ts:197-202 | cleaning leaves only printable units and drops nothing exactly when all were printable |
| Causes.CleanedAppends | packages/sdk/src/policy.ts:197-202 | cleaning keeps the order of what it keeps: it goes through concatenation |
| Causes.NoiseLeavesNoTrace | packages/sdk/src/execution/direct.ts:229-247 | control characters and line breaks leave no trace in a stored or logged cause, wherever they stand, and take no room from the rest |
| Causes.FormatKeepsExactly | packages/sdk/src/execution/direct.ts:237-247 | a cause is stored unchanged if and only if it is printable and short or already ends in the cut mark; storing twice is storing once |
| Causes.CutKeepsTheStart | packages/sdk/src/execution/direct.ts:237-247 | a long text is cut at its end and marked: what is stored begins as the cleaned text does |
| Causes.StoredIsOneLine | packages/sdk/src/policy.ts:197-202 | whatever the text, no control character and no line break is stored, and at most 301 units |
| ReplayJournal.JournalRebuiltIffExact | packages/sdk/src/execution/journal.ts:38-49 | a journal is rebuilt if and only if its ordinals are 0..n-1, each once, in whatever order listed; position i then holds the row with ordinal i |
| ReplayJournal.OrderedRowsComeBack | packages/sdk/src/execution/journal.ts:38-49 | rows listed in order come back as they are |
| Replay.RunOnce | packages/sdk/src/sandbox/quickjs.ts:218-260 | the cursor loop of one guest run gives the replay of the journal, a mismatch or the first unanswered call |
| Replay.RunsThroughOwnJournal | packages/sdk/src/sandbox/quickjs.ts:149-199 | against its own journal a deterministic guest passes every entry and does next what it would do live |
| Replay.RowsAreTheAnswers | packages/sdk/src/execution/manager.ts:562-600 | in every run the stored ordinals are exactly 0..n-1, row i is the i-th operation performed, and no append is refused or dropped |
| Replay.ResumeKeepsRows | packages/sdk/src/execution/manager.ts:2556-2590 | an admitted resume drives from exactly the stored rows with its decision staged for the paused call |
| Replay.LiveTurn | packages/sdk/src/sandbox/quickjs.ts:159-195 | one live round performs the guest's next call once and appends it |
| Replay.StableIsCheckable | packages/sdk/src/execution/manager.ts:2708-2730 | storing changes no value, and a failure exactly when one of its texts is changed |
| Replay.ReplayIsInvisible | packages/sdk/src/execution/manager.ts:410-639 | for every guest and every run of pauses, decisions, faults and crashes in which storing changed none of the answers a resume read back, the run is one uninterrupted guest run: same operations, same order, each once, never a replay failure |
| Replay.InvisibleIffStable | packages/sdk/src/execution/manager.ts:2556-2590 | for any answers, every run of every guest whose last resume read them back is invisible if and only if storing changes none of them |
| Replay.SameAsApprovedInPlace | packages/sdk/src/execution/manager.ts:410-639 | a run that finishes, and in which storing changed none of the answers a resume read back, ends in the very state of the run approved in place on the same answers |
| Replay.ApprovedCallRunsNext | packages/sdk/src/execution/manager.ts:2556-2631 | after an admitted approval the next live operation is the paused call, answered once, if and only if the guest, shown its answers as stored, repeats itself up to that call, which it does whenever storing changed none of them |
| Replay.ChangedAnswerIsSeen | packages/sdk/src/execution/manager.ts:545-548 | if storing changes any answer before a pause, then whatever the paused call and later ones are answered some guest returns something else resumed than in place |
| Replay.EarlyFaultDivergesIff | packages/sdk/src/pipeline/invoker.ts:141-189 | after a failed lookup of the decided call the next turn ends as a divergence if and only if the guest, having repeated itself on its answers as stored, then makes another call than the one it was paused on; it does repeat itself whenever storing changed none of them |
| Replay.DivergesIff | packages/sdk/src/pipeline/invoker.ts:141-189 | in every run a live turn diverges if and only if a decision is staged, the lookups before it succeed, and the guest, shown what was read back as stored and the rest as answered, repeats itself and then makes another call |
| Replay.NoEarlyFaultNoDivergence | packages/sdk/src/pipeline/invoker.ts:141-189 | a run without such a failed lookup, in which storing changed none of the answers a resume read back, never diverges: what is staged is always the guest's next call |
| Replay.NeverDivergesIffStable | packages/sdk/src/execution/manager.ts:2556-2590 | for any answers, no run without a failed lookup whose last resume read them back diverges, for any guest, if and only if storing changes none of them |
| ReplayEnds.PauseOutlivesCrashes | packages/mcp/src/daemon/sweep.ts:50-71 | for every guest and run that is paused, any number of crashes before the decision leave everything that follows exactly as without them |
| ReplayEnds.SweptIffStruck | packages/sdk/src/store/sqlite.ts:962-972 | a run ends swept if and only if a crash struck while it was being driven |
| ReplayEnds.LiveTurnEnds | packages/sdk/src/execution/manager.ts:410-639 | for the call a guest goes on with: it pauses if and only if policy asks for an approval that can be recorded, ends as ambiguous if and only if the call was lost or its outcome not stored, and is handed its answer if and only if that was stored in time |
| ReplayEnds.ReplayEndsIff | packages/sdk/src/sandbox/quickjs.ts:149-260 | replay fails if and only if the guest, shown its journal, asks somewhere for another thing than before; it ends with a result if and only if the guest gives that one |
| ReplayEnds.ResumeRefusedIff | packages/sdk/src/execution/manager.ts:2556-2590 | only a pause is resumed, and it is refused if and only if it is not admitted; an admitted one drives from its rows with its decision staged for the paused call |
| ReplayEnds.AppendedOnce | packages/sdk/src/store/sqlite.ts:1010-1042 | a row appended once more changes nothing, and a different row under a stored ordinal is refused |
| Rotation.StepKeepsInv | packages/cli/src/commands/key.ts:431-644 | every step of every rotation, failing or not, and every crash keeps the key files and the db in agreement; what a failure leaves behind is `RotationEnds.LeftBehindIff` |
| Rotation.CrashKeepsInv | packages/cli/src/commands/key.ts:453-609 | a crash that loses any suffix of directory operations and tears any unsynced file keeps the agreement |
| Rotation.KeyNeverLost | packages/cli/src/commands/key.ts:453-609 | a crash at any point of any run of rotations, losing any suffix of unsynced directory operations, leaves the db's key whole in master-key or master-key.next |
| Rotation.LoserTouchesNothing | packages/cli/src/commands/key.ts:534-542 | losing the exclusive create, or failing before it, changes no file, no name and no db key |
| Rotation.OneOwner | packages/cli/src/commands/key.ts:501-515 | one rotation owns master-key.next at a time, and the name still leads to the file it created |
| Rotation.BothKeysKept | packages/cli/src/commands/key.ts:522-608 | from the commit to the promotion a crash leaves the old key in the backup and the new one in master-key.next |
| Rotation.NothingFails | packages/cli/src/commands/key.ts:562-644 | from every reachable state with nothing staged, a new rotation in which nothing fails ends with the db under the new key, the key file holding it, the backup holding the old one and no staged key, and no crash after its exit takes that back |
| Rotation.KeyFile.WriteAllAndFsync | packages/cli/src/commands/key-fs.ts:12-19 | however short the single writes are, every byte is down in order before the fsync |
| RotationEnds.StagedOnlyWhileOwned | packages/cli/src/commands/key.ts:543-604 | in every run of any number of rotations, as long as cleanings succeed and nothing ends uncertain, the staged key is there only while a rotation owns it |
| RotationEnds.LeftBehindIff | packages/cli/src/commands/key.ts:543-604 | exactly a failed cleaning, a seal of unknown effect, a failed promotion and a crash can leave a staged key that nobody owns |
| RotationEnds.FailedStagingCleansUp | packages/cli/src/commands/key.ts:543-560 | whatever fails from the exclusive create to the seal, in any run, the next step takes the staged key away and the rotation exits with the db key and the live key file as they were |
| RotationEnds.UnchangedSealCleansUp | packages/cli/src/commands/key.ts:562-597 | so does a seal known to have changed nothing, or that finds the db no longer under the old key |
| RotationEnds.UncertainSealKeepsBoth | packages/cli/src/commands/key.ts:598-603 | a seal of unknown effect deletes nothing: both keys stay whole, whichever the db is under |
| RotationEnds.PromotionEnds | packages/cli/src/commands/key.ts:605-644 | a promotion that fails leaves both keys, one that succeeds puts the new key in place even if its directory sync fails |
| RotationEnds.LiveUntilSealed | packages/cli/src/commands/key.ts:431-604 | until some rotation seals, no failure of any of them changes the db key or the live key file |
| RotationEnds.FreshGoesOnIff | packages/cli/src/commands/key.ts:453-470 | after such a run a fresh rotation passes its first check if and only if no other owns the staged key |
| RotationEnds.GoesOnIff | packages/cli/src/commands/key.ts:453-510 | in every reachable state each step before the staging is passed if and only if its condition holds: no staged key, a live key that opens the db, again no staged key |
| RotationEnds.StagingLeaves | packages/cli/src/commands/key.ts:505-531 | in every run each staging step leaves exactly what it is for: the new key whole, then fsynced; the db's key in the backup, then fsynced; then the directory |
| Ownership.StepKeepsLocks | packages/mcp/src/daemon/locks.ts:378-458 | every acquisition, refusal, release and crash keeps each process's phase and the locks it holds in agreement; who gets a lock is `OwnershipProgress.GetsTheLockIff` |
| Ownership.StepKeepsRows | packages/mcp/src/daemon/sweep.ts:9-19 | every start, settle, sweep step and crash keeps each running row within reach of the next sweep |
| Ownership.StoreHasOneOwner | packages/mcp/src/daemon/conduitd.ts:486-621 | at most one daemon has the store open, and none while an offline command is in its critical section |
| Ownership.OneOfflineCommand | packages/cli/src/commands/key.ts:124-186 | two offline commands are never in their critical sections together |
| Ownership.SweepMeetsOnlyTheDead | packages/mcp/src/daemon/sweep.ts:9-19 | when a daemon sweeps, every running row belongs to a process that is gone |
| Ownership.NothingRunsAtBind | packages/mcp/src/daemon/conduitd.ts:538-583 | no row is running when a daemon binds, and from then on only its own are |
| Ownership.LingeringOverlapsRotation | packages/mcp/src/bin.ts:465-479 | wherever a serving daemon releases maintenance and lives on, an offline command then starts beside its open store if and only if nobody else holds the lock, and the daemon can still begin any execution |
| Ownership.ExecutionTable.FailClaimed | packages/sdk/src/store/sqlite.ts:824-851 | one update that moves a row only if it is running |
| Ownership.ExecutionTable.Sweep | packages/mcp/src/daemon/sweep.ts:50-71 | every running row becomes terminal with an unknown outcome, every other row stays, and the count is right |
| Ownership.SweepIsIdempotent | packages/mcp/src/daemon/sweep.ts:45-49 | sweeping what an abandoned sweep left half done ends in the same rows |
| OwnershipProgress.GetsTheLockIff | packages/mcp/src/daemon/conduitd.ts:507-535 | in every reachable state a starting daemon gets lifecycle, then maintenance, and an offline command or a probe gets its lock, if and only if nobody stands in its way and the kernel grants it; otherwise it is gone |
| OwnershipProgress.NoLockOutlivesItsHolder | packages/mcp/src/daemon/locks.ts:378-458 | in every run a lock is held by exactly the living processes that stand where they hold it |
| OwnershipProgress.FreshDaemonComesUp | packages/mcp/src/daemon/conduitd.ts:486-583 | from every reachable state with lifecycle unheld and no offline command in its critical section, some run of a fresh daemon's own steps brings it to its bound endpoint with every running row swept |
| OwnershipProgress.DeathMakesRoom | packages/mcp/src/daemon/conduitd.ts:590-620 | once the daemon before it is gone, a fresh one can come up |
| OwnershipProgress.RowsMoveOnlySo | packages/mcp/src/daemon/sweep.ts:9-19 | a row is begun by a serving daemon, settled or paused by the one that began it, and ended by a sweep only if it ran; no lock, start or death touches it |
| OwnershipProgress.ReleasesInOrder | packages/mcp/src/daemon/conduitd.ts:590-620 | a daemon that shuts down gives up maintenance first and lifecycle second, each in its turn, and nobody else's hold moves |
| SourceLocks.ExclusiveInArrivalOrder | packages/mcp/src/daemon/source-lock.ts:50-87 | per key one run at a time, started in the order they were called |
| SourceLocks.EntryExactlyWhileBusy | packages/mcp/src/daemon/source-lock.ts:45-47 | a key has an entry if and only if a run for it is active or waiting |
| SourceLocks.SomebodyCanRun | packages/mcp/src/daemon/source-lock.ts:66-72 | while any run for a key is unfinished, one of them is running or may run now |
| SourceLocks.StepKeepsInv | packages/mcp/src/daemon/source-lock.ts:50-87 | every call, wake-up and finish keeps the chain and its tail |
| SourceLocks.SourceLock.Call | packages/mcp/src/daemon/source-lock.ts:51-64 | queues behind the tail and becomes the tail, in one step |
| SourceLocks.SourceLock.Wake | packages/mcp/src/daemon/source-lock.ts:66-72 | starts a run whose predecessor has finished |
| SourceLocks.SourceLock.Finish | packages/mcp/src/daemon/source-lock.ts:74-84 | frees the entry only if no later run replaced the tail |
| SourceLocks.EveryRunCanFinish | packages/mcp/src/daemon/source-lock.ts:50-87 | from every reachable state, without another call, every run can have its turn, and the map is then empty |
| Catalogs.NameTellsNamespace | packages/sdk/src/normalize/mcp.ts:39-63 | a namespace has no dot, so a tool's name says which namespace it is in |
| Catalogs.NormalizeMcp | packages/sdk/src/normalize/mcp.ts:44-106 | refused if and only if two tools collapse onto one name; otherwise names, namespace and descriptions in order |
| Catalogs.NormalizedTools | packages/sdk/src/normalize/mcp.ts:39-63 | what normalizing hands on has each name once, and every name says the namespace |
| Catalogs.InMemoryCatalog.Upsert | packages/sdk/src/catalog.ts:65-69 | sets each tool by name, in order |
| Catalogs.UpsertHolds | packages/sdk/src/catalog.ts:65-69 | an upsert leaves the tools given and every name they do not mention, each name once |
| Catalogs.InMemoryCatalog.RemoveNamespace | packages/sdk/src/catalog.ts:71-77 | drops exactly the tools of the namespace |
| Catalogs.RefreshReplacesNamespace | packages/mcp/src/daemon/connection.ts:844-847 | remove-then-upsert makes one namespace hold exactly the tools given and leaves every other one alone |
| Catalogs.InMemoryCatalog.Find | packages/sdk/src/catalog.ts:79-97 | collects the hits in order, ranks them and cuts at the limit; the sort is the engine's own, taken as the ranking |
| Catalogs.StableSortIsRanked | packages/sdk/src/catalog.ts:95-95 | any stable sort of the hits, whatever its algorithm, gives exactly the ranking |
| Catalogs.RankedSorts | packages/sdk/src/catalog.ts:95-95 | the ranking is a sorted rearrangement of the hits |
| Catalogs.RankThenFilter | packages/sdk/src/execute.ts:152-161 | filtering the stable ranking is ranking the filtered hits |
| Catalogs.ScopedIsPlainOverPermitted | packages/sdk/src/execute.ts:124-169 | a scoped search equals a plain search over a catalog of only the permitted tools, for every query, limit and scope |
| Catalogs.ToolSegmentCleans | packages/sdk/src/normalize/mcp.ts:39-43 | a segment keeps every word character, reads a slash as a dot and anything else as an underscore, and is what it makes of itself |
| Catalogs.FindsTheBest | packages/sdk/src/catalog.ts:79-97 | a search returns as many matching tools as the limit allows, best score first and ties by name, and leaves out only tools that rank after all it returns |
| Provision.GoKeepsCredentials | packages/mcp/src/daemon/provision.ts:517-879 | every step of a provision or revalidate keeps each secret beside the url it was supplied for |
| Provision.DecideFits | packages/mcp/src/daemon/provision.ts:567-642 | what passes the leak refusal and the retarget gate keeps a stored credential only for the stored url, and reveals it only there |
| Provision.CommitPairs | packages/mcp/src/daemon/provision.ts:835-869 | the batch keeps, replaces or drops the credential together with the url |
| Provision.SecretsStayWithTheirUrl | packages/mcp/src/daemon/provision.ts:517-879 | over all interleavings every fetch that carried a secret went to the url it was supplied for, and every stored secret is stored beside that url |
| Provision.CatalogShowsTheStore | packages/mcp/src/daemon/connection.ts:821-894 | in every run, over any number of daemon restarts, a namespace is published from another commit than the one stored if and only if it is inside its commit-to-refresh window or its last commit was followed by no refresh and no restart; otherwise its catalog entries are exactly the store's |
| Provision.GoKeepsCatalog | packages/mcp/src/daemon/connection.ts:821-894 | every commit, refresh read and mutation keeps the catalog a union of whole commits |
| Provision.NeverHalfPublished | packages/mcp/src/daemon/connection.ts:844-868 | between any two steps a namespace shows all tools of one of its commits, or none because none was published |
| Provision.LateFaultLeavesCatalogBehind | packages/sdk/src/store/sqlite.ts:1196-1212 | wherever a request is about to commit, a commit whose read-back fails leaves the store with the fetched list, the catalog with the one published before, and no request of the namespace running |
| Provision.AnyListCanBeLeftBehind | packages/sdk/src/store/sqlite.ts:1196-1212 | for every valid namespace, request and list of tools some run from boot ends with exactly that list stored, nothing running and an empty catalog |
| Provision.RestartHeals | packages/mcp/src/runtime.ts:27-31 | wherever the daemon stops, the stored tools can be listed, and filling a fresh catalog from that listing shows exactly what the store holds, of every namespace |
| ProvisionEffects.AdmittedIff | packages/mcp/src/daemon/provision.ts:554-642 | an onboarding is admitted if and only if its prefix is free, what it changes about a stored source it was told to replace, and no stored credential would go along to another url; a revalidation if and only if there is a source |
| ProvisionEffects.CommitLeaves | packages/mcp/src/daemon/provision.ts:835-869 | a commit leaves the source as planned, with the credential dropped if cleared, replaced if supplied, and kept otherwise |
| ProvisionEffects.FetchCarriesWhatIsDue | packages/mcp/src/daemon/provision.ts:614-655 | in every run a fetch carries exactly the supplied credential, else the stored one if it is kept for the stored url, else none; no other step sends anything |
| ProvisionEffects.StoreMovesOnlyByBatches | packages/mcp/src/daemon/provision.ts:835-879 | in every run what is stored for a namespace moves only when a batch of its own lands, to what that request planned and fetched |
| ProvisionEffects.AdmittedCanSucceed | packages/mcp/src/daemon/provision.ts:517-879 | from every reachable state an admitted request can succeed by its own steps: the source and the fetched list stored, the catalog showing exactly that list, every other namespace as it was |
| ProvisionProgress.OnlyNamedGoOn | packages/mcp/src/daemon/provision.ts:528-539 | in no run is anything sent or stored for a namespace of another form |
| ProvisionProgress.SecretIsTakenAsTyped | packages/mcp/src/daemon/provision.ts:567-569 | a secret is taken as typed, for the url beside it, and one of nothing but spaces is none |
| ProvisionProgress.PrefixesStayDistinct | packages/sdk/src/store/sqlite.ts:72-78 | in every run two sources are never stored under one prefix, whatever was decided before their batches |
| ProvisionProgress.StartsIffItsTurn | packages/mcp/src/daemon/source-lock.ts:66-72 | in every run a queued request starts if and only if all earlier ones for its namespace have settled |
| ProvisionProgress.RefreshIsTriedTwice | packages/mcp/src/daemon/connection.ts:849-893 | a refresh whose read failed is tried once more, and only failing again leaves the catalog behind |
| ProvisionProgress.EveryRequestCanSettle | packages/mcp/src/daemon/provision.ts:517-879 | from every reachable state all requests can settle by their own steps, even if each one that can fail does |
| Streams.DecodeExtends | packages/mcp/src/daemon/frames.ts:159-203 | more bytes only extend what was decoded, and a fault is final |
| Streams.ChunkingDoesNotMatter | packages/mcp/src/daemon/frames.ts:138-152 | for every cut either all pushes together are the one-shot decode, or exactly one push is the first to throw and every later one does |
| Streams.FaultLoses | packages/mcp/src/daemon/frames.ts:147-203 | a stream with a fault loses exactly the items its first throwing push would have completed |
| Frames.DepthIsChecked | packages/mcp/src/daemon/frames.ts:85-96 | the traversal passes if and only if the deepest value is within the cap |
| Frames.FramingSettles | packages/mcp/src/daemon/frames.ts:168-187 | what the decoder has settled about the start of the stream no further byte changes |
| Frames.ResidueIsSmall | packages/mcp/src/daemon/frames.ts:118-131 | what stays buffered is below one header and one capped body |
| Frames.EncodedDecodes | packages/mcp/src/daemon/frames.ts:63-71 | messages encoded within the caps decode to the same messages with nothing left |
| Frames.SameBytesSameFrames | packages/mcp/src/daemon/frames.ts:138-203 | two cuts of the same bytes give the same frames and the same small residue, or are both refused |
| Frames.FaultTakesItsPushAlong | packages/mcp/src/daemon/frames.ts:104-114 | for every fault and every cut, what is lost is exactly the frames completed in the faulty push, so nothing is lost if and only if that push completes none |
| Frames.FaultNeedsItsOwnPush | packages/mcp/src/daemon/frames.ts:104-114 | any messages in one push with any fault are all lost, in a push before it all kept |
| Frames.FrameDecoder.Push | packages/mcp/src/daemon/frames.ts:147-203 | one push yields the decode of the residue and the chunk and keeps its rest, or throws and poisons the decoder for good |
| Frames.FrameDecoder.Take | packages/mcp/src/daemon/frames.ts:168-200 | one turn of the loop waits, faults or takes exactly the first frame |
| Frames.HeaderReads | packages/mcp/src/daemon/frames.ts:68-70 | the length written is the length read |
| Frames.TakesExactlySoundFrames | packages/mcp/src/daemon/frames.ts:168-200 | the decoder takes a message off the stream if and only if a whole frame within both caps stands at its front, and waits if and only if the header or its body is incomplete |
| Frames.DecodedAreShallow | packages/mcp/src/daemon/frames.ts:85-96 | every message decoded from any bytes is within the depth cap |
| Frames.RefusedAs | packages/mcp/src/daemon/frames.ts:175-199 | each fault is named if and only if its own check fails: the length, the text, the depth |
| Frames.FramedIff | packages/mcp/src/daemon/frames.ts:63-71 | a message is framed if and only if its body is within the cap, as its length before its text |
| ReadyGate.NothingLost | packages/mcp/src/daemon/client.ts:1296-1363 | whatever the cut and whenever the caller asks, what was handed out and what is buffered are, in order, the messages after READY |
| ReadyGate.EncodedComesBack | packages/mcp/src/daemon/client.ts:753-798 | READY and then messages, as the daemon encoded them, come back complete and in order |
| ReadyGate.NothingLostIffNoNull | packages/mcp/src/daemon/client.ts:1296-1363 | for given messages, every run that carries them keeps them all in order if and only if none of them is null |
| ReadyGate.NullsDropped | packages/mcp/src/daemon/client.ts:1302-1310 | for any messages, READY in its own push and then all of them before anyone asks leaves exactly the ones that are not null |
| ReadyGate.NextIsAnswered | packages/mcp/src/daemon/client.ts:1296-1363 | in every run a `next` is answered with the oldest message that waits, or with the very next one that arrives while the connection is open |
| ReadyGate.GateClosesIff | packages/mcp/src/daemon/client.ts:753-798 | the gate is given up if and only if a timeout, an end or a fault comes before READY |
| ReadyGate.ReaderClosesIff | packages/mcp/src/daemon/client.ts:1311-1345 | the reader closes if and only if the connection ends or a fault comes; a timeout only ends the wait |
| EventStreams.LinesAreTheSplit | packages/sdk/src/pipeline/mcp-wire.ts:36-48 | the incremental lines and the leftover are the lines of the one-shot split on CRLF, LF or CR |
| EventStreams.PushesThenFlushAreOneShot | packages/sdk/src/pipeline/mcp-wire.ts:15-82 | for every cut of a text, the pushes and the final flush give exactly the events of the one-shot parse |
| EventStreams.FindBreak | packages/sdk/src/pipeline/mcp-wire.ts:36-48 | the scan finds the first break that no later character can change |
| EventStreams.SseParser.ConsumeLine | packages/sdk/src/pipeline/mcp-wire.ts:22-29 | a blank line ends an event that has data, a data line adds to it, any other is ignored |
| EventStreams.SseParser.Drain | packages/sdk/src/pipeline/mcp-wire.ts:61-66 | consumes every line the buffer settles, in order |
| EventStreams.SseParser.PushChunk | packages/sdk/src/pipeline/mcp-wire.ts:50-69 | one push strips the mark once, consumes every settled line and keeps a trailing CR |
| EventStreams.SseParser.FlushRest | packages/sdk/src/pipeline/mcp-wire.ts:70-80 | the end of the stream ends the last line and emits an unfinished event |
| EventStreamsRoundTrip.WrittenEventsComeBack | packages/sdk/src/pipeline/mcp-wire.ts:15-82 | events written with any of the three line endings, with or without a mark, are read back as exactly the data of each event that has any, its lines one under the other |
| AdmissionQueue.BoundedAndWorkConserving | packages/mcp/src/daemon/conduitd.ts:279-328 | active and queued stay within their bounds and nothing waits while a slot is free |
| AdmissionQueue.StartedInOrder | packages/mcp/src/daemon/conduitd.ts:369-387 | entries start in the order they were accepted, each at most once |
| AdmissionQueue.ExactlyOnePlace | packages/mcp/src/daemon/conduitd.ts:242-393 | every accepted entry is waiting, running or settled, never two of them; it is settled as ran if and only if it ran |
| AdmissionQueue.VerdictStands | packages/mcp/src/daemon/conduitd.ts:289-304 | a settled verdict never changes |
| AdmissionQueue.RunKeepsInv | packages/mcp/src/daemon/conduitd.ts:242-393 | every submit, finish, tick and abandon keeps bounds, order and accounts |
| AdmissionQueue.PumpFills | packages/mcp/src/daemon/conduitd.ts:380-387 | filling leaves no entry waiting beside a free slot and only appends to what was started |
| AdmissionQueue.ExecutionQueue.Submit | packages/mcp/src/daemon/conduitd.ts:279-328 | drops the expired, then refuses, starts or queues |
| AdmissionQueue.ExecutionQueue.Finish | packages/mcp/src/daemon/conduitd.ts:369-378 | frees the slot, settles the entry and fills the free slots from the front |
| AdmissionQueue.ExecutionQueue.Fill | packages/mcp/src/daemon/conduitd.ts:380-387 | starts from the front while a slot is free |
| AdmissionQueue.ExecutionQueue.Expire | packages/mcp/src/daemon/conduitd.ts:356-367 | the backward scan removes and settles exactly the expired entries |
| AdmissionQueue.ExecutionQueue.Abandon | packages/mcp/src/daemon/conduitd.ts:317-325 | removes and settles an entry only while it is queued |
| AdmissionQueueEffects.SubmitEffect | packages/mcp/src/daemon/conduitd.ts:279-328 | in every reachable state a submit is accepted if and only if a slot is free or the queue, without its expired entries, has room; it starts at once if a slot is free and waits as the last one otherwise |
| AdmissionQueueEffects.FinishEffect | packages/mcp/src/daemon/conduitd.ts:369-387 | a finished execution is settled as run, and exactly the first waiting entry whose time is not up takes its slot |
| AdmissionQueueEffects.TickEffect | packages/mcp/src/daemon/conduitd.ts:330-367 | the timer drops exactly the entries whose time is up and stays armed exactly while somebody waits |
| AdmissionQueueEffects.AbandonEffect | packages/mcp/src/daemon/conduitd.ts:317-325 | a waiting entry can be abandoned, it alone, and nothing else can |
| AdmissionQueueEffects.HighWaterIsThePeak | packages/mcp/src/daemon/conduitd.ts:306-316 | the high-water mark is the longest the queue was after any step of the run |
| StateDirs.CanonicalOfMissing | packages/mcp/src/daemon/state-dir-resolve.ts:97-118 | the segment loop computes the canonical walk |
| StateDirs.AgreesWithKernel | packages/mcp/src/daemon/state-dir-resolve.ts:84-118 | whenever the kernel resolves a path, `..` after a symlink included, the walk returns exactly its answer |
| StateDirs.ResolveComposes | packages/mcp/src/daemon/state-dir-resolve.ts:84-96 | the kernel resolves a path as its front and then the rest from there |
| StateDirs.CanonicalSettles | packages/mcp/src/daemon/state-dir-resolve.ts:97-118 | the walk always stands at a real path followed by names of which the first already does not resolve |
| StateDirs.CanonicalIsIdempotent | packages/mcp/src/daemon/state-dir-resolve.ts:97-118 | the canonical form of a canonical form is itself, whether it exists or not |
| StateDirs.SameMeansSameBase | packages/mcp/src/daemon/state-dir-resolve.ts:167-184 | two paths pass as one directory only if the base derived from them is one, and two existing ones exactly then |
| StateDirs.SameIff | packages/mcp/src/daemon/state-dir-resolve.ts:167-184 | two paths pass as one directory if and only if both lead to the same directory, or both are absent, no dangling symlink among them, and would be created in the same place; a fault is always passed on |
| InlineRefs.ResolvePointer | packages/sdk/src/normalize/openapi.ts:48-60 | the walk along the pointer's parts |
| InlineRefs.FollowingShrinks | packages/sdk/src/normalize/openapi.ts:67-90 | following a ref not yet on the path leaves fewer refs unvisited, so inlining ends on every document |
| InlineRefs.InlinesExactlyTheFinite | packages/sdk/src/normalize/openapi.ts:62-90 | inlining is the plain expansion whenever that one ends, and cuts a ref for being on its own path if and only if it never ends |
| InlineRefs.FiniteIsInlined | packages/sdk/src/normalize/openapi.ts:75-84 | a finite expansion never meets a ref on its own path and is what inlining gives |
| InlineRefs.AcyclicIsFinite | packages/sdk/src/normalize/openapi.ts:75-84 | without a cycle the expansion ends within the number of refs |
| InlineRefs.InlinedIsSelfContained | packages/sdk/src/normalize/openapi.ts:62-66 | when every `$ref` is a string, cyclic or not, the result mentions no ref any more |
| InlineRefs.SelfContainedIff | packages/sdk/src/normalize/openapi.ts:67-90 | the result mentions no ref if and only if no object the expansion reaches has a `$ref` that is no string but leads, uncut, to one |
| InlineRefs.PointerResolves | packages/sdk/src/normalize/openapi.ts:48-60 | the pointer written for a path of keys, whatever their characters, resolves to exactly the member that path leads to, and to nothing if it leads nowhere |
| InlineRefs.EscapedComesBack | packages/sdk/src/normalize/openapi.ts:57-57 | unescaping `~1` before `~0` gives every key back, also one that contains an escape |
| DaemonClient.ProbeSharedWithin | packages/mcp/src/daemon/locks.ts:485-496 | answers at the first look that finds the lock free, and busy only for a holder that outlived the whole window |
| DaemonClient.WaitForStartOrRelease | packages/mcp/src/daemon/client.ts:1390-1406 | only looks, after the first look at the slow pace; returns with a socket just connected, or without one once the lock was seen free or the deadline passed, no earlier than one poll interval |
| DaemonClient.WaitForLifecycleHeld | packages/mcp/src/daemon/client.ts:1409-1414 | only looks, and returns exactly at the first look that finds the lock taken or once the deadline has passed |
| DaemonClient.WhileHeld | packages/mcp/src/daemon/client.ts:527-608 | connects at once; a held lifecycle lock ends in the exchange, in the refusal of a leaf that changed, or in another pass at least a poll interval later, and never otherwise |
| DaemonClient.PastTheGate | packages/mcp/src/daemon/client.ts:551-607 | the record is exactly READY awaited, the leaf compared if it is pinned, and the request written only if both held |
| DaemonClient.OnePass | packages/mcp/src/daemon/client.ts:469-648 | the whole table by the pass's own record: busy maintenance ends it, a held lifecycle lock is connected to, a free one starts a daemon if one may still be started and gives up otherwise |
| DaemonClient.DaemonRequest | packages/mcp/src/daemon/client.ts:282-661 | ends within one pass per poll interval plus two, starts at most one daemon and only where permitted, and for an absent default directory gives up only after a start or once the time is up; writes only past the gate, and each way of ending has its cause in the record |

## Left out

- DirectDriveSafety.TimersFire: timers fire exactly when due; a late timer shifts every bound by its lateness.
- DirectDriveSafety.ResumeInTimeIffKindKnown: does not cover a row whose kind lookup says direct and whose hydration says code; the two are taken to agree when both answer.
- Provision.SecretsStayWithTheirUrl: does not cover calls made while executing code, which read the connection and the source on their own.
- Catalogs.InMemoryCatalog.Find: does not model how a query scores a tool, how names collate or how the engine sorts; the first two are parameters.
- StateDirs.CanonicalOfMissing: takes an absolute path; joining a relative one to the working directory is not modelled.
- DaemonClient.DaemonRequest: does not model what the exchange after the write returns, only that it is entered once.
- Start, resume and the journaling host are step systems on values; the closures they capture are fields of that state, and only the latch, the decision store and the dispatch cell are also classes.
- The stored rows of code executions; only direct rows are followed, with a drive or without one.
- The rejection handler around a direct continuation, which the continuation never reaches.
- Key generation and its hard-link publication, and a crash of the db file itself: a reported commit is durable.
- Symbolic links, renames and mounts that change while a path is resolved; the tree is fixed.
- Members inherited by JSON objects (`constructor`, `__proto__`) as `$ref` targets or keys.
- Sockets, child processes, HTTP, the sandbox engine, SQLite and cryptography: only their replies.
- JSON text: a codec is a pair of functions of which printing then parsing gives the value back.
- Daemon stop, drain deadlines, handshake versions, payload shapes, log lines and messages.
- Policy tables, risk classes, egress ranges, argument parsing and the HTML conversion script.
- Conformance of the event stream to section 9.2.6 of the HTML Living Standard at the end of a stream.
