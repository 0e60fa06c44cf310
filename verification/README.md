# Verified model of the Molly cores

This project models the parts of the repository in which state, concurrency or encoding decides
correctness, and proves what they promise over all inputs and all runs. `dafny verify dfyconfig.toml`
checks it.

Protocols are state machines: a step is what runs from one await (or system call) to the next, the
environment chooses every answer, and the results speak of every reachable state. Where the source keeps
its state in an object or in the variables of a closure, a class carries the same fields, and each of its
methods is proved to have the effect the machine gives the step. Such an object keeps a ghost trace of the
events it has carried out; it is valid when they lead the machine to its state, and the method that carries
out one more event promises the main results of that machine.

A machine is written as the source is, operation by operation. Beside its invariants the modules named
`...ByEvents`, `...Lease`, `...Epochs` and `...Results` describe it a second time, field by field or from the
events of the whole run, and prove that the two descriptions agree.

| Files | Subject |
|---|---|
| `SupervisorModel`, `SupervisorSafety`, `SupervisorLiveness`, `SupervisorResults`, `SupervisorLease`, `SupervisorByEvents`, `Supervisor`, `Retry` | The CLI supervisor: task queue, generations, lease, external runtimes, timers, failure windows |
| `ProcessLock`, `AcquireLoop`, `SessionWriter` | The lock directory over rename, unlink and rmdir with crashes, and the session lock above it |
| `RunJournal` | At-most-once execution of a run over crashes and restarts |
| `NotePinsModel`, `NotePinsSteps`, `NotePinsResults`, `NotePinsByEvents`, `NotePinsEpochs`, `NotePins` | Canvas notes with epochs and their single-flight publisher |
| `AutosaveModel`, `AutosaveResults`, `AutosaveByEvents`, `ProductSession` | Autosave against a compare-and-set store |
| `Dialogs`, `DialogResults`, `DialogSession` | Extension dialogs and their retirement |
| `ControlPipe`, `ControlPipeResults` | Newline framing of a private pipe |
| `ArtworkTree`, `ArtworkMapper`, `ArtworkAliasing`, `Authoring`, `AuthoringResults` | Artwork projection: in-place asset rewrite over a shared graph, validation, import, export, intake |
| `AuthoringDigest`, `AuthoringScan`, `Utf8` | The bytes of the authoring digest, and the directories that have one |
| `CommandDisplay`, `PosixCommandLine`, `WindowsCommandLine` | Argument quoting and the parsers that undo it |
| `TheilSen`, `ProcessTree`, `MermaidGuard`, `ImageRetention` | Robust slopes, two reachability loops, batch image retention |
| `Options`, `JsText`, `FiniteSets` | An option type; the white space `trim` removes; why a search ends |

## Where the code does less than one might expect

Each of these is proved: a concrete run or input, and the exact condition where there is one.

- The supervisor is not always able to go on by itself. A probe that rejects, an empty text for a fatal
  verdict, or the late end of a process that outlived SIGKILL leaves it with nobody responsible, exactly
  when nothing is queued for the current generation and no retry is armed
  (`SupervisorResults.StuckExactlyWhenForsaken`; over whole runs `StuckExactlyWhenForlorn`; concrete runs
  `RejectedProbeStrands` and `SurvivorStrandsTheNextStart`). The reconcile of a `start` ends at once when
  it finds the survivor recorded; a `restart` waits for its end (`RestartIsNotForsaken`).
- A supervisor that is stopped and idle can still hold its lease. `stop` keeps it while the process it could
  not kill lives, and nobody gives it back when that process ends late; exactly then, until the next `stop`,
  `start` or `restart` (`SupervisorLease.LeaseIsHeldExactly`, concrete run `SurvivorKeepsTheLease`). Without
  survivors a stopped supervisor holds nothing (`StoppedHoldsNothing`).
- `handleRunSettled` marks a conflict fatal after an await without checking the generation again, so a
  `stop` and a `start` in between, in the same turn of the event loop, meet the old verdict; this can happen
  exactly without an ownership port and without the attach policy (`SupervisorResults.StaleVerdictExactly`,
  `StaleConflictExactly`, `StaleConflictIsFatal`).
- The failure windows drop from the front and stop at the first recent timestamp. They hold the recent
  failures exactly when, at every record, the timestamps that are too old are the first ones and none of
  them is recent again (`Retry.ExactExactlyWhenSteady`); a clock that never steps back is always such, one
  that does can count too many or too few (`Retry.SteppedBackClockMiscounts`).
- On Windows a displayed command that itself holds quotes can swallow arguments, because the program name
  follows its own rule (`WindowsCommandLine.ArgumentsSurviveExactly`, `ArgvSurvivesExactly`).
- Rewriting assets in place differs from mapping the tree when a renamed object is also referred to from a
  place where no asset is looked for (`ArtworkAliasing.RewriteIsTreeMapExactly`, `SharingCanShowThrough`).
  Intake accepts such artworks. A stored document that shares in this way inside its elements does not come
  back from export and intake as it was, and only such a one does not: what fonts, background and elements
  share with each other is cloned apart before it is renamed (`Authoring.ExportThenIntake`,
  `SharingAcrossComesBack`, `SharingInsideIsChanged`, with the documents `SharedOutside` and `SharedInside`).

The stickiness of an autosave conflict rests on all waiting flushes going on in one turn of the event
loop: `AutosaveModel.Accept` is one step for that reason.

## Model

| member | source | states |
|---|---|---|
| SupervisorResults.OneChildUnderTheLease | packages/cli-supervisor/src/supervisor.ts:264-397 | In every reachable state at most one child process is alive; it is the recorded run, and with an ownership port its lease is held |
| SupervisorResults.SpawnIsWanted | packages/cli-supervisor/src/supervisor.ts:361-385 | A process appears only in the step that ends a prepared launch of the current generation, while running is desired, with no other child alive and under the lease |
| SupervisorResults.NoChildAfterStop | packages/cli-supervisor/src/supervisor.ts:176-205 | After `stop`, whatever tasks, timers and exits are still pending, no process appears until a later `start` or `restart` |
| SupervisorSafety.StepKeepsSafe | packages/cli-supervisor/src/supervisor.ts:150-868 | Every event at every await keeps the safety invariant: one child, recorded, under the lease, nothing else recorded |
| SupervisorSafety.RunKeepsSafe | packages/cli-supervisor/src/supervisor.ts:150-868 | The safety invariant holds over every run of events |
| SupervisorSafety.SpawnsOnlyWhenPrepared | packages/cli-supervisor/src/supervisor.ts:342-385 | The list of processes grows by exactly one run of the current generation when a current prepared launch resolves, and is otherwise unchanged |
| SupervisorResults.NeverSilentlyStuck | packages/cli-supervisor/src/supervisor.ts:264-568 | Along runs in which every process dies of SIGKILL and no result strands: queue empty, running desired and no fatal verdict imply a current run, an observed external runtime or an armed retry timer of the current generation |
| SupervisorResults.StuckExactlyWhenForlorn | packages/cli-supervisor/src/supervisor.ts:150-868 | Over every run whatsoever, with rejected probes and surviving processes: the supervisor is stuck if and only if it is idle and the last event that forsook it was not followed by one that relieves it |
| SupervisorResults.StuckExactlyWhenForsaken | packages/cli-supervisor/src/supervisor.ts:399-409 | In every reachable state in which somebody is responsible, the next event leaves the supervisor stuck if and only if it forsakes it (a rejected probe, an empty verdict, or the late end of a run of an older generation, with nothing queued for the current one and no retry armed) and leaves no task |
| SupervisorLiveness.StepFollows | packages/cli-supervisor/src/supervisor.ts:264-868 | Every event keeps the queue discipline; the last attendant is lost exactly in the forsaking events and regained exactly by stop, restart, a poll that sees a runtime or a changed owner, or the verdict of a stale conflict |
| SupervisorResults.StuckExactlyWhenStranded | packages/cli-supervisor/src/supervisor.ts:294-308 | After any run without survivors and stranding results, whatever comes next leaves the supervisor stuck if and only if it is a rejected probe or an empty fatal text, read before the step: nothing queued and no retry that stays armed |
| SupervisorResults.RestartIsNotForsaken | packages/cli-supervisor/src/supervisor.ts:207-227 | While an accepted `restart` is the last request, the late end of a surviving process never forsakes the supervisor |
| SupervisorResults.RejectedProbeStrands | packages/cli-supervisor/src/supervisor.ts:322-323 | A concrete run in which a rejecting probe leaves a wanted supervisor with nothing to do |
| SupervisorResults.SurvivorStrandsTheNextStart | packages/cli-supervisor/src/supervisor.ts:604-611 | A concrete such run with `start`: a process outlives SIGKILL, the later `start` does nothing, and its late exit leaves the supervisor stuck |
| SupervisorResults.StaleVerdictExactly | packages/cli-supervisor/src/supervisor.ts:427-431 | In every reachable state a task of another generation sets a verdict if and only if it is a conflict after its release under the reject policy, or a process has outlived SIGKILL; the conflict needs a host without an ownership port |
| SupervisorResults.StaleConflictExactly | packages/cli-supervisor/src/supervisor.ts:410-431 | A conflict of one generation can condemn another if and only if there is neither an ownership port nor the attach policy |
| SupervisorResults.StaleConflictIsFatal | packages/cli-supervisor/src/supervisor.ts:427-431 | A run that does it: a conflict of the first generation marks the third one fatal |
| SupervisorResults.CountedFailureIsFatalExactly | packages/cli-supervisor/src/supervisor.ts:526-568 | In every reachable state a counted failure, on a steady log, is fatal exactly when its class then has `threshold` failures since the last reset within the window; otherwise a retry is armed |
| SupervisorResults.CleanRunKeepsGood | packages/cli-supervisor/src/supervisor.ts:150-868 | Along every run without survivors and stranding results somebody stays responsible and a run nobody wants is being ended |
| SupervisorLease.LeaseIsHeldExactly | packages/cli-supervisor/src/supervisor.ts:188-205 | After every run whatsoever `ownershipHeld` says whether the lease is held; a supervisor that is stopped and idle holds it exactly while it is owned and the run of a process it could not kill is recorded, or when such a run has ended since the `stop` gave up and no request has followed |
| SupervisorLease.StoppedHoldsNothing | packages/cli-supervisor/src/supervisor.ts:176-205 | As long as every process dies of SIGKILL, a supervisor that is stopped and idle has no recorded run, no live process and no lease |
| SupervisorLease.LeaseFollowsEvents | packages/cli-supervisor/src/supervisor.ts:854-858 | The lease is taken exactly by an acquisition of the current generation, a late one being given back at once, and given back exactly by the end of a `stop` whose run is over and by a clean exit |
| SupervisorLease.StepFollowsCustody | packages/cli-supervisor/src/supervisor.ts:399-474 | A stopped supervisor comes to keep its lease exactly when the survivor that `stop` gave up on ends late, and is rid of it exactly at the next explicit request |
| SupervisorLease.SurvivorKeepsTheLease | packages/cli-supervisor/src/supervisor.ts:604-611 | A concrete run with SIGKILL in vain: stopped, idle, no run recorded, and the lease still held |
| SupervisorByEvents.FailureIsFatalExactly | packages/cli-supervisor/src/supervisor.ts:526-568 | Over every run, counted from its events alone: a counted failure is fatal exactly when its class has had `threshold` failures in the window since an explicit request, a `stop`, a clean exit or a healthy run last forgot them |
| SupervisorByEvents.InSightExactly | packages/cli-supervisor/src/supervisor.ts:726-841 | Over every run: a runtime of another host is in sight exactly when the event shows it, or it was in sight and nothing has taken it away, the last being `probeFailureThreshold` polls in a row that missed it |
| SupervisorByEvents.TimersFollowEvents | packages/cli-supervisor/src/supervisor.ts:526-588 | Which timers run after any event: retry, healthy run and poll, told by the event |
| SupervisorByEvents.StepIsTold | packages/cli-supervisor/src/supervisor.ts:150-868 | In every reachable state the machine, task by task as the source is written, does to every field what a second description, field by field, says of the event |
| Supervisor.CliSupervisor.Start | packages/cli-supervisor/src/supervisor.ts:150-162 | A redundant start changes nothing; any other clears the fatal verdict, begins a generation and queues a reconcile; the object stays where its events lead the machine |
| Supervisor.CliSupervisor.StartProbing | packages/cli-supervisor/src/supervisor.ts:169-174 | Observation only: polls without wanting a process |
| Supervisor.CliSupervisor.Stop | packages/cli-supervisor/src/supervisor.ts:176-205 | Ends intent, timers and polling at once and queues the termination |
| Supervisor.CliSupervisor.Restart | packages/cli-supervisor/src/supervisor.ts:207-227 | Refused while an external runtime is attached without an own run; otherwise a new generation and a queued restart |
| Supervisor.CliSupervisor.Dispatch | packages/cli-supervisor/src/supervisor.ts:150-868 | Whatever events the object has carried out, after one more it is where they lead the machine, and where the telling by fields says: at most one child, recorded and under the lease; a process only from a wanted, prepared launch; none after `stop`; `ownershipHeld` is the lease, and stopped and idle it is held only after a survivor; stuck exactly when its events have forsaken it |
| Retry.ExactExactlyWhenSteady | packages/cli-supervisor/src/retry.ts:39-51 | After every record the history is exactly the timestamps since the reset that are at most `windowMs` old, if and only if at every record the entries that are too old come first and none of them was recent again |
| Retry.WindowIsExact | packages/cli-supervisor/src/retry.ts:39-51 | A clock that never steps back meets that condition for every length of the window |
| Retry.SteppedBackClockMiscounts | packages/cli-supervisor/src/retry.ts:42-49 | Two logs of a clock that steps back: a count that is too high and one that is too low |
| Retry.FailureWindow.Record | packages/cli-supervisor/src/retry.ts:39-51 | Trims from the front and reports the threshold; on a steady log against the count of all recent timestamps |
| ProcessLock.MutualExclusion | packages/harness-pi/src/process-lock.ts:71-110 | Under any interleaving, crash and reuse of process ids no two live calls hold the lock |
| ProcessLock.HolderIsUndisturbed | packages/harness-pi/src/process-lock.ts:33-69 | While a live call holds the lock the directory is exactly its owner file, and no step of anyone else, however old the listing or the probe it acts on, removes it |
| ProcessLock.DeadOwnerIsRecovered | packages/harness-pi/src/process-lock.ts:50-69 | A call running alone takes over a lock whose owner died |
| ProcessLock.ReleasedForGood | packages/harness-pi/src/process-lock.ts:33-48 | Under any interleaving, once a release has unlinked its file the caller has none in the directory and never holds the lock again |
| ProcessLock.ReleaseFreesTheLock | packages/harness-pi/src/process-lock.ts:107-110 | A holder whose release works leaves no directory, and the next call holds the lock after one rename |
| ProcessLock.AloneAcquiresExactly | packages/harness-pi/src/process-lock.ts:71-110 | A call running alone ends with the lock exactly when the directory was absent, empty, or that of one dead owner; otherwise it changes nothing and gives up after all the rounds it was allowed |
| ProcessLock.StepKeepsInv | packages/harness-pi/src/process-lock.ts:33-110 | Every system call (rename, readdir, probe, unlink, rmdir), start and crash keeps the invariant |
| ProcessLock.CallFollowsLoop | packages/harness-pi/src/process-lock.ts:71-110 | Under any interleaving a call is where the retry loop is after the rounds it has had, and holds the lock exactly when the loop acquires |
| ProcessLock.CallsAreBounded | packages/harness-pi/src/process-lock.ts:78-104 | However other calls interfere, a call is over after at most 330 system calls for each wait it was allowed, and 334 more |
| AcquireLoop.AttemptsAreBounded | packages/harness-pi/src/process-lock.ts:78-104 | Whatever the directory answers, the number of rename attempts is bounded by the retries allowed |
| AcquireLoop.AcquiredExactly | packages/harness-pi/src/process-lock.ts:83-104 | The call acquires exactly when its last attempt published, and no earlier one did |
| AcquireLoop.EndsExactly | packages/harness-pi/src/process-lock.ts:78-104 | The loop ends at the first round, read from the answers alone, that publishes or breaks, misses twice in a row, is the 33rd recovery since the last wait, or is held with no wait left; no earlier round ends it |
| AcquireLoop.AcquireProcessLock | packages/harness-pi/src/process-lock.ts:71-110 | The loop over retries, recoveries and the missing flag terminates with that outcome in at most 66 attempts per wait |
| SessionWriter.OneSessionWriter | packages/harness-pi/src/profile.ts:61-97 | Two live writers of one session file never coexist, and the lock file names the writer |
| SessionWriter.WriterIsUndisturbed | packages/harness-pi/src/profile.ts:66-81 | No step of another call removes or replaces a live writer's record |
| SessionWriter.StepKeepsInv | packages/harness-pi/src/profile.ts:61-97 | Every step of guard and writer keeps both levels consistent |
| SessionWriter.AloneWritesExactly | packages/harness-pi/src/profile.ts:61-85 | A call alone under its guard becomes the writer exactly when there is no record or one of a dead process; otherwise the record stays |
| SessionWriter.DeadWriterIsReplaced | packages/harness-pi/src/profile.ts:69-77 | The record of a dead writer is replaced by that of the caller |
| SessionWriter.CloseFreesTheSession | packages/harness-pi/src/profile.ts:86-96 | A writer that closes leaves neither its record nor the guard behind |
| SessionWriter.FailureGivesTheGuardBack | packages/harness-pi/src/profile.ts:82-85 | A system call that fails under the guard leaves the record as it was and the guard given back |
| NotePinsResults.NotesAreAFunctionOfTheEpoch | packages/design-bento/src/note-pins.ts:173-178 | Along any run epochs do not decrease, and equal epochs mean equal sent notes |
| NotePinsResults.SettlingLosesNothing | packages/design-bento/src/note-pins.ts:827-845 | A draft read at one moment and settled later with its epoch clears exactly the notes it carried |
| NotePinsResults.UnsettledNoteStays | packages/design-bento/src/note-pins.ts:827-845 | A written note stays on the canvas with its targets, and among what is sent with its text, to which others may be appended, through any number of refused settlements, until the canvas is cleared, the draft is settled, its editor is typed into or a target leaves; a quiet publisher has delivered it |
| NotePinsResults.NeverMoreThanTenNotes | packages/design-bento/src/note-pins.ts:521-553 | No run puts more than the allowed pins on the canvas |
| NotePinsResults.SingleFlight | packages/design-bento/src/note-pins.ts:185-203 | However waiting flushes are scheduled, at most one publish awaits an answer: the last one sent |
| NotePinsResults.EpochsNeverGoBack | packages/design-bento/src/note-pins.ts:188-202 | Sent and acknowledged epochs never decrease |
| NotePinsResults.QuietMeansDelivered | packages/design-bento/src/note-pins.ts:179-203 | Nothing marked unpublished and nothing in flight imply that the host acknowledged the current notes |
| NotePinsSteps.StepKeepsInv | packages/design-bento/src/note-pins.ts:173-856 | Every handler and every publishing step keeps the invariant and moves time forward |
| NotePinsSteps.SameTextSameNotes | packages/design-bento/src/note-pins.ts:471-482 | Typing that leaves the trimmed text alone, and so the epoch, leaves the sent notes alone |
| NotePinsResults.PruneIsIdempotent | packages/design-bento/src/note-pins.ts:224-242 | A second prune finds nothing |
| NotePinsByEvents.SentLists | packages/design-bento/src/note-pins.ts:697-702 | What is sent lists, in canvas order, exactly the pins with text, each with its targets, its text without the white space around it, and its point and region rounded, field by field |
| NotePinsByEvents.ReadLists | packages/design-bento/src/note-pins.ts:706-710 | A read hands out such a list of the pruned canvas with its epoch, or fails exactly on another epoch |
| NotePinsByEvents.CanvasFollowsEvents | packages/design-bento/src/note-pins.ts:521-553 | Along every run the pins after an event are those a description of the canvas, event by event, says: what is added, merged, restored, cleared, typed and pruned |
| NotePinsByEvents.ModeFollowsEvents | packages/design-bento/src/note-pins.ts:827-856 | Which events make the canvas busy or read-only, and which make it free |
| NotePinsByEvents.SameTargetsExactly | packages/design-bento/src/note-pins.ts:243-245 | Two pins have the same targets exactly when these are the same sets |
| NotePinsEpochs.EpochMovesExactly | packages/design-bento/src/note-pins.ts:173-178 | The epoch moves exactly at an event that disturbs the draft, read from the canvas before it |
| NotePinsEpochs.UndisturbedDraftSettles | packages/design-bento/src/note-pins.ts:827-845 | A draft that is read and not disturbed is still what would be sent, and settling it with its epoch clears the canvas |
| NotePinsEpochs.PublisherFollowsEvents | packages/design-bento/src/note-pins.ts:185-203 | A publish leaves exactly when a flush finds something unpublished, nothing in flight and the canvas free or forced, and carries the notes of the moment |
| NotePinsEpochs.FlushDelivers | packages/design-bento/src/note-pins.ts:185-203 | A flush that nobody interferes with delivers the present notes and leaves the publisher quiet |
| NotePinsEpochs.RestoredReadsTheSame | packages/design-bento/src/note-pins.ts:811-826 | Restoring what was read onto an empty canvas with its targets present reads the same notes again |
| NotePinsEpochs.EditorFollowsEvents | packages/design-bento/src/note-pins.ts:521-553 | Which events open an editor, on which pin |
| NotePinsEpochs.EditorStandsOtherwise | packages/design-bento/src/note-pins.ts:224-242 | Which events close it, and that it stands at all others |
| JsText.TrimExactly | packages/design-bento/src/note-pins.ts:699 | `trim` takes away the white space around a text, all of it, and nothing else |
| NotePins.Canvas.Read | packages/design-bento/src/note-pins.ts:706-711 | Prunes, then the list of the written pins, field by field, or an error exactly on another epoch; the object remembers what it handed out |
| NotePins.Canvas.Handle | packages/design-bento/src/note-pins.ts:173-856 | Whatever events the object has carried out: the pins, the epoch, the mode and the publisher follow the events; at most ten notes, one publish on its way, epochs in order, a quiet publisher has delivered, and a settled draft clears exactly the notes every earlier read of its epoch handed out |
| AutosaveResults.CleanMeansStored | packages/design-bento/src/product-session.ts:407 | An editor that is not dirty shows exactly the document stored under its revision |
| AutosaveResults.OneSaveOnTheAcknowledgedRevision | packages/design-bento/src/product-session.ts:458-489 | At most one save is in flight, the last one sent, on the acknowledged revision; `savedSeq <= editSeq` |
| AutosaveResults.SendsOnlyWhenIdle | packages/design-bento/src/product-session.ts:508-513 | A request leaves only when none is in flight or the one in flight was just acknowledged |
| AutosaveResults.SavesNeverOverwrite | packages/design-bento/src/product-session.ts:466-471 | A save that lands, even late, replaces exactly the revision it was based on, and stored revisions never change |
| AutosaveResults.ConflictIsSticky | packages/design-bento/src/product-session.ts:480-506 | After a conflict every run keeps the conflict, sends nothing and acknowledges nothing |
| AutosaveResults.NoEditIsForgotten | packages/design-bento/src/product-session.ts:446-457 | Without conflict, writable and not composing, unsaved edits are in flight or due at the timer |
| AutosaveResults.ResolvedFlushMeansSaved | packages/design-bento/src/product-session.ts:499-521 | When a committing flush resolves in a writable editor, nothing is pending or composed and the shown document is stored |
| AutosaveResults.StepKeepsInv | packages/design-bento/src/product-session.ts:446-553 | Every event keeps the invariant |
| AutosaveByEvents.ConflictEndsSaving | packages/design-bento/src/product-session.ts:480-506 | From a save that fails with a conflict on, every run keeps the conflict, the sent requests and the acknowledged edit, with the timer off and no flush resolving |
| AutosaveByEvents.OtherFailuresTryAgain | packages/design-bento/src/product-session.ts:480-497 | Any other failure leaves no conflict and re-arms the timer of a writable editor |
| AutosaveByEvents.FlagsFollowEvents | packages/design-bento/src/product-session.ts:480-553 | Over every run: there is a conflict exactly if some save has failed with one, and the editor is read-only as last set |
| AutosaveByEvents.StepIsTold | packages/design-bento/src/product-session.ts:446-553 | Every event does to the editor and to what is saved what a description field by field says of it |
| AutosaveByEvents.FlushSaves | packages/design-bento/src/product-session.ts:499-521 | A committing flush that nobody interferes with stores what is shown, typed text included, and resolves |
| AutosaveByEvents.FlushComesTo | packages/design-bento/src/product-session.ts:499-521 | A flush throws while composing or in conflict, resolves when nothing is unsaved, joins the save in flight, or sends one |
| AutosaveByEvents.AcknowledgementsGoOn | packages/design-bento/src/product-session.ts:507-519 | After an acknowledgement with nothing else unsaved every waiting flush resolves; with something unsaved they wait for the next save |
| AutosaveByEvents.StoreIsCompareAndSet | packages/design-bento/src/product-session.ts:466-471 | The store takes a save exactly when its base is still the newest revision, under a new one |
| ProductSession.Session.Rebase | packages/design-bento/src/product-session.ts:817-820 | Only from the expected revision and with no save in flight |
| ProductSession.Session.Handle | packages/design-bento/src/product-session.ts:446-553 | Whatever events the object has carried out: clean means stored, one save on the acknowledged revision, stored content never changes, a conflict is there exactly after a save that failed with one and ends saving, other failures try again, no edit is forgotten, and a resolved committing flush has saved |
| RunJournal.ExecutedAtMostOnce | packages/harness-pi/src/run-journal.ts:39-52 | Over any prompts, crashes and restarts no run id reaches the session twice |
| RunJournal.RecordsOnlyAdvance | packages/harness-pi/src/run-journal.ts:39-76 | Records move absent, partial, dispatched, settled; a settled one is never rewritten |
| RunJournal.OnlyTheOwnerSettles | packages/harness-pi/src/host.ts:349-361 | A record becomes settled only by the prompt that created it, with its run, epoch and outcome |
| RunJournal.LeftoverForbidsReplay | packages/harness-pi/src/run-journal.ts:42-46 | A record a crash left behind, even a partial one, forbids its run for good |
| RunJournal.SettledAsReported | packages/harness-pi/src/host.ts:349-361 | Along any run a record that becomes settled carries the outcome a worker of its epoch reported for its run |
| RunJournal.ReportIsSettled | packages/harness-pi/src/host.ts:349-361 | What a worker reports of the run it executes is settled, if nothing fails, and the worker goes on |
| RunJournal.NewRunIsExecuted | packages/harness-pi/src/host.ts:328-349 | A worker that is started, or replaced after a crash, executes a run without a record, if nothing fails |
| RunJournal.RetiredTakesNothing | packages/harness-pi/src/host.ts:328-383 | A worker whose prompt has thrown takes no further one |
| RunJournal.StepKeepsInv | packages/harness-pi/src/host.ts:328-383 | Every step keeps record and owner in agreement |
| RunJournal.Journal.Begin | packages/harness-pi/src/run-journal.ts:39-52 | Succeeds only for an absent record; a file once created stays |
| RunJournal.Journal.Settle | packages/harness-pi/src/run-journal.ts:56-76 | Replaces a dispatched record of the same epoch in one rename, or not at all |
| RunJournal.BeginIsAdvance | packages/harness-pi/src/run-journal.ts:39-52 | What the method does to the directory is what the steps of a worker do, for every fault; the run is executed exactly when it succeeds |
| RunJournal.SettleIsAdvance | packages/harness-pi/src/run-journal.ts:56-76 | What the method does to the directory is what the steps of a worker do, for every fault; the worker stays in service exactly when it succeeds |
| Dialogs.SettledPromptLeavesNoDialog | packages/harness-pi/src/session.ts:353-372 | Once a prompt has settled every dialog opened in it is retired or failed and out of the map; all are retired if it returned |
| Dialogs.NoDialogAfterAbort | packages/harness-pi/src/extension-ui.ts:23-45 | Along any run a dialog opens only before disposal, outside a prompt only without a host, and otherwise under the present or a later prompt that is not aborted |
| Dialogs.AbortedRunOpensNothing | packages/harness-pi/src/session.ts:358-361 | From its abort on, a run opens no further dialog |
| Dialogs.AnswerIsEarned | packages/harness-pi/src/extension-ui.ts:77-99 | An answer reaches the extension only unaborted, after a successful dismissal, and if it was offered |
| Dialogs.StepKeepsInv | packages/harness-pi/src/session.ts:69-372 | Every step keeps map, promises and runs in agreement |
| DialogResults.ResultFollowsEvents | packages/harness-pi/src/extension-ui.ts:60-100 | Over every run the result of a call is the one its events tell: an answer is the text the peer submitted for it, one that was offered, with its dialog dismissed; a failed dismissal throws; without an abort the result is what the reply means |
| DialogResults.TheChosenAnswerArrives | packages/harness-pi/src/extension-ui.ts:77-99 | An offered text that the user submits reaches the extension if nothing aborts the call and its dialog is dismissed; no other text ever does |
| DialogResults.NoAnswerAfterAbort | packages/harness-pi/src/extension-ui.ts:77-99 | From its abort on, a call never gets an answer |
| DialogResults.DialogOpensExactly | packages/harness-pi/src/extension-ui.ts:23-46 | A question gets a dialog exactly when it is put where it may be, is proper in every text and limit, is not over already, and can be shown; otherwise the call throws or comes to nothing |
| DialogResults.CallGoesOnExactly | packages/harness-pi/src/extension-ui.ts:51-99 | A call leaves each of its awaits exactly at the event it waits for |
| DialogResults.PromptSettlesExactly | packages/harness-pi/src/session.ts:358-372 | A prompt that has finished can settle exactly when every dialog that was open then has been dismissed |
| DialogResults.PromptThrowsExactly | packages/harness-pi/src/session.ts:358-372 | A prompt throws exactly when its body did or some dismissal has failed so far |
| DialogSession.PiAcpSession.Handle | packages/harness-pi/src/session.ts:69-372 | Whatever events the object has carried out: no dialog of a settled prompt is left, a new dialog belongs to a prompt that is not aborted, every result is the one the events tell, so an answer is the text the user chose, and a prompt throws exactly when its body did or a dismissal failed |
| ControlPipeResults.PacketsOfTheStream | packages/harness-pi/src/private-control-pipe.ts:10-33 | While open, what readers got and what is queued is the packet sequence of the whole stream; the buffer is its unterminated tail |
| ControlPipeResults.ChunkingDoesNotMatter | packages/harness-pi/src/private-control-pipe.ts:13-29 | The same bytes cut and read differently give the same values |
| ControlPipeResults.ReadersGetAPrefix | packages/harness-pi/src/private-control-pipe.ts:10-55 | Open or closed, readers only ever got a prefix of the packets; a waiter only without a queue, at most 8 queued |
| ControlPipeResults.NothingAfterClose | packages/harness-pi/src/private-control-pipe.ts:37-65 | A closed pipe stays as it is |
| ControlPipeResults.FramedAppend | packages/harness-pi/src/private-control-pipe.ts:13-20 | Framing a stream and then more of it is framing both |
| ControlPipeResults.ChunkIsReceived | packages/harness-pi/src/private-control-pipe.ts:10-33 | After any run a chunk closes an open pipe exactly on more than a mebibyte unread, a packet that does not parse, or a queue beyond eight; otherwise its packets are handed over and queued in order |
| ControlPipeResults.ReaderIsTold | packages/harness-pi/src/private-control-pipe.ts:37-55 | A reader is refused exactly when the pipe is closed or its call aborted; otherwise it gets the first packet of the stream that nobody has read, or waits for it, or is refused beside another waiter |
| ControlPipe.PrivateControlPipe.OnData | packages/harness-pi/src/private-control-pipe.ts:10-33 | The buffer in place against the framing of tail and chunk, with both limits |
| ControlPipe.PrivateControlPipe.TakePacket | packages/harness-pi/src/private-control-pipe.ts:16-29 | One packet: parsed, wiped, handed to the waiter or the queue |
| ControlPipe.PrivateControlPipe.Consume | packages/harness-pi/src/private-control-pipe.ts:19-20 | Wiping a packet does not touch what follows it |
| ControlPipe.PrivateControlPipe.ReadNext | packages/harness-pi/src/private-control-pipe.ts:37-55 | Queue first, one waiter at most, nothing when closed |
| ControlPipe.PrivateControlPipe.CloseNow | packages/harness-pi/src/private-control-pipe.ts:56-65 | Buffer wiped, queue and waiter gone |
| PosixCommandLine.FormatIsUndone | packages/cli-supervisor/src/command-display.ts:1-19 | For every command and argument list the shell tokenization of the line (XCU 2.2 and 2.3) is that argv |
| WindowsCommandLine.ArgumentsAreRead | packages/cli-supervisor/src/command-display.ts:5-7 | For every argument list the C runtime rules read the quoted arguments back, backslash runs included |
| WindowsCommandLine.ArgumentsSurviveExactly | packages/cli-supervisor/src/command-display.ts:9-19 | Every argument list survives behind a command if and only if the quotes in the command are paired without a blank between a closing and the next opening one |
| WindowsCommandLine.ArgvSurvivesExactly | packages/cli-supervisor/src/command-display.ts:9-19 | The whole argv survives if and only if the command holds no quote and does not end in a backslash |
| WindowsCommandLine.EscapedIsBoth | packages/cli-supervisor/src/command-display.ts:6 | The two replacements are one left-to-right escaping |
| ArtworkMapper.Mapper.MapArtworkAssets | packages/design-authoring/src/canvas-format.ts:56-110 | The nested traversal in place, visit by visit in source order, stopping where the callback throws |
| ArtworkMapper.Mapper.RewriteSource | packages/design-authoring/src/canvas-format.ts:61-65 | The original source of an object is mapped on every visit |
| ArtworkMapper.Mapper.VisitElement | packages/design-authoring/src/canvas-format.ts:80-108 | The asset places of one element |
| ArtworkAliasing.RewriteIsTreeMapExactly | packages/design-authoring/src/canvas-format.ts:56-110 | On a shared graph the rewrite equals the pure tree map if and only if no renamed object also stands where no asset is looked for |
| ArtworkAliasing.CallbackSeesTheTree | packages/design-authoring/src/semantic-assets.ts:13-17 | The callback sees the asset places of the tree, each with its original source, in order; it stops early exactly when it throws |
| ArtworkAliasing.SharingCanShowThrough | packages/design-authoring/src/canvas-format.ts:60-68 | A concrete shared background for which the rewrite is not the tree map |
| ArtworkAliasing.AgreeingRewrites | packages/design-authoring/src/canvas-format.ts:56-110 | On every graph, two callbacks that do not throw and agree on the source of every call make the same rewrite |
| ArtworkAliasing.TreeMapExactlyWhenSeparate | packages/design-authoring/src/canvas-format.ts:56-110 | A rewrite that changes every asset source is the tree map if and only if no object stands both at an asset place and at another |
| ArtworkAliasing.RestoredExactlyWhenSeparate | packages/design-authoring/src/canvas-format.ts:56-110 | On every graph, undoing a rewrite on the tree a reader sees restores it if and only if no object stands both at an asset place and at another |
| ArtworkTree.EqualExactlyWhenAgreeing | packages/design-authoring/src/canvas-format.ts:56-110 | Two mappings make the same artwork exactly when they agree on every place |
| Authoring.IntakeAuthoring | packages/design-authoring/src/intake.ts:76-126 | For every parsed graph, shared objects included: accepts exactly what the validator accepts, never answers `unsupported`, and returns the document the validator saw with exactly the referenced bytes |
| Authoring.ValidatorAcceptsOnlyImportable | packages/design-authoring/src/canvas-format.ts:430-489 | What the validator accepts the importer accepts, with the document the validator saw, whatever objects the artwork shares |
| Authoring.AcceptedIsTreeMapExactly | packages/design-authoring/src/canvas-format.ts:430-465 | What an accepted artwork becomes is its tree with every asset renamed if and only if no object stands both at an asset place and at another |
| Authoring.ExportAuthoring | packages/design-authoring/src/canvas-format.ts:501-528 | The files of a stored document, through the rewrite of its sections, cloned one by one, or an error exactly on an invalid document or a missing, corrupt or refused asset |
| Authoring.ContentIsExported | packages/design-authoring/src/canvas-format.ts:506-513 | Cloning fonts, background and elements separately changes nothing that a reader of the document sees |
| Authoring.ExportThenIntake | packages/design-authoring/src/canvas-format.ts:501-528 | Export then intake gives exactly the bytes the document refers to, and the document itself, omitted stacking positions filled, if and only if no object of its elements stands both at an asset place and at another place among them |
| Authoring.SharingAcrossComesBack | packages/design-authoring/src/canvas-format.ts:506-513 | A document whose fonts, background and elements share objects only with each other, and not inside the elements, comes back |
| Authoring.SharingInsideIsChanged | packages/design-authoring/src/canvas-format.ts:512 | A document does not come back when one object of its elements is an asset at one place and stands at another where none is looked for |
| Authoring.ExportIsBoundBack | packages/design-authoring/src/canvas-format.ts:507-525 | Binding the exported references restores the document under the same condition on its elements, and only under it |
| AuthoringResults.AcceptsExactly | packages/design-authoring/src/canvas-format.ts:430-456 | The validator accepts exactly when the fields are right, every reference is `media/` and one proper name of a file that is there and may be used so, and the bound document is valid |
| AuthoringResults.CallsExactly | packages/design-authoring/src/canvas-format.ts:56-110 | The references looked at are those of the places where an asset stands: every font, elements of kind image, and whatever of type image fills or paints |
| AuthoringResults.AcceptedRefs | packages/design-authoring/src/canvas-format.ts:432-452 | In what is accepted every reference has become `asset:` and the digest of the bytes it named |
| AuthoringResults.CanExportExactly | packages/design-authoring/src/canvas-format.ts:513-524 | A document is exported exactly when it is valid and every reference is `asset:` and a digest of stored, matching, usable bytes |
| AuthoringResults.ExportedFilesExactly | packages/design-authoring/src/canvas-format.ts:512-527 | The files are the printed artwork and one file of its bytes for every asset referred to, and no others |
| AuthoringResults.PrintedRefs | packages/design-authoring/src/canvas-format.ts:513-525 | What is printed refers to those files in place of the assets |
| AuthoringDigest.EncodeIsInjective | packages/design-authoring/src/collect-authoring.ts:149-158 | Streams of path, NUL, size, NUL, bytes determine the list of files |
| AuthoringDigest.DecodeInvertsEncode | packages/design-authoring/src/collect-authoring.ts:149-158 | A decoder for the stream, names in UTF-8 included |
| Utf8.ReadInvertsWrite | packages/design-authoring/src/collect-authoring.ts:149 | A path is hashed as UTF-8 (RFC 3629): every string without half surrogate pairs is read back |
| Utf8.WriteExactly | packages/design-authoring/src/collect-authoring.ts:149 | Every string is written as RFC 3629 says, half surrogate pairs as U+FFFD |
| AuthoringDigest.DigestIgnoresListingOrder | packages/design-authoring/src/collect-authoring.ts:244-289 | The stream does not depend on directory enumeration order |
| AuthoringDigest.DigestDeterminesTheFiles | packages/design-authoring/src/collect-authoring.ts:75-80 | Two directories feed the hash the same bytes exactly when they hold the same collected files |
| AuthoringDigest.HashFile | packages/design-authoring/src/collect-authoring.ts:106-169 | Succeeds exactly on an unlinked regular file of the size first seen, and has then hashed all its bytes once, whatever the reads return |
| AuthoringDigest.HashSub | packages/design-authoring/src/collect-authoring.ts:234-282 | The entries of a directory in the order of their UTF-16 units, or an error |
| AuthoringDigest.DigestAuthoring | packages/design-authoring/src/collect-authoring.ts:82-293 | The whole scan against the collected files |
| AuthoringScan.CollectedExactly | packages/design-authoring/src/collect-authoring.ts:82-293 | The scan succeeds exactly on a directory with a regular design, no leftover, regular media, and no page but the canvas; what is hashed is the design, the media in the order of their names and the canvas, each with its path and bytes |
| AuthoringScan.AtMostExactly | packages/design-authoring/src/collect-authoring.ts:244-246 | The order of names is that of the first UTF-16 unit in which they differ |
| AuthoringDigest.SortedIsUnique | packages/design-authoring/src/collect-authoring.ts:244-246 | A sorted listing is determined by its names |
| TheilSen.MedianExactly | e2e/src/support/resource-probe.ts:214-219 | The median is the value in the middle, or halfway between the two in the middle |
| TheilSen.MedianIsRobust | e2e/src/support/resource-probe.ts:214-219 | The median lies in every interval that holds more than half of the values |
| TheilSen.BetweenCleanSlopes | e2e/src/support/resource-probe.ts:221-229 | With more than half of the slopes from clean points the result lies between the least and the greatest clean slope |
| TheilSen.ResistsOutliers | e2e/src/scout/scout-analysis.ts:218-238 | It does so as soon as the clean points make more than half of all pairs of points |
| TheilSen.PlainResistsOutliers | e2e/src/support/resource-probe.ts:221-229 | The plain version is robust in the same way, at 0, 1, 2, ... |
| TheilSen.ExactOnAffineData | e2e/src/scout/scout-analysis.ts:218-238 | Exact on affine data at any coordinates |
| TheilSen.NonnegativeOnNondecreasingData | e2e/src/support/resource-probe.ts:221-229 | No negative slope on data that never falls |
| TheilSen.TheilSenSlope | e2e/src/support/resource-probe.ts:221-229 | The nested loops compute the median of all slopes at coordinates 0, 1, 2, ... |
| TheilSen.TheilSenSlopeAtIterations | e2e/src/scout/scout-analysis.ts:218-238 | The same median at given coordinates; lengths must agree |
| TheilSen.BothSlopes | e2e/src/scout/scout-analysis.ts:218-238 | At 0, 1, 2, ... the two versions agree |
| ProcessTree.SelectPids | e2e/src/support/resource-probe.ts:93-103 | The sweep terminates with exactly the processes reachable from the root by parent links |
| ProcessTree.SelectProcessTree | e2e/src/support/resource-probe.ts:89-111 | Exactly the rows of reachable processes, as often as the table lists them, ordered by pid, rows of one pid in the order of the table |
| ProcessTree.RowOrderDoesNotMatter | e2e/src/support/resource-probe.ts:89-103 | Row order does not change what is reachable |
| MermaidGuard.ReachesMermaid | packages/components/vite-mermaid-lazy-boundary-guard.ts:27-39 | The worklist search terminates and succeeds exactly when a chain of static imports leads to a mermaid chunk |
| MermaidGuard.Check | packages/components/vite-mermaid-lazy-boundary-guard.ts:11-48 | Fails on a missing mermaid chunk, else names exactly the entries that reach one |
| MermaidGuard.OffendsExactly | packages/components/vite-mermaid-lazy-boundary-guard.ts:11-39 | An entry is named exactly when a route of static imports, each of the last chunk with the name, leads from it to a chunk called mermaid-deps |
| ImageRetention.RetainRecentToolImages | packages/harness-pi/src/image-retention.ts:40-76 | Up to eight tool images are left alone; beyond, the shared counter replaces exactly the first k in conversation order and nothing else |
| ImageRetention.KeepsFourToSeven | packages/harness-pi/src/image-retention.ts:49-51 | Of more than eight images four to seven are kept |
| ImageRetention.CollapsesInBatches | packages/harness-pi/src/image-retention.ts:50-51 | k is a multiple of four and never decreases as messages are appended |
| ImageRetention.KeptImagesAreTheLast | packages/harness-pi/src/image-retention.ts:59-65 | What stands behind a kept image is kept |
| ImageRetention.ReplacedTells | packages/harness-pi/src/image-retention.ts:52-73 | What stands for a replaced image tells of it and of the last call with its id; every other block is as it was |
| ImageRetention.RankIsOrder | packages/harness-pi/src/image-retention.ts:59-65 | The counter numbers images in conversation order, below their total |

## Left out

- Supervisor: published states, phases, messages, back-off delays and their jitter; abort signals appear as the change of generation that raises them; fields are grouped into records.
- Process lock and session writer: modelled on values, one map of calls beside the shared directory; the staging directory, durability and Windows rename behaviour are left out, and a probe never reports a live process as exited.
- Run journal: record files hold what the protocol reads; hashing of run ids is any function, and two ids on one path refuse the second.
- Host: personal memory, titles, model checks and what a session does with a run.
- Note pins: drawing, pointer geometry, tools and popups; pins are values with an identity, coordinates are rounded by a function of the page, and a waiting flush may go on at any moment after a publish.
- Autosave: every change of the document is taken to end in `changed`; status texts and selection reports.
- AutosaveModel.Rebase: a rebase is taken to announce a revision of equal content, as the rename that triggers it promises.
- RunJournal.BeginIsAdvance: relates the methods to steps taken without interruption; that other workers may act in between is what the machine and its results are for.
- Dialogs: the peer's protocol and time limits; a deadline is an abort that may come at any time.
- Control pipe: UTF-8 and JSON parsing are one function from bytes to a value or an error.
- Artwork: `structuredClone` itself; the kernel behind `assertProjectionDocument`, asset sniffing, the field checks of `validateYaml`, the router of other inputs, YAML and SHA-256 are functions without assumptions, except that YAML gives back what it was given, without sharing, where a round trip is stated; the checks see what an artwork contains and not which of its objects are shared.
- Authoring.IntakeAuthoring: takes references in order of first use instead of sorted, because the results are unordered maps; diagnostics are left out.
- Authoring digest: links, file identity checks and the collecting variants without a hash are reduced to what they accept.
- Theil-Sen: real arithmetic instead of floating point; `summarizeTrend` and the growth flag only read its result.
- Process tree: the classification of a command line is any function.
- Mermaid guard: the check of the text of `index.html`.
- Image retention: the wording of the placeholder; how `imageDimensions` reads headers.
- Image sampling, image regions, personal memory, retry delays: bounded loops and arithmetic with only local claims.
- Migration, native sessions, tool history, product boundary, overlays, user interface, build configuration and end-to-end drivers: wiring without a property of this kind.
