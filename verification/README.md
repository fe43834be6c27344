# Sacrysty, verified

A Dafny model of the parts of Sacrysty where several steps, processes or formats have to
agree, and proofs of what they are there for. `dafny verify dfyconfig.toml` checks all of it.

| part | files | main result |
|---|---|---|
| owned process groups | `Kernel`, `ProcessGroups` | against every kernel, a normal return means reaped and truly empty; signals go out in order, before the reap, within the time bounds |
| evidence helper | `Captures`, `EvidenceProcess` | receipt and status tell the truth at every moment, interruption of the cleanup included; a captured file is an intact prefix exactly when no exception cut the capture of a chunk short; a status is written only after both streams were captured to their ends, and stands beside files complete on the disk exactly when both closes succeeded or the buffers were empty |
| receipt chain | `ReceiptChain`, `ReceiptSafety`, `ReceiptCancellation`, `ReceiptRetention`, `ReceiptRuns`, `HelperRefinement` | in every interleaving, storage is deleted only when every group is empty, if and only if status 125 means "never ran"; a cancellation reaches the probe that runs, and a lost runner is never taken for a finished one |
| custody adapter | `CallerSignals`, `HandlerEpisode`, `CustodyAnswer`, `Custody` | for every placement of signals: cancellation after cleanup, a plaintext only from a complete and matching answer; the exact condition under which the caller's mask and handlers come back |
| envelope schema | `JsonValues`, `SchemaAudit`, `SchemaMatch`, `SchemaMeaning`, `SchemaTheorems`, `SchemaCycles`, `SchemaAccepts`, `JsonPointer`, `SchemaStandard`, `Envelope`, `EnvelopeSchema` | the audit accepts exactly the schemas of supported keywords without a cycle, the checked-in one among them; an audited schema makes a recursion without a visited set total; it agrees with JSON Schema 2020-12 exactly where no reference contains an escape; the path test finds exactly the cycles |
| strict decoding | `StrictJson` | decodes exactly the trees without a repeated name and with exact numbers, what it returns reads back as the tree, and an error is the first fault the parser comes to |
| plugin stanzas | `Base64`, `Base64Table`, `Stanzas`, `StanzaStreams` | reading inverts writing, arguments included, exactly for plain fields within the budgets |
| source inventory | `Inventory` | acceptance is a bijection between entries and changed paths; the last count check follows |

`Basics` and `Texts` hold small facts that several parts use.

How the code is represented:

- Code that changes state step by step is a class or a method with loops. The kernel behind
  `os.killpg`, `os.waitid`, `Popen` and the clock is the class `Kernel.Process`; its answers are
  nondeterministic and limited only by what POSIX promises: ESRCH means that the group is empty, and an empty
  group stays empty. `Popen.wait` returns early, on time or never; `Popen.kill` polls first. Somebody else may
  reap the leader at any moment (`stolen`); a wait then reports status 0, as CPython's does, or raises, as the
  code also expects. Ticks of the clock are microseconds.
- Time that nobody asked for (a slow system call, a late wake-up) is counted in `excess`; the time bounds are
  about the rest, `Idle()`, as the code itself can promise no more.
- The shells and helpers of the receipt chain run concurrently and share only files and signals, so they are a
  transition system: `ReceiptChain.Run` takes any interleaving of their atomic steps.
- Exceptions are values: `Outcome`, `Effect`, `Exchange`, `Exit`, `Result`, or None where the code has one exception
  for every refusal.
- The schema matcher carries `fuel` only because it need not terminate: `MatchMonotone` shows that a larger bound never changes
  an answer, `AuditedMatcher` that audited schemas need no bound, `CycleDiverges` that others may.
- Regular expressions, SHA-256, hexadecimal conversion, `decimal`, UTF-8, the JSON parser and Git are parameters of
  the theorems. Two laws are asked of them: `str` writes of a decimal what `Decimal` reads as the same decimal
  (`StrictJson.Faithful`), and a character takes at least one octet (`JsonPointer.Compact`).

Where a promise fails, the model keeps the code, gives the input and proves the exact condition:

- **Captured files are prefixes.** `os.read`, `write` and the count are three steps; the handler of SIGTERM or SIGINT
  may raise between them, and the write itself may fail. The chunk is then lost, cut or uncounted, and the final drain
  can append behind the hole (`Captures.TornFile`) or beyond the limit (`Captures.OverfullFile`). A file is intact if and
  only if no exception was raised inside the capture of a chunk that began within the limit (`Captures.IntactIff`). A
  status still implies streams captured to their ends, because such an exception ends the supervision before it.
- **A status stands beside complete files.** The captured files are buffered and closed only after the status is on the
  disk. Killed or interrupted between the two, the helper leaves a status beside a file that is short, or empty
  (`Captures.BufferedFile`), and so does a close that fails. The files are complete on the disk if and only if both closes
  succeeded or nothing was left in either buffer (`Captures.OnDiskIff`), which before the closes only the last
  write of each can have brought about (`Captures.OnDiskBeforeClose`); a normal return of `run_process` implies it.
- **`unwrap` restores mask and handlers on every exit.** A signal caught just before the first `pthread_sigmask` lets the
  caller's handler raise out of that call: the mask has changed, `previous_signal_mask` is None, and nothing is
  restored (`HandlerEpisode.EntryStaysBlocked`). A handler installed from C, for which `getsignal` answers None, is
  replaced, and `signal.signal` raises when it is to be put back: the adapter's handler and the blocked mask stay
  (`ForeignStaysReplaced`). Beyond that, only a signal that another thread takes can interrupt (`MaskStaysBlocked`,
  `HandlerStaysBehind`, `HandlerIsForgotten`). `HandlerEpisode.RestoresIff` states, for every state of the caller, when
  all comes back: `HandlerEpisode.Safe`.
- **The matcher follows `$ref` as JSON Schema does.** The code takes the text behind `#/$defs/` literally; the standard
  reads a percent-encoded JSON Pointer. `SchemaStandard.EscapedReferenceMisleads` is an accepted schema with a wrong
  answer, and `SchemaStandard.AgreesIff` says that agreement on all audited schemas and values holds exactly for
  definition names without `~` and `%`.
- **Deletion is safe.** It rests on the reading of status 125 (`ReceiptRuns.DeletionIsSafeIff`). The run that breaks it
  belongs to a hypothetical runner: every path of `conformance/run-sq.sh` that could carry 125 goes through
  `sq_evidence_exit_runner`, which exits with 1 when the active receipt cannot be consumed
  (`conformance/sq-evidence-lib.sh:220-243`).
- `INNER_CLEANUP_SECONDS` covers a cleanup whose first wait for the leader does not run out; otherwise one
  more second is possible. `TerminateAndReap` states both bounds.
- A receipt means absence, and absence does not mean a receipt: an overflow in the final drain raises first
  (`conformance/sq_evidence_process.py:539-545`).

## Model

| member | source | states |
|---|---|---|
| ProcessGroups.LeaderExitedUnreaped | sacrysty_runtime/process_groups.py:40-57 | looks once, never reaps, and never looks when the handle has a return code; each answer of the kernel has its own outcome |
| ProcessGroups.WaitForGroupAbsence | sacrysty_runtime/process_groups.py:88-111 | the outcome is what the last probe says: absence by ESRCH, denial by EPERM, time-out by presence; a hard error ends it at once; indefinite answers end it only at the deadline, and before it only they are passed over; between two looks it pauses ten milliseconds, or up to the deadline; it terminates |
| ProcessGroups.ReapLeader | sacrysty_runtime/process_groups.py:114-120 | one wait; normal exactly when there is a return code |
| ProcessGroups.FailAfterGroupSignalError | sacrysty_runtime/process_groups.py:123-145 | kill, then wait; the group's error is raised only when the leader is reaped, the leader's failures outrank it |
| ProcessGroups.AfterFailedSignal | sacrysty_runtime/process_groups.py:159-184 | no further group signal; an exited leader is reaped and never killed, and success needs a definite absence; a running one, or any other errno, means kill and wait, and the group's error |
| ProcessGroups.ReapThenWait | sacrysty_runtime/process_groups.py:165-178 | reap before any probe, nothing sent |
| ProcessGroups.SignalOwnedGroup | sacrysty_runtime/process_groups.py:148-185 | goes on exactly when the signal reached the group; otherwise the cleanup is over, settled |
| ProcessGroups.SendSteps | sacrysty_runtime/process_groups.py:208-222 | the signals sent are an in-order prefix of the steps, each but the last delivered, each grace over before the next signal |
| ProcessGroups.ReapAndConfirm | sacrysty_runtime/process_groups.py:224-239 | wait, and only if that fails kill and wait again, then absence; a leader window more only if the first wait timed out |
| ProcessGroups.SignalAndReap | sacrysty_runtime/process_groups.py:208-239 | the steps in order up to one that failed, then the reap and the wait for absence, settled in every case |
| ProcessGroups.TerminateAndReap | sacrysty_runtime/process_groups.py:188-239 | over every kernel: Cleaned means reaped and the group empty, by an ESRCH that the log places after the reap; signals an in-order prefix of the steps; no nonzero signal, group or leader, after the reap, and none to a stranger unless the leader was stolen; ends within graces + 2 leader windows + absence window, one leader window less without a time-out; no grace is spent on a leader that had exited |
| ProcessGroups.SentAppend | sacrysty_runtime/process_groups.py:208-215 | the signals of two stretches of calls are those of the first, then those of the second |
| Captures.CaptureKeeps | conformance/sq_evidence_process.py:354-365 | one chunk, cut short anywhere, inside the write too, or not at all: the file stays an in-order selection of what was delivered, the count at most the limit, and the file intact unless the cut came while it had room |
| Captures.IntactIffUntorn | conformance/sq_evidence_process.py:354-365 | an intact file is the prefix of its stream, all of it at the end of a stream within the limit, and what is on the disk is a prefix of that |
| Captures.IntactIff | conformance/sq_evidence_process.py:341-369 | for every stream, every run of captures and every placement of flushes: the file is the delivered prefix, rightly counted, if and only if no exception was raised inside the capture of a chunk that began within the limit |
| Captures.TornFile | conformance/sq_evidence_process.py:354-365 | the run whose file is no prefix: a chunk read, the handler raises, the drain appends the next |
| Captures.OverfullFile | conformance/sq_evidence_process.py:362-365 | the run whose file exceeds the limit by the uncounted byte |
| Captures.OnDiskIff | conformance/sq_evidence_process.py:564-565 | for all files captured to their ends and however far the two closes come: both streams are complete on the disk if and only if both closes succeeded or nothing is left in either buffer |
| Captures.OnDiskBeforeClose | conformance/sq_evidence_process.py:362-367 | for every stream captured to its end, in whatever chunks and with whatever flushes: before the close it is complete on the disk if and only if the capture of its last chunk flushed all of it |
| Captures.BufferedFile | conformance/sq_evidence_process.py:518-565 | the run whose file is empty beside a status: an output that one read takes and the buffer holds, and a helper killed before the closes |
| EvidenceProcess.Execution.WriteChunk | conformance/sq_evidence_process.py:364 | the write takes all the file has room for, or raises with a part of it taken; it may flush anything |
| EvidenceProcess.Execution.CaptureChunk | conformance/sq_evidence_process.py:354-368 | the three steps, with a signal between any two and a write or flush that may fail, are one `Capture` cut where the exception came; a normal return means uncut and within the limit |
| EvidenceProcess.Execution.CaptureReadyStreams | conformance/sq_evidence_process.py:341-369 | both files keep to their streams; after a normal return intact files are still intact and no byte was beyond the limit |
| EvidenceProcess.Execution.TerminateProcess | conformance/sq_evidence_process.py:218-234 | a normal return means absent, after SIGTERM to the group and then SIGKILL, unless the first could not be delivered, the mode's grace between the two for a leader that still ran; an exception may cut the cleanup short anywhere |
| EvidenceProcess.Execution.RecordCompletedCleanup | conformance/sq_evidence_process.py:427-437 | refuses before the cleanup; a complete runner receipt is consumed before the process receipt is written, unless the status was 125 |
| EvidenceProcess.Execution.StartProcess | conformance/sq_evidence_process.py:440-485 | a started process is known as started at every later step; with the marker there, none is started |
| EvidenceProcess.Execution.Watch | conformance/sq_evidence_process.py:491-508 | ends normally only with both files complete and intact and the group gone; with the marker there it ends at once; always ends |
| EvidenceProcess.Execution.WriteStatus | conformance/sq_evidence_process.py:518-526 | the status file tells how the process ended: the exit code, or 128 and the number of the signal, never 125; from its creation on the captured files beside it are complete on the disk exactly when nothing is left in the buffers |
| EvidenceProcess.NormalizedReports | conformance/sq_evidence_process.py:237-238 | the normalized status is the one that reports the exit code, or 128 and the signal |
| EvidenceProcess.StatusesDiffer | conformance/sq_evidence_process.py:237-238 | an exit below 128 and an end by a signal never share a status, and 125 is only the exit of that code |
| EvidenceProcess.Execution.Supervise | conformance/sq_evidence_process.py:439-526 | a normal end has written the status |
| EvidenceProcess.Execution.Finalize | conformance/sq_evidence_process.py:527-550 | the original error comes back with a complete receipt exactly when no process was started or it was cleaned up; before that the streams were drained to their ends, for the grace, or until nothing was ready |
| EvidenceProcess.Execution.CloseOutputs | conformance/sq_evidence_process.py:551-565 | the closes in their order, the second never after the first failed, interrupted or killed anywhere; only if both succeeded does the `finally` end normally |
| EvidenceProcess.StatusOnDisk | conformance/sq_evidence_process.py:518-565 | wherever the helper is killed once the status exists: the files are complete on the disk exactly when nothing is left in the buffers |
| EvidenceProcess.Execution.RunProcess | conformance/sq_evidence_process.py:372-565 | whatever is raised wherever: a receipt only without a process or with its group empty and leader reaped, and for a probe that got past its wrapper with the runner receipt consumed; a status only after a complete receipt, with both streams captured to their ends and within the file bound, telling the exit code or 128 and the signal, and beside complete files on the disk if and only if both closes succeeded or the buffers were empty, which a normal return implies; each file intact exactly when none of its captures was cut short; a probe cancelled before starts nothing |
| EvidenceProcess.ProbeGraceOutlastsToolCleanup | conformance/sq_evidence_process.py:33-35 | a tool's cleanup without time-out takes `INNER_CLEANUP_SECONDS`, exactly the margin less than the probe's grace; the limits in microseconds |
| ReceiptSafety.RunKeeps | conformance/sq-evidence-lib.sh:65-250 | the invariant of the chain holds after every interleaving of every number of probes and tools |
| ReceiptSafety.DeletionIsSafe | scripts/check-conformance.sh:30-142 | the result directory is deleted only when every runner group and every tool group ever started is empty and every outer helper has exited, with cancellation and a kill of the runner's group at any step |
| ReceiptSafety.ReceiptsAreTrue | conformance/sq_evidence_process.py:427-437 | in every reachable state, even a half-written tool, runner or process receipt means that its groups are empty |
| ReceiptCancellation.CancellationReaches | scripts/check-conformance.sh:49-70 | in every run: from the end of a launch until the probe is judged, an interrupted aggregate has the marker of that probe written, or has recorded that it could not be |
| ReceiptCancellation.CancelledStartsNothing | conformance/sq_evidence_process.py:440-441 | a probe that had not looked for its marker when the aggregate was interrupted never starts a process, however the run goes on |
| ReceiptCancellation.InterruptedLaunchesNothing | scripts/check-conformance.sh:54-65 | an aggregate interrupted after a launch launches no further probe |
| ReceiptRetention.LostRunnerIsRetained | conformance/sq_evidence_process.py:427-437 | a runner gone without its receipt, and not by its wrapper, is never taken for a finished one: whatever follows, the storage stays |
| ReceiptRetention.KilledRunnerIsRetained | scripts/check-conformance.sh:93-142 | so it is when the group of a working runner is killed, at any moment |
| ReceiptSafety.ShellKeeps | conformance/run-sq.sh:12-60 | the traps, from wherever they are entered, and the steps of the runner shell keep the invariant: it starts no tool while another may live, and writes its receipt only when none may |
| HelperRefinement.RunProcessIsHelper | conformance/sq_evidence_process.py:372-550 | every state that `run_process` can be in is one that the helper of the chain reaches by its own steps |
| HelperRefinement.ForwardIsSteps | conformance/sq_evidence_process.py:372-550 | between any two states of a helper and its tool that are not a step back there is a run of their steps |
| HelperRefinement.RunProcessGoesOn | conformance/sq_evidence_process.py:372-550 | the state after each method of `run_process` is reached from the state before it by steps of the helper of the chain and of its tool |
| HelperRefinement.ReceiptIsOuterHelpers | conformance/sq_evidence_process.py:427-437 | a process receipt of a started probe is one that the outer helper of the chain writes, after the same confirmations |
| ReceiptRuns.OrphanedTool | conformance/sq_evidence_process.py:458-471 | a run in which the inner helper dies and its tool lives on in its own session |
| ReceiptRuns.DeletionHappens | scripts/check-conformance.sh:93-142 | a whole run with a tool ends in deletion: the protocol does not only refuse |
| ReceiptRuns.FinalizerFinishes | conformance/sq-evidence-lib.sh:206-251 | from wherever an error, a signal or its end stops it, a runner whose receipts are accounted for comes to a complete runner receipt; it waits for the active cleanup exactly on the signal's path |
| ReceiptRuns.EndsTwice | conformance/run-sq.sh:12-60 | the EXIT trap after the script's own end leaves the runner receipt as it is |
| ReceiptRuns.CancelledRunEnds | scripts/check-conformance.sh:111-142 | a run with a signal during the wait: woken, it waits again, the probe starts nothing, and the storage is deleted |
| ReceiptRuns.FailureIsRetained | scripts/check-conformance.sh:125-130 | a run whose helper goes without a receipt fails and keeps the storage |
| ReceiptRuns.LeaderIsNotGroup | conformance/sq_evidence_process.py:218-234 | a run in which a process that the leader left behind holds the cleanup up until it is gone |
| ReceiptRuns.UntrustedDeletion | conformance/sq_evidence_process.py:430 | a run, of a hypothetical runner, in which a shell that exits with 125 of its own makes the aggregate delete beside a living tool |
| ReceiptRuns.DeletionIsSafeIff | conformance/sq_evidence_process.py:430 | deletion is safe in every interleaving if and only if status 125 comes from the exec wrapper alone |
| CallerSignals.ArrivalsOnlyRecord | adapters/fido_custody.py:317-329 | any number of signals under the deferring handlers changes nothing but the record, whose first entry stays; blocked without another thread to take them, not even that |
| HandlerEpisode.InstallProceeds | adapters/fido_custody.py:323-329 | the loop replaces exactly the handlers the caller does not ignore, and notes them; alone and blocked nothing interrupts it |
| HandlerEpisode.RestoreProceeds | adapters/fido_custody.py:414-419 | restoration that comes to its end restores all; with both signals blocked, no sibling thread and no handler of None nothing can stop it |
| HandlerEpisode.EntryStaysBlocked | adapters/fido_custody.py:313-315 | the run without other threads in which a caught signal's handler raises out of the first call and both signals stay blocked |
| HandlerEpisode.ForeignStaysReplaced | adapters/fido_custody.py:325-329 | the run, with no other thread and no signal at all, in which a previous handler is None to Python: the deferring handler and the blocked mask stay |
| HandlerEpisode.MaskStaysBlocked | adapters/fido_custody.py:414-419 | the run in which another thread's signal interrupts just before the last mask |
| HandlerEpisode.HandlerStaysBehind | adapters/fido_custody.py:414-417 | the run in which the handler put back first keeps the adapter's in place for the other signal |
| HandlerEpisode.HandlerIsForgotten | adapters/fido_custody.py:327-329 | the run in which a handler is replaced and the replacement never noted |
| HandlerEpisode.SafeRestores | adapters/fido_custody.py:313-419 | where it is safe, the caller's mask and handlers are back whatever arrives, before, during and after, unless a default disposition ends the process |
| HandlerEpisode.RestoresIff | adapters/fido_custody.py:313-419 | for every state of the caller and every signal caught before: restoration in all cases if and only if, where a handler raises out of the first call, the mask was blocked before, and elsewhere Python knows both handlers and no other thread takes a signal, or no handler of the caller can raise, or the mask was blocked and one of the signals ignored |
| Custody.Unwrapping.ServeEvent | adapters/fido_custody.py:204-231 | one event of the pump: written bytes stay a prefix of the input, each buffer the prefix of its stream delivered, never more than one byte over the limit, at least one byte asked for; too large exactly when the stream is, an I/O failure exactly when the call failed, a call that would block is passed over, and any other moves its stream on or ends it |
| Custody.Unwrapping.BoundedCommunicate | adapters/fido_custody.py:159-243 | for every order and chunking: on normal return the whole input was written once and both buffers are the complete streams within the limit; every error says what failed: the call on a pipe, the look at the leader, the time, the size, the cancellation; once a cancellation is recorded no byte goes in or out; it terminates |
| Custody.Unwrapping.InstallHandlers | adapters/fido_custody.py:323-329 | the loop computes `Install`, with whatever arrives at each step |
| Custody.Unwrapping.Begin | adapters/fido_custody.py:313-329 | undisturbed, the deferring handler stands exactly where the caller does not ignore the signal; only another thread can disturb it |
| Custody.Unwrapping.StartWorker | adapters/fido_custody.py:330-378 | no worker is lost between two signals; a cancellation recorded before the mask is set ends the start, and one recorded before it starts no worker; the signals are as `Started` has them |
| Custody.Unwrapping.CleanUp | adapters/fido_custody.py:139-156 | nothing but SIGKILL to the group, within a second and a half; success means the worker is gone |
| Custody.Unwrapping.WindUp | adapters/fido_custody.py:403-419 | a worker still owned is cleaned up unless another thread's signal takes over before, then handlers and mask are treated as `Unwind` has it, a signal arriving before the block included |
| Custody.Unwrapping.PutBack | adapters/fido_custody.py:414-419 | the loop and the last mask compute `Restore`: everything comes back unless another thread's signal interrupts it or a handler is None, at which it raises |
| Custody.Unwrapping.Enter | adapters/fido_custody.py:312-315 | what takes over before the first call returns leaves the handlers, and exactly the mask blocked if a handler raised out of that call |
| Custody.Unwrapping.Attempted | adapters/fido_custody.py:312-419 | the whole `try` and its `finally` keep what `Unwrap` promises, and do to mask and handlers what `FromInstall` says, for some arrivals |
| Custody.Unwrapping.Conclude | adapters/fido_custody.py:408-483 | a failed cleanup comes first, then the first recorded cancellation, to a handler of None as an error; then, for an answered attempt, the plaintext if and only if the status is 0 and the answer vouches for it, and otherwise the first of its faults |
| Custody.Unwrapping.Leave | adapters/fido_custody.py:403-483 | every exit with what it says (`Explained`): what takes over and the TypeError of the restoration come first, then what `Conclude` decides |
| Custody.Unwrapping.Unwrap | adapters/fido_custody.py:299-483 | every exit: what happens to the caller's mask and handlers is an `Episode`, so that they return wherever `RestoresIff` says; where nothing takes over, no cancellation is recorded and the cleanup succeeds, the exit is what the attempt deserves, a plaintext if and only if the worker ended with status 0 and its whole output vouches for it; a previous handler of None ends in a TypeError; the first recorded cancellation propagates only after successful cleanup of an owned worker, to a caller who does not ignore it, and is never lost; a cleanup failure outranks it; a plaintext implies no cancellation, a reaped and empty group and complete bounded streams |
| CustodyAnswer.JudgesExactly | adapters/fido_custody.py:431-483 | an answer is accepted if and only if it has exactly the eight members, status ok, the request's three identities, the digest of the plaintext and known modes |
| CustodyAnswer.RefusesForTheFirst | adapters/fido_custody.py:431-483 | a refused answer is refused for the first, in the order of the checks, of the eight faults that it has |
| SchemaAudit.PushShrinks | conformance/check-domain-model.py:127-145 | following a reference not yet on the path leaves fewer to follow: the audit terminates on cyclic schemas too |
| SchemaMeaning.ExpandTotal | conformance/check-domain-model.py:86-232 | an audited schema stands for a finite tree |
| SchemaMeaning.MatchMeans | conformance/check-domain-model.py:251-306 | at every subschema the audit reached, by whatever path, the matcher answers what the standard's keywords say of the tree that it unfolds to |
| SchemaTheorems.MatchMonotone | conformance/check-domain-model.py:251-306 | a bound on the depth decides whether the matcher ends, never how |
| SchemaTheorems.AuditedMatcher | conformance/check-domain-model.py:86-306 | if the audit accepts, the matcher ends for every JSON value, at none of its raises, with the answer that the standard's keywords give for the unfolded tree |
| SchemaTheorems.CycleDiverges | conformance/check-domain-model.py:254-260 | without the audit any cycle of references, of any length and entered anywhere, keeps the matcher from ending at any depth |
| SchemaTheorems.UntypedPatternDisagrees | conformance/check-domain-model.py:268-271 | on an untyped `pattern` matcher and standard disagree about every value that is not a string; the audit refuses it |
| SchemaTheorems.NumericConstDisagrees | conformance/check-domain-model.py:261-262 | on a numeric `const` Python's `==` and the standard disagree about `true`; the audit refuses it |
| SchemaTheorems.AcceptsReference | conformance/check-domain-model.py:127-145 | schemas with references, of every name without a slash, that the audit accepts |
| SchemaAccepts.AuditsExactly | conformance/check-domain-model.py:86-248 | the audit accepts a schema if and only if at every position, of it, of its subschemas and of what their references reach, every keyword is of the supported form, references resolve, and no references of its definitions form a cycle |
| SchemaAccepts.TypedPatternAccepted | conformance/check-domain-model.py:154-166 | a pattern that compiles, on a string type, is accepted wherever it is |
| EnvelopeSchema.SchemaAccepted | contracts/schemas/public-record-envelope-v1.schema.json:1-35 | the audit accepts the checked-in schema with every library that compiles its patterns |
| EnvelopeSchema.CheckedInAnswers | conformance/check-domain-model.py:354-361 | under it every record is answered, and admitted exactly if it conforms, is owned by its publisher and brings no extension beyond the reader |
| SchemaStandard.DenotesOne | conformance/check-domain-model.py:235-248 | under the standard's resolution a schema denotes at most one tree |
| SchemaStandard.PlainNameAgrees | conformance/check-domain-model.py:235-248 | for a name without escapes the code resolves to what the JSON Pointer points to |
| SchemaStandard.EscapedNameDisagrees | conformance/check-domain-model.py:235-248 | for any other name it resolves to a definition that the pointer does not find |
| SchemaStandard.ExpandDenotes | conformance/check-domain-model.py:86-248 | with plain references only, the code's unfolding is the tree that the standard's resolution denotes |
| SchemaStandard.AuditedAgrees | conformance/check-domain-model.py:86-306 | on an audited schema without escaped references the matcher answers, for every JSON value, what JSON Schema 2020-12 says |
| SchemaStandard.AgreesIff | conformance/check-domain-model.py:86-306 | for every set of names: the matcher agrees with the standard on all audited schemas that refer to no others, for all values, if and only if no name that can be referred to contains `~` or `%` |
| SchemaStandard.EscapedReferenceDisagrees | conformance/check-domain-model.py:235-248 | a family of accepted schemas, one for every escaped name, that the standard gives no meaning |
| SchemaStandard.EscapedReferenceMisleads | conformance/check-domain-model.py:235-248 | an accepted schema and a value that the matcher accepts and the standard refuses |
| SchemaCycles.AcceptedIsAcyclic | conformance/check-domain-model.py:127-145 | no accepted schema has a cycle of references |
| SchemaCycles.RefusalShowsCycle | conformance/check-domain-model.py:133-136 | a refusal for a repeated reference comes with a cycle |
| SchemaCycles.PathTestFindsCycles | conformance/check-domain-model.py:127-248 | among schemas that pass every other check, the path test raises if and only if the definitions refer to each other in a cycle |
| Envelope.ClaimsByLabel | conformance/check-domain-model.py:348-351 | for arbitrary strings, the character test is the prefix relation between dot-separated labels |
| Envelope.OwnedByLabel | conformance/check-domain-model.py:339-351 | a record is admitted if and only if the publisher's labels begin the labels before the first colon |
| Envelope.ExtensionsByMember | conformance/check-domain-model.py:319-336 | extensions are admitted if and only if every one is an object of the supported version and not required |
| Envelope.ClaimsCompose | conformance/check-domain-model.py:348-351 | ownership is transitive |
| Envelope.SharedQualifierNests | conformance/check-domain-model.py:348-351 | two publishers that own one qualifier own one another, one way or the other |
| Envelope.EnvelopeAnswers | conformance/check-domain-model.py:309-361 | with an audited schema every record gets an answer: conforming to the unfolded tree, owned by labels, and every extension an object of version 1.0.0 that is not required; without escaped references that tree is the standard's |
| StrictJson.RepeatIsFirst | sacrysty_runtime/strict_json.py:45-53 | the name reported is that of the first repetition |
| StrictJson.ObjectWithoutDuplicateMembers | sacrysty_runtime/strict_json.py:45-53 | the loop keeps all members in order, or reports the first repeated name |
| StrictJson.DecodeTells | sacrysty_runtime/strict_json.py:70-85 | an error is the first fault that the parser comes to, left to right and inside out; a repeated name is the first that repeats |
| StrictJson.DecodesExactly | sacrysty_runtime/strict_json.py:45-85 | decoding succeeds if and only if no object at any depth repeats a name and every number is finite and representable, and then returns the one value that reads back, as ordered pairs, as the raw tree with its decimals as `str` spells them |
| StrictJson.ReadBackInjective | sacrysty_runtime/strict_json.py:60-67 | no two values read back alike: an `int`, and each decimal with its digits and exponent, stays apart |
| StrictJson.ReadBackDecodes | sacrysty_runtime/strict_json.py:70-85 | what reads back from a value decodes to that value, if and only if it repeats no name |
| StrictJson.LookupHidesNothing | sacrysty_runtime/strict_json.py:45-53 | in a decoded object every member is found under its name |
| Base64.DecodeInverts | docs/research/fido-worker-interfaces/evidence/probe.py:213-226 | decoding inverts padded encoding, for all bytes |
| Base64.LettersAppend | docs/research/fido-worker-interfaces/evidence/probe.py:226-228 | whole groups of three bytes encode on their own |
| Base64Table.LettersOfTheTable | docs/research/fido-worker-interfaces/evidence/probe.py:213-226 | the letters are those of table 1 of RFC 4648, in their order, and no other octet has a value |
| Base64Table.Vectors | docs/research/fido-worker-interfaces/evidence/probe.py:226 | the first test vectors of section 10 of RFC 4648 |
| Stanzas.LinesRead | docs/research/fido-worker-interfaces/evidence/probe.py:209-220 | a written body is read as its exact size if the budget allows, and refused if not |
| Stanzas.ReadInvertsWrite | docs/research/fido-worker-interfaces/evidence/probe.py:199-232 | one stanza is read back, kind, arguments and exact size, if and only if each of them is one plain field and it is within the line and total budgets; exactly its bytes are consumed |
| Stanzas.ReadTells | docs/research/fido-worker-interfaces/evidence/probe.py:199-222 | whatever is read as a stanza begins with the header that its kind and arguments make, and only the end of the input reads as the end |
| Stanzas.SplitsJoined | docs/research/fido-worker-interfaces/evidence/probe.py:206 | splitting inverts joining by single spaces |
| StanzaStreams.CutIsLines | docs/research/fido-worker-interfaces/evidence/probe.py:226-231 | cutting the whole encoding into 64 columns is encoding 48 bytes a line, the last line shorter |
| StanzaStreams.Plugin.ReadStanza | docs/research/fido-worker-interfaces/evidence/probe.py:199-220 | reads what the specification reads, and counts every byte it takes |
| StanzaStreams.Plugin.ReadBody | docs/research/fido-worker-interfaces/evidence/probe.py:209-220 | its loop accumulates the specified size, line by line |
| StanzaStreams.Plugin.WriteStanza | docs/research/fido-worker-interfaces/evidence/probe.py:223-232 | writes header and lines of an ASCII kind, and nothing for another |
| StanzaStreams.Plugin.WriteBody | docs/research/fido-worker-interfaces/evidence/probe.py:226-231 | its loop writes the specified lines for every length |
| StanzaStreams.ConversationReadsBack | docs/research/fido-worker-interfaces/evidence/probe.py:199-232 | a sequence of stanzas with arguments is read back one for one if and only if all fields are plain, all headers fit and all of it fits the total; what follows is left unread |
| Inventory.ChangedPaths | conformance/check-source-inventory.py:132-160 | a set of paths exactly for a list of supported statuses and distinct decodable paths |
| Inventory.GroupEntries | conformance/check-source-inventory.py:194-218 | succeeds exactly when every entry is admissible and no two share an identity; the groups are the entries of each producer |
| Inventory.CheckProducer | conformance/check-source-inventory.py:221-247 | succeeds exactly when the entries of a producer are its changed paths, each as Git has it |
| Inventory.CheckProducers | conformance/check-source-inventory.py:220-247 | the loop succeeds exactly when every producer does, with the total of their changed paths |
| Inventory.CheckInventory | conformance/check-source-inventory.py:186-252 | accepts exactly the inventories that hold in every respect, with the two counts |
| Inventory.EntrySays | conformance/check-source-inventory.py:194-247 | the checks on one entry admit exactly the entries of nine members that say what Git has of a relative path, without a parent step, of a producer: issue, parent, tree, mode, object, length and digest |
| Inventory.ChangedByPairs | conformance/check-source-inventory.py:132-160 | a listing of pairs and its last separator gives the paths of the pairs if each was added, modified or retyped, decodes and comes once, and is refused otherwise |
| Inventory.EntriesAreChanges | conformance/check-source-inventory.py:194-249 | a path is a producer's change if and only if some entry says so, and only one does |
| Inventory.CountFollows | conformance/check-source-inventory.py:249-252 | for any number of producers and entries the changes are as many as the entries, so that the final check fails only where the loader's did |

## Left out

- RunKeeps: the shells are steps of a transition system rather than imperative methods, because they run concurrently; signals inside the aggregate's EXIT trap and an uncatchable death of an outer helper are outside it.
- Unwrap: of the calls that run pending handlers themselves, only those of `pthread_sigmask` are modelled inside the call; elsewhere a handler runs between two steps. A handler of the caller is taken to change no handler and no mask itself; environment, command line and pipe set-up are reduced to success or failure.
- RunProcess: an exception in the middle of a cleanup is any fragment of its calls; "on the disk" means handed to the operating system, as the code never syncs, and what an interpreter flushes of an unclosed file later is not counted; opening the output files, the exec wrapper and the runner's trace are not modelled.
- AgreesIff: only references within one document, as the audited subset has no others; one `Search` serves matcher and standard, so that agreement is up to the dialect of regular expressions (Python's `$` also matches before a final newline, that of ECMA-262 does not); a character that a URI may not contain stands for itself.
- AuditedMatcher: which of several faults the audit names first is not modelled, as all raise one exception; malformed `enum`, `required` or `pattern` values of unaudited schemas raise in the model, and an unhashable `type` is treated as unsupported.
- DecodesExactly: the text of a decimal is not kept by the code, so that `1.0e2` reads back as `1.0E+2`; only documents that are JSON; the order between a syntax error and an earlier duplicate, and Python's limit on the digits of an integer, belong to the parser.
- ReceiptsAreTrue: receipts are indexed by tool, which is what distinct status stems give.
- CheckInventory: the messages of the refusals, reading the file, and cloning the bundle.
- `conformance/run-signing-profile.sh` plays the same role as `conformance/run-sq.sh` and adds no step of its own kind.
- `verified_age` in the evidence probe: a copy loop over short writes.
- `conformance/check-probe-result.py`: a flat list of field checks.
- Diagnostics, runner lifecycle traces, argument parsing and printing.
