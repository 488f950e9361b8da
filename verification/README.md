# Verified model of the vLLM management service

The service downloads models with a host command, deletes them through a quarantine directory,
supervises one vLLM process, authenticates API keys and audits gateway requests. Several
goroutines drive one SQLite database, one filesystem and some child processes. This project
models the parts of it whose correctness depends on every interleaving, every refused commit and
every crash, and proves what they promise.

`dafny verify dfyconfig.toml` checks the whole project.

## How it is built

Each protocol is a step system: a state, a `Step` datatype with one case per indivisible action,
an `Apply` that says when an action is possible and what it does, and a `Run` over any sequence
of steps. Everything the environment decides (a commit that is refused, a probe that answers, a
process that dies, what the clock shows) is a parameter of a step, so a claim about runs is a
claim about every schedule and every pattern of failures. An inductive invariant is proved for
each step in a lemma of its own, and the theorems follow from it.

Beside each step system stands the object the code has: a class whose fields are assigned
statement by statement, with one method per section that runs under the lock. Every such method
is proved to take exactly the step of the same name, or to change nothing. The class carries, as
fields used only in proofs, the history the theorems speak of.

| part | step system | invariant and theorems | object |
|---|---|---|---|
| downloads | `DownloadProtocol`, `Database`, `Restart` | `DownloadInvariant`, `DownloadTransactions`, `DownloadSteps`, `DownloadTheorems`, `DownloadAnswers`, `DownloadOutcomes`, `DownloadReadiness`, `DownloadDrain`, `DownloadCancellation` | `Downloader` |
| model deletion | `DeletionProtocol`, `DeletionManifest` | `DeletionSafety`, `DeletionStranding` | `Registry` |
| runtime | `RuntimeProtocol` | `RuntimeSafety`, `RuntimeAnswers` | `Supervisor` |
| API keys | `KeyProtocol`, `KeyMaterial` | `KeySafety` | `KeyManager` |
| audit gate | `DrainGate` | `DrainGate` | `DrainGate` |

The sequential parts are specified by functions and proved with loops: the UTF-8 cuts
(`Utf8`), the bounded logs (`LogWindow`), the line reader (`LineStream`), the vLLM command line
(`Arguments`, `ArgumentsRoundTrip`, `ArgumentsBuilder`), the audit table and its order
(`AuditRetention`, `AuditOrder`), the texts of a model row (`ModelRegistration`) and the migration
history (`Migrations`). The step functions carry no contracts: what they mean is
in the theorems, which also say when each of them is possible and what it writes, and what ties
them to the code is in the methods.

## What was found

Six promises do not hold as they might be expected to. Each has a lemma for the failing family
and one for the exact condition.

- A running runtime may already be dead. `wait` publishes the exit only after the output is
  drained, so a child that is reaped right after its probe answered is still published as
  running (`RuntimeSafety.ReapedChildPublishedAsRunning`). Readiness is published exactly when
  the exit of that run has not been (`RuntimeSafety.RunningPublishedIffExitIsNot`).
- A nil `Cancel` does not mean that the job ends canceled. It does exactly when the job is queued,
  about to look at its context, running, just reaped, or ending canceled anyway
  (`DownloadCancellation.CancelDecides`). Between that look and the start of the command the start
  itself is refused and the job ends failed, as does a job that is ending failed; and when the look
  after the reap is past, the cancel is accepted and the job succeeds
  (`DownloadCancellation.CancelCanComeTooLate`). The same holds of a shutdown
  (`DownloadCancellation.ContextDecides`).
- Extra arguments can pass their 64 KiB limit. The total is compared after each value, so names
  without values at the end are never counted
  (`ArgumentsRoundTrip.ExtrasCanPassTheLimit`). The limit holds when the last extra carries values;
  every name without values ends some accepted list that breaks it, in whatever request
  (`ArgumentsRoundTrip.AcceptedRequestsPassTheLimit`). One request keeps it exactly when the names
  after its last values fit into what is left (`ArgumentsRoundTrip.LimitIsKeptIff`). The bound that
  always holds is in `ArgumentsRoundTrip.ExtrasAreBounded`.
- Reconciliation can be stopped for good. The reader refuses a manifest of more than 4096 bytes, the
  writer does not look at the size, and it writes each of `&`, `<` and `>` as six bytes. A path of
  more than 4040 bytes never fits, one of at most 673 always does (`DeletionManifest.FitsByLength`),
  and between them there are paths every read accepts and no manifest holds
  (`ModelRegistration.ReadablePathMayNotFit`). If a deletion of such a model dies after its rename,
  no start succeeds again and the files of the registered model stay in the quarantine
  (`DeletionStranding.CrashCanStrandTheFiles`). If all else in the quarantine can be read, a deletion
  that dies with its manifest whole can be recovered exactly when the manifest fits, which a caller
  can look at beforehand (`DeletionStranding.DyingDeletionRecoversIff`).
  A process that dies between making the stage directory and completing its manifest leaves a stage
  every later start refuses, although no file is lost (`DeletionStranding.CrashCanStrandAStage`). So
  does one that dies in a tree removal, of a deletion or of reconciliation itself, once the manifest
  is unlinked (`DeletionStranding.CrashCanStripAStage`), and any failure or death with a stage whose
  manifest cannot be read (`DeletionStranding.UnreadableStageStays`). A start succeeds, if the
  operating system lets it, exactly when all manifests are whole and within 4096 bytes and nothing
  unknown is in the quarantine (`DeletionSafety.ReconcileSucceedsIff`).
- Audit order is not chronological. Timestamps are compared as text without the trailing zeros of
  the fraction, so a stamp outranks every later one of its second whose fraction digits continue
  its own: ".5" outranks ".51" (`AuditOrder.HalfSecondMasks`) and the whole second outranks the rest
  of it (`AuditOrder.WholeSecondMasks`). Any other pair is in order
  (`AuditOrder.TextOrderIsTimeOrder`), so pruning keeps the rows written last, for every limit,
  exactly when the table has no such pair (`AuditOrder.PruningIsChronological`).
- A local model that was registered cannot always be read back, and one such row makes the whole
  listing fail. A blank name is replaced by the name of the directory, which is not trimmed, while
  every read demands a trimmed name; and neither the text of the path nor the configured spelling
  of the models root is looked at before the insert
  (`ModelRegistration.BlankNameHidesTheList`, `ModelRegistration.LocalReadableIff`).

The project follows the code in these cases. The comment above `ReconcileDeletionQuarantine`
says that it completes or rolls back an interrupted deletion; a manifest it cannot read is the case in
which it does neither.

## Assumptions

- A transaction is atomic and serializable and may be refused at any point. A refused
  transaction has no effect.
- The clock never goes back. Timestamps are natural numbers; text timestamps are used only where
  the code compares text (audit rows) or must refuse text that does not parse (API keys).
- Downloads enter through `DownloadModel` and `Retry`. The models root is fixed and canonical,
  the log limits do not change between starts, model ids are never minted twice, and a terminal
  job that did not succeed has a non-empty error text.
- Model directories are not nested in one another nor in the quarantine, and only the registry
  touches the directory of a registered model.
- What the operating system answers includes whether the directories above a model's are still there
  and are no symbolic links.
- The runtime is started through the switch service; `Supervisor.Stop` may also be called directly.
- Key derivation is any function with hashes of 32 bytes; julianday is any monotone rounding that
  only identifies instants less than one quantum apart; whether a host is a loopback address and
  how a fraction is printed are functions of which only the first character and the round trip
  are used.
- Commands are started by the runner the service is built with, which refuses a context that is
  already done.
- The random source is the sequence of its reads, each a block or a failure; running out counts as a failure.

## Model

| member | source | states |
|---|---|---|
| Utf8.CutIsLongestValidPrefix | ability/ability_download/downloader.go:557-567 | the cut of a text at a byte limit is valid UTF-8 (section 4 of RFC 3629), within the limit, and no longer valid prefix exists |
| Utf8.CutOfValidText | api/api_gateway/proxy.go:262-271 | on valid text at most three bytes before the limit are lost, and nothing when the text fits |
| Utf8.DropInvalidTail | api/api_gateway/proxy.go:262-271 | the byte-by-byte trim loop stops exactly at the last character boundary reached through valid characters |
| Utf8.TruncateUtf8 | api/api_gateway/proxy.go:262-271 | audit fields: untouched within the limit, otherwise the longest valid prefix |
| Utf8.BoundDownloadError | ability/ability_download/downloader.go:557-567 | the stored error is the repaired text, cut at a boundary, with the truncation mark |
| Utf8.BoundedErrorAccepted | ability/ability_download/downloader.go:557-567 | a stored error is valid and within 64 KiB, empty only for an empty text, unchanged when it was already acceptable; a cut loses at most three bytes |
| Utf8.BoundLogLine | ability/ability_runtime/supervisor.go:250-261 | the stored log line is the repaired text, cut at a boundary, marked when cut here or upstream |
| Utf8.BoundedLineAccepted | ability/ability_download/downloader.go:481-495 | a stored line is valid, within the per-line limit plus its mark, unchanged when it was acceptable; a cut loses at most three bytes |
| Utf8.RepairKeepsTheRest | ability/ability_download/downloader.go:557-567 | a run of bytes outside any character becomes one U+FFFD, and all the text before it and the repair of all after it are kept |
| Utf8.FirstRun | ability/ability_download/downloader.go:557-567 | every text that is not valid splits into valid text, such a run, and the rest, so that settles every text |
| Utf8.BoundedTextKeepsTheRest | ability/ability_runtime/supervisor.go:250-261 | a stored line or error that fits holds everything around the stray bytes |
| Utf8.BoundedTextIsCut | ability/ability_download/downloader.go:481-567 | a text that does not fit is cut at 65536 bytes, an error at 65521, and takes its mark |
| Utf8.ValidIffEncoded | ability/ability_download/downloader.go:557-567 | valid text is exactly the encoding of some sequence of Unicode scalar values (section 3 of RFC 3629) |
| Utf8.ToValidIsValid | ability/ability_download/downloader.go:557-567 | replacing the bytes outside any character gives valid text, and never empties a text |
| Utf8.ToValidKeepsValidText | ability/ability_download/downloader.go:557-567 | valid text is not changed by the replacement |
| LogWindow.WindowIsLongest | ability/ability_download/downloader.go:497-503 | the kept log fits both limits, is a suffix of the history, and every fitting suffix is inside it |
| LogWindow.IncrementalWindow | ability/ability_download/downloader.go:497-503 | trimming after an append equals trimming the whole history once |
| LogWindow.RunIsWindowOfHistory | ability/ability_runtime/supervisor.go:262-274 | over any run of appends the log is the window of everything ever appended, and a line no longer than the byte limit is never lost when it is the newest |
| LogWindow.AppendLine | ability/ability_download/downloader.go:497-503 | the count trim followed by the byte loop computes the window |
| LineStream.ReaderSplitsDoNotMatter | ability/ability_download/downloader.go:439-480 | however the buffered reader cuts a line into pieces, the logical lines are the same |
| LineStream.CutsDoNotMatter | ability/ability_download/downloader.go:439-480 | for every way of cutting a byte stream into pieces, the logical lines are the stream split at newlines, without the carriage return before each |
| LineStream.ConsumeStream | ability/ability_download/downloader.go:439-480 | so the entries are those of the stream's lines, whatever the buffer size and the timing |
| LineStream.TextLinesMeaning | ability/ability_download/downloader.go:439-480 | the lines of a text are what precedes each newline, without a carriage return at its end, and a last line that has none |
| LineStream.TakePiece | ability/ability_download/downloader.go:445-467 | the bounded line buffer and the bounded tail buffer see a line in pieces as they would see it whole |
| LineStream.Consume | ability/ability_download/downloader.go:439-480 | one entry per logical line, in order, an unterminated last line included: its first bytes up to the limit, its last 256, and whether any is missing |
| LineStream.CollectLogs | ability/ability_runtime/supervisor.go:218-274 | the supervisor log ends as the window of the bounded form of every line the child wrote |
| LineStream.StoredLinesAccepted | ability/ability_download/downloader.go:481-503 | every stored line is one the restart validators accept |
| Coordinates.NormalizedIsCanonical | internal/huggingface/validation.go:23-63 | normalizing a repository or a revision is idempotent, so what registration stores is what restart accepts |
| Coordinates.RepositoryIff | internal/huggingface/validation.go:23-48 | a repository is accepted exactly as owner, slash and name of the allowed characters, in at most 96 bytes, not ending in .git |
| Coordinates.RevisionIff | internal/huggingface/validation.go:50-63 | a revision is accepted exactly without white space, control characters and leading dash, in at most 255 bytes |
| Coordinates.TrimSpaceMeaning | internal/huggingface/validation.go:23-63 | trimming takes white space from both ends, all of it, and nothing else |
| Coordinates.TrimSpaceIdempotent | internal/huggingface/validation.go:23-63 | a trimmed text has no outer white space and is not trimmed further |
| Database.JoinInjective | ability/ability_download/downloader.go:142-174 | models have distinct managed directories |
| DownloadTransactions.AcceptKeeps | ability/ability_download/downloader.go:1026-1077 | the acceptance transaction, insert or retry, keeps the tables fit for restart, one active download per model and every downloading model claimed |
| DownloadTransactions.SettleKeeps | ability/ability_download/downloader.go:1106-1160 | the terminal transaction keeps the same, for every outcome |
| DownloadTransactions.TerminalResult | ability/ability_download/downloader.go:1106-1160 | the terminal transaction fails exactly when its model is gone or another model holds the path, and otherwise changes one row and one model |
| DownloadTransactions.ProgressKeeps | ability/ability_download/downloader.go:1085-1104 | the running and log upserts keep the tables fit for restart |
| DownloadTransactions.DeleteKeeps | ability/ability_model/registry.go:558-580 | deleting a model that no download is active on unlinks its history and keeps the tables fit for restart |
| DownloadTransactions.RegisterKeeps | ability/ability_model/registry.go:147-181 | registering a model keeps the tables fit for restart |
| DownloadTransactions.ActiveRowFacts | ability/ability_download/downloader.go:904-946 | an active row is linked to a model that is downloading the same coordinates into the same directory |
| ModelRegistration.ListModels | ability/ability_model/registry.go:350-365 | the listing is every row in order, or nothing as soon as one row cannot be read |
| ModelRegistration.RegisterLocalIff | ability/ability_model/registry.go:102-141 | a registration takes the trimmed name or else the name of the directory, refuses only an empty, long or unprintable one, and stores the path as it is |
| ModelRegistration.LocalReadableIff | ability/ability_model/registry.go:102-141 | a registered local model can be read back exactly when its name was given or its directory's name is trimmed, its path is plain and within 4096 bytes, and the path is below the root as configured |
| ModelRegistration.ScannedReadableIff | ability/ability_model/registry.go:367-396 | for a name taken from the directory: exactly when that name is not blank, with the same demands on the path |
| ModelRegistration.BlankNameHidesTheList | ability/ability_model/registry.go:102-141 | a blank name for a directory that starts with a space registers a row after which no listing succeeds |
| ModelRegistration.ReadablePathMayNotFit | ability/ability_model/registry.go:102-141 | under any root with room there is a directory that can be registered and read, and whose manifest is above 4096 bytes |
| ModelRegistration.HubModelReadableIff | ability/ability_model/registry.go:250-346 | in every reachable state of the downloads a Hugging Face model passes every read validator, name and source included, unless it is ready under a root whose text is too long or not plain |
| DownloadSteps.StepKeeps | ability/ability_download/downloader.go:189-409 | every step of every goroutine, the registry, the environment and the crash keeps the invariant |
| DownloadSteps.RunKeeps | ability/ability_download/downloader.go:189-409 | so does every run |
| DownloadSteps.AcceptKeepsInv | ability/ability_download/downloader.go:189-307 | an accepted or retried request keeps the invariant whether or not a slot was free |
| DownloadSteps.StartQueuedKeeps | ability/ability_download/downloader.go:309-342 | the start of a queued job keeps it, committed or refused |
| DownloadSteps.FinishKeeps | ability/ability_download/downloader.go:513-544 | the terminal section keeps it, committed or refused |
| DownloadSteps.RestoreOneKeeps | ability/ability_download/downloader.go:786-828 | each turn of the writing loop of restore keeps it |
| DownloadSteps.CrashKeeps | ability/ability_download/downloader.go:725-828 | so does a crash at any point, inside restore too |
| DownloadTheorems.DownloadingMeansOneActiveDownload | ability/ability_download/downloader.go:1026-1160 | in every reachable state a model is downloading exactly when one and only one pending or running row is linked to it |
| DownloadTheorems.RestartAcceptsEveryDurableState | ability/ability_download/downloader.go:725-947 | the restart validators accept every durable state any run with any crashes can leave |
| DownloadTheorems.RestoreSettlesEverything | ability/ability_download/downloader.go:786-828 | after restore nothing is pending, running or downloading, each interrupted job and its model are canceled, and all else is as it was |
| DownloadTheorems.RestartConverges | ability/ability_download/downloader.go:725-828 | from every crash a restart whose writes commit comes up, in whatever order the rows are read |
| DownloadTheorems.ChildrenBoundedByWorkers | ability/ability_download/downloader.go:344-403 | live children never exceed the slots held, nor the configured maximum |
| DownloadTheorems.WorkersConserved | ability/ability_download/downloader.go:268-409 | each accepted job takes at most one slot, gives back what it took, and by the time it is gone has finished once and been counted out once |
| DownloadTheorems.LiveChildIsDurable | ability/ability_download/downloader.go:309-342 | while a child is alive its row is durably running and its model is downloading into the child's directory |
| DownloadTheorems.FinishRefusedOnlyForTakenPath | ability/ability_download/downloader.go:1151-1157 | the terminal write never finds its model gone; the tables refuse it exactly for a success whose directory another model registered meanwhile |
| DownloadTheorems.FinishPublishesTogether | ability/ability_download/downloader.go:513-544 | a finish publishes the job's outcome in the row and in its model together, a success only with its files, or, when refused, in neither; nothing else in either table changes |
| DownloadTheorems.AcceptedJobCanSucceed | ability/ability_download/downloader.go:344-403 | a request accepted while a slot is free can be carried through to a ready model, with slots and counts as they were before |
| DownloadAnswers.AcceptanceIff | ability/ability_download/downloader.go:189-307 | a request that was read is accepted, if the store commits, exactly when the service is open, no pending or running job has the directory, the id is new or names a failed or canceled download of the same model, and the model is registered, error, failed or canceled |
| DownloadAnswers.AcceptanceWrites | ability/ability_download/downloader.go:262-307 | an acceptance writes the fresh row, the claim, the job, its id and its slot, and nothing else |
| DownloadAnswers.EndedDownloadCanBeRetried | ability/ability_download/downloader.go:967-985 | every failed or canceled download whose model can be claimed and whose directory is free can be read and accepted again |
| DownloadAnswers.ReadsIff | ability/ability_download/downloader.go:142-183 | a request is read exactly for a Hugging Face model that can be claimed, a retry also only for a failed or canceled linked job, and carries the coordinates of the model |
| DownloadAnswers.CancelIff | ability/ability_download/downloader.go:695-710 | a cancel is accepted exactly while the job of that id has not ended, and marks only its context |
| DownloadAnswers.ModelDeletionIff | ability/ability_model/registry.go:558-580 | a model row goes exactly when no pending or running download is linked to it or writes to its directory; its other downloads lose only the link |
| DownloadAnswers.RegistrationIff | ability/ability_model/registry.go:90-181 | under a new id only bad coordinates or a path already registered refuse a registration, and the row is the one asked for |
| DownloadAnswers.QueuedStartResult | ability/ability_download/downloader.go:309-342 | a granted job becomes durably running with the clock of the section, or, refused by the store, fails with its slot given back and its row pending; with its context done nothing is written |
| DownloadAnswers.LogWriteResult | ability/ability_download/downloader.go:1085-1104 | a log write copies the logs and the progress of the job into its row |
| DownloadOutcomes.FinishWrites | ability/ability_download/downloader.go:513-544 | a finish is lost exactly when the store refuses or another model holds the directory of a success; otherwise the row takes outcome, bounded message and clock and keeps all else the job carries, and the model its status, directory and size |
| DownloadOutcomes.OutcomeHasCause | ability/ability_download/downloader.go:309-409 | success only by a clean exit with the context not done, canceled only with the context done, failed only by a refused start, a failed launch or a failed child; each exactly then |
| DownloadOutcomes.SuccessIsEarned | ability/ability_download/downloader.go:344-403 | in every run a job that succeeds was launched, its child exited cleanly, and its files were found |
| DownloadOutcomes.LogIsWindowOfLines | ability/ability_download/downloader.go:481-512 | over every run the log of a job is the window of all its bounded lines, and its progress the last percentage in range |
| DownloadOutcomes.OpenJobCanSucceed | ability/ability_download/downloader.go:309-409 | from every phase before its end a job that nobody cancelled has a run to a succeeded row and a ready model of the size found |
| DownloadReadiness.ReadyMeansOneSuccess | ability/ability_download/downloader.go:1106-1160 | a Hugging Face model is ready exactly when one succeeded download, and no other, is linked to it; that download wrote the model's own directory under the root, and the model is registered there |
| DownloadReadiness.StepReadiness | ability/ability_download/downloader.go:1026-1160 | every step of the service and the registry keeps that |
| DownloadCancellation.CancelDecides | ability/ability_download/downloader.go:695-710 | after a nil Cancel the job can end, and without a crash or a refused write it ends canceled in every run exactly when it was queued, about to look at its context, running, just reaped, or ending canceled; it ends failed while it launches or is ending failed; it escapes only when it is already ending in success |
| DownloadCancellation.ContextDecides | ability/ability_download/downloader.go:309-409 | the same for any job whose context is done, by a cancel or by a shutdown, from every reachable state |
| DownloadDrain.JobEnds | ability/ability_download/downloader.go:309-409 | from every phase a job with a done context has a run, with no write refused, in which it ends and is counted out |
| DownloadDrain.ShutdownCanReturn | ability/ability_download/downloader.go:992-1014 | from every reachable state with shutdown begun there is a crash-free run after which nothing is counted, so the wait can return |
| DownloadCancellation.CancelCanComeTooLate | ability/ability_download/downloader.go:394-409 | a cancel after the look that follows the reap is accepted and the job succeeds all the same |
| DownloadTheorems.MemoryRefinesTables | ability/ability_download/downloader.go:513-544 | with no terminal write refused, every indexed job is in the state of its row; otherwise the only difference is a job failed in memory whose row is still active; a job that is over and was not lost is its row in every column but a lost link |
| DownloadTheorems.ShutdownDrains | ability/ability_download/downloader.go:992-1014 | a nil Shutdown means every accepted job is terminal, durably so, no slot is held and no child is alive |
| DownloadTheorems.TerminalRowsAreHistory | ability/ability_download/downloader.go:241-259 | a succeeded row never changes; a failed or canceled row changes only by a retry for the model it is linked to |
| DownloadTheorems.SuccessIsForever | ability/ability_download/downloader.go:1081-1104 | over any further run a success keeps its state, coordinates, stamps and logs |
| DownloadTheorems.ActiveDestinationsDistinct | ability/ability_download/downloader.go:241-259 | pending or running jobs, in memory and in the tables, are in pairwise distinct directories |
| DownloaderService.Downloader.PersistAcceptance | ability/ability_download/downloader.go:1026-1077 | statement by statement, the acceptance transaction is the atomic one, and a refusal leaves the tables alone |
| DownloaderService.Downloader.PersistTerminal | ability/ability_download/downloader.go:1106-1160 | the same for the terminal transaction |
| DownloaderService.Downloader.FindDestination | ability/ability_download/downloader.go:254-259 | the scan of the job map finds a job at work in the directory exactly when there is one |
| DownloaderService.Downloader.AcceptRequest | ability/ability_download/downloader.go:189-307 | the locked section accepts exactly when the service is open, the directory is not in use, the id is new or retryable for this model and the model can be claimed; it then takes the acceptance step, and otherwise changes nothing |
| DownloaderService.Downloader.Admit | ability/ability_download/downloader.go:267-307 | slot, row, commit, publication and, on refusal, the slot given back |
| DownloaderService.Downloader.PublishJob | ability/ability_download/downloader.go:292-294 | the new job is entered under its id and counted once |
| DownloaderService.Downloader.StartQueuedJob | ability/ability_download/downloader.go:309-342 | the queued start is its step, roll-back of the in-memory fields included |
| DownloaderService.Downloader.AppendLogLine | ability/ability_download/downloader.go:481-512 | the log becomes the window of the old log and the bounded line, progress follows only within 0 to 100, and nothing else changes |
| DownloaderService.Downloader.Conclude | ability/ability_download/downloader.go:513-529 | a success needs its files and has its directory; any other end carries the bounded message; the clock is the finish stamp and all else is kept |
| DownloaderService.Downloader.FinishJob | ability/ability_download/downloader.go:513-544 | the terminal section is its step: the row takes outcome, bounded message and clock over what the job carries, and it errs exactly for a refused write or a taken directory |
| DownloaderService.Downloader.CancelJob | ability/ability_download/downloader.go:695-710 | cancel errs exactly for a job that is unknown or over, and otherwise only cancels its context |
| DownloaderService.Downloader.RestoreRow | ability/ability_download/downloader.go:786-828 | an interrupted row becomes canceled with the restart error and the clock of the turn, any other stays, and the job holds the row; it can only err because the store refused |
| DownloadAnswers.StartIff | ability/ability_download/downloader.go:725-783 | a start goes on to write exactly when every persisted row passes both validators |
| Restart.ValidateRestoredJob | ability/ability_download/downloader.go:831-902 | a persisted row is accepted exactly with logs, identity, coordinates, progress, stamps, error and life cycle as the code demands them |
| Restart.ValidateLinkedJob | ability/ability_download/downloader.go:904-946 | a linked row is accepted exactly when its model is a Hugging Face model and, for a pending or running one, matches it and is downloading into its directory |
| DownloaderService.Downloader.ValidateRows | ability/ability_download/downloader.go:725-783 | nothing is written unless every row passes both validators |
| DownloaderService.Downloader.CommitFinish | ability/ability_download/downloader.go:530-544 | the locked part: row and model in one transaction, or the lost mark |
| DownloaderService.Downloader.Restore | ability/ability_download/downloader.go:725-828 | a nil restore settles everything and loads every row; a failed one leaves tables the next start accepts; it never fails while the store commits |
| DownloaderService.RestoreNeverRefused | ability/ability_download/downloader.go:904-946 | the tables themselves never refuse to settle an interrupted row |
| DeletionSafety.StepKeeps | ability/ability_model/registry.go:558-663 | every filesystem operation, transaction, failure and crash of a deletion or a reconciliation keeps the invariant |
| DeletionSafety.RunKeeps | ability/ability_model/registry.go:410-482 | so does every run |
| DeletionSafety.FilesAreAtExactlyOnePlace | ability/ability_model/registry.go:558-663 | in every intermediate, crashed or partly reconciled state a registered model's files are complete at exactly one of its path and its stage |
| DeletionSafety.ReconcileOkSettles | ability/ability_model/registry.go:410-482 | a nil reconciliation leaves every row, every model's files at their path, and no stage |
| DeletionSafety.ReconcileOkNeedsManifests | ability/ability_model/registry.go:428-431 | it is nil only if every stage it found had a manifest that is whole and within 4096 bytes, and nothing else was in the quarantine |
| DeletionSafety.ReconcileSucceedsIff | ability/ability_model/registry.go:410-482 | from any crash point some run of a reconciliation is nil exactly when each manifest is whole and within 4096 bytes and nothing else is in the quarantine |
| DeletionSafety.ReconcileConverges | ability/ability_model/registry.go:410-482 | from every crash point at which each manifest is whole and within 4096 bytes, a reconciliation the operating system lets through is nil, whatever the order of the entries |
| DeletionSafety.VisitedEntryProceeds | ability/ability_model/registry.go:421-477 | an entry whose manifest is whole and within 4096 bytes never makes reconciliation stop |
| DeletionStranding.CrashCanStrandAStage | ability/ability_model/registry.go:631-638 | a deletion that dies before its manifest is whole leaves a stage after which no start ever reconciles, while the model itself is unharmed |
| DeletionStranding.CrashCanStripAStage | ability/ability_model/registry.go:656-662 | a tree removal, of a deletion or of reconciliation, that dies after unlinking the manifest leaves such a stage too |
| DeletionStranding.StrandedForever | ability/ability_model/registry.go:428-431 | nothing the program does removes or changes such a stage |
| DeletionStranding.UnreadableStageStays | ability/ability_model/registry.go:428-431 | a death, or a removal given up, with a stage whose manifest is missing, partial or above 4096 bytes: no later start succeeds and the stage stays as it is |
| DeletionManifest.ManifestSize | ability/ability_model/registry.go:521-533 | the size that is compared is that of the text the encoder writes |
| DeletionManifest.JsonRoundTrip | ability/ability_model/registry.go:521-549 | what the encoder writes inside the quotes reads back as it was |
| DeletionManifest.FitsByLength | ability/ability_model/registry.go:521-540 | with escaping, a manifest fits exactly when its encoded path has at most 4040 bytes; a path of at most 673 bytes always does, one of more than 4040 never |
| DeletionStranding.OversizedManifestStrandsTheFiles | ability/ability_model/registry.go:521-540 | after a death with the files staged under a manifest that does not fit, over every later run no start succeeds, the files stay in the stage, and the path of the registered model stays empty |
| DeletionStranding.CrashCanStrandTheFiles | ability/ability_model/registry.go:558-655 | from every idle state a deletion of a model whose manifest does not fit can be started and come to that end |
| DeletionStranding.DeletionStagesTheFiles | ability/ability_model/registry.go:558-644 | every deletion of a model at its path has a run to the state with its files staged under a completely written manifest |
| DeletionStranding.DyingDeletionRecoversIff | ability/ability_model/registry.go:410-482 | a deletion that dies with its manifest completely written, all else readable, can be reconciled exactly when the manifest is within 4096 bytes |
| RegistryService.Registry.RemoveAll | ability/ability_model/registry.go:656-662 | a removal ends with the stage gone, or stops with everything outside the stage untouched |
| RegistryService.Registry.RemoveSome | ability/ability_model/registry.go:656-662 | each unlink or rmdir, in any order, makes progress and keeps the invariant |
| RegistryService.Registry.MakeStageDir | ability/ability_model/registry.go:619-634 | the stage is created only if it did not exist |
| RegistryService.Registry.WriteManifest | ability/ability_model/registry.go:521-533 | creation, then content: either may fail or be cut short by a crash; a nil write can be read back exactly when it is within 4096 bytes |
| RegistryService.Registry.OpenManifest | ability/ability_model/registry.go:521-533 | the manifest is created empty, once, and nothing else changes |
| RegistryService.Registry.FillIn | ability/ability_model/registry.go:521-533 | its content names the model and its path, and can be read back exactly when it is within 4096 bytes; otherwise the manifest stays partial |
| RegistryService.Registry.MoveToStage | ability/ability_model/registry.go:639-644 | the rename takes exactly the model's directory |
| RegistryService.Registry.CommitDeletion | ability/ability_model/registry.go:645-655 | a refused transaction keeps the row, and with nothing else in the way puts the files back and removes the stage |
| RegistryService.Registry.PutFilesBack | ability/ability_model/registry.go:578-589 | the roll-back returns exactly the staged files to the original path, or leaves them staged |
| RegistryService.Registry.Delete | ability/ability_model/registry.go:558-663 | a nil deletion removed exactly the row and, when asked, exactly its files; a failed one leaves a remaining row with all its files, and staged files can be put back exactly when the manifest fits; nothing else is touched |
| RegistryService.Registry.DeleteFiles | ability/ability_model/registry.go:618-661 | stage, commit, purge: nil means row, files and stage are gone |
| RegistryService.Registry.SettleEntry | ability/ability_model/registry.go:421-477 | an entry is settled only if its manifest is whole, within 4096 bytes, and agrees with the row: its stage goes, and its files are at the model's path if the model still exists; stopped, either no file has moved or exactly the staged ones have |
| RegistryService.Registry.ReadEntry | ability/ability_model/registry.go:421-467 | an entry is accepted only if it can be settled, its manifest within 4096 bytes included, and is put back exactly when its model exists and its files are staged |
| RegistryService.Registry.ActOnEntry | ability/ability_model/registry.go:445-477 | the files go back exactly if they are to, and the stage goes, or the first refusal stops it |
| RegistryService.Registry.MoveHome | ability/ability_model/registry.go:468-473 | the put-back of an uncommitted deletion puts exactly the staged files at the model's path, or changes no directory |
| RegistryService.Registry.Reconcile | ability/ability_model/registry.go:410-482 | nil means files home, quarantine gone and all manifests whole and within 4096 bytes; such manifests and no failure mean nil |
| RegistryService.Registry.RemoveQuarantine | ability/ability_model/registry.go:478-482 | the quarantine is removed only when nothing is left in it |
| RuntimeSafety.StepKeeps | ability/ability_runtime/supervisor.go:100-357 | every locked section, every event of the child and every client operation keeps the invariant |
| RuntimeSafety.RunKeeps | ability/ability_runtime/supervisor.go:415-522 | so does every run |
| RuntimeSafety.RemovalNeverUnderLiveModel | ability/ability_runtime/supervisor.go:512-522 | at no instant of a guarded removal is the runtime starting, or running from the removed path or for the removed model |
| RuntimeSafety.RunningModelIsAssociated | ability/ability_runtime/supervisor.go:415-510 | whenever the switch mutex is free nothing is starting, a running child runs the associated path, and the active model is exactly the one a switch launched it for |
| RuntimeSafety.SingleRun | ability/ability_runtime/supervisor.go:100-177 | handle, done channel and active status exist together; an unreaped child is the current one; its done channel is closed once, with the publication of its exit |
| RuntimeSafety.ExitPublishedWithFullLog | ability/ability_runtime/supervisor.go:283-316 | the waiting goroutine always finds its own child current, and publishes the exit only when the log holds everything the child printed |
| RuntimeSafety.LogIsNewestRun | ability/ability_runtime/supervisor.go:218-274 | the log is the window of the newest run's lines, and no line is dropped |
| RuntimeSafety.RunningPublishedIffExitIsNot | ability/ability_runtime/supervisor.go:160-171 | readiness is published exactly when the exit of the same run has not been |
| RuntimeSafety.ReapedChildPublishedAsRunning | ability/ability_runtime/supervisor.go:160-171 | wherever a probe has answered for a live child, the child may be reaped first and still be published as running |
| RuntimeSafety.ProbeAnswersForLiveChild | ability/ability_runtime/supervisor.go:188-217 | such a state is reached by the first start of a fresh service |
| RuntimeAnswers.GuardIff | ability/ability_runtime/supervisor.go:512-522 | the guard refuses exactly while the runtime is starting, running or stopping with this model or this path recorded |
| RuntimeAnswers.RemovalGrantedIff | ability/ability_runtime/supervisor.go:512-522 | in every reachable state with the switch mutex free and a child running, a removal is granted exactly when the child was launched neither for the model nor from the path; with nothing up always |
| RuntimeAnswers.SwitchCanSucceed | ability/ability_runtime/supervisor.go:415-468 | from every reachable state with no operation in progress a switch can be carried through to the new model running and recorded |
| RuntimeAnswers.StopCanSucceed | ability/ability_runtime/supervisor.go:495-510 | and a stop to nothing up and nothing recorded |
| RuntimeAnswers.RestartCanSucceed | ability/ability_runtime/supervisor.go:470-483 | and a restart to the new child running with no model recorded |
| RuntimeAnswers.OperationsCanEnd | ability/ability_runtime/supervisor.go:100-522 | no operation is ever stuck: from every reachable state a run leads to one with no client and no supervisor operation in progress |
| RuntimeAnswers.StartReportsIff | ability/ability_runtime/supervisor.go:160-177 | a start reports success exactly when the exit of its run has not been published by then |
| RuntimeAnswers.FailedProbeStops | ability/ability_runtime/supervisor.go:146-160 | a failed probe makes the start stop its child and report failure |
| SupervisorService.Supervisor.LaunchLocked | ability/ability_runtime/supervisor.go:100-145 | the launch section is its step; a refusal changes nothing, and a launch finds no child whose exit is still to be published |
| SupervisorService.Supervisor.ReadyLocked | ability/ability_runtime/supervisor.go:160-171 | the readiness section is its step, and leaves the service running exactly when the exit of that run is not published |
| SupervisorService.Supervisor.StopLocked | ability/ability_runtime/supervisor.go:322-357 | the opening section of a stop is its step; it finds a child exactly when the service is active, and that child's exit is still to come |
| SupervisorService.Supervisor.ExitLocked | ability/ability_runtime/supervisor.go:283-316 | the exit section is its step: it finds its own child current, clears handle and channel, closes done once, and the log is complete; failed exactly for an error nobody asked for |
| SupervisorService.Supervisor.LogLocked | ability/ability_runtime/supervisor.go:250-274 | the log section is its step: the line goes to the current child, none is dropped, and the log is the window of that child's lines |
| SupervisorService.Supervisor.OpenSwitch | ability/ability_runtime/supervisor.go:415-436 | the first section of a switch is its step: it goes on to a stop with the association kept, or to a start with nothing active and nothing associated |
| SupervisorService.Supervisor.SettleStop | ability/ability_runtime/supervisor.go:495-510 | a stop that succeeded leaves nothing active and nothing associated; one that failed keeps the association |
| SupervisorService.Supervisor.SettleStart | ability/ability_runtime/supervisor.go:437-468 | a start that failed keeps the association; whenever the runtime then runs, path and model associated are those of the running child |
| SupervisorService.Supervisor.ActiveModel | ability/ability_runtime/supervisor.go:485-493 | no id for a runtime that is not up; for a running one, the model a switch launched it for, if any |
| SupervisorService.Supervisor.GuardModelDeletion | ability/ability_runtime/supervisor.go:512-522 | refused exactly while the status is starting, running or stopping and the recorded model is the id or the recorded path the target; a granted removal never meets a runtime running from it |
| SupervisorService.Supervisor.SettleRestart | ability/ability_runtime/supervisor.go:470-483 | after a Restart, of any outcome, a running child is the associated one; with none running after a failure nothing is associated |
| KeyMaterial.EachLetterHasFourBytes | ability/ability_api_key/keys.go:47-69 | no letter is favoured: exactly four accepted bytes stand for each of the 62 |
| KeyMaterial.Random | ability/ability_api_key/keys.go:47-69 | the result is the first n accepted bytes mapped into the alphabet, with no block read beyond need; a failed read fails the draw |
| KeyMaterial.TakeLetters | ability/ability_api_key/keys.go:57-66 | one block: its accepted bytes in order until n letters are written |
| KeyMaterial.NormalizeScopes | ability/ability_api_key/keys.go:127-138 | the loop computes the normalized list |
| KeyMaterial.NormalizedMeaning | ability/ability_api_key/keys.go:127-138 | the normalized list holds every trimmed non-empty entry once, in order of first appearance |
| KeyMaterial.DecodeScopes | ability/ability_api_key/keys.go:152-165 | decoding accepts exactly the comma lists of distinct valid scopes |
| KeyMaterial.ScopesRoundTrip | ability/ability_api_key/keys.go:76-118 | for every list of valid scopes that is not empty, decoding the joined text gives the normalized list back |
| KeyMaterial.DecodedIsInjective | ability/ability_api_key/keys.go:152-165 | a stored text is the only one that decodes to its scopes |
| KeyMaterial.Has | ability/ability_api_key/keys.go:333-345 | true exactly for the scope itself, for admin reads with the write scope, and inside the MCP namespace with its umbrella |
| KeyMaterial.GrantsIff | ability/ability_api_key/keys.go:333-345 | a list of scopes meets a requirement exactly in those three cases |
| KeyMaterial.UmbrellaStaysInside | ability/ability_api_key/keys.go:333-345 | outside the MCP namespace a requirement is met only by its own scope, or by the write scope for admin reads |
| KeySafety.StepKeeps | ability/ability_api_key/keys.go:217-321 | every creation, switch, deletion, lookup and commit keeps the invariant |
| KeySafety.RunKeeps | ability/ability_api_key/keys.go:217-321 | so does every interleaving of them |
| KeySafety.ReadableIff | ability/ability_api_key/keys.go:178-294 | a row is readable exactly with an id of 24 letters and digits, a name within 100 bytes, its prefix, a salt of 16 and a hash of 32 bytes, a switch, scopes that decode, and stamps in order |
| KeySafety.CreationWrites | ability/ability_api_key/keys.go:76-118 | a creation needs a free id and a free prefix and writes the trimmed name, the prefix, the salt, the hash, the switch on and the normalized scopes |
| KeySafety.SuccessIsLinearizable | ability/ability_api_key/keys.go:228-320 | a verification commits exactly when its row is still there, enabled and unchanged, and then does at that instant all that an indivisible verification would: secret, switch, scope, uniqueness of the row, and the stamp |
| KeySafety.RevocationStands | ability/ability_api_key/keys.go:304-312 | after a disable or a delete no pending verification of the key commits until it is enabled or created again |
| KeySafety.MintedKeyWorks | ability/ability_api_key/keys.go:76-118 | from creation until disable or delete, whatever happens to other keys, the minted secret is looked up for each granted scope |
| KeySafety.MintedKeyCommits | ability/ability_api_key/keys.go:300-320 | and every verification that read its row since creation commits |
| KeySafety.OneKeyPerSecret | ability/ability_api_key/keys.go:228-294 | a secret never authenticates two keys |
| KeySafety.LastUseNeverGoesBack | ability/ability_api_key/keys.go:300-321 | over any run without deletion of the key its last use never goes back |
| KeySafety.LastUseTrailsByLessThanAQuantum | ability/ability_api_key/keys.go:300-321 | the last use is one of the committed ones and the latest commit is less than one julianday quantum after it |
| KeySafety.EveryRowIsReadable | ability/ability_api_key/keys.go:228-294 | every row the program writes passes every read validator |
| KeySafety.NewRowReadable | ability/ability_api_key/keys.go:76-118 | the row CreateNamed inserts passes every read validator and decodes to the normalized scopes |
| KeyManagerService.CheckRow | ability/ability_api_key/keys.go:228-294 | a row any validator would refuse never authenticates; each error is returned for exactly its reason |
| KeyManagerService.AuthenticatesIff | ability/ability_api_key/keys.go:228-294 | a stored key passes exactly with its own secret, switched on, and with the scope, or the write scope for admin reads, or the umbrella inside the MCP namespace |
| KeyManagerService.CreatableIff | ability/ability_api_key/keys.go:76-100 | a creation is refused before anything is drawn exactly without any scope, for a scope outside the seven, or for a name that is too long or unprintable |
| KeyManagerService.SecretIsValid | ability/ability_api_key/keys.go:76-118 | a drawn secret has the form every reader demands |
| KeyManagerService.Manager.CreateNamed | ability/ability_api_key/keys.go:76-118 | at most five attempts, each earlier one a collision; success is the creation step, any failure changes nothing |
| KeyManagerService.Manager.LookupVerifiedKey | ability/ability_api_key/keys.go:228-294 | success exactly when the store answers and some stored key passes; it is the lookup step and changes no key |
| KeyManagerService.Manager.CommitVerifiedUseAt | ability/ability_api_key/keys.go:300-320 | success exactly when the update found its row; the returned stamp is the stored one and trails the use by less than a quantum |
| KeyManagerService.Manager.SetEnabled | ability/ability_api_key/keys.go:396-413 | succeeds exactly for an existing key and then changes only its switch |
| KeyManagerService.Manager.Delete | ability/ability_api_key/keys.go:414-427 | succeeds exactly for an existing key and then removes only it |
| Arguments.NumberOfDecimal | ability/ability_runtime/args.go:68-98 | a printed number reads back as itself |
| ArgumentsRoundTrip.ReadsBack | ability/ability_runtime/args.go:51-149 | a parser recovers every option from the command line of accepted options, up to the default host and the dashes of extra names |
| ArgumentsRoundTrip.LineDeterminesOptions | ability/ability_runtime/args.go:51-149 | two accepted requests share a command line only if they ask for the same thing |
| ArgumentsRoundTrip.FlagsAreDistinct | ability/ability_runtime/args.go:120-149 | no flag is emitted twice and no extra overrides an option of the runtime |
| ArgumentsRoundTrip.ExtrasAreBounded | ability/ability_runtime/args.go:121-148 | extras total at most 65536 + 63 * 130 bytes, and at most 65536 when the last of them carries values |
| ArgumentsRoundTrip.LimitIsKeptIff | ability/ability_runtime/args.go:121-148 | one accepted request keeps the 64 KiB limit exactly when the names after its last values fit into what the extras up to there leave of it |
| ArgumentsRoundTrip.ExtrasCanPassTheLimit | ability/ability_runtime/args.go:121-148 | the stated 64 KiB limit is not kept: with any name after an extra that uses it up, more is accepted |
| ArgumentsRoundTrip.AcceptedRequestsPassTheLimit | ability/ability_runtime/args.go:121-148 | every accepted request can be asked with extras that pass the limit and is still accepted |
| ArgumentsBuilder.BuildArgs | ability/ability_runtime/args.go:51-149 | the builder accepts exactly the acceptable options and emits the line flag by flag; any error names a rule the options break |
| ArgumentsBuilder.AcceptedIff | ability/ability_runtime/args.go:51-174 | every rule with its numbers: text, ports, hosts, sizes, devices, memory, scalars, names and extras |
| ArgumentsBuilder.LineIsSpelled | ability/ability_runtime/args.go:67-149 | the command line token by token, each flag under its own name and only when its option is set |
| ArgumentsBuilder.LeadingArguments | ability/ability_runtime/args.go:51-98 | model, numbers and devices: the same for the first part of the line |
| ArgumentsBuilder.NamedArguments | ability/ability_runtime/args.go:99-119 | scalars, switches and served name: the same for the second part |
| ArgumentsBuilder.AppendExtras | ability/ability_runtime/args.go:120-149 | the extras loop accepts exactly the acceptable extras and emits them in order |
| ArgumentsBuilder.CheckExtra | ability/ability_runtime/args.go:121-145 | one extra: its name, its values, and the budget compared after each value |
| ArgumentsBuilder.ValidateBoundedArgument | ability/ability_runtime/args.go:164-174 | the character loop decides exactly the bounded-argument rule |
| ArgumentsBuilder.ValidGpus | ability/ability_runtime/args.go:75-86 | the device loop decides exactly range and uniqueness |
| DrainGate.GateIsExact | api/api_gateway/proxy.go:88-123 | over any busy epochs the current channel is closed exactly when no record is open, no channel is closed twice, and open records never exceed the 64 slots |
| DrainGate.WaitMeansFinished | api/api_gateway/proxy.go:95-106 | whatever requests, writers and other waiters do meanwhile, a nil WaitRecords means every record begun before the call has finished |
| DrainGate.WaitCanReturn | api/api_gateway/proxy.go:95-106 | a waiter can return exactly when no record sharing its channel is open |
| DrainGate.SlotsComeBack | api/api_gateway/proxy.go:116-158 | from every reachable state a run leads to one with every slot back, no record open and every waiter free to return |
| DrainGate.RunKeeps | api/api_gateway/proxy.go:107-158 | every interleaving of requests, writers and waiters keeps the invariant |
| DrainGate.Gateway.TryAcquire | api/api_gateway/proxy.go:143-158 | a slot is taken exactly when one is free; otherwise nothing changes |
| DrainGate.Gateway.BeginRecord | api/api_gateway/proxy.go:107-114 | the section that opens a record is its step |
| DrainGate.Gateway.FinishRecord | api/api_gateway/proxy.go:116-123 | the section that closes a record is its step and never closes a closed channel |
| DrainGate.Gateway.ReleaseSlot | api/api_gateway/proxy.go:143-158 | the slot is given back after the record is finished |
| DrainGate.Gateway.TakeIdle | api/api_gateway/proxy.go:95-98 | a waiter takes the current channel |
| AuditRetention.IncrementalIsBatch | db/sqlite/services.go:232-246 | pruning after each insertion equals pruning everything ever inserted once |
| AuditRetention.TableIsNewestOfAll | db/sqlite/services.go:216-247 | after any run with one positive limit, failures included, the table holds exactly the newest of all rows ever inserted |
| AuditRetention.NewestSize | db/sqlite/services.go:240-242 | exactly the limit is kept, or everything when there is less |
| AuditRetention.TableIsReadable | db/sqlite/services.go:216-247 | every stored row passes the validation of the reader |
| AuditOrder.TextOrderIsTimeOrder | db/sqlite/services.go:240-242 | of two stamps the earlier is the smaller text exactly when it is not of the same second with fraction digits that the later ones continue |
| AuditOrder.WholeSecondMasks | db/sqlite/services.go:240-242 | a stamp on the whole second outranks every later stamp of its second |
| AuditOrder.HalfSecondMasks | db/sqlite/services.go:240-242 | .5 outranks .51 in every second |
| AuditOrder.StampIsInjective | db/sqlite/services.go:240-242 | a stamp is the text of one instant only |
| AuditOrder.ListedByTime | db/sqlite/services.go:248-275 | two rows are listed in order of time exactly when their pair is not masked in this way |
| AuditOrder.PruningIsChronological | db/sqlite/services.go:232-246 | pruning keeps the rows written last, for every limit, exactly when the table has no masked pair |
| AuditOrder.MaskedPairIsMisplaced | db/sqlite/services.go:232-246 | with a masked pair some limit keeps the earlier row and drops the later |
| AuditOrder.MaskedPairAlone | db/sqlite/services.go:232-246 | with room for one, the earlier row of a masked pair outlives the later |
| AuditOrder.TableIsLatestOfAll | db/sqlite/services.go:216-247 | over any run with one limit and no masked pair inserted, the table holds the rows written last |
| AuditRetention.AboveIsTotal | db/sqlite/services.go:240-242 | the order is total on timestamp and id |
| AuditRetention.AboveIsTransitive | db/sqlite/services.go:240-242 | and transitive |
| AuditRetention.PrefixIsNewest | db/sqlite/services.go:248-275 | a prefix of the listing is the newest rows of the table |
| AuditRetention.AuditStore.RecordRequestWithLimit | db/sqlite/services.go:216-247 | the row is appended and the table pruned to the newest exactly for a positive limit, a fresh id, fields within their bounds and a commit; a limit of zero is a nil that changes nothing, and any failure changes nothing |
| AuditRetention.AuditStore.RecentRequests | db/sqlite/services.go:248-275 | the rows returned are the newest of the table in order, 50 outside 1 to 500, and it fails exactly when one of them is not valid |
| Migrations.Store.Migrate | db/sqlite/store.go:110-169 | a history that is not a prefix, or is longer than known, is refused before anything runs; otherwise exactly the missing migrations take effect, in order, up to the first failure |
| Migrations.HistoryOnlyGrows | db/sqlite/store.go:110-169 | whatever programs opened the store and wherever they failed, the history is a gapless prefix that only grows |

## Left out

- DownloadTheorems.RestartAcceptsEveryDurableState: the JSON encoding of logs and the parsing of timestamps are not modelled, because each is a round trip of a library; the texts of a model row, which a restart does not read, are in `ModelRegistration`.
- ModelRegistration.LocalReadableIff: texts are Unicode, so a directory name that is not UTF-8 is not modelled; nor are names written by the early migrations.
- DownloadTheorems.MemoryRefinesTables: of a job whose terminal write was lost the model keeps the state, not the wrapped error text held in memory.
- DownloaderService.Downloader.AppendLogLine: progress arrives as an already parsed percentage and token redaction is not modelled, because the regular expression and the replacement are library calls.
- DeletionSafety.ReconcileConverges: an entry that is a symbolic link or a file counts as unknown; that the path in a manifest is absolute and inside the root holds by the type of paths, and a failure to resolve the directory above it is a refusal of the operating system.
- RuntimeSafety.SingleRun: signals, grace periods and the escalation to SIGKILL are not modelled; a stop either sees the exit or gives up.
- KeySafety.SuccessIsLinearizable: a commit whose reply is lost after it took effect is not modelled; such a call fails although its stamp may be stored.
- AuditRetention.TableIsNewestOfAll: the key id of a row may be cleared when its key is deleted, and no two calls are assumed to draw the same id at the same stamp.
- ArgumentsBuilder.BuildArgs: strings are sequences of Unicode scalar values, so the refusal of invalid UTF-8 holds by type; errors name the broken rule, not the message text.
- Migrations.Store.Migrate: the statements of a migration are not modelled, nor is the purge of sensitive settings that follows.
- No order is claimed between queued downloads: a new request may take a free slot ahead of one that is about to wait.
- `Download` and `DownloadRequest` as entry points, which do not clean their destination.
- `List`, `Status`, `Logs` and the other reads, and the settings, alias, GPU and scope tables, which a single reading settles.
- HTTP routing, the MCP adapter, the reverse proxy, the web UI, the command line of the service and document generation.
- Symbolic-link replacement races, permission bits and environment stripping.
- SQLite, the operating system, scrypt, JSON and floating-point formatting themselves.
