# Sopdet: job protocol, inventory delivery and progress fan-out

A Dafny model of the three stateful cores of Sopdet, with proofs about them.

1. **The resident agent's job protocol** (`internal/agent`). A claim loop runs one job at a time. A
   runner spawns a child and pumps two output streams through one byte budget and one sequence
   counter. A client retries, spools to disk and drains the spool.
2. **The inventory pipeline** (`internal/schema`, `internal/state`, `internal/app`,
   `internal/ingest`). Records get keys and fingerprints, are trimmed to a budget, diffed against a
   saved baseline, split into chunks, posted or spooled; the baseline moves only on full delivery.
3. **The progress fan-out** (`internal/ui`). Bounded queues that drop their oldest event.

## How the model is built

Code that updates objects step by step is a class with methods and loops, specified by functions or
predicates over its state. Where goroutines interleave there is a second module, named `...Race`: a
state machine whose steps end wherever another goroutine could get in, with theorems over every run.
`Uninterrupted...` lemmas connect the two: run without interference, the machine's steps come to
what the methods are specified to do.

| files | what they hold |
|---|---|
| `endpoint.dfy`, `spool.dfy`, `client.dfy` | one request with retries; file names and their order; the client's calls |
| `spool_race.dfy` | any number of goroutines posting, spooling, draining and dropping at once |
| `pump.dfy`, `pump_race.dfy` | budget, counter and pumps; readers, tickers and final flushes interleaved |
| `serve.dfy`, `serve_race.dfy` | judging and reporting a run; claim loop, heartbeat, contexts, child and hints interleaved |
| `schema.dfy`, `state.dfy`, `stability.dfy` | keys, fingerprints, deltas; what telemetry and order cannot change |
| `budget.dfy`, `split.dfy`, `ingest.dfy`, `pipeline.dfy` | trimming, chunking, delivery; whole histories of scans and a receiver that rebuilds them |
| `progress.dfy`, `progress_race.dfy` | the fan-out server; its consumers interleaved |
| `protocol.dfy`, `text.dfy` | payloads; string order, decimals, sorting |

What lies outside becomes a parameter. The control plane is an arbitrary script of replies, SHA-256
over canonical JSON an arbitrary function of the filtered record, and JSON length and wire size are
arbitrary functions of what is serialised. Clock readings, disk failures and context readings are
arguments, or steps that may happen at any time. Map iteration takes any element next. In
`spool_race.dfy` the server and the pre-existing directory are arbitrary too, so a restart is a run
that starts from whatever an earlier one left.

## Where the code does not keep its documentation

Each of these is stated as an exact condition for every input or run, with a concrete counterexample.

- `BuildEntity` "ensures unique keys" (`internal/schema/entity.go:6`): exactly unless some raw key is
  another raw key followed by `#n`, with n between 2 and that key's number of occurrences
  (`KeysUniqueIff`, `KeysCanClash`). The same condition decides whether collection count and delta
  count agree (`CountsAgreeIff`).
- `LogFunc` "receives batches of log entries in seq order" (`internal/agent/runner.go:61`): exactly
  when no pump hands an entry over while the other sits on an earlier number
  (`HandOverInOrderIff`, `OvertakingHappens`), so always when only one stream produces bytes
  (`OneStreamInOrder`). Per stream the order always holds.
- "On transient failure the batch is spooled" (`internal/agent/client.go:360-361`): exactly unless
  the last reply is a 408 without the retryable flag, which counts as a permanent rejection
  (`TransientFailureIsKeptIff`, `RepeatedTimeoutIsDropped`).

## Model

| member | source | states |
|---|---|---|
| Endpoint.Wire.Post | internal/agent/client.go:170-251 | attempts go on through network errors, 408 and 5xx and stop at anything else; result, replies used up and attempts made are those of the first decisive reply, or of the last of retries + 1; a context done during a back-off ends the call without a further attempt |
| Endpoint.PostSucceedsIff | internal/agent/client.go:166-251 | a call succeeds exactly when a usable 2xx answers one of the first retries + 1 attempts with nothing decisive before it |
| Endpoint.OnlyTransientIsRetried | internal/agent/client.go:242-248 | between one and retries + 1 attempts are made, and an answered one is followed by another only after a 408 or a 5xx |
| Endpoint.FirstDecisiveReply | internal/agent/client.go:190-266 | the first reply that is no transient failure decides: an oversized answer or an undecodable 2xx is a plain error, another 2xx success, and any other answer comes back as an endpoint error with its status, code and retryable flag |
| Endpoint.NoDecisiveReply | internal/agent/client.go:176-251 | without one, all attempts are made, five by default, and the last failure is surfaced |
| Endpoint.AnswerDecidesVerdict | internal/agent/client.go:268-276 | what a decisive answer means for a result and for logs: a fence by its two codes, final when not retryable, kept when retryable |
| Endpoint.SilenceKeeps | internal/agent/client.go:405-427 | a result that met only transient failures is kept after a 5xx without a fence and after no answer |
| Endpoint.TransientFailureIsKeptIff | internal/agent/client.go:360-390 | when every attempt fails transiently, the logs are kept exactly unless the last reply was a 408 without the retryable flag |
| Endpoint.RepeatedTimeoutIsDropped | internal/agent/client.go:243-247 | five plain 408 answers lose a log batch |
| SpoolDir.SpoolNameInjective | internal/agent/client.go:456-457 | records that differ in kind, job or clock reading get different files |
| SpoolDir.SpoolNameIs | internal/agent/client.go:456 | the name spelled out |
| Text.DecValue | internal/agent/client.go:456 | numbers are written in decimal, without leading zeros |
| SpoolDir.IsJsonIff | internal/agent/client.go:525 | the files a drain looks at are those with the extension `.json` |
| SpoolDir.LogsBeforeResults | internal/agent/client.go:529 | in the drain's order every log file precedes every result file, for all jobs and times |
| SpoolDir.NameOrder | internal/agent/client.go:529 | for job ids of one length and clock readings of one width, string order is the order by kind, then job, then time |
| Client.Client.Spool | internal/agent/client.go:444-468 | a new file, never an overwritten one; an error leaves the directory as it was |
| Client.Client.DrainSpool | internal/agent/client.go:512-580 | directory, wire and returned count are those of the sorted walk that drops junk, removes what was settled and stops at the first transient failure |
| Client.DrainOneIs | internal/agent/client.go:532-579 | a file that holds no record goes without a post; a record is posted to its job under the path of its kind, and stays exactly if that failed other than by a fence or a final endpoint error |
| Client.DrainEmpties | internal/agent/client.go:560-563 | against a server that answers everything with a 2xx, a drain leaves no spool file |
| Client.DrainKeepsTheRest | internal/agent/client.go:508-580 | a drain removes a front part of the sorted listing and nothing else, and returns exactly the number of spool files it leaves |
| Client.Client.DropSpooledForJob | internal/agent/client.go:470-494 | a JSON file goes exactly if it can be read as a record of that job, of whatever kind and payload; every other file is as it was |
| Client.Client.PostLogs | internal/agent/client.go:362-390 | logs are delivered, or permanently refused, or in the spool, or the caller is told that spooling failed |
| Client.Client.ReportResult | internal/agent/client.go:395-427 | drains, then posts; a fence removes exactly the job's own spooled records, a refusal is returned, anything else is spooled |
| Client.Client.SweepSpool | internal/agent/client.go:584-609 | exactly the files past the retention window go, and are counted |
| SpoolRace.DrainGoesByName | internal/agent/client.go:523-579 | in every interleaving, when a drain posts a record, every record spooled before that drain listed the directory whose file name comes first is acknowledged, refused, swept, or dropped |
| SpoolRace.LogsSettleBeforeSpooledResult | internal/agent/client.go:512-580 | in every interleaving, when a drain posts a spooled result, every log record spooled before that drain listed the directory was acknowledged, refused, swept, or taken out by a drop after its own job was fenced |
| SpoolRace.DrainGoesInCreationOrder | internal/agent/client.go:508-529 | when a drain posts a record, those of the same job and kind spooled under an earlier clock reading of the same width are settled |
| SpoolRace.OwnDrainSettlesSpool | internal/agent/client.go:400-405 | when the drain inside ReportResult reaches the end of its listing, everything spooled before it listed the directory is settled before the result is posted |
| SpoolRace.NothingIsLost | internal/agent/client.go:362-427 | in every interleaving each payload is still in its call, or reported as not spoolable, or in the spool, or acknowledged, refused, swept, or taken out by a drop after its own job was fenced |
| SpoolRace.SpooledLeavesOnlySettled | internal/agent/client.go:444-609 | a spooled record that is gone was acknowledged, refused, swept, or taken out by a drop after its own job was fenced |
| SpoolRace.RecordLeavesFor | internal/agent/client.go:470-609 | the very step that removes a record is the sweep past the retention window, or a drain's after the server acknowledged or refused that record, or a drop's for the record's own fenced job |
| SpoolRace.FreshName | internal/agent/client.go:456-458 | a clock reading not used before gives a file name that was never taken |
| SpoolRace.UninterruptedDrain | internal/agent/client.go:531-578 | alone, a draining goroutine does what one turn of the drain loop does: the same files with the same contents stay, the same record is posted as often, the verdict is put down for that record, and it stops when the loop stops |
| SpoolRace.UninterruptedDrop | internal/agent/client.go:481-492 | alone, a dropping goroutine removes a listed file exactly if it is a record of the job, and puts down the payload it held |
| SpoolRace.UninterruptedDropAll | internal/agent/client.go:470-494 | a whole drop, alone, leaves the files that the method leaves |
| Pump.OutputBudget.TakeChunk | internal/agent/runner.go:141-156 | lets through the longest front part the budget has room for and marks what was cut |
| Pump.Take | internal/agent/runner.go:141-156 | what is let through is a front part of the chunk, all of it unless the budget is used up, and the budget grows by exactly that and never beyond its maximum |
| Pump.RunState.Emit | internal/agent/runner.go:110-130 | a non-empty text draws the next number and is handed over with it; an empty one, or one without a callback, draws none |
| Pump.StreamPump.FlushLocked | internal/agent/runner.go:187-194 | pending bytes go out as one numbered entry, or nothing happens |
| Pump.StreamPump.Add | internal/agent/runner.go:175-185 | budget first, then buffer, then a flush at the threshold |
| Pump.PumpReader | internal/agent/runner.go:417-429 | a reader feeds its chunks in order, skipping empty reads |
| PumpRace.PumpedDelivers | internal/agent/runner.go:141-194 | of all a reader is given, exactly what the budget has room for is handed over or pending, in order, and the budget says whether that was all |
| PumpRace.RunHandsOverTheBudget | internal/agent/runner.go:306-360 | if both readers finish in time, onLogs gets a prefix of each stream, together exactly min(max, bytes read) bytes; Truncated holds exactly when more was read |
| PumpRace.NeverOverBudget | internal/agent/runner.go:141-200 | at any moment, abandoned readers included, what went out is a prefix of each stream and within the budget |
| PumpRace.NumbersWithoutGap | internal/agent/runner.go:110-130 | numbers are 1..n without gap or repeat, increasing within a stream, and entries carry 1 to BatchBytes - 1 + 8192 bytes |
| PumpRace.HandOverInOrderIff | internal/agent/runner.go:61 | entries reach onLogs in number order exactly when no pump overtakes the other between numbering and handing over |
| PumpRace.OneStreamInOrder | internal/agent/runner.go:61 | entries reach onLogs in number order as long as only one stream has produced bytes |
| PumpRace.OvertakingHappens | internal/agent/runner.go:124-129 | a run in which entry 2 reaches onLogs before entry 1 |
| PumpRace.UninterruptedAdd | internal/agent/runner.go:175-185 | a reader's steps without interference come to one Add |
| PumpRace.UninterruptedTick | internal/agent/runner.go:187-200 | a tick's steps without interference come to one flush |
| Serve.Serve.HintArrived | internal/agent/loop.go:61-66 | a hint leaves a token in the wake channel, whether or not one was there |
| Serve.Serve.Finish | internal/agent/loop.go:234-292 | a result request is the last one attempted exactly when a report is due: `failed` with the error when the script never started, `cancelled` when the job's context is done, else `timeout`, `succeeded` for exit code 0, or `failed` with the code; otherwise the client is left alone |
| Serve.DecideIs | internal/agent/loop.go:234-292 | the decision shared with the machine is that one |
| Serve.Serve.ReportTerminal | internal/agent/loop.go:111-117 | the result with the job's claim token is the last request attempted, whatever the drain before it did |
| ServeRace.UninterruptedFinish | internal/agent/loop.go:234-292 | without interference the machine's checks come to the decision Finish is specified by |
| ServeRace.EachJobOnce | internal/agent/loop.go:137-164 | in every run each claimed job gets exactly one run and at most one report; none exactly when the running report was refused or the serve context was seen done after a spawned run |
| ServeRace.LogsFollowRunning | internal/agent/runner.go:288-326 | in the trace of every job the acceptance of the running report precedes every log batch, that report comes right after the spawn and never twice, and it was sent once a spawned job is through |
| ServeRace.ReportIsExact | internal/agent/runner.go:355-379 | in every run, `cancelled` is reported exactly when the job's context was done at the last check; else `timeout` exactly when the deadline had passed; else `succeeded` exactly when cmd.Wait returned nil, and `failed` with exactly its code otherwise; the truncation flag is the budget's |
| ServeRace.SuccessIsReal | internal/agent/runner.go:331-378 | `succeeded` rests on the child really having exited with 0 and clear checks; an exit code is never 0; running out of grace is never success |
| ServeRace.CancelIsObserved | internal/agent/loop.go:86-95 | a job is reported `cancelled` only if the heartbeat cancelled it or the serve context is done; a job cancelled before the last check is reported as nothing else |
| ServeRace.NoHintIsLost | internal/agent/loop.go:57-164 | before shutdown each hint has a token waiting, a claim about to start, or a claim started since; the loop never waits without a poll timer |
| Schema.Fingerprint | internal/schema/fingerprint.go:34-48 | the hash of the record without its volatile fields |
| Schema.FingerprintShows | internal/schema/fingerprint.go:15-48 | short of a collision, two fingerprints are equal exactly when the records agree on every field but the twelve telemetry fields |
| Schema.RollupFingerprint | internal/schema/fingerprint.go:52-65 | depends on the number of records and the sorted fingerprints |
| Schema.RollupShows | internal/schema/fingerprint.go:50-65 | short of a collision, the rollup changes exactly when the bag of record fingerprints does |
| Schema.UniqueKey | internal/schema/entity.go:23-28 | the n-th record asking for a key gets it bare for n = 1 and with `#n` after that |
| Schema.BuildEntity | internal/schema/entity.go:8-43 | nil records are left out, the others completed in order; count and rollup are those of the result |
| Schema.BuiltRecord | internal/schema/entity.go:11-33 | each record that is not nil ends up in order with its own key or `item:i`, numbered from the second occurrence on, a fingerprint of its content, the scan time, and its other fields untouched |
| Schema.BuiltKeys | internal/schema/entity.go:19-29 | the keys of a collection are its raw keys, each numbered by its occurrence among the raw keys |
| Schema.KeysUniqueIff | internal/schema/entity.go:5-31 | keys come out distinct exactly when no raw key is another one with a `#n` that the numbering gives out |
| Schema.KeysCanClash | internal/schema/entity.go:23-28 | "a", "a", "a#2" yields a repeated key |
| Schema.NumberedKeysMeet | internal/schema/entity.go:23-28 | two numbered keys meet only when key and number agree or one raw key already looks numbered |
| Baseline.IndexRecords | internal/state/state.go:76-83 | the last record and fingerprint of every key |
| Baseline.LastCounts | internal/state/state.go:78-83 | when a key repeats, the last record counts |
| Baseline.DiffEntity | internal/state/state.go:74-104 | added, changed and removed hold exactly the keys that are new, differ or are gone, once each, with the current record or the previous fingerprint |
| Baseline.DeltaKeys | internal/state/state.go:90-103 | key by key: added is new, changed is in both with another fingerprint, removed is gone |
| Baseline.DeltaCarries | internal/state/state.go:91-101 | added and changed carry the record of the scan, removed the previous fingerprint |
| Baseline.BuildDelta | internal/state/state.go:72-107 | such a delta for exactly the entities of the scan |
| Baseline.Snapshot | internal/state/state.go:110-129 | the key-to-fingerprint map of every entity under the scan's id |
| Baseline.DeltaReplays | internal/state/state.go:72-107 | applying a delta to its baseline gives exactly the new map |
| Baseline.DeltaCounts | internal/state/state.go:84-103 | count = added + changed + unchanged, old size = removed + changed + unchanged |
| Baseline.DeltaEmptyIff | internal/state/state.go:90-103 | a delta is empty exactly when nothing changed |
| Stability.VolatileFieldsDoNotShow | internal/schema/fingerprint.go:15-65 | scans with distinct keys that differ only in volatile fields, order and nil records have equal fingerprints per key and equal rollups |
| Stability.TelemetryMakesNoDelta | internal/state/state.go:72-107 | the delta between two such scans adds, changes and removes nothing |
| Stability.ChangedFieldShows | internal/state/state.go:90-98 | short of a collision, a record in both scans is reported as changed exactly when it differs in a field that is no telemetry |
| Stability.CountsAgreeIff | internal/schema/entity.go:10-42 | delta count equals record count exactly when keys do not clash |
| PayloadBudget.Largest | internal/app/run.go:231-236 | a collection with the most records, in any iteration order |
| PayloadBudget.Halve | internal/app/run.go:240-247 | the front half stays, the rest is counted as omitted |
| PayloadBudget.TrimsAddUp | internal/app/run.go:240-249 | however often a largest collection is halved, every collection keeps a non-empty front part with what it lost counted, marked and noted |
| PayloadBudget.EnforceBudget | internal/app/run.go:221-252 | each note is one halving of a largest collection made because the payload did not fit; ends fitting, not marshalling, with nothing left to halve, or after 40 trims; every collection is a non-empty front part, count = remaining + omitted, marked exactly when something is omitted; true exactly when a note was added |
| Split.NextName | internal/ingest/ingest.go:176-191 | one turn of the loop, on maps, keeps in step with the greedy groups on names |
| Split.SplitEntities | internal/ingest/ingest.go:171-195 | the in-place loop produces the greedy groups |
| Split.NoSplit | internal/ingest/ingest.go:172-173 | with chunking off or everything within ChunkBytes there is one chunk |
| Split.SplitIsSound | internal/ingest/ingest.go:174-195 | the groups are the sorted names cut up in order, none empty, each of two or more within ChunkBytes, none with room for the next name |
| Split.SplitIsMinimal | internal/ingest/ingest.go:171-195 | with a wire size that grows with the entities, no division into contiguous legal groups has fewer groups |
| Split.ChunksRestore | internal/ingest/ingest.go:208-214 | merging the chunks restores the envelope's entities, split or not |
| Ingest.FileNameInjective | internal/ingest/ingest.go:310 | chunks of different scans or indices get different files |
| Ingest.FileNameIs | internal/ingest/ingest.go:310 | the name spelled out |
| Ingest.Outbox.Post | internal/ingest/ingest.go:273-301 | true exactly when one of the first max(1, MaxRetries) attempts is acknowledged, and then the receiver has the body; a lost answer may leave further copies, never anything else |
| Ingest.TriesAre | internal/ingest/ingest.go:278-300 | the attempts stop at the first acknowledged one and otherwise number exactly that many |
| Ingest.Outbox.Drain | internal/ingest/ingest.go:245-271 | every file is attempted; only taken files go, only spooled bodies are sent; true exactly when each file finds an acknowledgement within its attempts, and exactly when nothing is left |
| Ingest.Outbox.SpoolBody | internal/ingest/ingest.go:303-312 | the body is in the scoped spool under its own name, or an error is returned |
| Ingest.Outbox.SendOne | internal/ingest/ingest.go:231-236 | a chunk is taken, or its file is in the spool, or the write failed and the spool is as it was |
| Ingest.Outbox.SendBodies | internal/ingest/ingest.go:208-237 | whichever of the writes fail: nothing leaves the spool or is un-received, only these chunks are added; without a failed write each chunk was taken or is in the spool, and failed means something is spooled; the first failed write ends the call |
| Ingest.Outbox.Send | internal/ingest/ingest.go:147-243 | what was spooled before is taken or still spooled, even on an error return; without an error so is every chunk to be sent, and delivered holds exactly when each spooled file and each chunk finds an acknowledgement within its attempts, exactly when the spool ends empty; the counts are true |
| Ingest.NoGapsSuffice | internal/ingest/ingest.go:274-293 | a receiver that acknowledges at least one of any MaxRetries attempts in a row gets everything |
| Ingest.MakeBodies | internal/ingest/ingest.go:208-223 | every chunk carries its group's entities, index, total and sorted keys |
| Ingest.BodiesAre | internal/ingest/ingest.go:208-226 | the i-th of n chunks says i and n, lists its group, and carries those entities as they are |
| Ingest.GroupListed | internal/ingest/ingest.go:209-213 | a chunk's key list is the sorted list of its entities |
| Pipeline.Agent.BuildEnvelope | internal/app/run.go:75-94 | a delta with its base only against a baseline that holds something, otherwise a snapshot without base |
| Pipeline.DeltaSentIff | internal/app/run.go:82-93 | a configured delta is sent exactly when a baseline naming some entity was saved, with its scan as base |
| Pipeline.Agent.Deliver | internal/app/run.go:136-163 | a dry run sends nothing and counts as delivered; a real one is sent unless a write fails, keeps what Send promises, and is delivered exactly when everything found an acknowledgement; an error is no delivery |
| Pipeline.Agent.SaveBaseline | internal/app/run.go:176-181 | the baseline becomes this scan's maps, or stays |
| Pipeline.Agent.SendAndSave | internal/app/run.go:134-181 | the baseline moves exactly when the scan was delivered and not trimmed |
| Pipeline.Agent.Scan | internal/app/run.go:69-181 | trim, envelope, delivery and baseline in that order, each as stated above |
| Pipeline.RealScan | internal/app/run.go:69-181 | a call of Scan that is no dry run is one step of the histories below |
| Pipeline.ReceiverMatchesBaseline | internal/app/run.go:82-181 | over any history of real scans, a receiver that files snapshots and rebuilds deltas from their base holds for the saved scan exactly the saved fingerprints |
| Pipeline.ReceiverHoldsTruth | internal/app/run.go:82-163 | for every scan and entity it has anything about, it holds exactly that scan's map |
| Pipeline.NoChunkIsLost | internal/ingest/ingest.go:204-242 | over any history, every chunk of a scan whose Send did not fail was taken or is in the spool, whatever later scans met |
| Pipeline.DeliveredMeansAll | internal/ingest/ingest.go:202-242 | delivered means that every chunk of this scan, and of all earlier ones whose Send did not fail, was taken and the spool is empty |
| Pipeline.NewScanHasNoFiles | internal/ingest/ingest.go:303-312 | a new scan id has no file in the spool yet, so no spooled chunk is ever overwritten |
| Progress.Offer | internal/ui/server.go:106-117 | the three selects, alone, add the event to a queue that loses its oldest one exactly when it is full |
| Progress.Server.Emit | internal/ui/server.go:95-119 | the event joins the history of at most 20000 and every queue of at most 1024, a full one losing exactly its oldest event; nothing after Close |
| Progress.Server.Subscribe | internal/ui/server.go:151-160 | a late subscriber starts with the oldest 1024 events of the history; nobody else is affected |
| Progress.Server.Receive | internal/ui/server.go:180 | takes the oldest event of its own queue |
| Progress.Server.Close | internal/ui/server.go:87-92 | closes, leaving history and queues |
| ProgressRace.InOrderWithoutRepeats | internal/ui/server.go:95-190 | in every interleaving, received events followed by the queue are an in-order, repeat-free selection of the emitted ones, and the queue is bounded |
| ProgressRace.NewestIsAlwaysQueued | internal/ui/server.go:105-118 | the retry never fails: each new event ends up last for every registered subscriber |
| ProgressRace.NothingIsMissing | internal/ui/server.go:151-190 | while at most 1024 events are ever emitted, every subscriber has all of them, whenever it connects |
| ProgressRace.UninterruptedPush | internal/ui/server.go:106-117 | the three selects without interference come to one push |

## Left out

- HTTP, TLS, redirects, gzip, SHA-256, JSON text, endpoint validation and the hash that scopes the spool directory: the pipeline is modelled for one endpoint and key.
- Process spawning and killing, temp files and their removal, the Windows service: a child is an exit that may happen at any time after spawning. No claim that a timed-out child was killed; the deadline can also pass during the pipe drain after a clean exit.
- Platform collectors, the PowerShell package, enrollment, configuration, hint channel framing and back-off lengths: no shared state, or easy members only.
- Creating, removing and listing a file is one step each, and so is writing a spool record. A drain that reads a half-written record drops it (`internal/agent/client.go:458-467`, `533-538`); the model does not have that moment.
- Clock readings in spool names do not repeat, not even after a restart. Removes succeed, and listing a directory fails only when it does not exist, which reads as empty.
- Marshalling errors other than in the budget, request construction errors, `duration_ms`, log timestamps, and the job's timeout in the timeout message.
- When a transient failure stops ReportResult's own drain, nothing is claimed about the logs still spooled as the result is posted: that drain is best effort (`internal/agent/client.go:403`).
- Which job a late cancel flag belongs to: the heartbeat reply names none, so in the model it may hit whichever job is current when it was picked up.
- The heartbeat's poll hint, which the loop never uses.
- `pump_race.dfy` has a log callback, as the claim loop always passes one.
- Run's own final cancel of its context after it returned.
- The state file: the saved baseline is a field; reading and writing it does not fail.
- Dry runs in the histories of `pipeline.dfy`: they count as delivered and move the baseline (`internal/app/run.go:154-155`), so the receiver theorem is about real scans.
- Trimmed scans send deltas of what the trim left, so omitted records appear as removed (`internal/app/run.go:70`, `92`); the theorems cover them as the trimmed collections, and the baseline does not move.
- Scan and EnforceBudget ask for collections as `BuildEntity` makes them, none shared between two entity names.
- Keep-alives, authorisation and pages of the progress server, and how its handler notices that a browser has gone.
