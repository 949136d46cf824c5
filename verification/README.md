# Verified model of cobe-lint's stateful parts

The project models the parts of cobe-lint whose correctness depends on whole runs or on every
input, and proves what their documentation and tests promise.

- **Asset cache** (`AssetCacheModel`, `AssetCacheInvariant`, `AssetCacheSteps`, `AssetCacheTheorems`,
  `AssetCacheRemovers`, `AssetCache`): the byte-budgeted cache with reservations, LRU eviction, reader counts and
  deferred deletion, as a machine of interleaved threads and as the object whose locked sections carry that machine on. `KeyLocks` has the per-key upload locks,
  `ExtractAssets` the archive check, `NameChecks` and `Paths` the name rules over a lexical path.Clean.
- **Resident javac supervisor** (`JvmProcess`, `WorkerModel`, `WorkerInvariant`, `WorkerSteps`, `WorkerTheorems`,
  `WorkerRuns`, `WorkerClose`, `Worker`): the JVM process with its requests and reply reader, and around it Check calls,
  their finish goroutines, the supervisor, Close and a clock.
- **The Java worker's own algorithms** (`JavaLines`, `JavaJson`, `JavaReply`, `CompilerRebuild`): line table, JSON
  strings, reply framing, and the one-at-a-time compiler rebuild.
- **Byte streams** (`ByteStreams`): readLine, lineLogger, cappedBuffer and truncateUTF8.

A machine's step is the code between two lock operations, one channel operation or one visible effect; `Exec` follows an
arbitrary interleaving, so a theorem about `Exec` from `Init` holds of every run. Lemmas that start from an arbitrary
state require only its invariant, which `StepKeeps` carries along every run. Classes hold the fields the program updates
in place; their methods are proved to take the machine from one state to the next, and so inherit its theorems.

Five plausible claims are false of the code; each has a concrete run or input and the exact condition under which it
holds: `used <= max` (`CounterCanDoubleMax`, `CounterCrossesIff`), Close waking every waiter (`CloseCanStrand`,
`CloseWakesIff`), kill never signalling a reaped pid (`KillCanBeStray`, `StrayKillIff`), a chunk-independent line log
(`LoggerIsChunkIndependentIff`), and a JSON reader that accepts RFC 8259 strings only (`SignedEscapeIsAccepted`,
`ReadsRfcStrings`). Another thing to know: if closing the old compiler throws, the rebuild flag stays up until that
thread's next request (`FlagIsReleased`).

`dafny verify dfyconfig.toml` checks the whole project.

## Model

| member | source | states |
|---|---|---|
| AssetCacheTheorems.FilesNeverExceedMax | internal/serve/cache.go:125-169 | In every run of interleaved lints and uploads the file bytes under the cache directory, staging directories included, never exceed max, and `used` never exceeds 2·max. |
| AssetCacheTheorems.ExcessIsOnCredit | internal/serve/cache.go:125-169 | `used` exceeds max by at most the part of pending claims that victims still being removed will pay for; with no reserve inside its removal it does not exceed max. |
| AssetCacheTheorems.CounterCrossesIff | internal/serve/cache.go:129-168 | In every run, from a state with `used <= max`, a step takes the counter over max if and only if it reserves n with `used + n > max` and `used + n` less the sizes of all unread sets within max; no other step does. |
| AssetCacheTheorems.CounterCanDoubleMax | internal/serve/cache.go:161-168 | `used <= max` is false in general: for every max > 0 there is a run, an upload evicting a full cache, that takes the counter to exactly 2·max. |
| AssetCacheTheorems.CounterIsExact | internal/serve/cache.go:104-123 | In every run `used` is the sizes of current sets plus retired sets not yet deducted plus outstanding reservations. |
| AssetCacheTheorems.DeductedOnce | internal/serve/cache.go:116-123 | Over a whole run the deductions of one set's bytes number one if it ends deducted and zero otherwise: never twice. |
| AssetCacheTheorems.OneRemover | internal/serve/cache.go:104-123 | A stale set without readers that is not deducted yet is on the removal list of exactly one thread, once. |
| AssetCacheRemovers.ListedBy | internal/serve/cache.go:104-168 | A set comes onto a thread's removal list only by that thread's own step: the release of its last reading when it is stale, the install that replaces it unread, or the reserve whose shortest sufficient prefix has it. |
| AssetCacheRemovers.RemoverIsItsRetirer | internal/serve/cache.go:104-168 | In every run the one thread that lists such a set is the one whose earlier step evicted it, replaced it or released it as its last reader. |
| AssetCacheRemovers.StaleSetGoes | internal/serve/cache.go:116-123 | From every reachable state, steps of that one thread's removal alone delete a stale unread set and return its bytes. |
| AssetCacheTheorems.AcquireIsWhole | internal/serve/cache.go:92-102 | acquire hands out only a set of that key and fingerprint whose directory is present with all its files. |
| AssetCacheTheorems.ReaderKeepsItsSet | internal/serve/cache.go:92-112 | From acquire until the reader's own release, whatever else is interleaved, the acquired set's directory exists with its complete, unchanged files. |
| AssetCacheTheorems.SetsAreWholeUploads | internal/serve/cache.go:216-264 | Every set ever installed, a staging directory written chunk by chunk and then renamed, holds file for file the complete contents of one archive uploaded under that key and fingerprint. |
| AssetCacheTheorems.ReaderSeesAnUpload | internal/serve/cache.go:92-102 | In every run a reader's directory holds, file for file, one archive uploaded under its set's key and fingerprint. |
| AssetCacheTheorems.InstallFills | internal/serve/cache.go:245-264 | At the end of the archive the staging directory that install enters holds all of it. |
| AssetCacheSteps.ChunkKeeps | internal/serve/cache.go:349-369 | While a member is copied, its file is the start of the member, and the finished files are those before it. |
| AssetCacheSteps.EndKeeps | internal/serve/cache.go:341-345 | A member read to its end leaves its complete file and is counted with its size. |
| AssetCacheTheorems.QuietCacheIsExact | internal/serve/cache.go:104-123 | With every thread idle the counter equals the file bytes and the sizes of current sets; stale sets are deleted and deducted, current ones whole. |
| AssetCacheTheorems.ReserveIsMinimal | internal/serve/cache.go:129-169 | A reserve claims n when it fits as it is; else, when evicting every unread set would make room, it takes exactly the shortest sufficient prefix of the eviction order out of the map and claims n; else it fails, and nothing has changed but the failing upload. |
| AssetCacheTheorems.ReserveChoice | internal/serve/cache.go:151-160 | The choice fits, evicts the shortest sufficient prefix, or fails, exactly when all unread sets together would not suffice. |
| AssetCacheTheorems.AllUnreadFreed | internal/serve/cache.go:136-156 | What the whole eviction order frees is the total size of current sets nobody reads, counted from the sets and not from the order. |
| AssetCacheSteps.EvictCountLeast | internal/serve/cache.go:151-156 | The victim count is the least that makes the claim fit, or all candidates. |
| AssetCacheSteps.ReserveKeeps | internal/serve/cache.go:129-169 | A reserve keeps the invariant, in particular used - pending claims + what their victims do not pay for <= max. |
| AssetCacheSteps.InstallKeeps | internal/serve/cache.go:247-264 | An install keeps the invariant: reservations become the set's size, the replaced set goes to its replacer or to its last reader. |
| AssetCacheSteps.StepKeeps | internal/serve/cache.go:92-264 | Every step of every thread keeps the invariant. |
| AssetCache.AssetCache.Acquire | internal/serve/cache.go:92-102 | The method carries the machine one acquire on; it returns the entry exactly when the key holds the fingerprint. |
| AssetCache.AssetCache.Release | internal/serve/cache.go:104-112 | The method carries the machine one release on and says whether the caller must remove the entry. |
| AssetCache.AssetCache.Candidates | internal/serve/cache.go:136-150 | The candidates are exactly the unread keys, sorted by last use with the uploaded key last. |
| AssetCache.AssetCache.CountVictims | internal/serve/cache.go:151-156 | The loop computes the machine's victim count and the bytes it frees. |
| AssetCache.AssetCache.RetireMany | internal/serve/cache.go:161-164 | The loop retires the chosen entries one by one, as the machine does, and lists them for removal. |
| AssetCache.AssetCache.Reserve | internal/serve/cache.go:129-169 | The method carries the machine one reserve on with an order that is least-recently-used first; false exactly when the machine refuses. |
| AssetCache.AssetCache.Install | internal/serve/cache.go:247-264 | The method carries the machine one install on and returns the entry to remove, if any. |
| AssetCache.AssetCache.Remove | internal/serve/cache.go:116-123 | The loop returns exactly the listed sizes to the budget. |
| KeyLocks.MutualExclusion | internal/serve/cache.go:194-213 | At most one caller holds a key's lock, in every run. |
| KeyLocks.CountIsRegistered | internal/serve/cache.go:194-213 | A key is in the map exactly while callers have registered and not deregistered, and its count is their number. |
| KeyLocks.LockStays | internal/serve/cache.go:194-213 | While a caller waits for, holds or leaves a key, the map keeps the lock object it registered with. |
| KeyLocks.KeyLockTable.Register | internal/serve/cache.go:194-203 | The first locked section finds or makes the key's lock and counts the caller, as the machine does. |
| KeyLocks.KeyLockTable.Deregister | internal/serve/cache.go:204-211 | The last locked section takes the caller off the count and the key off the map at zero, as the machine does. |
| Paths.CleanIffGood | internal/serve/cache.go:387-403 | Against a lexical path.Clean: a relative name is clean, not `.` and without `..` segments exactly when every segment is non-empty and neither `.` nor `..`. |
| Paths.GoodStaysUnder | internal/serve/cache.go:317 | Cleaning a root joined with such a name yields the root's segments followed by the name's: the name stays under the root. |
| Paths.JoinPathIsUnder | internal/serve/lint.go:258 | Joined to a clean root, such a name gives root, slash, name. |
| Paths.DirOfGood | internal/serve/cache.go:309-316 | path.Dir drops the last segment of such a name and is `.` exactly at the top, so the ancestor loop ends there. |
| NameChecks.AssetNameOkIff | internal/serve/cache.go:387-403 | checkAssetName passes exactly the names within the length limit, without control characters, all of whose segments are real names. |
| NameChecks.FilenameOkIff | internal/serve/lint.go:225-247 | checkFilename passes exactly the names that besides are within 255 bytes, hold no backslash, do not start with a dash and are not under a reserved directory. |
| NameChecks.AcceptedStaysUnder | internal/serve/cache.go:306-317 | A name either check accepts stays under the directory it is joined to. |
| ExtractAssets.AcceptableIsOrderFree | internal/serve/cache.go:277-347 | Whether the entries are acceptable, and their total size, do not depend on their order. |
| ExtractAssets.FitIsFree | internal/serve/cache.go:317-345 | An entry that passes the bookkeeping meets nothing in the tree: neither mkdir nor the exclusive create can collide. |
| ExtractAssets.UnfitIsUnacceptable | internal/serve/cache.go:309-331 | An entry the bookkeeping rejects makes every archive that starts so unacceptable. |
| ExtractAssets.FitIsAcceptable | internal/serve/cache.go:309-331 | An entry the bookkeeping admits keeps an acceptable archive acceptable. |
| ExtractAssets.AddAncestors | internal/serve/cache.go:309-316 | The path.Dir loop reports a clash exactly when a file is a proper ancestor of the name, and otherwise notes exactly the name's ancestors. |
| ExtractAssets.ExtractAssets | internal/serve/cache.go:277-347 | The archive is accepted if and only if its entries have allowed types and good names, are within the entry limit, have pairwise distinct names, no file is a proper ancestor of an entry, the sizes fit, every reserve succeeds and the stream ends well; the tree then holds exactly the named files and directories, each error has its own cause, and nothing collides. |
| JvmProcess.OneResultEach | internal/javacworker/worker.go:627-739 | Every request send registers gets at most one result, and exactly one by the time done closes: the first reply with its own id looked up after it registered, or ErrRestarted when there is none. |
| JvmProcess.ReaderNeverBlocks | internal/javacworker/worker.go:690-739 | Each channel the reader is about to send on has room, for replies as for the failures after the reap. |
| JvmProcess.NeverAddsToNil | internal/javacworker/worker.go:627-638 | No request is ever added to the pending map once the reaper has set it to nil. |
| JvmProcess.DoneIsReachable | internal/javacworker/worker.go:690-739 | From every reachable state of the reader the end of the JVM's output leads to the closing of done, with nobody sending or receiving. |
| JvmProcess.StrayKillIff | internal/javacworker/worker.go:658-668 | kill signals a pid that Wait has already given back exactly when it falls between Wait's return and the reaper's lock section; once reaped is set it changes nothing. |
| JvmProcess.KillCanBeStray | internal/javacworker/worker.go:725-729 | That window is reachable: `kill never signals a reaped pid` is false. |
| JvmProcess.StepKeeps | internal/javacworker/worker.go:627-739 | Every step of sender, killer, receiver and reader keeps each request waiting without a result, in the reader's hand, or holding the one result it deserves. |
| JvmProcess.Jvm.Send | internal/javacworker/worker.go:627-638 | The method carries the machine one send on: null exactly on a dead process, else a fresh empty channel under the next id. |
| JvmProcess.Jvm.Kill | internal/javacworker/worker.go:658-668 | The method carries the machine one kill on, keeps the first reason, and signals exactly while the reaper has not set reaped. |
| JvmProcess.Jvm.Look | internal/javacworker/worker.go:710-717 | The method takes the reply's request out of the map: the channel it registered, or null exactly for an unknown id. |
| JvmProcess.Jvm.Reap | internal/javacworker/worker.go:725-734 | The method carries the machine one reap on and returns exactly the pending channels, under their ids. |
| WorkerTheorems.SlotsAreOwned | internal/javacworker/worker.go:265-394 | In every run the occupied slots are exactly the calls and finish goroutines that own one, at most Threads; each slot taken is released once, and the release never blocks. |
| WorkerTheorems.PendingWithinThreads | internal/javacworker/worker.go:265-394 | Every request pending on the serving JVM has an owner of its own that holds a slot, so at most Threads are on it even after callers were answered with a timeout. |
| WorkerTheorems.InFlightWithinThreads | internal/javacworker/worker.go:214-240 | Everything LongestInFlight looks at was sent and still holds a slot; there are at most Threads of them. |
| WorkerTheorems.OutputIsOwnReply | internal/javacworker/worker.go:265-309 | A call's output is the first reply with its own request's id that was looked up after it was sent. |
| WorkerTheorems.RestartedMeansUnanswered | internal/javacworker/worker.go:396-411 | ErrRestarted is returned only for a JVM that is reaped and from which no reply to this request was looked up. |
| WorkerTheorems.ExpiredIsNotSent | internal/javacworker/worker.go:281-286 | A request whose context is done before the test that follows await is never sent, in any continuation. |
| WorkerTheorems.InFlightAtCloseIsClosed | internal/javacworker/worker.go:242-261 | A request in flight when the worker is closed ends with its reply, a timeout or ErrClosed, never with ErrRestarted. |
| WorkerTheorems.AnswerIsFinal | internal/javacworker/worker.go:336-381 | Nothing changes a caller's answer once it is given, a late reply included. |
| WorkerTheorems.TickIsTakenOnce | internal/javacworker/worker.go:340-381 | The run budget's tick, once taken by wait or by finish, is never taken again. |
| WorkerTheorems.NoLostWakeUp | internal/javacworker/worker.go:313-334 | A caller blocked on an unclosed channel has read the current JVM, which is nil or dead, and no terminal failure is recorded; whenever a live JVM serves or the worker has failed it can wake. |
| WorkerTheorems.BroadcastWakesAll | internal/javacworker/worker.go:432-472 | Publishing a JVM, retiring one and failing terminally each unblock every waiter. |
| WorkerTheorems.OneUnreaped | internal/javacworker/worker.go:422-480 | At most one JVM is unreaped, and none once supervise has returned. |
| WorkerTheorems.FailsAfterAllStarts | internal/javacworker/worker.go:428-447 | The worker has failed exactly when the last len(Backoff)+1 starts failed in a row, which is never exceeded; ready, failed and done are closed at most once, and the backoff index is in range. |
| WorkerTheorems.TrailingCounts | internal/javacworker/worker.go:424-447 | The failure count is the number of failed starts since the last good one. |
| WorkerTheorems.FailureIsFinal | internal/javacworker/worker.go:432-440 | After a terminal failure there is never a current JVM, nor another start. |
| WorkerRuns.PoisonedOnlyWhenOverrun | internal/javacworker/worker.go:385-394 | Before a call condemns its JVM there was a moment at least RunBudget after its send when no reply to its request had arrived. |
| WorkerRuns.ServingJvmDiesOnlyOfOverrun | internal/javacworker/worker.go:1-17 | With no Close and no misbehaviour or exit of the JVM itself, a JVM the worker has in charge dies only if some request on it was overrun: deadlines, cancellations and waiting for a slot or a restart never kill it. |
| WorkerRuns.SlotComesBack | internal/javacworker/worker.go:368-394 | From every reachable state, the clock, the JVM's end and the call's own steps without its context or deadline release the slot of a sent request. |
| WorkerClose.CloseWakesIff | internal/javacworker/worker.go:244-261 | `Close wakes every waiter` is false: a caller asleep when the worker is closed is, in every continuation without its context ending, awake by the time supervise has returned if and only if a JVM is serving or one failed start too many has happened and is about to be recorded. |
| WorkerClose.CloseMayWakeIff | internal/javacworker/worker.go:244-261 | Some continuation gets the caller its ErrClosed without its context ending if and only if a JVM is serving, or one failed start too many has happened or may still happen. |
| WorkerClose.CloseCanStrand | internal/javacworker/worker.go:313-334 | A run in which Close has returned and a caller is asleep for good. |
| WorkerSteps.StepKeeps | internal/javacworker/worker.go:244-544 | Every step of callers, finish goroutines, supervisor, JVMs, Close and clock keeps the worker's invariant. |
| Worker.Worker.Look | internal/javacworker/worker.go:314-317 | The locked read gives the call its error, or the current JVM together with the channel that the next broadcast closes. |
| Worker.Worker.Track | internal/javacworker/worker.go:228-234 | The method numbers the request and records its send time, as the machine does. |
| Worker.Worker.Untrack | internal/javacworker/worker.go:236-240 | The method drops the request from the record, as the machine does. |
| Worker.Worker.LongestInFlight | internal/javacworker/worker.go:214-226 | The loop returns the age of the oldest request in flight, or zero. |
| Worker.Worker.BroadcastLocked | internal/javacworker/worker.go:482-485 | Closes the current channel, which was open, and replaces it with an open one. |
| Worker.Worker.Publish | internal/javacworker/worker.go:451-465 | The method carries the machine one publication on; ready is closed once. |
| Worker.Worker.Retire | internal/javacworker/worker.go:470-475 | The method carries the machine one retirement on. |
| Worker.Worker.NoteFailure | internal/javacworker/worker.go:430-447 | The method carries the machine one failed start on: it gives up exactly after the last tolerated failure, closing failed once, and otherwise the pause's index is in range. |
| Worker.Worker.Close | internal/javacworker/worker.go:244-258 | The locked section of Close carries the machine one Close on: the first Close kills the serving and the starting JVM, and nothing is broadcast. |
| ByteStreams.LinesOfConcat | internal/javacworker/worker.go:742-761 | The complete lines and the unfinished rest of a stream are determined chunk by chunk. |
| ByteStreams.ReadLine | internal/javacworker/worker.go:742-761 | Whatever the buffer's size: the text before the first newline exactly when it has at most maxBytes bytes, io.EOF exactly on an empty stream, and the exact conditions of the two other errors. |
| ByteStreams.ReadLines | internal/javacworker/worker.go:692-701 | The reading loop gets the complete lines in order up to the first that is too long; it ends with EOF exactly when all were read and nothing is left. |
| ByteStreams.LineLogger.Write | internal/javacworker/worker.go:777-792 | The loop logs and keeps what the stream function says for the buffered bytes and the new ones. |
| ByteStreams.LoggerIsChunkIndependentIff | internal/javacworker/worker.go:777-792 | The logger delivers exactly the complete lines for every way of cutting the stream if and only if no line, finished or not, has more than 4096 bytes. |
| ByteStreams.CappedBuffer.Write | linter/run.go:140-149 | However the stream is cut, the buffer holds its first max bytes and overflow is set exactly when there were more. |
| ByteStreams.TruncateUTF8 | internal/serve/lint.go:348-356 | The result is the longest prefix of at most n bytes that ends before a rune start, or nothing. |
| ByteStreams.TruncatedIsWholeRunes | internal/serve/lint.go:347-356 | On well-formed UTF-8 the result is whole runes, and the next rune would not have fitted. |
| JavaLines.TableIsLines | internal/javacworker/java/JavacWorker.java:562-571 | The table the loop fills holds exactly the starts of the lines of section 3.4 of the Java Language Specification, CR LF being one terminator. |
| JavaLines.Lines.constructor | internal/javacworker/java/JavacWorker.java:562-571 | The loop fills that table. |
| JavaLines.Lines.Index | internal/javacworker/java/JavacWorker.java:573-585 | The binary search returns the one line that holds the offset. |
| JavaLines.Lines.LineEnd | internal/javacworker/java/JavacWorker.java:588-596 | The offset returned is the end of that line's text, before its terminator. |
| JavaLines.Lines.Column | internal/javacworker/java/JavacWorker.java:604-608 | The column counts the code points from the line's start, plus one. |
| JavaLines.Lines.Range | internal/javacworker/java/JavacWorker.java:393-405 | An emitted range starts at the offset's line and column, ends on the same line, at a column not smaller, and is emitted exactly when the clamped end is past the start. |
| JavaJson.Quote | internal/javacworker/java/JavacWorker.java:826-856 | The loop appends the string literal the specification function gives. |
| JavaJson.QuotedIsPrintable | internal/javacworker/java/JavacWorker.java:825-856 | A quoted string is printable ASCII. |
| JavaJson.Json.ParseString | internal/javacworker/java/JavacWorker.java:723-781 | The loop returns what the recursive reading gives, or the same error, and stops after the closing quote. |
| JavaJson.QuotedReadsBack | internal/javacworker/java/JavacWorker.java:723-781 | For every UTF-16 string and whatever stands around its literal, parseString on quote(s) returns s and stops right after it. |
| JavaJson.ReadsRfcStrings | internal/javacworker/java/JavacWorker.java:766-776 | Every string of section 7 of RFC 8259 is read to its end, and what is read is such a string if and only if no \u escape in it is loose, that is without four ASCII hexadecimal digits. |
| JavaJson.SignedEscapeIsAccepted | internal/javacworker/java/JavacWorker.java:766-776 | `Only RFC 8259 strings are read` is false: "\u+041" is read as A. |
| JavaReply.Handle | internal/javacworker/java/JavacWorker.java:310-338 | The reply is the framed report or, after an exception, the framed cause, with nothing of the report written before it; one newline is at its end. |
| JavaReply.Check | internal/javacworker/java/JavacWorker.java:363-413 | check appends the whole report, or some part of one and throws. |
| JavaReply.ReplyIsPrintable | internal/javacworker/java/JavacWorker.java:310-327 | Whatever paths, rules, messages and causes hold, the reply before its newline is printable ASCII. |
| JavaReply.RepliesAreLines | internal/javacworker/java/JavacWorker.java:327-337 | The complete lines of the reply stream are the replies, in order, with nothing left over. |
| CompilerRebuild.RebuildsAreExclusive | internal/javacworker/java/JavacWorker.java:265-291 | In every interleaving at most one thread is between winning the flag and finishing its first request, and the flag is up meanwhile. |
| CompilerRebuild.FlagIsReleased | internal/javacworker/java/JavacWorker.java:265-299 | Whenever the flag is up exactly one thread holds it, and at most four steps of that thread alone, its next request included, lower it. |
| CompilerRebuild.OneThreadRebuilds | internal/javacworker/java/JavacWorker.java:265-299 | In every run of the machine with one thread, MAX_USES = M >= 1, no heap crossing and no exception, k finished requests have caused exactly floor((k-1)/M) rebuilds. |
| CompilerRebuild.Worker.Take | internal/javacworker/java/JavacWorker.java:265-289 | The method carries the machine from an idle thread to a serving one by that thread's steps of `compiler`. |
| CompilerRebuild.Worker.Warm | internal/javacworker/java/JavacWorker.java:293-299 | The method carries the machine one `warmed` on. |
| CompilerRebuild.Worker.Serve | internal/javacworker/java/JavacWorker.java:265-299 | k requests one after the other make a run of the machine with k finished requests and floor((k-1)/M) rebuilds. |

## Left out

- Deleting a set's directory is assumed to succeed; directory names are assumed fresh (internal/serve/cache.go:118, 223, 236).
- A tar reader is assumed to yield at most the bytes a header declares in the cache machine, and exactly those in ExtractAssets. Reading the tar format is not modelled.
- ExtractAssets.ExtractAssets: reserve is a parameter that says per header whether the claim succeeds; the cache machine takes the upload as a sequence of files, so the two meet only in their step of reserving.
- The cache machine creates a member's empty file in the step in which its reserve returns; only the uploading thread looks at the staging directory.
- AssetCacheRemovers.StaleSetGoes: says that the remover's steps suffice, not that a scheduler takes them.
- The cache machine counts file bytes and no directories, and does not make uploads of one key take its lock, which admits more interleavings than the code.
- Times are integers in one order. All 64-bit counters and ids are unbounded; their wrap-around is not modelled.
- The worker's goroutines are modelled as a machine on values. The classes capture the updates in place of `process` and `Worker` under their mutexes; a goroutine's local variables are part of its phase in the machine.
- WorkerModel counts the time of the send and the start of the budget's timer as one step when a request is tracked; both come after the send. The pause of WaitDelay, pids, process groups and the text of log lines are left out.
- validReport, and what a JVM prints, are arbitrary inputs; JSON decoding of a reply line is a record or `unreadable`.
- Check's refusal of an empty file list, Start's defaults and the readiness channels' readers would only add easy members.
- Worker.Worker.Close: ends with the lock section; the wait for done is the machine's `Returned`, where WorkerTheorems.OneUnreaped says that no JVM is left.
- WorkerRuns.SlotComesBack: says that the slot can come back by those steps alone, not that a scheduler takes them.
- javac itself, its diagnostics, the file walk, ct.sym and heap measurement are inputs: heap crossings are an arbitrary number at every test.
- CompilerRebuild.OneThreadRebuilds: is about one thread, a heap that crosses no threshold and no exception, as the floor formula needs.
- JavaJson.Json.ParseString: an exception carries its reason and not its offset; what Character.digit gives outside ASCII is an arbitrary function.
- Numbers, arrays and objects of the JSON reader are left out: the number reader hands the text to Double.valueOf.
- JavaLines.Lines.Range: offsets are at least zero, as javac's are; NOPOS starts are printed as line 0 and have no range.
- Paths: path.Clean and path.Join are modelled lexically on characters; path.Clean's buffer is not.
- ByteStreams: bufio's buffer is a size and the bytes to come; how many arrive per read is up to the stream.
- HTTP handlers, the pool, readiness, the tool drivers, manifests, token checks and shutdown are left out: plumbing, or easy members.
