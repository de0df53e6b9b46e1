# Verified model of the ReasonFirst GitLab agent

A Dafny model of the parts of the agent whose correctness rests on interleavings, crashes,
streams or string rewriting, with proofs of what those parts promise. `dafny verify dfyconfig.toml`
checks the whole project.

| module | what it models |
|---|---|
| `FileLock` | the re-entrant workspace lock: a step system over any number of processes and threads, the tables of one process as a class, and how long a call takes |
| `AppServerClient` | the App Server client's transport: requests, the reader, closers of every kind and the loss observer, as atomic steps on shared state |
| `ServerRequests` | how one request from the server is handled, answered and finalized, whatever fails |
| `HttpsMigration`, `MigrationJournal` | planning the HTTP to HTTPS upgrade, and applying it with a journal under crashes and failing writes |
| `LogEvidence`, `Utf8` | the chunk-fed log sanitizer, and UTF-8 (section 3 of RFC 3629) |
| `SecretScan` | the patch scanner, and the printed patch log it reads |
| `NativeShape` | the bounded explicit-stack walk and the validator of its report |
| `SetupConfig`, `PyText` | the `.env` reader and editor, and the Python text operations it uses |
| `ReadMcp` | the byte-budgeted listing of merge request diffs |
| `WorkerRecipe` | collecting interpreter evidence, pairing it with its commands again, and grouping recipes |
| `ReviewGates`, `Finish` | the review gates and the reviewed finish of a workspace that may change meanwhile |

Code that the source writes as loops over changing variables is a method with invariants; objects
that change are classes (`LockTables`, `Transport`, `ServerRequest`, `Migration`, `SafeLogTail`,
`Manager`). Several threads or processes are step systems: a state, the atomic steps, and theorems
about every run. What the source leaves to regular expressions, Git, JSON or digests enters as
function values with stated laws.

## Findings

* `.env` editing takes effect for an update exactly when its key is an identifier and either the
  value is already the one read or it holds no line boundary and wears no matching quotes
  (`SetupConfig.ReadsBackExactlyWhen`). The editor accepts values, such as one with a vertical tab
  or in quotes, that are then read differently. Editing twice is editing once exactly when keys are
  identifiers and values hold no line boundary (`RenderTwiceExactlyWhen`).
* The migration's parser and its rewriting pattern disagree on `export` followed by a tab. Such a line
  is rewritten though it is not read as the endpoint; the configuration file then holds the key twice
  and no plan can be built again (`HttpsMigration.RewrittenEnv`, `TabAfterExport`, `DeadEnd`).
* An edited `.env` or metadata file is not checked against the one mebibyte that can be read. A file at
  the limit grows past it, is written, and no plan can be built again (`HttpsMigration.OneByteOver`).
  For configuration files with LF or CRLF line ends, forward recovery holds if and only if every planned
  change leaves a readable file and one line of the configuration matched
  (`MigrationJournal.RecoversExactlyWhen`).
* Without activity hooks, `close()` wakes nobody itself: until the reader ends, a waiting request is left
  to its timeout (`AppServerClient.PlainCloseStrands`); any other closer is followed by a wake-up
  (`ClosedIsFollowed`, `ElseNotFollowed`).
* The reader's put blocks. A second answer to a request that has timed out, or a closing error before
  its answer, stops the reader for good once the request is gone (`AppServerClient.StuckHappens`).
* History is scanned with Git's name quoting on, and the scanner does not undo it: a name with a quote,
  a backslash, a control or a non-ASCII character is reported in its quoted form
  (`SecretScan.PathsRightExactlyWhen`, `QuotedName`). No finding is lost, and commits are right.
* A finish plan reads the changed paths before the diff it puts into the snapshot. A protected path that
  appears between the two is not gated (`Finish.GatesSpeakOf`, `LateProtectedPath`).
* An observer that calls `close()` from inside the loss notification wakes waiting requests while it is
  still running (`AppServerClient.ReentrantWakesEarly`); observers that do not are never overtaken.
* Protected paths are compared without the dots and slashes at their front, so a rule for `.env` covers
  `env` as well (`ReviewGates.LeadIsDropped`).
* Pairing recipe evidence picks the right command exactly when no command without a binding looks
  like the next one that has one. That holds whenever bindings are stable, and fails when one is
  approved between two reads of a repeated command (`WorkerRecipe.ApprovedMidway`).

## Model

| member | source | states |
|---|---|---|
| `FileLock.StepKeeps` | src/gitlab_agent/locking.py:69-155 | every step of every thread, thread start and end, and process crash keeps the invariant that the local lock's owner and count, the `_HELD` entry, the open handle and the operating-system lock agree with where each thread is |
| `FileLock.MutualExclusion` | src/gitlab_agent/locking.py:69-155 | in every run at most one thread of one process is inside a body on a path |
| `FileLock.InsideHolds` | src/gitlab_agent/locking.py:109-133 | a thread inside a body owns the local lock, is registered, and has the handle that locks the file |
| `FileLock.LeaveIsLegal` | src/gitlab_agent/locking.py:155-155 | the final release of the local lock is always made by its owner, so it never raises |
| `FileLock.SettleIsRight` | src/gitlab_agent/locking.py:134-154 | `finally` releases a handle exactly when the body ran and was the outermost on the path, and then the handle that call opened |
| `FileLock.NestedGoesIn` | src/gitlab_agent/locking.py:76-81 | a nested call never waits, gives up or opens the file |
| `FileLock.CountIsDepth` | src/gitlab_agent/locking.py:98-107 | the table's count and the local lock's count are the nesting depth; there is no entry at depth zero |
| `FileLock.BalancedRestores` | src/gitlab_agent/locking.py:91-155 | whenever a thread is back in the same bodies, its share of every table, handle and lock is what it was |
| `FileLock.NothingLeft` | src/gitlab_agent/locking.py:134-155 | with no call and no body under way nothing is registered, open or locked |
| `FileLock.FreeIsTaken` | src/gitlab_agent/locking.py:122-133 | in every run, an attempt on a file that no handle has locked takes it, and one more step has the thread inside, with the file locked by the handle it opened |
| `FileLock.StaysOutExactlyWhile` | src/gitlab_agent/locking.py:123-128 | an attempt leaves the thread polling, and everything as it was, exactly while a handle of another thread has the file locked |
| `FileLock.GoesInAndOut` | src/gitlab_agent/locking.py:90-155 | a path that nobody has is entered step by step without waiting, and leaving the body gives back every table, handle and lock, but for the local lock made on first use |
| `FileLock.FailsAndRestores` | src/gitlab_agent/locking.py:113-155 | a call that fails on opening the file or while polling gives everything back too |
| `FileLock.NestsAndRestores` | src/gitlab_agent/locking.py:102-155 | a nested call goes one level deeper with handles and file locks as they were, and leaving it gives back the state before |
| `FileLock.GivesUp` | src/gitlab_agent/locking.py:92-96 | while another thread has the local lock a call can only give up, which changes nothing |
| `FileLock.UnlockFrees` | src/gitlab_agent/locking.py:146-148 | unlocking frees exactly the file of the call |
| `FileLock.LoneThreadEnters` | src/gitlab_agent/locking.py:69-133 | a run from nothing whose last state has the thread inside |
| `FileLock.CrashKeeps` | src/gitlab_agent/locking.py:78-80 | a crash frees every file the process had locked, keeps the invariant, and leaves the threads and the shares of other processes as they were |
| `FileLock.LockTables.LocalLock` | src/gitlab_agent/locking.py:20-27 | a path's lock is made once, kept, and shared with no other path |
| `FileLock.LockTables.Enter` | src/gitlab_agent/locking.py:102-107 | the new table and flag are those of the step system |
| `FileLock.LockTables.Record` | src/gitlab_agent/locking.py:130-131 | the new table has the handle at level one |
| `FileLock.LockTables.Depart` | src/gitlab_agent/locking.py:136-144 | the new table and released handle are those of the step system |
| `FileLock.PollFile` | src/gitlab_agent/locking.py:122-128 | the loop succeeds exactly when at some attempt before the deadline, or the first after it, no handle has the file locked, and ends within the timeout and one interval |
| `FileLock.WaitToEnter` | src/gitlab_agent/locking.py:91-128 | a call enters or fails within twice the timeout and one interval, and exactly when it enters |
| `AppServerClient.StepKeeps` | src/gitlab_agent/codex_app_server.py:984-1087 | every atomic step of requests, reader, closers and observer keeps the invariant behind the theorems below |
| `AppServerClient.NobodyWaitsOut` | src/gitlab_agent/codex_app_server.py:989-1006 | after a closer has woken the waiters it copied, every waiting request has a message and cannot time out, and none passes the running check any more |
| `AppServerClient.ClosedIsFollowed` | src/gitlab_agent/codex_app_server.py:984-987 | for every configuration: a closed transport has woken its waiters or some thread still has that to do, unless only a plain `close()` without activity hooks has set the flag |
| `AppServerClient.ElseNotFollowed` | src/gitlab_agent/codex_app_server.py:1524-1530 | and in that case nobody has been woken, and no thread that has set the flag has a wake-up left to make |
| `AppServerClient.PlainCloseStrands` | src/gitlab_agent/codex_app_server.py:1524-1530 | a run in which such a `close()` leaves a request to wait out its timeout |
| `AppServerClient.StuckForGood` | src/gitlab_agent/codex_app_server.py:967-972 | a reader with a message for a full queue whose request is gone stays blocked in every continuation |
| `AppServerClient.ElseUnblocked` | src/gitlab_agent/codex_app_server.py:967-972 | while the request is not gone, steps of its own thread let the reader go on |
| `AppServerClient.StuckHappens` | src/gitlab_agent/codex_app_server.py:967-972 | a run with such a reader: two answers to a request that timed out |
| `AppServerClient.FirstMessageStays` | src/gitlab_agent/codex_app_server.py:967-972 | the first message in a request's queue is the one the request returns; a closing error never replaces an answer, nor one answer another |
| `AppServerClient.AnswersAreOwn` | src/gitlab_agent/codex_app_server.py:967-972 | in every run, an answer that a request returns was read before with that request's identifier, and the thread returning it made the request |
| `AppServerClient.AnswerIsDelivered` | src/gitlab_agent/codex_app_server.py:967-972 | an answer read for a pending request with an empty queue goes into that queue and no other; one for no pending request changes nothing |
| `AppServerClient.RequestIsAnswered` | src/gitlab_agent/codex_app_server.py:1063-1078 | on an open transport a request that is answered returns that answer and leaves the pending table as it was |
| `AppServerClient.RequestGivesUp` | src/gitlab_agent/codex_app_server.py:1069-1078 | a failed write or a timeout reports the loss to the observer, forgets the request and raises |
| `AppServerClient.RequestFailsClosed` | src/gitlab_agent/codex_app_server.py:722-725 | on a closed transport a registered request can only fail: it is never written |
| `AppServerClient.CloserAlone` | src/gitlab_agent/codex_app_server.py:631-656 | each kind of closer that runs by itself comes to its end: whether the transport is then closed, the observer called, and which waiters got the closing error |
| `AppServerClient.ReaderEnds` | src/gitlab_agent/codex_app_server.py:984-987 | when the reader's stream ends the transport is closed, the observer has been called, and every waiter without a message has the closing error |
| `AppServerClient.ReaderTrouble` | src/gitlab_agent/codex_app_server.py:930-933 | a message that is not understood, or a failing hook, reports the loss and the reader goes on |
| `AppServerClient.ObserverRaises` | src/gitlab_agent/codex_app_server.py:639-648 | an observer that raises has the transport closed and the waiters woken before the latch is given back |
| `AppServerClient.ObservedOnce` | src/gitlab_agent/codex_app_server.py:631-642 | the loss observer is called at most once, re-entrant or not |
| `AppServerClient.ObservedBeforeWaking` | src/gitlab_agent/codex_app_server.py:635-648 | an observer that does not re-enter has ended before any waiter gets the closing error |
| `AppServerClient.ReentrantWakesEarly` | src/gitlab_agent/codex_app_server.py:639-642 | a run in which a re-entrant observer is overtaken |
| `AppServerClient.Transport.Register` | src/gitlab_agent/codex_app_server.py:1064-1068 | the new pending table, queue and identifier |
| `AppServerClient.Transport.Forget` | src/gitlab_agent/codex_app_server.py:1076-1078 | the waiter leaves the pending table and nothing else changes |
| `AppServerClient.Transport.PutNowait` | src/gitlab_agent/codex_app_server.py:1002-1006 | an empty queue gets the message and a full one is left alone |
| `AppServerClient.Transport.FailPending` | src/gitlab_agent/codex_app_server.py:989-1006 | exactly the waiters with an empty queue get the closing error |
| `AppServerClient.FailedWakesAll` | src/gitlab_agent/codex_app_server.py:1000-1006 | one uninterrupted pass leaves no waiter's queue empty and delivered messages unchanged, and a second pass changes nothing |
| `AppServerClient.WakingIsFailing` | src/gitlab_agent/codex_app_server.py:1000-1006 | the snapshot and single puts of the step system, in any order and with no other thread between, amount to that pass |
| `ServerRequests.ServerRequest.HandleMessage` | src/gitlab_agent/codex_app_server.py:930-966 | a request that is accepted and whose thread starts is handed to its handler once, and answered with what that returns; every other reply is a refusal; a tracked request is finalized once, with true exactly when a reply was written and no earlier write failed; nothing is written after a completed reply; when no reply is even attempted |
| `ServerRequests.ServerRequest.HandleApproval` | src/gitlab_agent/codex_app_server.py:827-878 | the same for an approval request, for every outcome of handler, writes and hooks |
| `ServerRequests.ServerRequest.HandleServer` | src/gitlab_agent/codex_app_server.py:880-928 | the same for a dynamic tool call |
| `ServerRequests.ServerRequest.Reject` | src/gitlab_agent/codex_app_server.py:788-825 | one write and then, if tracked, the finalizer told whether it succeeded |
| `ServerRequests.ServerRequest.FinishOnce` | src/gitlab_agent/codex_app_server.py:671-683 | only the first call reaches the finalizer |
| `ServerRequests.ServerRequest.EmitEvent` | src/gitlab_agent/codex_app_server.py:611-624 | an event hook's failure is contained when activity is tracked |
| `ServerRequests.Ends` | src/gitlab_agent/codex_app_server.py:876-878 | finalizing after the writes with their outcome meets the requirements |
| `HttpsMigration.UpgradedProject` | src/gitlab_agent/https_migration.py:215-229 | a cached origin names the same project before and after the upgrade, and upgrading twice is upgrading once |
| `HttpsMigration.ValidProjectExactlyWhen` | src/gitlab_agent/https_migration.py:232-234 | a project is two or more plain names, none of them dots only, with slashes between |
| `HttpsMigration.SchemesDiffer` | src/gitlab_agent/https_migration.py:223-228 | no URL is under both endpoints |
| `HttpsMigration.EnvEntryIs` | src/gitlab_agent/https_migration.py:248-258 | a line is read as key and value exactly when, past its indentation, it is no comment and is `export` and a space or nothing, a name, the first `=` and a value |
| `HttpsMigration.EnvDataIs` | src/gitlab_agent/https_migration.py:242-262 | the settings hold exactly what the lines give, and are refused exactly when two lines give one key |
| `HttpsMigration.MatchesExactlyWhen` | src/gitlab_agent/https_migration.py:344-344 | the rewriting pattern matches exactly the lines that the editor takes for the endpoint's key |
| `HttpsMigration.ReadIsMatched` | src/gitlab_agent/https_migration.py:242-262 | every line read as the endpoint matches the rewriting pattern |
| `HttpsMigration.RewrittenReads` | src/gitlab_agent/https_migration.py:344-347 | a rewritten line is read as the new endpoint |
| `HttpsMigration.RewrittenLines` | src/gitlab_agent/https_migration.py:342-348 | line by line, each that assigns the endpoint's key becomes the new assignment with its own line end, and every other is kept |
| `HttpsMigration.RewrittenEnv` | src/gitlab_agent/https_migration.py:341-348 | the rewritten text reads as the old settings with the new endpoint exactly when one line matches; otherwise it is refused as a duplicate |
| `HttpsMigration.TabAfterExport` | src/gitlab_agent/https_migration.py:252-253 | a file that reads well and in which two lines match |
| `HttpsMigration.EnvAgain` | src/gitlab_agent/https_migration.py:55-68 | the edited configuration file needs no further edit exactly when one line matched and it is not too long to be read; otherwise it is refused |
| `HttpsMigration.RepoAgain` | src/gitlab_agent/https_migration.py:365-391 | an edited Git configuration keeps its project and needs no further edit; one that would be too long is refused when planned |
| `HttpsMigration.StateAgain` | src/gitlab_agent/https_migration.py:398-433 | edited metadata needs no further edit, or is refused exactly when it is too long to be read |
| `HttpsMigration.NumberOfLink` | src/gitlab_agent/https_migration.py:427-432 | the number found in an upgraded link is the one put into it |
| `HttpsMigration.MakePlan` | src/gitlab_agent/https_migration.py:303-439 | the loops accumulate exactly the planned changes and inputs, and there is a plan if and only if everything read is as `Plannable` says |
| `HttpsMigration.PlannedExactlyWhen` | src/gitlab_agent/https_migration.py:303-439 | a plan is built if and only if the inventory is within bounds, every file can be read, the configuration gives one of the endpoints and allows some projects, each repository has one origin of its own and at most one push URL, both of the allowed project its directory is named after, and each workspace names such a project, fits it, and has no link or one to a merge request of it |
| `HttpsMigration.ChangedExactlyWhen` | src/gitlab_agent/https_migration.py:340-433 | a plan has a change for a file exactly when the file is not yet upgraded |
| `HttpsMigration.ReviewMixed` | src/gitlab_agent/https_migration.py:340-433 | with any subset of the changes made, each of which survives, planning succeeds and finds exactly the others |
| `HttpsMigration.Resume` | src/gitlab_agent/https_migration.py:303-439 | after the first changes, planning succeeds if and only if each of them survives it, and then has exactly the rest, in order |
| `HttpsMigration.RepoEdit` | src/gitlab_agent/https_migration.py:375-391 | there is no edit exactly when origin and push URL are HTTPS already; an edit makes them the HTTPS ones of the same project and changes nothing else |
| `HttpsMigration.StateEdit` | src/gitlab_agent/https_migration.py:423-433 | there is no edit exactly when the saved link is absent or HTTPS already; an edit changes its scheme and no other field |
| `HttpsMigration.NoChangesMeansUpgraded` | src/gitlab_agent/https_migration.py:303-439 | when a plan has no changes, the configured endpoint, every origin and push URL and every saved link are HTTPS |
| `HttpsMigration.DeadEnd` | src/gitlab_agent/https_migration.py:55-68 | with a change made that does not survive, no plan can be built, whatever else is on the disk |
| `HttpsMigration.EnvChangeFirst` | src/gitlab_agent/https_migration.py:341-348 | the configuration file's change comes first, and for all changes to survive one line must have matched and the result be readable |
| `HttpsMigration.OneByteOver` | src/gitlab_agent/https_migration.py:58-67 | a configuration file at the size limit whose edit is one byte too long to be read again |
| `MigrationJournal.Migration.Apply` | src/gitlab_agent/https_migration.py:545-604 | at every moment the journal fits the disk; a first part of the changes is made however it ends; finishing makes all and leaves nothing to plan; when no write goes wrong it finishes exactly when every change survives planning |
| `MigrationJournal.Migration.BackUp` | src/gitlab_agent/https_migration.py:565-571 | no file is changed, and the copies are complete when it goes through |
| `MigrationJournal.Migration.MakeChange` | src/gitlab_agent/https_migration.py:576-582 | pending, writing, applied around one atomic replacement, true at every stop |
| `MigrationJournal.Migration.MakeChanges` | src/gitlab_agent/https_migration.py:575-582 | the same over all changes, in order |
| `MigrationJournal.Migration.Interrupt` | src/gitlab_agent/https_migration.py:594-599 | marking the manifest interrupted keeps it true, if that write fails too |
| `MigrationJournal.StageIsTruth` | src/gitlab_agent/https_migration.py:562-593 | pending files hold their before bytes, applied ones their after bytes, at most one is being written, other files are untouched, and all copies exist before the first endpoint write |
| `MigrationJournal.ForwardRecovery` | src/gitlab_agent/https_migration.py:545-604 | when every planned change survives planning: after any number of attempts stopped or failed anywhere, finishing gives the disk of an uninterrupted apply, and a further plan has no changes |
| `MigrationJournal.NoRecovery` | src/gitlab_agent/https_migration.py:545-604 | when some change does not, no run of attempts ends where a plan has no changes, and finishing leaves a disk that cannot be planned |
| `MigrationJournal.RecoversExactlyWhen` | src/gitlab_agent/https_migration.py:545-604 | the two together: recovery holds if and only if every planned change survives planning |
| `MigrationJournal.RecoveredIsUpgraded` | src/gitlab_agent/https_migration.py:583-593 | and on that disk every endpoint is HTTPS |
| `LogEvidence.SafeLogTail.Feed` | src/gitlab_agent/log_evidence.py:75-91 | a chunk is accepted exactly while the bytes so far are acceptable as a whole |
| `LogEvidence.SafeLogTail.Line` | src/gitlab_agent/log_evidence.py:93-116 | a line adds its contribution, redactions and key state, or is refused |
| `LogEvidence.LinesAre` | src/gitlab_agent/log_evidence.py:81-91 | the lines are the input cut after each line feed, and together all of it |
| `LogEvidence.TextsAre` | src/gitlab_agent/log_evidence.py:94-103 | a visible text is the decoded line without CSI sequences and then without control characters |
| `LogEvidence.OutputIs` | src/gitlab_agent/log_evidence.py:104-116 | by the markers alone: a line inside a key block adds nothing; outside, one with a marker adds the notice and any other its redacted text |
| `LogEvidence.ClosedExactlyWhen` | src/gitlab_agent/log_evidence.py:109-110 | a line is outside exactly when no earlier line has a marker or the last marker of the last such line is END |
| `LogEvidence.RedactionsAre` | src/gitlab_agent/log_evidence.py:108-115 | and each adds its kinds to the redactions, with one name for all assignments and one for key blocks |
| `LogEvidence.SafeLogTail.Append` | src/gitlab_agent/log_evidence.py:118-123 | the tail stays the last `cap` bytes of all sanitized output |
| `LogEvidence.SafeLogTail.Finish` | src/gitlab_agent/log_evidence.py:125-144 | the report is that of one pass over all bytes received |
| `LogEvidence.ReadTrace` | src/gitlab_agent/log_evidence.py:75-143 | for every split into chunks, the outcome is that of one pass over the whole trace |
| `LogEvidence.SucceedsExactlyWhen` | src/gitlab_agent/log_evidence.py:75-103 | success exactly when size and lines are within limits, all is valid UTF-8 and no line keeps an escape |
| `LogEvidence.RefusalIsFinal` | src/gitlab_agent/log_evidence.py:78-102 | what cannot be accepted stays so, whatever follows |
| `LogEvidence.ContentIsLongestSuffix` | src/gitlab_agent/log_evidence.py:131-137 | the content is the longest suffix of the tail on a character boundary, at most `cap` bytes, and everything when not truncated |
| `LogEvidence.KeyBlocksStayHidden` | src/gitlab_agent/log_evidence.py:104-111 | traces that differ only on private-key lines have the same sanitized output and redactions |
| `LogEvidence.ReportsHideBlocks` | src/gitlab_agent/log_evidence.py:104-144 | and their reports differ at most in the original size and the truncation flag, which follow from the length |
| `LogEvidence.BlockIsHidden` | src/gitlab_agent/log_evidence.py:104-111 | lines stay hidden from BEGIN until a line ends with END |
| `Utf8.DecodeEncode` | src/gitlab_agent/log_evidence.py:119-119 | decoding what was encoded gives the text back |
| `Utf8.EncodeDecode` | src/gitlab_agent/log_evidence.py:94-97 | encoding what was decoded gives the bytes back |
| `Utf8.LineFeedSplits` | src/gitlab_agent/log_evidence.py:83-95 | validity can be checked line by line |
| `Utf8.IgnoreSuffix` | src/gitlab_agent/log_evidence.py:131-131 | ignoring errors in a cut suffix keeps its longest valid suffix and loses at most three bytes |
| `Utf8.IgnorePrefix` | src/gitlab_agent/read_mcp.py:114-120 | ignoring errors in a cut prefix keeps its longest valid prefix |
| `SecretScan.ScanAddedDiff` | src/gitlab_agent/secret_scan.py:48-88 | the loop reports what the line by line definition does |
| `SecretScan.MatchPatterns` | src/gitlab_agent/secret_scan.py:78-86 | one finding per matching pattern, in order |
| `SecretScan.MatchesAre` | src/gitlab_agent/secret_scan.py:78-86 | each pattern that the cleaned line matches gives one finding, in order, with its kind, the commit and the path that may be shown, and with the line withheld |
| `SecretScan.StateIs` | src/gitlab_agent/secret_scan.py:56-74 | after any lines: in a hunk exactly when a hunk header came since the last commit or file header; the last commit line's identifier; the path last named since then before a hunk |
| `SecretScan.LineAdds` | src/gitlab_agent/secret_scan.py:56-86 | in any text, a line adds findings exactly when it is an added line of a hunk, and then those of its text |
| `SecretScan.PathReadBack` | src/gitlab_agent/secret_scan.py:69-74 | a deletion is read as no path, a quoted name as it is written with quotes and escapes, any other name without space at its end |
| `SecretScan.ReadBackExactlyWhen` | src/gitlab_agent/secret_scan.py:69-74 | a path is read back if and only if its name needs no quoting and does not end with a space |
| `SecretScan.QuotedName` | src/gitlab_agent/secret_scan.py:69-74 | a name with an accented letter is reported in Git's quoted form |
| `SecretScan.ScanInvertsPrint` | src/gitlab_agent/secret_scan.py:48-88 | scanning a printed patch log, names quoted as Git does, gives exactly its matching added lines in order with their commit, and their path as read; text beginning with `++ ` included |
| `SecretScan.PathsRightExactlyWhen` | src/gitlab_agent/history_scan.py:51-51 | every reported path is the file's own if and only if no name in the log needs quoting or ends with a space |
| `NativeShape.Walk` | scripts/loaded_service_e2e.py:71-99 | complete exactly when the tree has at most 4096 nodes and height at most 16; then all figures are the recursive ones; the report passes validation exactly when its top-level entries are within bounds |
| `NativeShape.MeasureIs` | scripts/loaded_service_e2e.py:71-99 | the recursive figures are those of the list of all nodes: their number and greatest depth, how many are each sought text, and how often each sought name is a key |
| `NativeShape.ReportIs` | scripts/loaded_service_e2e.py:53-70 | which figure the report gives under which name, and the type of each selected entry |
| `NativeShape.Open` | scripts/loaded_service_e2e.py:81-98 | expanding a node keeps visited and queued nodes within 4096 and loses no count |
| `NativeShape.PushEntries` | scripts/loaded_service_e2e.py:87-90 | keys and items are queued and keys counted |
| `NativeShape.PushItems` | scripts/loaded_service_e2e.py:95-95 | items are queued one level deeper |
| `NativeShape.Accepted` | scripts/runtime_e2e.py:121-146 | a walk's report is accepted exactly when its top-level entry count is within bounds |
| `SetupConfig.ReadEnvAssignments` | src/gitlab_agent/setup_config.py:73-93 | the dictionary that the lines give, or a duplicate exactly when two lines give one key |
| `SetupConfig.EntryIs` | src/gitlab_agent/setup_config.py:15-18 | a line is read as a key and its decoded value exactly when it is whitespace, `export` and whitespace or nothing, an identifier, whitespace, `=` and a value; every other line is read as nothing |
| `SetupConfig.ValueIs` | src/gitlab_agent/setup_config.py:56-60 | the decoded value is the text without whitespace around it and without the pair of quotes it may wear |
| `SetupConfig.DictionaryIs` | src/gitlab_agent/setup_config.py:82-92 | the dictionary holds exactly what the lines give, and there is none exactly when two lines give one key |
| `SetupConfig.EntryKey` | src/gitlab_agent/setup_config.py:83-87 | every key read is an identifier |
| `SetupConfig.RenderEnvUpdates` | src/gitlab_agent/setup_config.py:108-148 | no updates change nothing; the first refused value, then the first repeated assignment, is the error; otherwise the edited text |
| `SetupConfig.ValidateUpdates` | src/gitlab_agent/setup_config.py:63-70 | accepted exactly when every value is on one line without edge whitespace |
| `SetupConfig.RewriteAll` | src/gitlab_agent/setup_config.py:124-139 | the rewritten lines and the keys seen, or the first repeat |
| `SetupConfig.AddMissing` | src/gitlab_agent/setup_config.py:142-146 | the last line is ended and the missing keys follow in order |
| `SetupConfig.ReadsBack` | src/gitlab_agent/setup_config.py:108-148 | when every update settles, reading the edited text gives the old assignments overridden |
| `SetupConfig.UnsettledIsMisread` | src/gitlab_agent/setup_config.py:56-60 | an update that does not settle is not read back |
| `SetupConfig.ReadsBackExactlyWhen` | src/gitlab_agent/setup_config.py:56-148 | reading back holds if and only if every update settles |
| `SetupConfig.RenderTwice` | src/gitlab_agent/setup_config.py:108-148 | editing twice is editing once, for identifier keys and values without line boundaries, quoted ones included |
| `SetupConfig.EditGrows` | src/gitlab_agent/setup_config.py:108-148 | with a key that is no identifier, or a value with a line boundary, every edit of any text adds a line boundary to it |
| `SetupConfig.RenderTwiceExactlyWhen` | src/gitlab_agent/setup_config.py:108-148 | editing twice is editing once if and only if every key is an identifier and no value holds a line boundary |
| `SetupConfig.ReadUnbroken` | src/gitlab_agent/setup_config.py:56-60 | no value that is read holds a line boundary |
| `SetupConfig.OthersKept` | src/gitlab_agent/setup_config.py:108-148 | lines assigning no updated key are kept byte for byte in order; a newline is added only to end the last line |
| `SetupConfig.EditedLine` | src/gitlab_agent/setup_config.py:124-139 | line by line, one that assigns an updated key another value becomes `key=value` with its own line end, or else CRLF exactly when the text has it; any other line is kept, the last one ended if lines follow |
| `SetupConfig.AddedLines` | src/gitlab_agent/setup_config.py:141-146 | the added lines are `key=value` for the updated keys that no line assigns, in the order of the updates |
| `SetupConfig.RenderedSplits` | src/gitlab_agent/setup_config.py:119-148 | the edited text splits into the rewritten lines and the added ones |
| `SetupConfig.ReadableIsRepeatFree` | src/gitlab_agent/setup_config.py:129-132 | a file that reads makes the editor report no duplicate |
| `PyText.SplitAppend` | src/gitlab_agent/setup_config.py:120-120 | line splitting distributes over a line boundary |
| `PyText.JoinSplit` | src/gitlab_agent/setup_config.py:148-148 | splitting loses nothing |
| `ReadMcp.ListDiffs` | src/gitlab_agent/read_mcp.py:526-569 | the items are a prefix of the diffs, each cut on a character boundary to what the budget leaves, within the budget in all; and exactly when the flag is set |
| `ReadMcp.CapIsLongestPrefix` | src/gitlab_agent/read_mcp.py:114-120 | a clipped text is the longest prefix that fits |
| `WorkerRecipe.CollectEvidence` | src/gitlab_agent/python_runtime.py:389-394 | the evidence is that of the bound commands, in order |
| `WorkerRecipe.PairCommands` | src/gitlab_agent/worker_recipe.py:76-82 | each item takes the first match after the one before, and it runs out only when no pairing exists |
| `WorkerRecipe.PairingIsRight` | src/gitlab_agent/worker_recipe.py:76-82 | pairing collected evidence always succeeds, and picks the originating commands if and only if no unbound command looks like the next bound one |
| `WorkerRecipe.StableIsUnshadowed` | src/gitlab_agent/python_runtime.py:333-339 | with stable bindings that is so, repeated names and arguments notwithstanding |
| `WorkerRecipe.ApprovedMidway` | src/gitlab_agent/python_runtime.py:391-394 | a binding approved between two reads: the evidence of the second of two equal commands is paired with the first, whose timeout differs |
| `WorkerRecipe.CollectedRecipe` | src/gitlab_agent/worker_recipe.py:11-29 | a collected item is refused only for its length or platform; its recipe keeps the contract's arguments and the binding's interpreter, worktree and platform |
| `WorkerRecipe.RecipeTime` | src/gitlab_agent/worker_recipe.py:26-27 | a recipe's time is the command's own or the settings', within both and a day |
| `WorkerRecipe.MakeRecipes` | src/gitlab_agent/worker_recipe.py:76-89 | collecting, pairing and building together: each bound command gets its recipe in order, under its own timeout if and only if nothing shadows it, and so with stable bindings; pairing never fails |
| `WorkerRecipe.GroupByRuntime` | src/gitlab_agent/worker_recipe.py:77-89 | groups in order of first appearance, each with its interpreter's items in order |
| `WorkerRecipe.GroupSharesExecutable` | src/gitlab_agent/worker_recipe.py:90-97 | every member of a group runs under the executable of the shared script |
| `ReviewGates.PathIsProtected` | src/gitlab_agent/review_gates.py:12-23 | protected exactly when some rule covers the path |
| `ReviewGates.NormalIs` | src/gitlab_agent/review_gates.py:13-15 | the normal form of a path is the path without dots and slashes at its front and with slashes for backslashes |
| `ReviewGates.LeadIsDropped` | src/gitlab_agent/review_gates.py:13-15 | so paths that differ only in what is at their front are protected alike |
| `ReviewGates.CoversByComponents` | src/gitlab_agent/review_gates.py:18-22 | a rule covers the path it names and what lies below it, by whole components |
| `ReviewGates.EvaluateReviewGates` | src/gitlab_agent/review_gates.py:26-146 | the blockers are exactly those that have a reason, each once, and none exactly when the candidate is clear; protected changes and findings in order, the redacted diff, the warnings |
| `ReviewGates.UnblockedMeans` | src/gitlab_agent/review_gates.py:87-120 | no reason to block if and only if required commands passed, coverage is complete, the diff is whole, and the rest is allowed |
| `ReviewGates.GrantingOnlyRemoves` | src/gitlab_agent/review_gates.py:105-120 | granting more adds no blocker and removes only its own |
| `Finish.RunProjectValidations` | src/gitlab_agent/finish.py:59-111 | every runnable command once and in order, and the flag the gates compute again |
| `Finish.BoundRuntimesAre` | src/gitlab_agent/finish.py:262-269 | the snapshot's bindings are those of the last result for each command |
| `Finish.BuildFinishPlan` | src/gitlab_agent/finish.py:128-312 | what each part of snapshot and evidence was read as, one read after the other; executable if and only if the evidence is clear and the action has what it needs, and then the action fits the snapshot |
| `Finish.OwnBlockersAre` | src/gitlab_agent/finish.py:199-238 | each blocker of its own is there exactly for its reason, and none exactly when the action has what it needs |
| `Finish.Inspect` | src/gitlab_agent/finish.py:142-180 | the reads after the validations, in their order, with the review and history skipped when paths are not reviewable |
| `Finish.GatesSpeakOf` | src/gitlab_agent/finish.py:143-153 | a plan that needed no allowance has a protected path in its diff if and only if that path appeared after the changed paths were read |
| `Finish.LateProtectedPath` | src/gitlab_agent/finish.py:143-153 | such a plan, executable and with the project contract itself in its diff |
| `Finish.ExecuteFinish` | src/gitlab_agent/finish.py:315-392 | it writes exactly when the plan was not blocked and status, saved state, diff and every recorded binding are read again as they were reviewed |
| `Finish.TitleIs` | src/gitlab_agent/finish.py:222-232 | a given title is kept, prefixed if need be; otherwise the prefix and the message, or the latest commit's subject |
| `Finish.WritesFit` | src/gitlab_agent/finish.py:369-385 | it commits exactly when dirty, first and with the plan's message, and pushes an update exactly when pushed before, else opens the request with the plan's target and title |
| `Finish.TitleHasPrefix` | src/gitlab_agent/finish.py:228-232 | a title that is not empty has the project's prefix |

## Left out

- Network, subprocess, Git, GitLab, TLS and curl calls: their results are parameters.
- Regular expressions of secret patterns, escape removal and assignment redaction: opaque functions of one line; the key-marker and commit-line patterns are modelled where the proofs need them.
- Digests are taken as injective and compared by content; file modes, ACLs and symlink checks are not modelled.
- FileLock.MutualExclusion: assumes bodies are left in the order they were entered, that a lock file is not replaced while it is in use, that unlocking and closing do not raise, and that no exception arrives between taking a lock and noting it.
- FileLock.WaitToEnter: time is exact and opening the file takes none.
- AppServerClient.ObservedBeforeWaking: for observers that do not call back into the client.
- AppServerClient.StepKeeps: process identity checks, child binding checks and the diagnostic tail are not modelled.
- ServerRequests.ServerRequest.HandleMessage: a thread start that raises is taken not to have started the handler.
- HttpsMigration.Resume: parsing the two endpoint URLs is replaced by their canonical parts; checks of policy and metadata that do not depend on the endpoint are opaque, as are the inspected refs and heads and the limit on Git's own output. For configuration files whose lines end in LF or CRLF.
- HttpsMigration.RewrittenEnv: for files whose lines end in LF or CRLF.
- MigrationJournal.Migration.Apply: without outside writers; the check that a file still has its before bytes is then never needed. Each replacement of a file is atomic.
- LogEvidence.SafeLogTail.Feed: after an error the object's further state is unspecified; the elapsed-time budget is assumed not to be hit.
- LogEvidence.ReadTrace: the sorted list of redactions is modelled as a set.
- SecretScan.ScanInvertsPrint: names are taken to be valid UTF-8 and not empty.
- NativeShape.Walk: scalars other than text are told apart only by type tag.
- SetupConfig.ReadEnvAssignments: on the decoded text; newline translation on reading does not change the lines.
- Finish.ExecuteFinish: changes between the last read and the writes, and writes that fail, are not modelled.
- Finish.BuildFinishPlan: warnings are not modelled; the scan of the history is a function of the workspace and status it starts from.
- WorkerRecipe.CollectedRecipe: rendering the shell script, its digest and the guidance text are not modelled.
- Storing an interpreter binding, thread-policy verification, setup wizards, status reports, tool registration and release scripts: mostly one-branch decisions that would only add easy members.
