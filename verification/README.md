# Verification of Heart Portal's stateful protocols

Heart Portal is a local agent host: it runs community "kits" over MCP, serves tools over an MCP connection, keeps
background processes and sub-agent tasks, and upgrades its own executable. This project models the parts of it whose
correctness depends on state that survives interleavings, crashes or restarts, and proves what those parts are
written to keep.

| files | component |
|---|---|
| `KitLoader`, `KitRegistry`, `KitCalls`, `KitManager` | loading kits, reconciling a disk scan with the live registry, starts, calls and health |
| `PendingRequests` | the client's table of pending MCP requests |
| `RequestLoop` | the server's request loop |
| `LineFraming` | the bounded line reader under both |
| `Utf8`, `OutputRing`, `CallbackTail` | the process output ring, its cursors, and what a callback carries of it |
| `TaskLedger`, `Subagent`, `SubagentManager` | sub-agent tasks and the ledger that survives restarts |
| `Upgrade`, `Approvals`, `UpgradeWorker` | the crash-recoverable replacement of the executable, and what its commits rest on |
| `Launches`, `WitnessRuns`, `PortalSupervisor`, `Maintenance` | who may start Portal meanwhile, whole runs that show where the promises end, the lock and the atomic write |
| `Dotenv`, `DotenvFormat` | the literal dotenv parser, and what the documents it reads mean |

## How the models are built

Each component has a value that describes its whole state and functions for its steps; invariants are proved step by
step and then over every run (`RunOf`, `After`). Beside it stands a class with the fields the program has, whose
methods are written as the program writes them. For the kit manager, the two connections and the sub-agent manager,
`Valid()` says that the object's state is one that some run of the model reaches; every method keeps that, and its other
clauses say what a caller gains from it. For the upgrade worker the object carries its trace, which is such a run. A
method covers the stretch of the program that no other party can interrupt: a critical section, or the code between two awaits; a
method that puts several stretches together says so.

Clocks, polls and outside answers (a process starts, a service stops, a signature verifies, a supervisor is alive, a
cooldown is over) are parameters of steps and methods, so every theorem holds for all of them. Integers are unbounded;
bytes are the integers 0 to 255 and text is UTF-8 as in section 3 of RFC 3629.

Assumptions:

- One worker of an upgrade stage is alive at a time (its result is tested before the lock is taken,
  `scripts/portal-macos-upgrade.py:200-205`); workers of different stages may overlap.
- A staged candidate is not exchanged between its last digest and the rename
  (`scripts/portal-macos-upgrade.py:285-289`). At any other time it may be, also between the signature check, the first
  digest and the version check, which read it one after the other (`scripts/portal-macos-upgrade.py:238-240`).
- File operations succeed or the process dies; a copy can be found half done, an atomic write cannot (`Maintenance`
  says why).
- A spawn is not abandoned between claiming the busy flag and starting the task, and ledger saves succeed. That
  reconciliation has closed the old rows (`portal/src/subagent/mod.rs:2188-2194`), not only raised its flag, before the
  first spawn of a run is assumed by `Subagent.RunOf`; `Subagent.LateReconciliationHappens` shows that it is needed.

## What was found

- The sub-agent payload sets `truncated` by comparing lengths after the 14-byte marker has been inserted
  (`portal/src/subagent/mod.rs:1838-1839`). The flag is wrong exactly when the text is cut at a character boundary within
  its first 14 bytes: always when it is at most 11 bytes over its budget, never when it is more than 14 over
  (`CallbackTail.SubagentFlagCondition`). Every budget has such texts (`CallbackTail.SubagentFlagMissesShortCuts`).
- After a crash, a task that was not yet handed over can still be, as interrupted, if and only if its row is open
  (`Subagent.CrashReportsOpenRows`). So a task that was cancelled, but whose row was not closed before the crash, may be
  reported (`Subagent.CancelledThenCrashedIsReported` is a whole run); within one run it never is.
- No Portal starts between an upgrade worker's stop and its rename, with three exceptions, and with no others
  (`Launches.WindowLaunches`): the supervisor acts late on a decision it took for an earlier transaction; a process that
  an earlier start-script restart left behind still carries the nonce that is on file until the new worker writes its
  own; or the start's environment carries HEART_PORTAL_SUPERVISED=1, which the startup guard trusts without looking at
  lock, journal or nonce (`portal/src/macos_upgrade.rs:90-92`). Portal removes that variable from what it starts itself
  (`portal/src/exec_policy.rs:210`, `portal/src/mcp/connection.rs:140`, `portal/src/subagent/pi_daemon.rs:413-414`), so
  there it comes from outside: set by hand, exported by a wrapper, or by the LaunchAgent's launcher
  (`scripts/portal-launchagent.sh:19`). All three are possible runs from an untouched installation:
  `WitnessRuns.StaleDecisionHappens`, `WitnessRuns.StaleStartHappens` and `WitnessRuns.MarkedStartHappens`.
- What the worker installs is the image it hashed, over every run. It is the image whose signature was checked if and only
  if the digest found the candidate as the signature check had; and it is newer than what it replaces if and only if what
  the digest found is newer than the target at the version check (`Approvals.CommitIsWhatWasHashed`). So neither depends on
  what the version check read. `Upgrade.UndisturbedRunsIncrease` is the case in which the candidate holds still;
  `WitnessRuns.ExchangedCandidateInstalls` is a whole run in which both fail.

- A quoted dotenv value that goes on over several lines loses the spaces that end its first line, because every line
  that begins a binding is trimmed before it is read (`portal/src/kits/dotenv.rs:8`); its other lines keep theirs. The
  value is not what was written if and only if its first line ends in an unescaped space
  (`DotenvFormat.FirstLineLosesItsSpaces`); an escaped space at that place makes the whole file invalid, as the backslash
  is left alone (`DotenvFormat.FaultRefuses`).

## Model

| member | source | states |
|---|---|---|
| KitLoader.CollidesIsConflicting | portal/src/kits/loader.rs:111-128 | name and route collisions over the whole traversal are exactly the pairwise conflicts between kits, or within one |
| KitLoader.CollidingKits | portal/src/kits/loader.rs:111-127 | the nested loops over one overwriting owner map mark a kit exactly when some key of it occurs twice in the traversal |
| KitLoader.ConflictPass | portal/src/kits/loader.rs:111-137 | the single pass keeps, in order, exactly the kits in no pairwise conflict and lists the directories of the others |
| KitLoader.AcceptedArePairwiseFree | portal/src/kits/loader.rs:128-137 | any two accepted kits differ in name and directory and share no normalized route |
| KitLoader.ScanIsValid | portal/src/kits/loader.rs:111-137 | what the loader hands over satisfies everything the registry relies on |
| KitRegistry.RefreshKeepsExclusive | portal/src/kits/manager.rs:606-783 | from exclusive routes, distinct directories and matching names, every refresh with any scan, force and target keeps them so |
| KitRegistry.RefreshKeepsNumbering | portal/src/kits/manager.rs:679-752 | generations stay below the counter and no two entries share one |
| KitRegistry.RunKeepsExclusive | portal/src/kits/manager.rs:606-783 | the same over every sequence of refreshes |
| KitRegistry.AppliedStays | portal/src/kits/manager.rs:616-783 | a scanned kit that is applied stays applied under repeated refreshes |
| KitRegistry.ChangeAppliesMore | portal/src/kits/manager.rs:616-783 | after the first refresh, every refresh that changes anything applies strictly more scanned kits |
| KitRegistry.RefreshConverges | portal/src/kits/manager.rs:616-783 | with an unchanging scan, repeated refreshes stop changing the registry within one more than the number of scanned kits, conflict chains and cycles included |
| KitRegistry.SettledMeansAppliedOrBlocked | portal/src/kits/manager.rs:616-674 | once settled, a scanned kit is applied if and only if no loaded owner still on disk clashes with it |
| KitRegistry.YieldMeans | portal/src/kits/manager.rs:616-783 | what a refresh leaves, from the fields of kits and entries alone: a scanned kit is taken unless a loaded one is in its way; a taken kit is renewed (new generation, no connection, no failures, unsent calls kept) exactly if forced, new, changed, or if its missing command has appeared, and is otherwise left as it is; a loaded kit nobody takes over stays exactly if the refresh is not about it or its directory is there but unusable; added, reloaded and removed say just that |
| KitCalls.EveryRunIsSound | portal/src/kits/manager.rs:181-291 | over every interleaving of starts, calls, refreshes, recoveries and shutdown: routes exclusive, an installed connection was spawned from the current generation's kit, unhealthy kits hold none, no connection is blamed twice, and the failure-count refusal of the start checks is never reached |
| KitCalls.StaleFailureIsInert | portal/src/kits/manager.rs:393-444 | a failing call changes the registry only through the installed connection, and only its first failure does |
| KitCalls.InstallNeverReplaces | portal/src/kits/manager.rs:248-272 | a start that finishes for the current generation finds no connection installed and installs its own |
| KitCalls.StoppedStaysDown | portal/src/kits/manager.rs:502-522 | once shutdown has cleared the registry no connection is installed or alive again, whatever starts, calls and refreshes were in flight |
| KitCalls.RefreshesSettle | portal/src/kits/manager.rs:606-783 | with an unchanging scan, however starts, calls, failures, recoveries and shutdown come in between, no more refreshes change anything than one plus the number of scanned kits |
| KitCalls.QuietStaysQuiet | portal/src/kits/manager.rs:606-783 | once a refresh finds nothing to change no later one does, and every entry keeps its kit and generation |
| KitManagers.KitManager.constructor | portal/src/kits/manager.rs:111-154 | one fresh, numbered entry per manifest name, holding the last manifest of that name, out of service exactly if its command is not installed; from a valid scan, a state that runs can start from |
| KitManagers.KitManager.FindRejected | portal/src/kits/manager.rs:619-669 | the rejected directories are exactly those of selected candidates that clash with an owner the refresh cannot displace |
| KitManagers.KitManager.AdoptAll | portal/src/kits/manager.rs:670-752 | exactly the surviving candidates are adopted, renewed ones under fresh generations, and the three lists are exact |
| KitManagers.KitManager.RefreshKitsTarget | portal/src/kits/manager.rs:606-783 | every entry and the whole report are as `KitRegistry.YieldMeans` says, so a forced refresh renews every kit it takes and reports it; the retained directories are the invalid ones of loaded kits; nothing changes once stopping |
| KitManagers.KitManager.BeginConnection | portal/src/kits/manager.rs:196-228 | a process is spawned exactly for a kit that is still current, configured, healthy or past its cooldown, without a live connection and with a free slot; then its entry is healthy, has no connection and nobody else is starting it, and every other entry stands; a live connection of a current kit is reused, and is the current kit's |
| KitManagers.KitManager.FinishConnection | portal/src/kits/manager.rs:245-290 | installed, or blamed with one more failure of which the third makes it unhealthy, exactly while the generation owns the entry and nothing stops; no connection was there before, and the new one is the current kit's |
| KitManagers.KitManager.ConnectionFor | portal/src/kits/manager.rs:181-291 | uninterrupted: a call gets a connection exactly when nothing is stopping and the kit has a live one, or may start and does; it is the installed one, alive, and runs the current kit |
| KitManagers.KitManager.FinishToolCall | portal/src/kits/manager.rs:363-444 | a successful call is one more unsent call of the kit now under its name, and forgives earlier failures exactly if it came over the installed connection; only a broken call on the installed connection counts against the kit: once per connection, which is closed; other failures change nothing |
| KitManagers.KitManager.Shutdown | portal/src/kits/manager.rs:502-522 | afterwards no connection is installed or alive, in a state that stays so |
| PendingRequests.EveryRunIsSound | portal/src/mcp/connection.rs:407-518 | in every interleaving at most 16 requests are pending, a response reaches only the request whose id it carries, a finished request has no entry, and every waiting request can be woken |
| PendingRequests.ClosedTableStaysEmpty | portal/src/mcp/connection.rs:306-405 | once the reader has closed and cleared, or shutdown has, the table stays empty forever and every later registration is refused |
| PendingRequests.DoneIsFinal | portal/src/mcp/connection.rs:95-120 | the outcome of a request that ended by answer, timeout or drop never changes |
| PendingRequests.SecondResponseIsIgnored | portal/src/mcp/connection.rs:369-386 | however much later a second response for the id of a request arrives, after whatever else, it changes nothing |
| PendingRequests.AnswerIsNotLost | portal/src/mcp/connection.rs:369-518 | once a response has come off the wire for a live request, that request ends only with this response, by its time-out or by being dropped, whatever happens in between, also if the connection closes |
| PendingRequests.McpConnection.Register | portal/src/mcp/connection.rs:407-435 | under a fresh id, accepted exactly on a live connection with fewer than 16 pending; never more than 16, and no other request is touched |
| PendingRequests.McpConnection.AbandonRequest | portal/src/mcp/connection.rs:101-120 | a caller that goes away or times out frees its slot and touches nobody else; the connection survives unless a half-written line or an unsent cancellation is left |
| PendingRequests.McpConnection.FinishWrite | portal/src/mcp/connection.rs:453-485 | after a full write the request waits; after a failed one it is over, has no entry, and so is the connection |
| PendingRequests.McpConnection.TakeResponse | portal/src/mcp/connection.rs:486-512 | a response that has arrived is what the caller gets; it carries the caller's id and came off the wire; that none will come is said only on a dead connection |
| PendingRequests.McpConnection.ReadResponse | portal/src/mcp/connection.rs:323-390 | a response reaches the live request registered under its id, and nobody else |
| PendingRequests.McpConnection.StopReading | portal/src/mcp/connection.rs:306-322 | when the reader ends the table is empty, the connection dead, and every waiting caller has something to receive |
| PendingRequests.McpConnection.Shutdown | portal/src/mcp/connection.rs:694-710 | the table is empty, the connection dead, and every waiting caller has something to receive |
| RequestLoop.EveryRunIsSound | portal/src/main.rs:913-1080 | every accepted request is at all times exactly one of active, answered once under its own id, cancelled, or lost with the connection; active entries name unjoined tasks carrying their id; at most 32 work and 8 management tasks are unjoined; a restart follows only a sent answer |
| RequestLoop.CancelledStaysSilent | portal/src/main.rs:998-1007 | a cancelled request is never answered, even when its id is reused while its task is still unjoined |
| RequestLoop.ServerConnection.HandleRequest | portal/src/main.rs:998-1080 | a request becomes a new active task exactly when its id is free, it does not initialize and its set has room for it, 8 in management and 32 otherwise; the task carries the id, joins the set of its kind and restarts Portal exactly if it is the restart call; any other request gets the one reply its reason calls for, or the connection ends; no task is answered here, and only a cancellation silences one |
| RequestLoop.ServerConnection.JoinManagement | portal/src/main.rs:924-937 | a task's result is sent under its id exactly if the task was not cancelled, even if its id is in use again; then only its own entry leaves the active ones; only a sent answer restarts Portal, exactly if the task asks for it; a failed send ends the connection |
| RequestLoop.ServerConnection.JoinCall | portal/src/main.rs:938-950 | the same for work results, which never restart Portal |
| LineFraming.BufReader.ReadLineAppend | portal/src/mcp/limits.rs:23-45 | appends exactly up to the newline, the end or an interruption, never beyond the limit, and fails only when the line is longer |
| LineFraming.ReadAll | portal/src/mcp/limits.rs:13-45 | for every stream, chunking and interruption pattern: exactly the stream's lines, stopping with an error exactly at the first one over the limit |
| LineFraming.LinesJoin | portal/src/mcp/limits.rs:13-45 | the lines, joined, are the stream, and each but the last ends in its only newline |
| Utf8.ContinuationMask | portal/src/process_manager.rs:101-104 | testing the two top bits is testing for the continuation range of RFC 3629 |
| Utf8.TailIsLongest | portal/src/process_manager.rs:85-103 | the tail the cuts compute is the longest suffix that fits and starts on a character |
| Utf8.TailOfTail | portal/src/heart_callback.rs:117-123 | cutting twice is cutting once with the smaller budget |
| OutputRing.AppendKeepsTail | portal/src/process_manager.rs:85-99 | the longest aligned tail of the old ring plus a chunk is that of the whole stream, so chunking does not matter |
| OutputRing.OutputBuffer.Append | portal/src/process_manager.rs:85-99 | the ring holds exactly the longest aligned suffix of everything appended that fits |
| OutputRing.OutputBuffer.BytesSince | portal/src/process_manager.rs:106-125 | the bytes, the truncated flag and the next offset in terms of the unbounded stream |
| OutputRing.OutputBuffer.SnapshotTail | portal/src/process_manager.rs:127-133 | the longest aligned tail of the whole stream within both budgets, and the stream's length |
| OutputRing.OutputBuffer.BytesRange | portal/src/process_manager.rs:135-157 | the longest range of the stream that starts at the asked offset, or where the ring starts if that is gone, fits the limit and ends on a character, or the reason why there is none |
| OutputRing.OutputBuffer.Log | portal/src/process_manager.rs:572-598 | one page: that range with the limit capped at the size of the ring, the offset that follows it, and `truncated` exactly when the asked offset was already evicted |
| OutputRing.AlignedPage | portal/src/process_manager.rs:572-598 | from an aligned cursor with a limit of at least four bytes, paging succeeds exactly for a ring with room and advances while data remains |
| OutputRing.SessionIsFaithful | portal/src/process_manager.rs:572-598 | under any interleaving of appends, evictions and reads, a reader that passes back its cursors never fails and gets consecutive whole-character segments; a gap exists exactly where `truncated` is reported |
| OutputRing.UntruncatedSessionLosesNothing | portal/src/process_manager.rs:572-598 | without a report of truncation the pages, joined, are the stream |
| CallbackTail.Tail | portal/src/heart_callback.rs:117-123 | the longest aligned tail within the budget |
| CallbackTail.BuildCallbackOutput | portal/src/heart_callback.rs:240-281 | the callback's output is the longest aligned suffix of the whole stream within every budget, and `truncated` is false exactly when that is the entire stream |
| CallbackTail.ClampStr | portal/src/heart_callback.rs:126-136 | the longest whole-character prefix that fits, then the marker |
| CallbackTail.ClampStrTail | portal/src/heart_callback.rs:139-149 | the marker, then the longest aligned tail that fits |
| CallbackTail.SubagentFlagCondition | portal/src/subagent/mod.rs:1837-1840 | the sub-agent flag is right if and only if the text fits or has no character boundary from its excess up to byte 14: wrong for an excess of 1 to 11, right for more than 14 |
| CallbackTail.CutIsNear | portal/src/heart_callback.rs:139-149 | the kept tail begins at most three bytes past the excess |
| CallbackTail.SubagentFlagMissesShortCuts | portal/src/heart_callback.rs:152-161 | under every budget, the two the payload is built with included, a text one byte over it is cut and not reported |
| TaskLedger.StartOpensOne | portal/src/subagent/ledger.rs:261-280 | a new task's row opens that task and no other, and every other row says what it said |
| TaskLedger.Ledger.FinishTask | portal/src/subagent/ledger.rs:284-299 | the first row of the id gets its final state; an unknown id changes nothing |
| TaskLedger.Ledger.SetCallbackState | portal/src/subagent/ledger.rs:301-305 | the first row of the id gets the callback state |
| TaskLedger.Ledger.OpenTasks | portal/src/subagent/ledger.rs:308-314 | the rows that are queued or running, picked by their positions, in order |
| TaskLedger.Ledger.InterruptOpenTasks | portal/src/subagent/ledger.rs:318-327 | every unfinished row is interrupted in place with the given reason, every other row stands, and the interrupted ones are returned in order |
| TaskLedger.Ledger.Prune | portal/src/subagent/ledger.rs:330-345 | what remains is every unfinished row and the 200 newest others, in order, picked by their positions |
| TaskLedger.FinishClosesOne | portal/src/subagent/ledger.rs:284-299 | closing a task closes its row and no other |
| TaskLedger.InterruptionsAreTheOpenRows | portal/src/subagent/ledger.rs:318-327 | the interrupted rows are the formerly open ones, each once |
| TaskLedger.InterruptClosesAll | portal/src/subagent/ledger.rs:318-327 | afterwards no row is open, and rows that were closed are as before |
| TaskLedger.NewestCounts | portal/src/subagent/ledger.rs:330-345 | pruning keeps the open rows in order and leaves the smaller of 200 and the number of finished rows |
| TaskLedger.NewestPicks | portal/src/subagent/ledger.rs:330-345 | pruning keeps, in order, exactly the rows that are open or have fewer than the kept number of finished rows after them |
| TaskLedger.NewerIsKept | portal/src/subagent/ledger.rs:335-344 | of any two finished rows the later one is kept if the earlier one is |
| TaskLedger.PruneIsIdempotent | portal/src/subagent/ledger.rs:330-345 | a second pruning changes nothing |
| Subagent.EachTaskIsDeliveredAtMostOnce | portal/src/subagent/mod.rs:1714-1817 | over any crashes and restarts no task is handed to the callback twice |
| Subagent.SettledIsFinal | portal/src/subagent/mod.rs:2171-2233 | once a row is closed and its callback handed over or withheld, no later step of this run or a later one hands it over |
| Subagent.CancelledStaysSilent | portal/src/subagent/mod.rs:1721-1794 | within a run, a task cancelled before finalization reads the flag is never delivered and ends cancelled and suppressed, in memory and in the ledger |
| Subagent.SessionsAreExclusive | portal/src/subagent/mod.rs:978-1109 | in every reachable state a session key has at most one unfinished task, its busy flag names it, and no more tasks are unfinished than the limit, which is at least one |
| Subagent.LateReconciliationHappens | portal/src/subagent/mod.rs:2171-2233 | a whole run from a first start: reconciling after the first spawn hands its task over twice |
| Subagent.CrashReportsOpenRows | portal/src/subagent/mod.rs:2171-2233 | in every reachable state: after a crash a task not yet handed over can still be if and only if its row is open |
| Subagent.CancelledThenCrashedIsReported | portal/src/subagent/mod.rs:2331-2365 | a whole run from a first start to a crash between cancelling and closing, after which the task may be reported |
| SubagentManagers.SubagentManager.BeginSpawn | portal/src/subagent/mod.rs:1092-1109 | refused exactly while a spawn for the key is in flight; otherwise this attempt is the only one |
| SubagentManagers.SubagentManager.TryAcquire | portal/src/subagent/mod.rs:1004-1013 | a permit exactly while fewer tasks than the limit hold one; never more than the limit do, and a refused attempt leaves the key free |
| SubagentManagers.SubagentManager.LookUpSession | portal/src/subagent/mod.rs:1154-1190 | the key's own session, or a new one that is idle and that no other key or attempt can reach |
| SubagentManagers.SubagentManager.PublishSession | portal/src/subagent/mod.rs:1191-1196 | no published session is replaced and no two keys share one |
| SubagentManagers.SubagentManager.ClaimSession | portal/src/subagent/mod.rs:1020-1039 | claimed exactly when the session is loaded and no task of the key holds it, and then by this task alone; a refused attempt leaves nothing behind |
| SubagentManagers.SubagentManager.RecordTask | portal/src/subagent/mod.rs:1044-1055 | before the task starts its row is open, under an id the ledger did not have, and no other row opens |
| SubagentManagers.SubagentManager.Spawn | portal/src/subagent/mod.rs:1000-1085 | uninterrupted: succeeds exactly when no spawn for the key is in flight, a permit is left, the session is loaded and no task holds it; on success the task works, holds the session and a permit and has the one new open row; a failed spawn leaves no trace but, at most, a session |
| SubagentManagers.SubagentManager.Cancel | portal/src/subagent/mod.rs:1923-1934 | before finalization has read the flag, cancelling silences the task for the rest of the run |
| SubagentManagers.SubagentManager.MarkOutcome | portal/src/subagent/mod.rs:1721-1745 | a task found cancelled is from then on silent: cancelled, suppressed and not handed over; any other keeps its outcome and is yet to be handed over |
| SubagentManagers.SubagentManager.FreeSession | portal/src/subagent/mod.rs:1747-1753 | the flag always names this task when it comes here; afterwards no task of the key holds the session and every other flag stands |
| SubagentManagers.SubagentManager.CloseRow | portal/src/subagent/mod.rs:1760-1774 | in one save exactly this row leaves the open ones, with its status, turns, tokens and error, every other row stands but for pruning; a silenced task is settled for good |
| SubagentManagers.SubagentManager.Conclude | portal/src/subagent/mod.rs:1788-1814 | nothing is handed over: a silenced or unconfigured task is settled and gives back its permit, any other is first marked sent on disk |
| SubagentManagers.SubagentManager.Deliver | portal/src/subagent/mod.rs:1803-1814 | the first hand-over of this task and, in this run and all later ones, the last |
| SubagentManagers.SubagentManager.Finalize | portal/src/subagent/mod.rs:1714-1817 | uninterrupted: the task ends, its session and permit are free, its row is closed with status, turns, tokens and error as they were reported, the callback state is on file, it is settled, and it is delivered exactly when not cancelled and a callback is configured |
| SubagentManagers.SubagentManager.Reconcile | portal/src/subagent/mod.rs:2171-2233 | once per run: no row stays open, each formerly open one is interrupted and is delivered once if and only if a callback is configured, and no other task is |
| Upgrade.EveryRunIsSound | scripts/portal-macos-upgrade.py:188-302 | whatever workers of whatever stages run, die and are relaunched, and however candidates are exchanged before the last digest: the target is the last image that durably succeeded or, only under a journal without outcome, the image that stage's worker hashed, with a complete backup; the version read for each commit is newer than what it replaced; exactly the succeeded stages commit, once each |
| Upgrade.UndisturbedRunsIncrease | scripts/portal-macos-upgrade.py:236-242 | when no candidate is exchanged between the first and the last of the three reads, every image installed or committed is one whose signature was verified, and committed versions strictly increase |
| Approvals.CommitIsWhatWasHashed | scripts/portal-macos-upgrade.py:236-289 | every commit of every run goes back to one signature check, one digest and one version check of one attempt: its image is what the digest found; that is the image whose signature was checked if and only if the digest found what the signature check had found; and it is newer than what it replaced if and only if it was newer than the target at the version check |
| Upgrade.OutcomesAreFinal | scripts/portal-macos-upgrade.py:213-218 | a durable outcome never changes, a success is never undone, what failed or was rolled back never commits |
| Upgrade.OthersStandStill | scripts/portal-macos-upgrade.py:221-224 | while one stage's journal is there, no step of another stage's worker reaches the target, the journal, the backup, the temporary file, the nonce or the restart command |
| Upgrade.InterruptedOnlyRollsBack | scripts/portal-macos-upgrade.py:221-234 | an interrupted transaction can only end rolled back, however often its recovery is interrupted, and keeps its journal and complete backup until then |
| UpgradeWorkers.TraceIsRun | scripts/portal-macos-upgrade.py:205-302 | what the worker program does, cut off anywhere, is a run of the installation while nobody else holds the lock |
| UpgradeWorkers.UpgradeWorker.Finish | scripts/portal-macos-upgrade.py:213-218 | the outcome is durable before the journal goes |
| UpgradeWorkers.UpgradeWorker.RestoreFile | scripts/portal-macos-upgrade.py:165-170 | the backup is copied aside completely, then renamed over the target |
| UpgradeWorkers.UpgradeWorker.RestartRestored | scripts/portal-macos-upgrade.py:171-185 | everything is stopped exactly when the old executable was to be started and was not seen stable, also when the supervisor vanishes between the two looks at it; it raises exactly when that stop does |
| UpgradeWorkers.UpgradeWorker.Restore | scripts/portal-macos-upgrade.py:163-185 | goes through exactly if Portal can be stopped, and again where the old executable does not come up; the target is the backup's image as soon as the first stop succeeds, stages and journal untouched, and the restart is asked for in the transaction's own way |
| UpgradeWorkers.UpgradeWorker.Prepare | scripts/portal-macos-upgrade.py:235-270 | a refusal leaves target and journal as they were; otherwise complete backup, then journal, then acceptance |
| UpgradeWorkers.UpgradeWorker.SwapExecutable | scripts/portal-macos-upgrade.py:284-289 | fails exactly when the candidate is not the hashed image any more, otherwise the target is that image |
| UpgradeWorkers.UpgradeWorker.ReplaceExecutable | scripts/portal-macos-upgrade.py:281-294 | succeeds exactly when the stop does, the candidate is still the hashed image, and, unless the restart is left to the user, restart and readiness do; otherwise it asks for the rollback |
| UpgradeWorkers.UpgradeWorker.RollBack | scripts/portal-macos-upgrade.py:296-302 | the target is the backup's image, the outcome is rolled back and the journal gone exactly if the restore goes through; otherwise journal and stages stand for the next worker |
| UpgradeWorkers.UpgradeWorker.Recover | scripts/portal-macos-upgrade.py:221-234 | an own journal without outcome ends rolled back with the formerly installed image exactly if the restore goes through, and otherwise stands |
| UpgradeWorkers.UpgradeWorker.Conduct | scripts/portal-macos-upgrade.py:271-302 | from acceptance, by what the world answers: failed with the old image when the parent stays; succeeded with the hashed image when stop, recheck, restart and readiness do; else rolled back with the old image if the restore goes through; else the journal stays for the next worker |
| UpgradeWorkers.UpgradeWorker.Run | scripts/portal-macos-upgrade.py:188-302 | known outcome, refused lock, foreign journal, recovery, refused checks and attempt, each with its outcome, target, journal, commits and whether it raises |
| UpgradeWorkers.UpgradeWorker.MainProgram | scripts/portal-macos-upgrade.py:334-361 | wherever the process dies the files satisfy the invariant; at its end the outcome, target, journal and commits follow from the start state and the answers, in every case |
| Launches.OrdinaryLaunchesHoldTheLock | scripts/portal-macos-supervisor.py:110-120 | every ordinary launch, by the supervisor or directly, happens under the shared lock with no journal and no worker holding the lock |
| Launches.CommandsAreLaunchedOnce | scripts/portal-macos-supervisor.py:103-123 | over all supervisors and runs, no restart command is launched twice, and they are launched in the order they were written |
| Launches.RequestIsHonoured | scripts/portal-macos-supervisor.py:103-109 | a restart a worker asks of the recorded supervisor is decided for when that supervisor next looks, whatever it launched for before |
| Launches.WindowLaunches | scripts/portal-macos-upgrade.py:283-289 | between a worker's stop and its rename Portal is launched if and only if the supervisor acts on a decision for another transaction, a direct start carries the nonce still on file, or a start carries the mark of a supervised Portal, wherever it has it from |
| Launches.NoOtherLaunchInWindow | portal/src/macos_upgrade.rs:83-118 | the same in every reachable state, for whatever step comes next |
| Launches.DecisionsAreForAskers | scripts/portal-macos-supervisor.py:103-109 | a decision to launch is never for the transaction that is still before its own rename |
| Launches.StaleNoncePasses | portal/src/macos_upgrade.rs:93-101 | a start that carries the nonce on file passes the guard inside the window |
| WitnessRuns.StaleStartHappens | portal/src/macos_upgrade.rs:93-101 | a run from an untouched installation: one stage upgrades by start script, and a process it started passes the guard in the next stage's window |
| WitnessRuns.MarkedStartHappens | portal/src/macos_upgrade.rs:88-92 | a run from an untouched installation: a start whose environment carries HEART_PORTAL_SUPERVISED=1 from outside passes the guard in the window, without a nonce, with the new one on file, and without any supervisor |
| WitnessRuns.ExchangedCandidateInstalls | scripts/portal-macos-upgrade.py:236-242 | a run from an untouched installation: a candidate exchanged between the three reads installs and commits an image that was never verified and is not newer |
| WitnessRuns.StaleDecisionHappens | scripts/portal-macos-supervisor.py:102-131 | a run from an untouched installation: one stage rolls back while the supervisor still holds a decision for it, which it carries out in the next stage's window |
| Launches.ScriptRestartIssuesNonce | scripts/portal-macos-upgrade.py:149-158 | a start-script restart puts the nonce on file into the environment of what it starts |
| PortalSupervisor.SupervisorLoop.Round | scripts/portal-macos-supervisor.py:98-147 | one round launches for a command of this transaction and supervisor not yet handled, or ordinarily under the lock with a second look at the journal, or not at all; a failed exec keeps the command handled and frees the lock |
| PortalSupervisor.RoundIsSteps | scripts/portal-macos-supervisor.py:102-120 | the round's choice is the one the separate steps of the launch model take |
| PortalSupervisor.StartupGuard | portal/src/macos_upgrade.rs:83-118 | admitted without the lock exactly when supervised or carrying the nonce under a journal, with it exactly when it is free and no journal exists |
| Maintenance.MaintenanceLock | scripts/portal-macos.py:63-75 | the first try that finds the lock free, the deadline passed or a journal decides, and only a free lock is taken |
| Maintenance.PrivateFile.PrivateWrite | scripts/portal-macos.py:83-94 | wherever the process dies the file has its old content or all of the new one |
| Dotenv.Parse | portal/src/kits/dotenv.rs:4-72 | the nested loops compute the recursive description of the format, errors included |
| Dotenv.ScanFragment | portal/src/kits/dotenv.rs:23-53 | one quoted fragment: unescaped text up to its closing quote, or the open rest |
| Dotenv.EncodeThenParse | portal/src/kits/dotenv.rs:4-72 | any map of at most 256 valid names to NUL-free strings, written as escaped double-quoted lines in any order, parses back to exactly itself |
| DotenvFormat.DocumentReads | portal/src/kits/dotenv.rs:4-72 | every document of comments, bare, quoted and many-line values, with spaces, `export`, comments, escapes, either line ending and a byte order mark wherever the format has them, reads as what it means, later bindings replacing earlier ones; refused exactly for a NUL or a binding when 256 names are bound |
| DotenvFormat.FaultRefuses | portal/src/kits/dotenv.rs:12-71 | after any document, a line without an equals sign, a bad or overlong name, text behind a closing quote, a quote left open or a backslash at the end of a line in double quotes makes the whole file invalid, whatever follows |
| DotenvFormat.FirstLineLosesItsSpaces | portal/src/kits/dotenv.rs:8-55 | a quoted value over several lines differs from what was written if and only if its first line ends in an unescaped space |

## Left out

- KitCalls.EveryRunIsSound: process slots and cooldown times are free choices of each step, so nothing is said about when a slot or a cooldown becomes available.
- LineFraming.ReadAll: the reader's errors other than a line over the limit are not modelled.
- OutputRing.OutputBuffer.Append: the saturating 64-bit total and the idle clock are not modelled.
- PendingRequests.EveryRunIsSound: ids are unbounded, so wrap-around of the 64-bit counter is not modelled; process and stderr handling of the connection is not either.
- RequestLoop.EveryRunIsSound: authentication, parse errors and list-changed notifications around the loop are left out, since they touch neither the active map nor the task sets.
- Subagent.EachTaskIsDeliveredAtMostOnce: speaks of hand-over to the callback queue; what happens on the network afterwards, with its retries, is not modelled.
- Subagent.SessionsAreExclusive: transports, budgets, transcripts and the pi daemon are not modelled; unloading an idle session appears as a session that is not live at the claim.
- KitCalls.RefreshesSettle: the scan, and which commands are installed, are the same for all refreshes of the run.
- PendingRequests.McpConnection.AbandonRequest: the bounded queue of cancellations appears as whether one could be queued.
- TaskLedger.Ledger.StartTask: the row's brief, working directory, scene and times are left out, and so are the ledger's session table, loading and archiving.
- Upgrade.EveryRunIsSound: signatures, version output, service state, ownership checks and the candidate's request file are the answers of the three check steps; the status file and the replaced helper script are left out.
- UpgradeWorkers.UpgradeWorker.MainProgram: dispatching a worker and removing its login item are left out.
- Launches.WindowLaunches: when launchd starts its own job is not modelled, what it starts is a marked start like any other; a process that ignores the guard is outside the model; readiness and process identity are free choices.
- PortalSupervisor.SupervisorLoop.Round: starting a recovery worker appears in the upgrade model as a relaunch; signals and the state file are left out.
- Maintenance.PrivateFile.PrivateWrite: names and permissions of the temporary file are left out.
- Dotenv.EncodeThenParse: file size limits and reading the file are left out.
- DotenvFormat.DocumentReads: a carriage return inside a line is not part of a document.
- The 256 KB cap of a callback payload, which falls back without measuring again.
- Windows process handling, HTTP, WebSocket, TLS and release download, configuration loading, tool argument coercion and status text: they share no state with the protocols above.
