# Verified model of h-ssh's session, commit and scheduling protocols

h-ssh drives configuration changes on network devices: it opens CLI and NETCONF sessions, loads an edit into a
device's candidate, commits it, reuses sessions between targets, retries what may be retried, keeps devices from being
hit too often, and survives an interrupt. This project models the parts of it whose correctness depends on the order
of events, and proves what they keep over whole runs.

`dafny verify dfyconfig.toml` checks everything.

## How it is built

Each stateful part comes in up to three pieces:

* a specification of each operation as a function from state to state (`CliProtocol`, `NetconfProtocol`,
  `SessionPool`, `GateProtocol`, `AttemptProtocol`; the first half of the smaller modules),
* the operation as the program runs it, a method on an object with the program's fields, proved to do exactly what the
  function says (`CliEngine`, `Netconf`, `SessionManager`, `SafetyGate`, `Scheduler`; the classes of the smaller
  modules),
* a machine whose runs are arbitrary sequences of those operations, or of their steps between two awaits, and the
  theorems over all of its runs (`CliRuns`, `NetconfRuns`, `SessionRuns`, `GateRuns`, `AttemptRuns`, `InterruptRuns`,
  `KnownHostsRuns`, and the second half of `Batch`, `Deadline`, `HostKeyCache`, `Terminal` and `LoginPlan`).

| file | what it models |
|---|---|
| `CliProtocol`, `CliEngine`, `CliRuns` | the candidate edit session over a CLI, against a device with a committed and a candidate configuration, an exclusive mode and commit orders, where each command may be accepted, refused, timed out or lost |
| `NetconfProtocol`, `Netconf`, `NetconfRuns` | the same over NETCONF, with the lock of section 7.5 and the candidate of section 8.3 of RFC 6241, and a close that can land inside a commit |
| `Terminal`, `TerminalControls` | the one-line terminal emulator, with the control functions of section 8.3 of ECMA-48 that it honours |
| `JunosDialect` | the payload check, the commit line and its key encoding, and what the device's editor and command reader make of them |
| `SessionPool`, `SessionManager`, `SessionRuns` | the session manager: borrowing, reuse, cleanup, background closes, eviction under the descriptor budget |
| `GateProtocol`, `SafetyGate`, `GateRuns` | the safety gate: login window, reservations, cooldowns shared through a locked file |
| `AttemptProtocol`, `Scheduler`, `AttemptRuns` | the retry policy, the edit lifecycle and the attempts at one target |
| `LoginPlan` | distinct devices, the login plan and the worker limit |
| `Batch` | a batch of commands, the session replaced when one times out |
| `Interrupt`, `InterruptRuns` | all targets of a run as tasks, and the interrupt |
| `KnownHosts`, `KnownHostsRuns` | reading known_hosts, and accepters that pin new keys under the file's lock |
| `HostKeyCache`, `HostKeySessions` | the NETCONF transport's cache of known_hosts and the mappings its sessions change |
| `Deadline` | timers against workers in the SSH and NETCONF deadline guards |

## What is taken for granted

* Clocks do not go backwards, and a closed transport delivers nothing.
* A device that refuses a command has not run it; one that accepts it has; one that is silent or gone may have. An
  accepted enter or lock means the candidate equals the committed configuration, and nobody else changes either while
  the lock is held. Before and after, other users may change both at will.
* Cancellation is delivered at the await where the coroutine is suspended; code between two awaits is atomic, and so is a
  `with` or `async with` block on a lock.
* A key is closed, or released by a caller that does not hold its session, only while nobody borrows it
  (`SessionRuns.Disciplined`); a gate's reservations see to that for distinct devices.
* The SSH library reads back the key it writes (`KnownHostsRuns.Faithful`). What it makes of a key blob or a hashed
  name is a parameter. For the results over several accepters a host name is one word without a comma, begins neither
  a comment nor a marker, is well formed if hashed, and as a pattern stands for itself alone
  (`KnownHostsRuns.Nameable`).

## Where the code and what is said of it part

Each of these is a property that fails as it is usually told; the model has the exact condition.

* The architecture document says that what reached the device is never tried again unless it was a read. The policy
  tells an open by its name, so on a dialect without a candidate a payload line `open`, or a command `open` that is no
  read, is judged as a failed connect (`AttemptRuns.ClashReplays`, `AttemptRuns.ShowReplays`).
  `AttemptRuns.WorksOnceIff` says exactly when nothing is replayed.
* "No gate admits a key once `set_cooldown` has returned" holds for a check whose merge comes after the write; one whose
  merge came before is decided as if there were no cooldown (`GateRuns.CooldownDecides`).
* The login plan counts by session key, the gate by host and port. `LoginPlan.NeverTurnedAwayIff` has the condition the
  gate needs, `LoginPlan.PlanSuffices` when the plan gives it, `LoginPlan.SharedPortRefused` when it does not.
  `check_unique` rules that case out.
* A `close_all` is safe key by key exactly while nobody borrows the key (`SessionRuns.ShutIff`); in the middle of an open
  it loses the session then opened.
* An accepted host key is read back exactly for the names of `KnownHostsRuns.AppendAddsOneIff`. `parse_target` also
  takes others, such as one that begins with `#`; to come to the accepter such a name must still resolve to an address
  that answers.

## Model

| member | source | states |
|---|---|---|
| CliRuns.ReleasedIsClean | h-app/hssh/communicators/cli_engine.py:282-312 | Borrow isolation: after any run of calls, refusals, timeouts and losses, a release that succeeds leaves the engine usable, out of configuration mode, not dirty and owing nothing, the device holding neither its lock nor its candidate, and the committed configuration as it was; a release that fails closes the engine |
| CliRuns.CommitIsExact | h-app/hssh/communicators/cli_engine.py:347-368 | After any run, a commit that succeeds adds to the committed configuration exactly the lines acknowledged since the last commit or cleanup, and hands over exactly the timer and comment it was called with |
| CliRuns.OrdersCarriedOut | h-app/hssh/communicators/cli_engine.py:347-374 | Over any run the device carries out the commits and confirms that were reported, in order and once each, and at most one more, after which the engine is unready |
| CliRuns.UnknownCommitIsFinal | h-app/hssh/communicators/cli_engine.py:220-312 | After a commit with unknown outcome no sequence of calls types another byte, so none rolls back, replays or leaves, and at most that one order was carried out |
| CliRuns.UnreadyIsFinal | h-app/hssh/communicators/cli_engine.py:220-231 | An engine that is not ready stays so and types nothing, whatever is called on it |
| CliRuns.RunKeepsStep | h-app/hssh/communicators/cli_engine.py:220-374 | Over any run, while the engine is ready its flags tell the truth about the lock, the mode and the candidate, and the candidate is the committed configuration plus the acknowledged lines |
| CliRuns.CallKeepsStep | h-app/hssh/communicators/cli_engine.py:272-374 | Each call keeps that invariant, and only a commit or a confirm changes the committed configuration or adds an order |
| CliRuns.CleanupCleans | h-app/hssh/communicators/cli_engine.py:282-312 | The cleanup of a borrow rolls back what was loaded, gives up the lock and commits nothing; its failure leaves the engine unready |
| CliRuns.CommitInStep | h-app/hssh/communicators/cli_engine.py:347-368 | A commit that succeeds moves exactly the owed lines as the one order it was given; one of unknown outcome has moved all of them or none and leaves the engine unready; any other failure moves nothing |
| CliRuns.ConfirmInStep | h-app/hssh/communicators/cli_engine.py:370-374 | The same for a confirm, whose order is a bare commit |
| CliRuns.LoadInStep | h-app/hssh/communicators/cli_engine.py:314-337 | A load enters exclusive configuration mode at most once and adds exactly the lines the device acknowledged, also when it fails half-way |
| CliRuns.TypeLinesLoads | h-app/hssh/communicators/cli_engine.py:321-337 | Typing the rest of a payload adds exactly the acknowledged lines to the candidate, in order |
| CliEngine.Channel.Transact | h-app/hssh/communicators/cli_engine.py:220-231 | What one exchange with the device leaves of it and how it is answered |
| CliEngine.Engine.Exchange | h-app/hssh/communicators/cli_engine.py:220-231 | Types the encoded line once and hands back what the device makes of it |
| CliEngine.Engine.Command | h-app/hssh/communicators/cli_engine.py:248-270 | Blank or control text is refused locally and an unready engine types nothing; else one exchange, after which a timeout or a loss leaves the engine unready and a refusal does not |
| CliEngine.Engine.Probe | h-app/hssh/communicators/cli_engine.py:272-280 | An unready engine fails without typing; a failed probe leaves it unready |
| CliEngine.Engine.Discard | h-app/hssh/communicators/cli_engine.py:305-312 | Closes without typing and is final |
| CliEngine.Engine.Release | h-app/hssh/communicators/cli_engine.py:282-296 | Rolls back only when dirty, leaves configuration mode only when in it, closes when a step fails |
| CliEngine.Engine.Cleanup | h-app/hssh/communicators/cli_engine.py:282-303 | The cleanup shared by release and close, its steps in order and each only when its flag asks for it |
| CliEngine.Engine.Close | h-app/hssh/communicators/cli_engine.py:298-303 | The same cleanup with its faults passed over, then the channel closed; nothing is typed after a commit in doubt |
| CliEngine.Engine.Enter | h-app/hssh/communicators/cli_engine.py:314-319 | Asks for exclusive configuration mode unless the session is in it |
| CliEngine.Engine.Load | h-app/hssh/communicators/cli_engine.py:321-337 | Marks the session dirty before the first line is typed and stops at the first line not accepted |
| CliEngine.Engine.Diff | h-app/hssh/communicators/cli_engine.py:339-345 | A comparison, on a session in configuration mode, told as changed when it is not blank |
| CliEngine.Engine.History | h-app/hssh/communicators/cli_engine.py:376-381 | The commit history, read in whichever mode the session is in |
| CliEngine.Engine.Commit | h-app/hssh/communicators/cli_engine.py:347-368 | Refuses what cannot be typed, marks the commit sent before it is typed, and clears the flags only on an answer |
| CliEngine.Engine.Confirm | h-app/hssh/communicators/cli_engine.py:370-374 | Enters configuration mode, reads the history there and sends a bare commit only when one is pending |
| Terminal.FeedInChunks | h-app/hssh/communicators/cli_engine.py:39-96 | Feeding a text in two pieces, however cut, gives the same emitted lines and the same state as feeding it whole |
| Terminal.AfterFeed | h-app/hssh/communicators/cli_engine.py:25-96 | In every reachable state the cursor is within 0 and the length of the line |
| Terminal.PlainTextSplits | h-app/hssh/communicators/cli_engine.py:39-83 | Text without controls comes out as exactly its split at newlines |
| Terminal.InvisibleVanishes | h-app/hssh/communicators/cli_engine.py:39-96 | Dropping complete invisible sequences from any output, anywhere, changes no emitted line, nor the open line, nor the cursor |
| Terminal.OscLeavesScreen | h-app/hssh/communicators/cli_engine.py:42-62 | Once an OSC string is begun, its body and its end leave line, cursor and emitted lines unchanged and the terminal at ground |
| Terminal.InvisibleLeavesScreen | h-app/hssh/communicators/cli_engine.py:42-96 | A complete OSC string, or any other complete sequence that draws nothing, fed from the ground state leaves line, cursor and emitted lines unchanged |
| Terminal.Overtype | h-app/hssh/communicators/cli_engine.py:39-83 | Printed text overwrites from the cursor on and keeps what lies beyond it |
| Terminal.LinesArePrinted | h-app/hssh/communicators/cli_engine.py:39-96 | No emitted or open line ever holds a character the terminal is meant to consume |
| Terminal.Emulator.Feed | h-app/hssh/communicators/cli_engine.py:39-83 | The character loop computes exactly the function the lemmas above are about |
| Terminal.Emulator.Control | h-app/hssh/communicators/cli_engine.py:84-96 | The control sequences honoured: erase in line and the three cursor moves |
| Terminal.Emulator.Escaped | h-app/hssh/communicators/cli_engine.py:39-83 | One character inside an escape sequence |
| TerminalControls.Redraw | h-app/hssh/communicators/cli_engine.py:39-96 | Return, erase and a new text show that text alone, whatever the line and the cursor were |
| TerminalControls.CursorBack | h-app/hssh/communicators/cli_engine.py:84-92 | The typed sequence for cursor back moves by its number, a zero counting as one, no further than the start of the line |
| TerminalControls.CursorForward | h-app/hssh/communicators/cli_engine.py:84-94 | The same for cursor forward, no further than the end of the line |
| TerminalControls.CursorToColumn | h-app/hssh/communicators/cli_engine.py:84-96 | The same for a column counted from one, within the line |
| TerminalControls.Erases | h-app/hssh/communicators/cli_engine.py:84-90 | Erase in line: 0 from the cursor on, 2 the whole line, anything else nothing |
| JunosDialect.CommitRoundTrip | h-app/hssh/dialects/junos.py:61-82 | For every valid minutes and comment, undoing the key quoting of the typed line and parsing it gives back exactly that pair |
| JunosDialect.CommitLineInjective | h-app/hssh/dialects/junos.py:61-82 | Different minutes and comment pairs are never typed as the same keys |
| JunosDialect.EditorUndoesEncode | h-app/hssh/dialects/junos.py:81-82 | The line editor reads back any line without controls from its encoded keys |
| JunosDialect.CommitLineTypable | h-app/hssh/dialects/junos.py:61-74 | A commit line has no control character, so the engine never refuses to type it, and is never a payload line |
| JunosDialect.CheckEditAccepts | h-app/hssh/dialects/junos.py:42-59 | check_edit accepts a payload if and only if some line is a command and every line is a comment, blank or a control-free line that begins with a set-prefix verb |
| JunosDialect.VerbIsNotCommit | h-app/hssh/dialects/junos.py:42-59 | A line that begins with a permitted verb never has commit, nor an abbreviation of it, as its first word |
| JunosDialect.VerbMeansEdit | h-app/hssh/dialects/junos.py:8-59 | An accepted line can only be read as an edit of the candidate: never as entering, leaving, rolling back or committing |
| JunosDialect.JunosUnderstood | h-app/hssh/dialects/junos.py:15-59 | The dialect's own commands are typable and mean what the engine uses them for |
| NetconfRuns.CleanupIsOwned | h-app/hssh/communicators/netconf.py:484-554 | Over every run, closes and discards during a commit included, each unlock delivered was for a lock this session held, each rollback for an uncommitted load under it |
| NetconfRuns.ReleasedIsClean | h-app/hssh/communicators/netconf.py:526-543 | A release that succeeds leaves the session unlocked and clean and the device without its lock or candidate; a release never commits |
| NetconfRuns.DoubtfulIsFinal | h-app/hssh/communicators/netconf.py:484-554 | Once doubtful, a session never again delivers a rollback or an unlock; once discarded it delivers nothing |
| NetconfRuns.UnknownCommitIsFinal | h-app/hssh/communicators/netconf.py:685-708 | After a commit of unknown outcome no run of calls delivers another request |
| NetconfRuns.CloseDuringCommit | h-app/hssh/communicators/netconf.py:484-496 | A close or discard that lands while a commit is in flight sends no cleanup, and none follows whatever the commit then answers |
| NetconfRuns.CommitIsExact | h-app/hssh/communicators/netconf.py:656-708 | An acknowledged commit changes the device by exactly the lines whose loads were acknowledged since the lock or the last commit, provided no load since then went unanswered |
| NetconfRuns.RunKeeps | h-app/hssh/communicators/netconf.py:484-716 | Over every run the flags locked and dirty are what the delivered requests say, and the device agrees |
| NetconfRuns.StepKeeps | h-app/hssh/communicators/netconf.py:484-716 | Every call, and every half of a commit, keeps that |
| Netconf.NetconfSession.Lock | h-app/hssh/communicators/netconf.py:620-634 | Takes the lock once; a lock whose answer is lost makes the session doubtful |
| Netconf.NetconfSession.Load | h-app/hssh/communicators/netconf.py:656-671 | Marks the session dirty before the load is sent |
| Netconf.NetconfSession.Diff | h-app/hssh/communicators/netconf.py:673-683 | A comparison under the lock, and the commit check when it shows a change |
| Netconf.NetconfSession.CommitBegin | h-app/hssh/communicators/netconf.py:685-708 | Up to the await of the commit: committing is set before it is sent |
| Netconf.NetconfSession.CommitEnd | h-app/hssh/communicators/netconf.py:685-708 | After the answer: clean on success, doubtful when the outcome is unknown |
| Netconf.NetconfSession.ConfirmBegin | h-app/hssh/communicators/netconf.py:710-716 | Under the lock, reads the history and goes on as a commit only when one is pending |
| Netconf.NetconfSession.Undo | h-app/hssh/communicators/netconf.py:526-543 | Rollback when dirty, unlock when locked, in that order, the flags cleared as each takes |
| Netconf.NetconfSession.Release | h-app/hssh/communicators/netconf.py:526-543 | The cleanup, refused to a doubtful session |
| Netconf.NetconfSession.Close | h-app/hssh/communicators/netconf.py:484-496 | The cleanup with its faults passed over, none during a commit or in doubt, then the transport closed |
| Netconf.NetconfSession.Discard | h-app/hssh/communicators/netconf.py:545-554 | Doubtful first, then the transport closed; nothing sent |
| Netconf.NetconfSession.Reuse | h-app/hssh/communicators/netconf.py:498-524 | A doubtful or closed session is not vouched for; a recent one is, without a request |
| SessionRuns.EverySessionPlaced | h-app/hssh/orchestrator/sessions.py:77-206 | In every interleaving of disciplined borrowers, evictions, thread ends and closes, each session that was opened was given to exactly one close and is at no key, or is at exactly one key, and there it is idle and past its cleanup, borrowed by exactly one owner, or left behind by a borrower cancelled inside the manager |
| SessionRuns.CutByCancel | h-app/hssh/orchestrator/sessions.py:77-134 | An entry is left behind only by a borrower of that very key that was cancelled: without cancellation every session is given, idle or borrowed |
| SessionRuns.EveryRunConserves | h-app/hssh/orchestrator/sessions.py:77-206 | The invariant behind it holds over every run: owners and entries in use match both ways, the cut keys apart |
| SessionRuns.StepKeeps | h-app/hssh/orchestrator/sessions.py:77-206 | Each step between two awaits keeps that invariant |
| SessionRuns.HeldByOne | h-app/hssh/orchestrator/sessions.py:77-134 | No two borrowers ever hold the same session, and a held session is neither idle nor closed |
| SessionRuns.ShutIff | h-app/hssh/orchestrator/sessions.py:198-206 | Closing a key keeps the invariant exactly when nobody borrows it |
| SessionRuns.CloseAllRuns | h-app/hssh/orchestrator/sessions.py:198-206 | A close_all with no borrower about is such a run: every kept session goes to exactly one close |
| SessionRuns.CloseAllDuringOpenLoses | h-app/hssh/orchestrator/sessions.py:198-206 | The run that shows it: a close_all while a borrower is still opening loses the session it then opens |
| SessionPool.RoomMakesRoom | h-app/hssh/orchestrator/sessions.py:168-190 | room closes the shortest least recently used prefix of the idle sessions that covers the shortfall, all of them when none does, never one in use, and never grants more than the limit less the base and the kept descriptors, running closes counted |
| SessionPool.EvictCountShortest | h-app/hssh/orchestrator/sessions.py:174-190 | The number evicted is the least that covers the shortfall |
| SessionPool.RoomLeaves | h-app/hssh/orchestrator/sessions.py:174-190 | What the evictions leave: the rest of the entries untouched, the evicted sessions closed in order |
| SessionManager.Manager.Pooled | h-app/hssh/orchestrator/sessions.py:72-75 | Whether an idle session waits under the key |
| SessionManager.Manager.Claim | h-app/hssh/orchestrator/sessions.py:77-87 | Takes the key's idle entry or makes one, in use from then on |
| SessionManager.Manager.Unvouched | h-app/hssh/orchestrator/sessions.py:88-97 | A kept session that reuse does not vouch for is given to one discard |
| SessionManager.Manager.Opened | h-app/hssh/orchestrator/sessions.py:99-104 | The opened session goes into the entry in hand |
| SessionManager.Manager.Release | h-app/hssh/orchestrator/sessions.py:106-122 | A session is discarded, closed or left to its cleanup; an entry without one is dropped |
| SessionManager.Manager.Cleaned | h-app/hssh/orchestrator/sessions.py:123-133 | A cleaned session becomes idle, one whose cleanup failed is discarded |
| SessionManager.Manager.Drop | h-app/hssh/orchestrator/sessions.py:136-139 | The key is free again |
| SessionManager.Manager.Start | h-app/hssh/orchestrator/sessions.py:141-149 | The session is given to exactly one close |
| SessionManager.Manager.KeptFds | h-app/hssh/orchestrator/sessions.py:168-172 | Descriptors of idle sessions and of closes still running |
| SessionManager.Manager.Oldest | h-app/hssh/orchestrator/sessions.py:174-190 | The least recently used of the given idle entries |
| SessionManager.Manager.IdleOrder | h-app/hssh/orchestrator/sessions.py:174-190 | The idle keys, least recently used first |
| SessionManager.Manager.Sort | h-app/hssh/orchestrator/sessions.py:174-190 | The same keys in that order |
| SessionManager.Manager.Room | h-app/hssh/orchestrator/sessions.py:174-190 | Up to its join: the eviction loop does what the function of the budget lemmas says, and nothing without a limit; it hands back the order it evicted in |
| SessionManager.Manager.Grant | h-app/hssh/orchestrator/sessions.py:174-190 | After the join: what may be granted, the whole request without a limit |
| SessionManager.Manager.EvictWhile | h-app/hssh/orchestrator/sessions.py:174-190 | Evicts one at a time while the shortfall lasts |
| SessionManager.Manager.CloseAll | h-app/hssh/orchestrator/sessions.py:198-206 | Every key is shut once, in the order told, and no entry is left |
| GateRuns.CooldownDecides | h-app/hssh/safety.py:68-82 | With any number of gates on one file and any order of their steps, once set_cooldown has returned and until the expiry: a pending check of the key that merged after the write is refused, and one that merged before is decided exactly as if the cooldown had not been written |
| GateRuns.CooldownHolds | h-app/hssh/safety.py:68-82 | With any number of gates on one file and any order of their locked read-merge-write steps, once set_cooldown has returned every check of the key that merges later is refused as cooling down until the expiry |
| GateRuns.PendingWaits | h-app/hssh/safety.py:68-82 | While a check is pending its gate takes no other step |
| GateRuns.OverlappingCheckAdmits | h-app/hssh/safety.py:68-82 | The second half is met: a run in which a check that merged before the write is admitted after set_cooldown has returned |
| GateRuns.RunGuards | h-app/hssh/safety.py:184-202 | Over every run an unexpired expiry stays in the file, and in every gate that has merged since |
| GateRuns.StepGuards | h-app/hssh/safety.py:184-202 | Every step of every gate keeps it, failed file accesses included |
| GateRuns.ReservedUntilFreed | h-app/hssh/safety.py:68-82 | A device admitted by a gate is not admitted by it again until it is released or cooled down, whatever any gate does meanwhile |
| GateProtocol.MergeKeeps | h-app/hssh/safety.py:184-202 | A merge never lowers an expiry that has not passed and never keeps one that has |
| GateProtocol.WindowHolds | h-app/hssh/safety.py:84-95 | Over any monotone sequence of calls any rate_limit + 1 counted logins to one device span at least 60 seconds, though old entries are pruned on each call |
| GateProtocol.KeptAreTheTail | h-app/hssh/safety.py:84-95 | What is pruned has left the window for good: the kept attempts are the tail of all counted ones |
| GateProtocol.EnoughAllowance | h-app/hssh/safety.py:84-95 | A device asked for no more logins than the limit is never refused by the rate limit |
| GateProtocol.RefusalKeepsCount | h-app/hssh/safety.py:68-82 | A refused admission reserves nothing and changes no device's count |
| SafetyGate.SafetyGate.Merged | h-app/hssh/safety.py:184-202 | The locked read, merge, prune and write, with every way the file access can fail |
| SafetyGate.SafetyGate.CountLogin | h-app/hssh/safety.py:84-95 | Prunes, then counts or refuses |
| SafetyGate.SafetyGate.CheckDevice | h-app/hssh/safety.py:68-82 | Merges, then refuses a device in use, cooling down or over the limit, and reserves the rest |
| SafetyGate.SafetyGate.SetCooldown | h-app/hssh/safety.py:108-115 | Never shortens the gate's own expiry and persists the merge |
| SafetyGate.SafetyGate.ReleaseDevice | h-app/hssh/safety.py:104-106 | The reservation is given up and nothing else changes |
| SafetyGate.SafetyGate.Close | h-app/hssh/safety.py:117-127 | A last merge, once |
| AttemptRuns.OneCommitPerEdit | h-app/hssh/orchestrator/lifecycle.py:69-82 | Over all attempts at an edit target, whatever its lines are called and whatever the gate and the device answer, at most one commit is sent, as the last call of all, only with apply set, after the whole load succeeded and a successful diff that did not report "unchanged" |
| AttemptRuns.AttemptsBounded | h-app/hssh/orchestrator/scheduler.py:197-208 | The loop ends within retries + 1 attempts and asks the gate for at most one login an attempt |
| AttemptRuns.OneAttemptWorks | h-app/hssh/orchestrator/scheduler.py:197-208 | When no operation is named as the open is, at most one attempt of a run that is not a read gets past its open |
| AttemptRuns.WorksOnceIff | h-app/hssh/orchestrator/policy.py:60-77 | A run that is not a read gets past its open at most once, whatever is answered, exactly when no operation of it is named as the open is, or there are no retries |
| AttemptRuns.ClashReplays | h-app/hssh/orchestrator/policy.py:60-77 | The clash realised: a payload line "open" that loses its session is judged as a failed connect and the payload is sent again |
| AttemptRuns.ShowReplays | h-app/hssh/orchestrator/policy.py:60-77 | The same for a command that is no read |
| AttemptRuns.DecideMeans | h-app/hssh/orchestrator/policy.py:60-77 | A retry is decided exactly for a dropped or unanswered open, or a read cut short, while retries are left; a cooldown exactly for a final fault that may have changed the device: an unknown outcome, or in an edit one that reached it |
| AttemptRuns.CommitEndsAttempts | h-app/hssh/orchestrator/policy.py:60-77 | Once the commit was sent there is no other attempt |
| AttemptRuns.AllSettled | h-app/hssh/orchestrator/scheduler.py:223-273 | Each reservation the gate made is given up exactly once and each borrowed session given back exactly once; only the last attempt can cool the device down |
| AttemptRuns.AttemptSettles | h-app/hssh/orchestrator/scheduler.py:257-273 | An attempt cools down as its verdict says and gives its session back with discard exactly when an operation left it in doubt |
| AttemptProtocol.RetryIsBounded | h-app/hssh/orchestrator/scheduler.py:197-208 | A retry is only decided while retries are left |
| AttemptProtocol.FirstFaultIsBad | h-app/hssh/orchestrator/scheduler.py:270-273 | The first fault is one of the operations, and there is none exactly when all succeeded |
| AttemptProtocol.KeepsAttempts | h-app/hssh/orchestrator/scheduler.py:285-330 | The operations of an attempt add calls and change nothing else of the record |
| Scheduler.TargetRun.Load | h-app/hssh/orchestrator/lifecycle.py:46-59 | The candidate in one call, or line by line up to the first fault |
| Scheduler.TargetRun.Lifecycle | h-app/hssh/orchestrator/lifecycle.py:69-82 | LOAD, DIFF and COMMIT with every early exit |
| Scheduler.TargetRun.Operations | h-app/hssh/orchestrator/scheduler.py:285-330 | The operations of each mode |
| Scheduler.TargetRun.Dial | h-app/hssh/orchestrator/scheduler.py:223-256 | The gate, the manager and the open, an eviction between them and a gate that fails at the reuse login included, with every way an attempt can end there |
| Scheduler.TargetRun.Connect | h-app/hssh/orchestrator/scheduler.py:237-256 | The open, and what its fault means |
| Scheduler.TargetRun.Conclude | h-app/hssh/orchestrator/scheduler.py:262-273 | What follows the operations: discard or not, verdict, settlement |
| Scheduler.TargetRun.Attempt | h-app/hssh/orchestrator/scheduler.py:223-273 | An attempt: the session given back, the verdict on the first fault, the reservation settled |
| Scheduler.TargetRun.Target | h-app/hssh/orchestrator/scheduler.py:180-208 | The retry loop computes exactly the function the lemmas above are about |
| LoginPlan.NeverTurnedAwayIff | h-app/hssh/orchestrator/scheduler.py:428-439 | The rate limit of a fresh gate refuses no attempt, whatever the devices answer and however the targets interleave, exactly when for each host and port the targets on it times retries + 1 are within the limit |
| LoginPlan.FitsIsNeeded | h-app/hssh/orchestrator/scheduler.py:428-439 | Beyond that a run is turned away: with every open dropped the attempts use up the limit |
| LoginPlan.PlanSuffices | h-app/hssh/orchestrator/scheduler.py:428-439 | Where each host and port is reached through one driver, as it is with distinct devices, a run that passes the plan is never turned away |
| LoginPlan.SharedPortRefused | h-app/hssh/orchestrator/scheduler.py:428-439 | Otherwise it can be: any two targets with one host and port and different drivers pass a plan with limit 1 and can be turned away |
| LoginPlan.PlanLogins | h-app/hssh/orchestrator/scheduler.py:428-439 | The plan passes exactly when every device's listings times retries + 1 are within the limit |
| LoginPlan.CheckUnique | h-app/hssh/frontends/fleet.py:145-164 | Accepts exactly the lists in which no two rows share a name or a host and port; a refusal names what two rows do wrong |
| LoginPlan.GateKeyInjective | h-app/hssh/safety.py:20-23 | Different hosts or ports never share a gate key, even when a host name holds a bar |
| LoginPlan.FitWorkers | h-app/hssh/orchestrator/defaults.py:52-60 | 32 + 6 times the workers stay within the limit unless one worker is left, and no more workers than needed are given up |
| Batch.BatchMeans | h-app/hssh/orchestrator/scheduler.py:257-348 | For every list of outcomes: commands are sent in order and once each, each on the session the timeouts before it leave; the batch stops after a lost session, an interrupt or a reopen that gives no session, and only then; every session ends once, with discard exactly when a command run on it ended TIMEOUT, SESSION_LOST or OUTCOME_UNKNOWN or was cut; the gate is asked once for each reopen |
| Batch.NothingAfterEnd | h-app/hssh/orchestrator/scheduler.py:301-317 | No command is sent on a session that was torn down, lost or given back |
| Batch.Attempt.Run | h-app/hssh/orchestrator/scheduler.py:301-317 | The command loop computes exactly the function the two lemmas are about |
| Batch.Attempt.Replace | h-app/hssh/orchestrator/scheduler.py:332-347 | The timed-out session is torn down before the gate is asked and a new one opened |
| Batch.Attempt.Finish | h-app/hssh/orchestrator/scheduler.py:257-269 | The session in hand is given back, with discard as its own operations say |
| Batch.Batched | h-app/hssh/orchestrator/scheduler.py:257-269 | A whole attempt at a batch; its operations are lost when it ends by an exception |
| InterruptRuns.NothingBeginsAfterInterrupt | h-app/hssh/orchestrator/scheduler.py:165-208 | In every interleaving, the probe included, no target, attempt or commit begins after the first interrupt |
| InterruptRuns.CommittedIsNeverCut | h-app/hssh/orchestrator/scheduler.py:165-178 | A target commits at most once, and one past its commit is never cancelled |
| InterruptRuns.ReportedAsTheyEnded | h-app/hssh/orchestrator/scheduler.py:137-157 | A target that sent its commit is never reported skipped; one that was cut short is never reported ok |
| InterruptRuns.EndsOnce | h-app/hssh/orchestrator/scheduler.py:137-163 | A target ends once, with the status its result has |
| InterruptRuns.WorkersConserved | h-app/hssh/orchestrator/scheduler.py:137-157 | No more targets are in flight than there are workers, and every worker is given back |
| InterruptRuns.RunKeeps | h-app/hssh/orchestrator/scheduler.py:165-208 | Over every run each task is past its commit and left alone, or, once an interrupt came, cancelled, cut short or over |
| Interrupt.TurnSane | h-app/hssh/orchestrator/scheduler.py:137-273 | Every resumption of a task keeps that |
| Interrupt.TurnQuiet | h-app/hssh/orchestrator/scheduler.py:180-208 | No resumption after an interrupt begins a target, an attempt or a commit |
| Interrupt.CommitIsNotRetried | h-app/hssh/orchestrator/policy.py:60-77 | A failed commit is never tried again |
| Interrupt.Run.AfterProbe | h-app/hssh/orchestrator/scheduler.py:84-101 | The tasks are made after the probe; interrupted during it, an edit is refused as a whole and any other run skips every target |
| Interrupt.Run.OnSignal | h-app/hssh/orchestrator/scheduler.py:165-178 | The first interrupt cancels exactly the targets not begun and those in flight and not past their commit; later ones cancel none; a probe under way is cancelled too |
| Interrupt.Gather | h-app/hssh/orchestrator/scheduler.py:159-163 | Results in target order, one for each target, and ok + failed + skipped is their number |
| KnownHostsRuns.RunPins | h-app/hssh/communicators/ssh.py:125-143 | Over every interleaving of accepters under the lock the old text stays a prefix, nothing parsed before is lost, a host that had keys keeps exactly those, one that had none gains at most one, and whoever succeeded finds its key pinned |
| KnownHostsRuns.AgreeOnKey | h-app/hssh/communicators/ssh.py:114-143 | Accepters that succeed for a host unknown before agree on its key: a host never gains a second, different one |
| KnownHostsRuns.AppendAddsOne | h-app/hssh/communicators/ssh.py:125-143 | An append keeps the old text as a prefix and adds exactly one parsed entry, even when the last line had no newline |
| KnownHostsRuns.AppendAddsOneIff | h-app/hssh/communicators/ssh.py:38-69 | The append adds exactly the entry for the host if and only if the name is one word without a comma that begins neither a comment nor a marker and is well formed if hashed |
| KnownHostsRuns.CommentIsNotPinned | h-app/hssh/communicators/ssh.py:38-69 | A name that begins with # is written and never read back, whatever the file held |
| KnownHostsRuns.StepIsAccept | h-app/hssh/communicators/ssh.py:125-143 | Under the lock, a step that touches the file is a whole accept on what the file holds at that moment |
| KnownHostsRuns.VerdictStays | h-app/hssh/communicators/ssh.py:114-122 | Once a host is known, the verdict on any key offered for it never changes by accepting |
| KnownHosts.ParseKeys | h-app/hssh/communicators/ssh.py:38-69 | Entries and revocations in file order; comments, other markers and bad lines are passed over, a bad revocation is an error with its line number |
| KnownHosts.HostFile.AcceptKey | h-app/hssh/communicators/ssh.py:125-143 | Unreadable, revoked, different, already known or too late: the file is as it was; unknown and in time: one line is appended |
| HostKeyCache.CacheAgrees | h-app/hssh/communicators/netconf.py:195-248 | After any lookups, forgets and accepts, a lookup answers exactly what resolving the held snapshot directly gives |
| HostKeyCache.AcceptAgrees | h-app/hssh/communicators/netconf.py:336-365 | After an accept the cache agrees and holds the file exactly as last read under the lock, after the append if there was one, and other paths as they were |
| HostKeyCache.ResolveIsFirst | h-app/hssh/communicators/netconf.py:236-247 | For each algorithm the resolved key is the first matching one, and there is one if any entry matches |
| HostKeyCache.HostRoundTrip | h-app/hssh/communicators/netconf.py:256-259 | The host is found again in its bracketed name with a port |
| HostKeyCache.SharedCache.Lookup | h-app/hssh/communicators/netconf.py:195-248 | Reads the file only when the path is not cached and resolves only what is not resolved; old mappings are untouched |
| HostKeyCache.SharedCache.Resolved | h-app/hssh/communicators/netconf.py:236-247 | The resolving loop |
| HostKeyCache.SharedCache.AcceptKey | h-app/hssh/communicators/netconf.py:337-366 | Forget, reread, and after an append forget and reread once more |
| HostKeyCache.SharedCache.ForgetPath | h-app/hssh/communicators/netconf.py:292-297 | Forgets the snapshot and every mapping resolved from it, and no other |
| HostKeyCache.SessionKeys.Lookup | h-app/hssh/communicators/netconf.py:256-262 | A session's new mappings are fresh copies, the cache's new ones fresh too, so both stay apart from every other session; kept from then on; an empty one is none |
| HostKeySessions.Serve | h-app/hssh/communicators/netconf.py:195-262 | Any sequence of lookups, forgets, accepts and changes on one cache and any number of sessions: no dictionary is ever shared, and the objects show exactly what the acts do to values, where a change reaches one mapping of one session |
| HostKeySessions.CacheKeptApart | h-app/hssh/communicators/netconf.py:195-262 | Over any such sequence the cache agrees with its snapshots, and a session's mappings change only by its own acts |
| HostKeySessions.ChangesUnseen | h-app/hssh/communicators/netconf.py:195-262 | What sessions changed in their mappings makes no difference to the cache, then or later |
| Deadline.FinishedNeverAborts | h-app/hssh/communicators/ssh.py:162-198 | In every interleaving of timers and worker, a guard whose finish succeeds never calls its abort, before or after |
| Deadline.FinishIffInTime | h-app/hssh/communicators/ssh.py:187-192 | A finish succeeds exactly when it comes before the deadline of the phase it ends |
| Deadline.StaleTimerIsHarmless | h-app/hssh/communicators/ssh.py:179-215 | A timer that expires the guard was armed for the very deadline the guard has, and that deadline has passed |
| Deadline.RunSound | h-app/hssh/communicators/netconf.py:75-96 | The same invariant for the SSH guard and for the NETCONF opening: an abort comes only of an expiry, an expiry only at the deadline of the phase it ends |
| Deadline.DeadlineGuard.OnTimer | h-app/hssh/communicators/ssh.py:179-185 | Expires only an active guard, or a NETCONF one, that still has the timer's deadline |
| Deadline.DeadlineGuard.Finished | h-app/hssh/communicators/ssh.py:187-192 | Succeeds in time and not after an expiry |
| Deadline.DeadlineGuard.ReceivedBanner | h-app/hssh/communicators/ssh.py:209-215 | Moves the deadline to the next phase, unless it came too late |
| Deadline.DeadlineGuard.Stopped | h-app/hssh/communicators/ssh.py:194-198 | The guard never expires again |

## Left out

- CliEngine.Engine.Load: the text of the replies is not modelled, only which lines were accepted; the same goes for the output of commit and diff.
- CliEngine.Engine.History: of the commit status only whether a commit is pending is modelled, not its minutes nor the newest line.
- CliEngine.Channel.Transact: a reply is accepted, refused, silent or lost; prompt and refusal patterns, paging, echo removal, settle times and UTF-8 decoding, which decide which of these a stream of bytes is, are not part of this model.
- Terminal.AfterFeed: parameters are read as ASCII decimals; other Unicode decimals, which Python also takes, are treated as no number. The 1024-character cut of `tail` is not modelled; numbers longer than 32 digits are cut in the model as in the code, but `TerminalControls` states nothing of them.
- Terminal.Emulator.Control: the same reading of parameters.
- CliRuns.CommitIsExact: stated for the Junos dialect; a dialect without candidate commands only answers UNSUPPORTED.
- CliRuns.ReleasedIsClean: a session that is gone on the device's side without the engine having noticed is found by reuse, which is modelled in the manager as an arbitrary answer.
- Netconf.NetconfSession.Load: the Junos payload check is the one modelled, so a payload is always set-style; text-format payloads of another dialect, the timeouts set on the library and the show, structured and config requests are not.
- SessionManager.Manager.Claim: waiting for a key in use is the absence of a step; keys are ordered numbers, which stand for the order of session keys in a tie of idle times.
- SessionRuns.EverySessionPlaced: safety only. A borrower cancelled inside the manager, or one whose gate fails at the reuse login, leaves its key in use, as in the code; the model has the first as its cut keys and takes the second for the same. An open abandoned by its time budget is outside the manager's accounts.
- SessionPool.RoomMakesRoom: the wait for closes is the machine's thread ends in any order; the case without an open-file limit is only in the methods Room and Grant.
- SessionManager.Manager.CloseAll: the time limits of the joins and the faults of closes told to the run are not modelled.
- GateRuns.CooldownHolds: for gates with a safety file; a gate in memory shares nothing. Whether a stored file is well formed (its JSON, keys, expiries and permissions) is one case, Broken.
- LoginPlan.PlanSuffices: counted logins are bounded by attempts, not equal to them: a session evicted between the gate's answer and the borrow is opened uncounted, in the model as in the code. Modes that reopen in mid-run are not covered, as the plan does not count them.
- Scheduler.TargetRun.Operations: a show and a structured call of one command are one mode, and a list of commands is modelled by itself, with the replacement of its session, in Batch.
- Scheduler.TargetRun.Dial: a kept session that turns up between the gate's answer and the borrow is not modelled; the gate's reservation keeps other borrowers of the device away.
- AttemptRuns.OneCommitPerEdit: budgets and pauses are not modelled; an operation that outlives its budget is a timeout among the answers.
- Batch.BatchMeans: an exception that is no fault of an operation is modelled for the gate only; the verdict on the whole batch is that of AttemptProtocol.
- InterruptRuns.CommittedIsNeverCut: a confirm does not mark its target as past the commit in the code, so an interrupt cuts it; the model has it among the operations that can be cut. A cut while a session is being given back leaves the gate's reservation in place in the code; reservations are not in this machine.
- InterruptRuns.NothingBeginsAfterInterrupt: liveness under cancellation is not claimed, as the code does not promise it; what the probe finds, and a run refused for it, are not modelled.
- KnownHostsRuns.RunPins: writes are whole; a crash inside an append, and programs that edit the file without its lock, are outside. The SSH transport's own cache of the parsed file by its stamp is not modelled.
- HostKeyCache.CacheAgrees: what the file parses to is given at each read; the cache is not told of changes by others until a forget, as in the code.
- Deadline.FinishedNeverAborts: a NETCONF transport is taken to read no banner after its open has succeeded.
- Sockets, paramiko, PyEZ, ncclient, subprocesses and SQLite: foreign code, present only as outcomes.
- The reachability probe, `ssh -G` routing, fault classification, file permissions and fsync: plumbing or case lists without state.
- CLI parsing, rendering, run files, profiles, the recorder and reports: front-end wrappers and single-function facts.
