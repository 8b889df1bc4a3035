# System/T: a Dafny model of its lock monitor, client library and undo log

System/T is a block store with transactions. A central monitor hands out locks and preempts by age and time slice
(`src/Monitor.cc`); a client library buffers a transaction's updates in a private block map and flushes them in
`commit()` (`src/Transaction.cc`); an undo log supports online rollback and offline recovery (`src/LogManager.cc`).
The project models all three and proves what they promise together.

## How the model is laid out

| file | content |
|---|---|
| `Basics.dfy`, `Disk.dfy` | options, ids, map order; index, store and the *view* (contents of the allocated blocks) |
| `LogSpec.dfy`, `Recovery.dfy` | log records, both scans, undo, `rollback`, `doRecovery`, recovery cut off and rerun |
| `Client.dfy` | the four operations on a block map, the writes of `commit()`, the stages of a block being flushed |
| `MonitorSpec.dfy`, `MonitorProps.dfy` | the monitor as a state machine; its invariant, locks, preemption, progress |
| `SystemSpec.dfy`, `SystemInv.dfy`, `SystemAsk.dfy`, `SystemCommit.dfy`, `SystemFlush.dfy`, `SystemEnd.dfy` | the whole system step by step, its invariant, and that every kind of step keeps it |
| `SystemHistory.dfy` | what each step does to the history of finished transactions |
| `SystemTranscript.dfy` | the calls and answers of each program, told from the events of a run, and that the history records exactly these |
| `SystemRun.dfy`, `SystemRollback.dfy` | whole runs, with the monitor's rollback in single writes, and the proof that such a rollback refines a disconnect in one step |
| `SystemTheorems.dfy` | theorems over whole runs: serializability, atomic recovery, durability |
| `SystemClosing.dfy` | theorems over whole runs: what the monitor answers to COMMIT, RESTART, ABORT and END |
| `SystemWitness.dfy`, `SystemReuse.dfy` | runs that break atomicity when a reader sweep meets a committing reader, and when a client dies before its LBEGIN |
| `CommitCrash.dfy` | one commit cut off anywhere, and commits that write the log at the source's real offsets |
| `ClientRefinement.dfy` | the client library refines a private copy of the view |
| `LogManager.dfy`, `Monitor.dfy`, `Transaction.dfy`, `Backoff.dfy` | the source's classes, with its loops and updates in place, proved against the specifications above |
| `SystemLink.dfy` | the classes' contracts are the steps of the whole-system model |

The main theorem is `SystemTheorems.RecoveryIsSerial`: at every point of every run, with any number of commits being
flushed, torn, in the middle of being rolled back or already recovered, running recovery leaves exactly the view that
the transactions with a logged LEND produce when they are run one at a time in the order their COMMIT requests were
granted, every one of them reading and overwriting exactly the values it saw. What it saw is not taken from the steps
of the model: it is the transcript of its program's calls and the library's answers, collected from the events of the
run. `SystemTheorems.OnlyFinished` and `SystemTheorems.Durable` say that this history holds those transactions and no
others.

## Hypotheses

The whole-system theorems are about runs (`SystemRun.IsRun`) in which every act is `SystemRun.Possible`. Two of its
conditions are hypotheses about the source, not consequences of it:

* `SparesCommitting`: no reader sweep meets a COMMITTING reader. The sweep at src/Monitor.cc:470-487 preempts such a
  reader, although doc/DOCUMENTATION:342 says that committing transactions are never preempted. The model follows the
  code. `MonitorProps.CommittingPreempted` says exactly when it happens, and `SystemWitness.CommittingReaderLost` is a
  run in which it leaves a half-flushed commit that nobody undoes.
* `BeginLogged`: a client that dies between the grant of its COMMIT and its LEND has logged its LBEGIN. Rollback's scan
  finds exactly the transaction's open records if and only if it has logged LBEGIN since its last terminator
  (`LogSpec.BackScanExact`). Without it the outcome depends on what an earlier user of the same tid left in the log,
  because tids restart at 1 with a new monitor and the scan walks past LABORT (`LogSpec.BackScanOutcome`,
  `LogSpec.NothingOpen`, `CommitCrash.DeadBeforeBegin`): rollback never returns if there is no LBEGIN or LEND of that
  tid, does nothing if the newest of them is LEND, and otherwise undoes records that are already closed.
  `SystemReuse.ReusedTidDestroys` is a run in which only this hypothesis fails and a durable commit is destroyed.

They exclude nothing else: whatever the library lets a client do, and its death, is possible at every moment, and so is a
crash (`SystemLink.CallsGoOn`, `FlushesGoOn`, `MessagesGoOn`, `RollbackGoesOn`).

The library's discipline (one BEGIN per connection, its own tid only, no request for a block it write-holds, nothing but
END after COMMIT) is not assumed there: the client is part of the model. The theorems about the monitor alone
(`MonitorProps.AllowedRun`) assume it of arbitrary clients.

Two simplifications of the whole-system model: checking the index, asking the monitor and reading the block from the
store are one atomic step; and the log is append-only, as the documentation describes it, because commits overlap.
A rollback is not atomic: the monitor makes its writes one at a time, each may be torn, other clients flush in between,
and a crash may cut it off anywhere. `CommitCrash` drops the append-only log: there every client writes at its own
descriptor's offset, which starts at 0, and commits do not overlap. `CommitCrash.OverlapLosesBegin` shows what
overlapping commits do to such a log.

## Findings

* A committing reader can be preempted, and its half-done commit is then neither rolled back nor finished (see above).
* An invalid block number (`block <= 0`) raises TE_ABORT without setting `error_occured`
  (src/Transaction.cc:91-95, 151-155, 223-227), so the destructor (src/Transaction.cc:472-475) commits the transaction
  whose program is told that it was aborted. `TransactionLibrary.LeaveByRead`, `LeaveByWrite` and `LeaveByRelease` state
  exactly when.
* `rollback` of a transaction that has not logged LBEGIN either never returns, or undoes records of an earlier
  transaction with the same tid that have long been closed, over other transactions' durable commits (see above).

## Model

| member | source | states |
|---|---|---|
| SystemTheorems.RecoveryIsSerial | src/LogManager.cc:181-238 | at any point of any run, also in the middle of a rollback, recovery leaves exactly the view produced by running the transactions that logged LEND one at a time in COMMIT order, each seeing the values it saw: the observations of every entry are the full list of its program's calls and answers over the run; unfinished, torn and rolled-back commits leave no trace |
| SystemTheorems.RecordsAreTranscripts | src/Transaction.cc:88-144 | at every point of every run, what each connected transaction and each entry of the commit order has recorded is exactly the transcript of its calls and answers since its BEGIN |
| SystemTranscript.ValueIsSeen | src/Transaction.cc:97-110 | a call that is answered with a value, from the block map or from the store, adds exactly one observation, and it is of that value |
| SystemClosing.EndAnswered | src/Monitor.cc:361-385 | in every run a transaction that has logged LEND and not yet sent END gets OK to it and is ENDED then, unless it has been preempted and is told to die |
| SystemClosing.WorkerAnswered | src/Monitor.cc:309-359 | in every run a transaction at work gets OK to COMMIT, RESTART and ABORT, unless it has been preempted and is told to die |
| SystemTheorems.QuiescentIsSerial | src/Monitor.cc:116-145 | with no commit in progress the files themselves are that serial result, so rollback before lock release keeps the rest serializable |
| SystemTheorems.InterruptedRecoveryIsSerial | src/LogManager.cc:217-235 | the same when recovery is cut off between any two writes, or inside a block write, and rerun, any number of times |
| SystemTheorems.Durable | src/Transaction.cc:426-431 | from the moment LEND is logged a transaction belongs to the serial history for the rest of the run, through disconnects without END, other rollbacks, crashes and recoveries |
| SystemTheorems.OnlyFinished | src/Transaction.cc:426-427 | the serial history contains only transactions that logged LEND at some earlier point of the run |
| SystemTheorems.RunDistinct | src/Monitor.cc:168-174 | no transaction occurs twice in the order of commits |
| SystemTheorems.CommittingIsAlone | src/Monitor.cc:416-417 | in every run a committing transaction is the only holder of every block it changes and is not preempted |
| SystemTheorems.LocksAreKept | src/Monitor.cc:219-307 | in every run a transaction that is not preempted and has not finished holds a lock for every block in its map, exclusive for all but blocks only read |
| SystemTheorems.StepKeeps | src/Monitor.cc:147-217 | every event of the system (request, buffered call, flush write, torn write, disconnect, crash with recovery) keeps the invariant |
| SystemAsk.AsksOnlyWhatItLacks | src/Transaction.cc:160-185 | while it is not preempted, a transaction never asks the monitor for a block it already write-holds: those calls are answered from its map |
| SystemAsk.AllocateIsNew | src/Transaction.cc:307-326 | while it is not preempted, the next free block is never one the transaction already has in its map |
| SystemTheorems.OpenAreDisjoint | src/LogManager.cc:198-215 | at every point of every run the open records of different transactions touch different blocks, each block once |
| SystemRollback.Follows | src/LogManager.cc:150-168 | every possible act from a state that satisfies the invariant, single rollback writes and other clients' flushes between them included, is a step of a world in which the rollback in progress has not begun, or leaves that world alone; the last rollback write is the disconnect |
| SystemRollback.SameRecovery | src/LogManager.cc:240-308 | recovery does not notice how far a rollback has come |
| SystemEnd.RollbackAt | src/LogManager.cc:240-308 | rolling back a transaction restores the blocks it was flushing from their undo images and touches no other block |
| SystemReuse.ReusedTidDestroys | src/LogManager.cc:122-148 | a run that respects every hypothesis, then the disconnect of a client without LBEGIN: rollback undoes closed records of an earlier transaction with the same tid and destroys a durable commit |
| SystemWitness.CommittingReaderLost | src/Monitor.cc:470-487 | a run in which the sweep preempts a committing reader ends in a view that is neither the one with nor the one without its commit |
| MonitorProps.ProcessInv | src/Monitor.cc:147-217 | every request keeps the lock-table invariant (a block with a writer has no readers, every holder has a status entry, every tid is below next_tid), so the brain-dead exits are unreachable |
| MonitorProps.DisconnectInv | src/Monitor.cc:116-145 | every disconnect keeps it |
| MonitorProps.FlushExact | src/Monitor.cc:610-639 | a flush removes exactly one transaction from every table and leaves every other lock |
| MonitorProps.RunKeeps | src/Monitor.cc:147-217 | in every run of disciplined requests and disconnects the invariant holds and a transaction that is not preempted still holds every lock granted since its BEGIN |
| MonitorProps.CommittingSoleHolder | src/Monitor.cc:326-342 | in every such run a committing transaction is sole holder of every block granted to it exclusively |
| MonitorProps.LockStep | src/Monitor.cc:393-524 | a lock request of a live transaction is granted exactly when every holder in the way must give way, with ages and the four seconds of the time slice in numbers; what grant and refusal do to all tables, the requester's status entry included |
| MonitorProps.RefusedExactly | src/Monitor.cc:393-524 | a lock request is refused exactly when a committing writer holds the block, or an older holder in its way that is not committing has been running for at most four seconds |
| MonitorProps.RefusedInRun | src/Monitor.cc:470-478 | the same at every point of every run, with the seconds counted from the time of that holder's BEGIN request |
| MonitorProps.StartTimes | src/Monitor.cc:168-174 | in every run the k-th BEGIN request opens transaction k, and through grants, preemptions and refusals the status table keeps the time and the process of that request |
| MonitorProps.SoleReaderUpgraded | src/Monitor.cc:263-282 | the only holder of a block may write it at any time, and nobody is preempted for it |
| MonitorProps.ToldReply | src/Monitor.cc:309-385 | END is granted exactly to a committing transaction, RESTART, ABORT and COMMIT exactly to a live one, and a preempted one is told to die; a grant changes only the requester's status |
| MonitorProps.GrantHolds | src/Monitor.cc:219-307 | a granted lock is held afterwards, and excludes every holder it must exclude |
| MonitorProps.LocksKept | src/Monitor.cc:393-524 | a step takes a lock from a transaction only by preempting it |
| MonitorProps.PreemptionJustified | src/Monitor.cc:420-432 | a request changes another transaction only to PREEMPTED, and only if that held the block and was younger, past its four seconds or a committing reader |
| MonitorProps.RefusalChangesNothing | src/Monitor.cc:232-236 | a refused request changes no table |
| MonitorProps.CommittingPreempted | src/Monitor.cc:462-490 | a committing transaction stays committing through another's request if and only if that request does not sweep the readers of a block it reads |
| MonitorProps.PreemptedAbsorbing | src/Monitor.cc:150-164 | a preempted transaction stays preempted through every request and hears only DIE |
| MonitorProps.SelfPreemption | src/Monitor.cc:480-490 | the sweep can preempt the requester itself before its handler overwrites the status |
| MonitorProps.OldestRefused | src/Monitor.cc:408-437 | the oldest transaction is refused a lock if and only if a committing writer holds the block |
| MonitorProps.OldestKeeps | src/Monitor.cc:427-432 | the oldest transaction is preempted before committing only more than four seconds after its start |
| MonitorProps.OldestProgress | src/Monitor.cc:393-524 | both, at the end of every run under the client discipline, with the four seconds counted from the oldest transaction's BEGIN request |
| LogSpec.ScanExact | src/LogManager.cc:198-215 | for any log, reused tids included, the read loop's map holds exactly each tid's records after its last LEND or LABORT, and no tid without such records |
| LogSpec.OpenIsTail | src/LogManager.cc:206-211 | the open records of a tid are its records after the position of its last terminator |
| LogSpec.BackScanReturns | src/LogManager.cc:122-148 | the backward scan returns if and only if the log holds an LBEGIN or LEND of the transaction |
| LogSpec.BackScanOpen | src/LogManager.cc:119-148 | for a transaction with LBEGIN and no terminator since, the backward scan collects its open records, newest first |
| LogSpec.BackScanOutcome | src/LogManager.cc:122-148 | what the scan does in any log: it spins without an LBEGIN or LEND of the tid, ends if the newest of them is LEND, and otherwise collects everything of the tid from its newest LBEGIN on, closed or not |
| LogSpec.BackScanExact | src/LogManager.cc:119-148 | the scan collects exactly the open records, newest first, if and only if the transaction has logged LBEGIN since its last terminator |
| LogSpec.NothingOpen | src/LogManager.cc:133-148 | with nothing open: spins if the tid has no record, ends if its newest record is LEND, and if it collects anything these are records closed by an LABORT |
| LogSpec.BackScanEnded | src/LogManager.cc:135-139 | if the transaction's newest record is LEND, the scan stops there |
| LogSpec.UndoOrderIndependent | src/LogManager.cc:240-308 | undoing the same records in any order and multiplicity gives the same disk, when each block is logged at most once |
| Recovery.RecoverAt | src/LogManager.cc:217-235 | recovery restores each block touched by an open record from that record: 'U' after an allocation, the old contents after a write, the old index entry, and the old contents if it was allocated, after a release |
| Recovery.RecoverElsewhere | src/LogManager.cc:217-235 | recovery leaves every other block alone |
| Recovery.RecoverIdempotent | src/LogManager.cc:217-235 | after recovery no transaction is broken, and a second recovery changes nothing |
| Recovery.WritesOfRecover | src/LogManager.cc:240-331 | the sequence of single writes that recovery performs adds up to its effect |
| Recovery.RecoveryRestartable | src/LogManager.cc:217-331 | recovery cut off after any of these writes, or inside a block write, and rerun, gives the same disk and log as an uninterrupted one, when open write sets are disjoint |
| Recovery.AttemptsConverge | src/LogManager.cc:181-238 | however often recovery is cut off and started again, the run that completes gives that same disk and log |
| Recovery.RollbackWritesRollback | src/LogManager.cc:150-168 | the single writes of a rollback add up to the rollback |
| Recovery.RollbackForgotten | src/LogManager.cc:150-168 | a rollback cut off before its LABORT, anywhere, even inside a block write: recovery leaves what it would have left had the rollback not begun |
| CommitCrash.CrashAnywhere | src/LogManager.cc:104-176 | a commit cut off anywhere between LBEGIN and LEND: rollback and recovery give the same disk and log, the index exactly as before, the store exactly on every block that was allocated, every transaction closed |
| CommitCrash.DeadBeforeBegin | src/LogManager.cc:122-148 | before LBEGIN nothing has changed and recovery does nothing; rollback never returns, finds LEND, or undoes closed records of an earlier transaction, depending on the newest LBEGIN or LEND of that tid in the log |
| CommitCrash.CommitCompletes | src/Transaction.cc:358-436 | a completed commit makes the disk's view the private copy; after LEND neither rollback nor recovery changes anything |
| CommitCrash.DoneView | src/Transaction.cc:370-427 | whatever the log holds and wherever it is written, all writes of a commit turn the disk's view into the private copy |
| CommitCrash.RealOffsets | src/LogManager.cc:40-44 | with every client writing the log from offset 0, commits that do not overlap and fresh tids, every record is followed by its own LEND or LABORT, and the view is that of the completed commits |
| CommitCrash.OverlapLosesBegin | src/LogManager.cc:97-101 | a second client's first record, written at offset 0, destroys the first client's LBEGIN, whose rollback then never returns |
| CommitCrash.PerformAllLog | src/LogManager.cc:63-102 | writing records at the descriptor's offset lays them over the log from there |
| CommitCrash.PlanOpen | src/Transaction.cc:370-427 | all records of an unfinished commit are open, those of a finished one are closed |
| Client.MinePlan | src/Transaction.cc:372-419 | commit writes each block of the map exactly once: its log record first, then its index and contents |
| Client.PlanShape | src/Transaction.cc:370-427 | a commit starts with LBEGIN, ends with LEND, and has only writes of the map's blocks in between |
| Client.FlushUndone | src/LogManager.cc:250-303 | at every stage of its flush, torn writes included, undoing a block's record restores it; before the record is logged there is nothing to restore |
| Client.FlushDone | src/Transaction.cc:376-416 | a block whose writes are done looks as the transaction left it |
| Client.ApplyExact | src/Transaction.cc:88-275 | an observation fits a plain store exactly when the store would have answered so, and it changes the observed block only |
| Client.Observe | src/Transaction.cc:88-275 | every operation keeps the block map a simulation of the program's view of a store that only it uses |
| ClientRefinement.Refines | src/Transaction.cc:60-275 | after any sequence of calls every next call answers as a private copy of the view would: own writes are read, released blocks are gone, and a call is rejected exactly when the copy lacks the block |
| ClientRefinement.SavedOldValues | src/Transaction.cc:202-217 | every entry keeps the block's index from before the transaction, and its contents if it was allocated, through repeated writes, upgrades and releases; a block allocated and released keeps 'U' |
| ClientRefinement.CommitPublishes | src/Transaction.cc:358-436 | after any sequence of calls, commit makes the disk's view equal the private copy |
| ClientRefinement.DeathLeavesNothing | src/LogManager.cc:104-176 | after any sequence of calls, dying at any write of commit between LBEGIN and LEND and being rolled back or recovered restores the index and every allocated block |
| ClientRefinement.SearchOrder | src/Transaction.cc:307-326 | block numbers are tried in strictly increasing order, and every free block passed over was tried |
| UndoLog.LogManager.Log | src/LogManager.cc:63-102 | one record, written at the descriptor's own offset |
| UndoLog.LogManager.UndoRec | src/LogManager.cc:240-308 | the loop undoes the list front to back |
| UndoLog.LogManager.Collect | src/LogManager.cc:119-148 | the backward loop finds what the specification's scan finds, or reports that the source would loop forever |
| UndoLog.LogManager.RollbackTransaction | src/LogManager.cc:104-176 | the whole rollback: undone and closed with LABORT at the end of the log, nothing when LEND is found, no return when neither is |
| UndoLog.LogManager.FindBroken | src/LogManager.cc:198-215 | the read loop builds the map of open records |
| UndoLog.LogManager.DoRecovery | src/LogManager.cc:181-238 | recovery in place has the effect of the specification |
| LockMonitor.TransactionMonitor.TestRead | src/Monitor.cc:393-438 | the verdict, and the preemption it performs on the spot |
| LockMonitor.TransactionMonitor.TestWrite | src/Monitor.cc:442-524 | the same for exclusive locks, with the search over readers and the sweep |
| LockMonitor.TransactionMonitor.SearchReaders | src/Monitor.cc:462-478 | the loop finds a reader that keeps the requester out, if there is one: older, not committing, within its four seconds |
| LockMonitor.TransactionMonitor.PreemptReaders | src/Monitor.cc:480-487 | the loop preempts exactly the listed readers |
| LockMonitor.TransactionMonitor.HandleAllocate | src/Monitor.cc:219-237 | tables and reply of an allocate request |
| LockMonitor.TransactionMonitor.HandleRead | src/Monitor.cc:239-255 | tables and reply of a read request |
| LockMonitor.TransactionMonitor.HandleWrite | src/Monitor.cc:257-289 | tables and reply of a write request, with the sole-reader upgrade |
| LockMonitor.TransactionMonitor.HandleRelease | src/Monitor.cc:291-307 | tables and reply of a release request |
| LockMonitor.TransactionMonitor.CheckSoleReader | src/Monitor.cc:565-581 | true exactly when the requester is the only reader (false for an empty list) |
| LockMonitor.TransactionMonitor.ProcessClientRq | src/Monitor.cc:147-217 | one request against the state machine; from tables that satisfy the invariant the monitor never exits and they satisfy it again |
| LockMonitor.TransactionMonitor.Serve | src/Monitor.cc:79-113 | the loop that serves one request after another |
| LockMonitor.ServedLast | src/Monitor.cc:79-113 | serving one more request is serving the others and then this one |
| LockMonitor.TransactionMonitor.FlushTransaction | src/Monitor.cc:610-639 | the loop over the block table removes one transaction |
| LockMonitor.TransactionMonitor.ClientDisconnect | src/Monitor.cc:116-145 | a committing client is rolled back before its locks go; if rollback does not return, every lock stays |
| TransactionLibrary.Transaction.constructor | src/Transaction.cc:25-57 | a new transaction with the monitor's next tid and an empty block map |
| TransactionLibrary.Transaction.Read | src/Transaction.cc:88-144 | answered from the map, by the monitor and the store, or rejected; a refusal or DIE marks the transaction as failed, and whatever happens the destructor can run |
| TransactionLibrary.Transaction.Write | src/Transaction.cc:147-218 | the same; the overwritten value is returned and the first one saved |
| TransactionLibrary.Transaction.Release | src/Transaction.cc:220-275 | the same for release |
| TransactionLibrary.Transaction.FindFreeBlock | src/Transaction.cc:307-326 | the next free block after the last one tried, or none is left |
| TransactionLibrary.Transaction.Allocate | src/Transaction.cc:60-86 | the loop follows the search, with other clients' requests served between its attempts; the block it obtains enters the map; ending without one marks the transaction as failed |
| TransactionLibrary.HuntPromises | src/Transaction.cc:60-75 | the search tries the free blocks in strictly increasing order and passes over none: it obtains the first one that is granted, every free block before it was refused at the tables it met, it gives up only when all were, and it stops only at a block where the monitor answers DIE or exits |
| TransactionLibrary.HuntFinds | src/Transaction.cc:66-75 | if the first free block that is not refused is granted, the search obtains it |
| TransactionLibrary.AllocateFirst | src/Transaction.cc:60-86 | then allocate returns that block and it enters the map |
| TransactionLibrary.Transaction.Restart | src/Transaction.cc:454-470 | a live transaction is answered OK, sleeps 2^n seconds and restarts as long as that is within the limit; beyond the limit, or preempted, it aborts; either way it is marked as failed |
| TransactionLibrary.Transaction.FlushAll | src/Transaction.cc:370-427 | the loop over the block map performs exactly the planned writes, in order |
| TransactionLibrary.Transaction.Commit | src/Transaction.cc:358-436 | a live transaction flushes everything, is answered OK to END and is ENDED; any other changes nothing and aborts |
| TransactionLibrary.Transaction.Destroy | src/Transaction.cc:472-492 | the destructor commits unless an error was recorded; then it asks the monitor nothing |
| TransactionLibrary.LeaveByRead | src/Transaction.cc:91-95 | a scope left by a rejected read commits if and only if the block number was invalid and the transaction is not preempted |
| TransactionLibrary.LeaveByWrite | src/Transaction.cc:151-155 | the same for a rejected write |
| TransactionLibrary.LeaveByRelease | src/Transaction.cc:223-227 | the same for a rejected release |
| TransactionLibrary.DeniedMeans | src/Transaction.cc:454-470 | a refused lock request leaves a live transaction in status RESTARTING and restarts it while the sleep is within the limit; a preempted one aborts with the tables unchanged |
| TransactionLibrary.LeaveDeniedRead | src/Transaction.cc:472-475 | a scope left by a read that was denied its lock: files and log are unchanged, the monitor has not been asked for COMMIT, and the program is told to restart exactly while the sleep is within the limit |
| TransactionLibrary.LeaveDeniedWrite | src/Transaction.cc:472-475 | the same for a write |
| TransactionLibrary.LeaveDeniedRelease | src/Transaction.cc:472-475 | the same for a release |
| TransactionLibrary.LeaveByAllocate | src/Transaction.cc:472-475 | a scope left by an allocate that found no block commits nothing |
| SystemLink.AskedIsStep | src/Transaction.cc:277-295 | a call that asks the monitor, granted, refused or told to die, allocate included: tables, block map and last block tried are those of the whole-system step |
| SystemLink.BufferedIsStep | src/Transaction.cc:160-185 | a call answered from the block map is the buffered step |
| SystemLink.ReadAnswers | src/Transaction.cc:88-144 | what the class's read tells the program, and the map it leaves, are the answer and the map that the whole-system transcripts and the refinement are about |
| SystemLink.WriteAnswers | src/Transaction.cc:147-218 | the same for write |
| SystemLink.ReleaseAnswers | src/Transaction.cc:220-275 | the same for release |
| SystemLink.ToldIsStep | src/Transaction.cc:454-464 | RESTART, ABORT and END are the whole-system step, with their answers and the status they leave |
| SystemLink.CommitIsStep | src/Transaction.cc:363-368 | so is the grant of COMMIT, which every live transaction gets |
| SystemLink.FlushIsSteps | src/Transaction.cc:370-427 | on an append-only log the writes of commit are the client's flush steps, one by one |
| SystemLink.ConnectIsStep | src/Transaction.cc:25-57 | so is connecting: the next tid, a status entry that begins now, an empty map, and nothing else changes |
| SystemLink.TornIsTorn | src/Transaction.cc:376-416 | a block write cut short leaves anything at all in that block, nothing else changes, and the write is still to be made |
| SystemLink.CrashIsStep | src/LogManager.cc:181-238 | after a crash the files are those that recovery leaves, and the monitor starts with empty tables |
| SystemLink.LeaveIsStep | src/Monitor.cc:116-145 | a disconnect leaves the tables and files that client_disconnect promises |
| SystemLink.UndoIsSteps | src/LogManager.cc:150-168 | the monitor's rollback, undisturbed, makes exactly the writes of the log manager's rollback |
| Backoff.Process.BackoffSleep | src/Transaction.cc:438-451 | sleeps 2^n seconds on the n-th call, counted from 0, unless that exceeds the limit |
| Backoff.Process.Retry | src/Transaction.hh:90-108 | at most floor(log2 limit) + 1 restarts and 2 * limit - 1 seconds; gives up exactly when refused more often |
| Backoff.BoundReached | src/Transaction.cc:442-450 | both bounds are reached when the limit is a power of two |
| Backoff.NeverOvershifts | src/Transaction.cc:442 | for limits below 2^31 the shift stays within the width of unsigned int |
| Disk.InitialDisk | src/initstore.cc:6-37 | the initial files: blocks 1 to 30, all unallocated, all filled with the character '0' |

## Left out

- Sockets, `select()`, the list of clients, `start()`: requests and disconnects arrive in any order.
- The clock: any integer, read once per request.
- Changes of the index by other clients between the attempts of one `allocate` call; the whole-system model, where every attempt is a step of its own, has them.
- Two live transactions in one process: `last_free_block` is static in the source (src/Transaction.cc:23, 45), a field here, so one live transaction per process is assumed.
- Concurrency between the index check, the lock request and the read of the store: one atomic step.
- A monitor that dies alone while clients keep flushing: a crash stops every process before recovery runs.
- Overlapping commits at the log's real offsets: the whole-system model appends, as the documentation describes.
- Torn log records and failing system calls; torn block writes are modelled.
- 64-bit wrap-around of transaction ids.
- The uninitialised buffer that `rollback` reads from an empty log file: counted as a scan that never returns.
- `front()` of an empty reader list in `check_sole_reader`: counted as false.
- The ASCII log, console output, pid and tid fields of replies other than the tid of BEGIN.
- C++ memory management: buffers are values, freed read buffers are not modelled, byte-by-byte copies are one assignment.
- Programs that write through the pointer returned by `read`.
- `lock`, `unlock` (empty bodies), `tpmd.cc`, `recover.cc`, the test programs, and `OBSERVE_ROLLBACK`/`OBSERVE_RECOVERY`.
- Starvation freedom: a restarted transaction gets a new, younger tid, so the documented claim does not follow.
