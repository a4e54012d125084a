# Verified model of naTE's headless core

naTE is a terminal emulator with a built-in SFTP file manager. This project models the parts of its core
that hold state machines and algorithms, and proves what they are for. `dafny verify dfyconfig.toml` checks
everything.

A class of the source is a class here, with the same fields and methods updated step by step; each method is
proved against a function of the old state, and the laws are proved about those functions and about runs of
them. What a file system, a session or a user answers is an argument, so every theorem about runs holds for
every answer and every interleaving.

- **Transfers and SFTP.** `TransferQueue.dfy` is the job state machine with its outstanding requests, and
  `TransferQueueObject.dfy` the queue as the object it is. `TransferSafety.dfy` holds what every run keeps,
  `TransferSlot.dfy`, `TransferDiscipline.dfy` and `TransferRuns.dfy` when one job at a time is kept,
  `TransferProgress.dfy` that the queue never wedges and `TransferDrain.dfy` that it runs dry,
  `TransferBreaks.dfy` what happens when it is not kept, `TransferBatches.dfy` which batches may be retired,
  `TransferFindings.dfy` runs on which it does less than it promises. `TransferWalk.dfy` says what becomes of a tree
  that was asked for and `TransferTrees.dfy` walks one to its end; `TransferConflicts.dfy` says what each answer about
  a job leads to and that nothing is overwritten unasked, `TransferSchedule.dfy` what the queue does of its own
  accord, `TransferRetirements.dfy` whom a retirement retires, `TransferSpace.dfy` what the check for space asks.
  `TransferTargets.dfy` says which file systems are asked, `TransferDrive.dfy` and `TransferDebts.dfy` drive the queue
  on to what it has still to do, `TransferClosing.dfy`, `TransferEndpoints.dfy` and `TransferDirectories.dfy` say what
  is asked after a file system has closed, `TransferDeclines.dfy` what comes back after a warning was declined.
  `SftpTaskQueue.dfy` is the slot scheduler, `SftpTasks.dfy` the resumable tasks, `SftpScheduling.dfy` the one running
  the other, `SftpCollisions.dfy` what a step out of turn costs, `SftpRuns.dfy` whole lives of the tasks,
  `SftpService.dfy` the account of their callbacks, `RemoteDeleter.dfy` the tree deletion, `RemotePath.dfy` and
  `Glob.dfy` the path and name algorithms.
- **Terminal.** `Parser.dfy` is the byte parser and `ParserRequests.dfy` the writing side, `DocLine.dfy` the styled
  line (module `Lines`), `CellEdits.dfy` its edits seen as edits of cells and `ShownCells.dfy` what it shows,
  `MainScreen.dfy` and `AltScreen.dfy` the two screens, `MainPrinting.dfy`, `AltPrinting.dfy` and `AltEditing.dfy` what is shown on them,
  `DocLayout.dfy` the viewport, `WordSelector.dfy` the UTF-8 encoding and its column map,
  `ScrollbackWriter.dfy` the scrollback segments. `Style.dfy` holds what they share.

Where the code does less than its comments say, the model follows the code and the exact condition is proved:

- One job at a time is kept exactly by the events of `TransferBatches.Allowed`; after any other, answers and new
  work alone can put two jobs under way or change a retired one (`TransferBatches.AllowedExactly`). Not
  allowed are cancelling a job while its destination or a free name is being looked up, or a link while it is
  being read or written; closing a file system while any call or transfer of one of its jobs is outstanding, and
  declining a warning while a call of one of that volume's jobs is, a transfer the transport owns aside; and
  retiring a batch, by cancelling everything or by closing, while a prompt for one of its jobs is open, or with the
  slot empty while a directory is being made, when the job that could be started next is in the batch too.
- A tree that was accepted can be lost in two ways (`TransferWalk.LostAfterCancelling`, `TransferWalk.LostToAnother`).
  Between cancelling everything and the arrival of the listing still at the server every tree is. And a
  listing whose endpoint is gone clears the line for every tree in it, since "every remaining listing would fail
  identically" (src/fs/TransferQueue.cpp:304-307); with trees between other file systems waiting there that is not so.
  `TransferWalk.AcceptedTreeExactly` is the exact condition.
- Closing a file system retires its jobs and leaves its pending visits and directories. It is asked again exactly
  when something is left on it (`TransferClosing.ClosedIsAskedIff`), listed next exactly when it is first in line by
  then (`TransferClosing.ClosedIsListedIff`), and the closing itself makes a directory exactly under
  `TransferDirectories.ClosingMakes`.
- Closing sets the endpoints of the jobs it retires to null, and the answer to a free-name look-up, a link's first
  two calls or a relay's first leg may then go through one. It cannot happen exactly when no such call leads to the
  file system that closes (`TransferEndpoints.SafeCloseExactly`), and so on no run of allowed events.
- "There is never one in flight" is said of listings when a warning is declined (src/fs/TransferQueue.cpp:1084-1089),
  but a tree may be asked for while the check goes on, and its walk starts at once. What was declined then comes
  back, exactly when a directory bound for that volume is being listed (`TransferDeclines.DeclinedRefillsIff`).
- `RunNext` takes the slot a task names after its step without looking whether it is free. Slots stay
  exclusive exactly when it is (`SftpTaskQueue.StepKeepsExclusiveIff`).
- "One step drives exactly one slot" is broken by every listing and transfer: the step that ends the work on
  an open handle goes on to close it, although it was cleared for another slot
  (`SftpScheduling.DrivesTwoSlotsIff`). A transfer cancelled in the middle of a call, and any task stopped in
  one, leaves its request outstanding on a slot it gives up. Replies reach their senders as long as steps avoid
  both (`SftpScheduling.RealRunsDeliver`), and `SftpCollisions.DisobeyingCosts` says how a reply goes astray after
  a step that does not; after the service stops nothing is called any more.
- A task pushed while the pending ones are being cancelled, or later, never has its callback
  (`SftpService.EverythingIsReportedIff`).
- `InsertAt` stops at a run it splits without shifting the later ones, so `DeleteAtClamped`, which its header
  calls safe for styles, keeps the styles only under the condition of `CellEdits.DeleteClampedExactlyWhenSafe`.
- `GlobMatch` takes a `*` in the name literally before it takes the pattern's `*` as a wildcard.
- `Contains(".", "a")` is false; `WalkAnchorBy` may return the position just past the last line, although its
  comment denies it; a batch of rows that starts above the document is not the single rows.
- The plan of a tree with anything below the depth limit stops at the first directory it cannot empty, and the plan of
  several targets stops at the first path it meets twice; `RemoteDeleter.MergedPlanRunsIff` is the exact condition.
- Scrollback segments are merged newest first when segment 0 is the current one after a rotation. Just after a
  rotation onto segment 0 nothing is merged at all: copying the empty segment fails the stream, the next copy
  writes nothing, and both segments are removed, so a merge after any multiple of 2 * limit lines loses everything
  (`ScrollbackWriter.FullSegmentsAreLost`). A failed rename of the merged file loses the segments too
  (`ScrollbackWriter.FailedRenameLosesSegments`).
- Main-screen `DeleteLines` leaves the cursor past the last line when it deletes all lines from the cursor on.
- On the alternate screen a reverse index scrolls the region whenever the cursor is at or above its top.

## Model

| member | source | states |
|---|---|---|
| `TransferBatches.AllowedExactly` | src/fs/TransferQueue.cpp:381-1132 | from a good, sound state an event is allowed if and only if no events that follow it quietly (any answers, new work, pausing, settings) ever put two jobs under way, or one the active id does not name, or change a retired job; allowed is a condition on the queue before the event |
| `TransferBatches.BatchExactly` | src/fs/TransferQueue.cpp:1045-1123 | a batch of retirements is clean in every turn if and only if, before it, the slot is held by a job outside the batch or by a transfer the transport is asked to stop, or no call is outstanding and the pump is held back or the job it begins after the pending directories is not in the batch |
| `TransferBatches.CancelAllAllowedIff` | src/fs/TransferQueue.cpp:1045-1068 | cancelling everything is allowed exactly when the transport owns the active transfer, or no call is outstanding and either the pump is held back or no job but the first unfinished one could be started |
| `TransferBatches.DeclineAllowedIff` | src/fs/TransferQueue.cpp:619-634 | declining at the space warning is allowed exactly when no call is outstanding for a job of that volume, a transfer the transport owns aside |
| `TransferBatches.PumpWeighs` | src/fs/TransferQueue.cpp:431-439 | weighing the queued jobs either comes to a question and stops the pump, exactly when the first unweighed job of some volume has a directory to ask about or the verdict is to be asked about, or leaves every job weighed and everything else as it was |
| `TransferBatches.EventKeepsPromise` | src/fs/TransferQueue.cpp:381-1132 | what every entry point keeps, in one place: soundness, the slot exactly when allowed, no stall, and that a barren answer brings the end nearer |
| `TransferBreaks.DisciplinedExactly` | src/fs/TransferQueue.cpp:698-788 | from a good, sound state an event retires no job behind the back of a call for it if and only if nothing that may follow quietly breaks one job at a time or changes a retired job |
| `TransferBreaks.StrandedBreaks` | src/fs/TransferQueue.cpp:687-995 | in any tidy, sound state a call outstanding for a cancelled job can be made to break the property by quiet events: answers, at most one more file, and resuming when the queue is paused |
| `TransferBreaks.StrandedCallChangesJob` | src/fs/TransferQueue.cpp:774-995 | any such call other than the first look at the destination has an answer that changes the cancelled job |
| `TransferBreaks.StrandedLookLosesSlot` | src/fs/TransferQueue.cpp:698-703 | a first look at the destination of a cancelled job, answered while another job is under way, leaves that job under way with the active id not naming it |
| `TransferBreaks.StrandedLookComesTrue` | src/fs/TransferQueue.cpp:256-462 | from any state with such a look outstanding and a startable job waiting, answers alone bring another job under way and then break the property |
| `TransferBreaks.DisciplinedRunsAreProper` | src/fs/TransferQueue.cpp:381-1132 | every disciplined run from a good state has one job under way at most in every state, the one the active id names, and changes no retired job in any step |
| `TransferDrain.AnswerMeasures` | src/fs/TransferQueue.cpp:256-1023 | in any state whatever, an answer that queues nothing new strictly decreases a measure of what may still follow |
| `TransferDrain.QueueDrains` | src/fs/TransferQueue.cpp:400-462 | so the queue drains: such answers can follow one another only so often, and on a disciplined run another request is outstanding as long as anything is left to do |
| `TransferDrain.PumpMeasures` | src/fs/TransferQueue.cpp:400-462 | the pump never increases that measure |
| `TransferRuns.EventExactly` | src/fs/TransferQueue.cpp:698-788 | the invariant behind it: from a good slot an event leaves the slot good (one job under way at most, in order, waiting for exactly one answer about itself) if and only if it is disciplined; whatever happens, retired jobs keep their state |
| `TransferRuns.EveryDisciplinedRun` | src/fs/TransferQueue.cpp:400-462 | every run of such events, from any good state, ends in a good state, and no job that has retired along the way has changed or come back |
| `TransferRuns.InitialIsGood` | src/fs/TransferQueue.cpp:112-116 | a new queue starts good |
| `TransferRuns.OneAtATime` | src/fs/TransferQueue.cpp:440-461 | in a good state two jobs under way are the same job, the one the active id names, and the active id names a job exactly when an answer about that job is outstanding |
| `TransferRuns.FinishExactly` | src/fs/TransferQueue.cpp:1004-1019 | retiring a job keeps the slot good if and only if no call for it is outstanding; cancelling it over a call strands that call |
| `TransferRuns.CancelExactly` | src/fs/TransferQueue.cpp:1025-1043 | cancelling one job keeps the slot good when it has no call outstanding or its transfer is the transport's to stop, and otherwise strands the call, which can then break the property; it never touches a retired job |
| `TransferRuns.ClosingKeepsRetired` | src/fs/TransferQueue.cpp:1102-1123 | closing a file system changes no job that had already retired, disciplined or not |
| `TransferRuns.EventSettles` | src/fs/TransferQueue.cpp:1004-1023 | over any event a retired job stays as it retired or is cleared away, and an id that is gone stays gone |
| `TransferRuns.OwnedBatchIsClean` | src/fs/TransferQueue.cpp:1029-1038 | while the transport owns the active transfer any batch of cancellations is harmless, because the transfer keeps the slot until the transport answers |
| `TransferRuns.PumpWhileHeld` | src/fs/TransferQueue.cpp:431-449 | with the slot held the pump may weigh work but moves no job and does not touch the slot |
| `TransferDiscipline.PumpLeads` | src/fs/TransferQueue.cpp:400-462 | whatever the state, the pump keeps a good slot good, keeps retired jobs, and never revives a stranded call |
| `TransferDiscipline.CallAnswerIsFine` | src/fs/TransferQueue.cpp:698-995 | answering the one outstanding call about the active job, in the state that call belongs to, keeps the slot good and the retired jobs unchanged, for every kind of call and every answer |
| `TransferDiscipline.AnsweredPromptIsFine` | src/fs/TransferQueue.cpp:725-739 | an answered prompt does the same, and is ignored once its job no longer waits |
| `TransferSlot.RetiringIsGood` | src/fs/TransferQueue.cpp:1004-1019 | retiring a job frees the slot exactly if the job held it, and leaves every other job's standing alone |
| `TransferSlot.BeginLeads` | src/fs/TransferQueue.cpp:460-461 | beginning the next queued job from a free slot is good and asks exactly one question about it |
| `TransferSlot.CallingIsGood` | src/fs/TransferQueue.cpp:790-853 | a job whose answer has come may be asked the next thing, in the state that question belongs to |
| `TransferSlot.CallAnswered` | src/fs/TransferQueue.cpp:687-695 | in a good state the answer to any outstanding call is about the active job, which is where that answer expects it |
| `TransferSlot.ClearingIsGood` | src/fs/TransferQueue.cpp:1125-1132 | clearing retired jobs away keeps ids distinct and the slot good |
| `TransferSafety.EveryRunIsSound` | src/fs/TransferQueue.cpp:256-296 | on every run, disciplined or not: one listing is outstanding exactly while a walk runs, one space question exactly while the check says so, every directory was made with no walk running and all queued work weighed, every job was weighed before it began |
| `TransferSafety.EventKeepsSound` | src/fs/TransferQueue.cpp:400-462 | each event keeps that |
| `TransferSafety.PumpIsSound` | src/fs/TransferQueue.cpp:400-462 | the pump keeps that and starts nothing while a walk runs |
| `TransferSafety.PumpInVerdict` | src/fs/TransferQueue.cpp:431-439 | while a verdict is still being reached the pump moves no job and holds no slot, even if the verdict's own cancellations call it; at most it makes a directory, with nothing queued |
| `TransferSafety.AbsorbingOnlyAdds` | src/fs/TransferQueue.cpp:298-345 | while a walk runs, queueing what a listing holds issues no request and moves no job already there |
| `TransferSafety.InitialIsSound` | src/fs/TransferQueue.cpp:112-116 | a new queue starts sound |
| `TransferProgress.NeverWedges` | src/fs/TransferQueue.cpp:619-634 | on every disciplined run, whenever the queue is not paused and has anything left to do, a request of the walk, the check, a directory or the active job is outstanding |
| `TransferProgress.InitialIsLive` | src/fs/TransferQueue.cpp:112-116 | a new queue starts live |
| `TransferProgress.EventKeepsLive` | src/fs/TransferQueue.cpp:400-462 | each event, disciplined or not, leaves nothing startable unwatched |
| `TransferProgress.PumpIsLive` | src/fs/TransferQueue.cpp:400-462 | whatever state the pump is called in, if it leaves work it could start then a walk, a check, a job or a directory will call it again |
| `TransferProgress.SomethingIsAwaited` | src/fs/TransferQueue.cpp:400-462 | soundness, a good slot and that liveness together name the awaited request; a cancelled job's open prompt does not count |
| `TransferQueue.BeginPreflightDecreases` | src/fs/TransferQueue.cpp:431-438 | a check that is over at once has weighed something or used up its pending mark, so the pump terminates |
| `TransferConflicts.NothingIsOverwrittenUnasked` | src/fs/TransferQueue.cpp:668-995 | over every run of a new queue, orderly or not, a transfer, a replacement or a link is newly asked for only for a job that has been allowed to write the path it has by then: because nothing was found there, or because what was found may be overwritten by the policy then or the prompt's answer, or because a free name was looked for and nothing is there |
| `TransferConflicts.StatesComeAboutIff` | src/fs/TransferQueue.cpp:698-1002 | in any state of the queue and for any event, a job becomes completed if and only if its last leg or its link is done well, skipped if and only if the policy or the prompt's answer says so or there is nobody to ask, and active if and only if nothing was found or it may overwrite what was, and there is a way for it |
| `TransferConflicts.LookIsHeeded` | src/fs/TransferQueue.cpp:698-741 | a first look that finds nothing sends the job on its way; one that finds something makes of it what the policy means, or asks the user |
| `TransferConflicts.PromptIsHeeded` | src/fs/TransferQueue.cpp:725-768 | an answer to skip leaves the job skipped, its path what it was and nothing more asked for it; one to overwrite sends it on its way; one to rename first looks for a numbered name in the same directory that is not the old one; from now on too if that was asked |
| `TransferConflicts.NameIsHeeded` | src/fs/TransferQueue.cpp:752-788 | a free name becomes the job's path; a taken one is followed by the next number, a hundred at most |
| `TransferConflicts.StepIsHeeded` | src/fs/TransferQueue.cpp:870-995 | a failed step ends its job as failed, or cancelled if that is why; a good last one completes it; any other is followed by the next one, made at the destination |
| `TransferConflicts.CandidatesDiffer` | src/fs/TransferQueue.cpp:98-110 | no name is tried twice for one job |
| `TransferSchedule.ImpersonalSched` | src/fs/TransferQueue.cpp:256-637 | whatever happens that is no answer about a job, the queue at most looks at queued jobs, refuses them, cancels jobs if it was told to, and adds new ones; no job's path changes |
| `TransferSchedule.PumpKeepsTheRules` | src/fs/TransferQueue.cpp:400-462 | one pump makes one request at most, none during a walk: a first look for the first job in line, with the slot empty, no directory left and the queue not paused; the directory that is next, not while paused either; or one of the space check |
| `TransferRetirements.RetirementServes` | src/fs/TransferQueue.cpp:1025-1123 | each retirement retires exactly the unfinished jobs it is about, as the queue was before it, whatever the pump does in between; a transfer the transport is asked to stop goes on until it answers |
| `TransferRetirements.PendingIsDropped` | src/fs/TransferQueue.cpp:1045-1090 | cancelling everything leaves no visit and no directory pending; cancelling what is bound for a volume leaves exactly those bound for others, in order, but for the first directories, which may have been made |
| `TransferRetirements.ElsewhereAre` | src/fs/TransferQueue.cpp:1077-1090 | what is kept is every visit and directory bound for another volume, as often as it was pending, and no other |
| `TransferRetirements.NewWorkIsQueued` | src/fs/TransferQueue.cpp:126-213 | a file or a link that is asked for becomes one job at the end of the line, bound for its own name in the directory |
| `TransferSpace.CheckBegins` | src/fs/TransferQueue.cpp:484-519 | the check asks the file system of the first job no verdict covers, about the directory it writes into, and does nothing else |
| `TransferSpace.RefusedClimbs` | src/fs/TransferQueue.cpp:521-551 | an answer that is not the last one takes the question one directory up, on the same file system, with one try less, and nothing else happens; it is the last one exactly if it says how much there is or that nobody can, or there is no directory above or no try left |
| `TransferSpace.VerdictIsReached` | src/fs/TransferQueue.cpp:553-637 | the verdict covers exactly the queued jobs bound for that volume, and the user is asked exactly when it looks bad and there is anyone to ask |
| `TransferFindings.TwoJobsAtOnce` | src/fs/TransferQueue.cpp:701-702 | for every number of queued files from three up there is a run from an empty queue with two jobs under way: cancel the first while its destination is looked up, then let the answer arrive |
| `TransferFindings.CancelledThenFailed` | src/fs/TransferQueue.cpp:888-889 | a link's job cancelled while its target is read retires as cancelled, and the read's failure then makes it failed |
| `TransferFindings.CancelledThenStarted` | src/fs/TransferQueue.cpp:778-785 | a job cancelled while a free name is looked up retires, and the name being free then starts its transfer with nothing in the slot |
| `TransferFindings.ProbingIsReached` | src/fs/TransferQueue.cpp:752-768 | that state is reached from an empty queue |
| `TransferFindings.ReadLinkFirst` | src/fs/TransferQueue.cpp:870-889 | that state is reached from an empty queue |
| `TransferFindings.CancelAllStrands` | src/fs/TransferQueue.cpp:1058-1067 | with the first of two or more jobs at a prompt and nothing holding the others back, cancelling everything always looks up the second before cancelling it, and strands that call |
| `TransferFindings.CancelAllStrandsBetween` | src/fs/TransferQueue.cpp:1058-1067 | with nothing under way and two startable jobs weighed, as while a directory is being made, cancelling everything is not allowed either: it can break one job at a time |
| `TransferFindings.CancelAllAbandonsTheWalk` | src/fs/TransferQueue.cpp:1045-1056 | cancelling everything while a walk runs leaves it abandoned with its listing outstanding |
| `TransferFindings.TreeAfterCancelIsLost` | src/fs/TransferQueue.cpp:290-292 | a tree asked for before an abandoned walk's listing arrives is listed and its rows are ignored whatever they are: the shortest way of losing one |
| `TransferWalk.AcceptedTreeExactly` | src/fs/TransferQueue.cpp:271-314 | a tree accepted in any sound state is never taken in, on any continuation, if the walk is already abandoned; otherwise, on every run that neither cancels everything nor drops its visit, it is lost if and only if a listing answered before its own finds its endpoint gone, and once enough listings have been answered it has been taken in if and only if none did |
| `TransferWalk.EventTracks` | src/fs/TransferQueue.cpp:256-345 | the fate spoken of is the queue's: over any event, a tree said to be waiting is in that place in the line and one said to be asked has its listing outstanding |
| `TransferWalk.LostToAnother` | src/fs/TransferQueue.cpp:302-313 | for any two accepted trees from an empty queue, between whatever file systems, the first one's endpoint being gone ends the walk with the second one never listed |
| `TransferWalk.LostAfterCancelling` | src/fs/TransferQueue.cpp:290-292 | for any two accepted trees from an empty queue, everything being cancelled between them ends the walk with the second one listed and not one job |
| `TransferWalk.EventKeepsWalking` | src/fs/TransferQueue.cpp:271-296 | whatever happens, directories wait to be listed only while a walk runs |
| `TransferWalk.GatheredVisits` | src/fs/TransferQueue.cpp:298-345 | a listing's answer leaves the line emptied or not, by whether its endpoint is gone, followed by the directories found above the depth limit, in order, or leaves it as it was if the walk is abandoned |
| `TransferTrees.TreeIsWalked` | src/fs/TransferQueue.cpp:298-345 | a tree asked for with no walk running, told the truth about each directory, is walked to its end: every directory within the depth limit is listed exactly once, exactly one job is added per file and link, a link's already skipped if links are, every directory is to be made once and after the one it lies in, and only then does the queue go on |
| `TransferTrees.WalkComesToItsEnd` | src/fs/TransferQueue.cpp:256-296 | the same for whatever stands in the line, from any moment of a walk |
| `TransferTargets.EveryRunAvoids` | src/fs/TransferQueue.cpp:271-995 | over every run, nothing is asked at a file system on which no job is to run, no directory is to be listed or made and to which no outstanding call leads, whatever is answered, cancelled, closed or queued elsewhere; for the missing endpoint, nothing is asked through a null one |
| `TransferTargets.EventAvoids` | src/fs/TransferQueue.cpp:271-1132 | one event of that |
| `TransferEndpoints.SafeCloseExactly` | src/fs/TransferQueue.cpp:1102-1123 | from any sane state, closing a file system and whatever may quietly follow never goes through the endpoints it has set to null if and only if no outstanding call leads on to it, that is no free-name look-up, link read or replacement and no first leg of a relay for one of its jobs |
| `TransferEndpoints.UnsafeIsLost` | src/fs/TransferQueue.cpp:774-945 | each such call has an answer that goes through the missing endpoint |
| `TransferClosing.AllowedCloseIsSafe` | src/fs/TransferQueue.cpp:1102-1123 | a closing that keeps one job at a time is safe in that sense as well |
| `TransferClosing.SaneStays` | src/fs/TransferQueue.cpp:381-1132 | an allowed event with both endpoints there for new work keeps slot, soundness, liveness and walk, and asks nothing through a missing endpoint |
| `TransferClosing.InitialIsSane` | src/fs/TransferQueue.cpp:112-116 | a new queue starts so |
| `TransferClosing.EveryAllowedRunIsSane` | src/fs/TransferQueue.cpp:381-1132 | so does every run of such events: every request is made at a file system that is there |
| `TransferClosing.ClosedIsAskedIff` | src/fs/TransferQueue.cpp:1102-1123 | after a file system has closed, some quiet run without new work there asks it if and only if something is left: a directory to be listed on it, one to be listed or being listed for it in a walk not abandoned, a directory to be made on it, or a space question an error passes on to the parent; if nothing is left, no run at all without new work there asks it |
| `TransferClosing.ClosedIsListedIff` | src/fs/TransferQueue.cpp:271-345 | whatever the listing under way brings, rows, a lost endpoint or an abandoned walk, the next listing is asked of the closed file system if and only if it is the source of the directory first in line by then |
| `TransferDirectories.ClosingMakesDirectoryIff` | src/fs/TransferQueue.cpp:400-462 | closing a file system itself makes the next pending directory, wherever it lies, if and only if one is waiting, no walk runs, the queue is not paused, some job is dropped, the slot is empty or one of theirs, and the space check does not hold the pump back or no other job is queued |
| `TransferDrive.AnswerRuns` | src/fs/TransferQueue.cpp:256-1019 | from any orderly running state, strays included, every answer that brings nothing new and declines nothing leaves the queue running: something it still has to do is awaited |
| `TransferDebts.DebtIsPaid` | src/fs/TransferQueue.cpp:400-462 | a directory to be made and a link queued are come to by answers alone, whatever else the queue has to do first |
| `TransferDeclines.DeclinedRefillsIff` | src/fs/TransferQueue.cpp:1084-1089 | after a space warning is declined, a run with no new tree for that volume can bring some of it back if and only if a directory bound for it is being listed at the moment of declining |
| `TransferDeclines.DecliningIsFinal` | src/fs/TransferQueue.cpp:1070-1100 | if no tree bound for the volume is asked for between the start of the check, which never starts during a walk, and the answer, nothing declined ever comes back |
| `TransferDeclines.CheckStartsAtRest` | src/fs/TransferQueue.cpp:400-402 | no event starts a check and leaves a walk running |
| `TransferDeclines.TreeDuringQuestion` | src/fs/TransferQueue.cpp:215-249 | a tree asked for during the question has its listing outstanding with it, declining leaves that listing there, and a file in it is queued for the volume declined |
| `TransferDeclines.QuestionIsReached` | src/fs/TransferQueue.cpp:605-617 | such a question is reached from an empty queue |
| `TransferQueueObject.TransferQueue.constructor` | src/fs/TransferQueue.cpp:112-116 | starts in the initial state |
| `TransferQueueObject.TransferQueue.AddItem` | src/fs/TransferQueue.cpp:158-185 | queueing a link, a tree or a file is where the state machine is, and keeps soundness, the slot and liveness |
| `TransferQueueObject.TransferQueue.Deliver` | src/fs/TransferQueue.cpp:256-1019 | any outstanding request may be answered: soundness is kept, the slot exactly when the answer is allowed, the queue does not stall, and an answer that brings nothing new brings the end nearer |
| `TransferQueueObject.TransferQueue.Cancel` | src/fs/TransferQueue.cpp:1025-1043 | cancelling one job keeps all that exactly when it is allowed |
| `TransferQueueObject.TransferQueue.CancelEverything` | src/fs/TransferQueue.cpp:1045-1068 | so does cancelling everything, over a snapshot of the ids |
| `TransferQueueObject.TransferQueue.CancelBatch` | src/fs/TransferQueue.cpp:1070-1100 | so does cancelling what is bound for one volume |
| `TransferQueueObject.TransferQueue.CancelUsing` | src/fs/TransferQueue.cpp:1102-1123 | so does closing a file system |
| `TransferQueueObject.TransferQueue.ClearFinished` | src/fs/TransferQueue.cpp:1125-1132 | keeps exactly the jobs that have not retired, in order, and all that |
| `TransferQueueObject.TransferQueue.Pause` | src/fs/TransferQueue.cpp:464-471 | starts nothing further and keeps all that |
| `TransferQueueObject.TransferQueue.Resume` | src/fs/TransferQueue.cpp:473-478 | pumps once and keeps all that |
| `SftpTaskQueue.RanKeepsFlags` | src/transport/SftpTaskQueue.h:105-133 | for arbitrary tasks and pushes, every raised slot flag has a queued holder after a run |
| `SftpTaskQueue.SomethingIsRunnable` | src/transport/SftpTaskQueue.h:105-112 | nothing can run only when the queue is empty; the second reason the comment gives does not occur |
| `SftpTaskQueue.HolderAdvances` | src/transport/SftpTaskQueue.h:105-133 | a run steps the holder at position i or moves it one place forward |
| `SftpTaskQueue.HolderIsSteppedSoon` | src/transport/SftpTaskQueue.h:105-133 | whatever is pushed and whatever steps do, a holder at position i is stepped by one of the next i + 1 runs |
| `SftpTaskQueue.StepKeepsExclusiveIff` | src/transport/SftpTaskQueue.h:120-133 | on any set of slots, a step keeps at most one holder to each, flagged when held, if and only if the slot it names next is free or not among them |
| `SftpTaskQueue.ScheduledReplyIsOwn` | src/transport/SftpTaskQueue.h:152-161 | a reply pending where a scheduled step calls, on a slot it was cleared for or nobody holds, is that task's own |
| `SftpTaskQueue.SystemStepStaysConsistent` | src/transport/SftpTaskQueue.h:105-133 | with one outstanding request per slot in the session, a clear step keeps each request with the holder that sent it |
| `SftpTaskQueue.DisciplinedRunsDeliverToSender` | src/transport/SftpTaskQueue.h:18-30 | for arbitrary tasks, on every run of clear steps and of pushes every reply on the chosen slots goes to the task that sent the request |
| `SftpTaskQueue.AbandoningStrands` | src/transport/SftpTaskQueue.h:114-120 | a task that leaves its slot with its request outstanding leaves the request with no holder |
| `SftpScheduling.StepCallsExactly` | src/transport/SshSftpService.cpp:391-772 | for the real tasks, every state and every answer: a step calls its own slot unless it sees the stop or cancellation first or has nothing to write, and Close besides exactly when it ends an open handle's work; where it leaves a request it waits |
| `SftpScheduling.DrivesTwoSlotsIff` | src/transport/SftpTaskQueue.h:55-60 | the promise that a step drives one slot fails exactly for a step that calls its own slot and goes on to close |
| `SftpScheduling.RealStepIff` | src/transport/SftpTaskQueue.h:105-133 | a scheduled step of a real task meets only its own replies and leaves every request with its holder if and only if the slot it names next is free, it leaves no request of its own behind, and a close made without clearance finds nobody closing; `SftpCollisions.DisobeyingCosts` says what follows from any other step |
| `SftpScheduling.RealRunsDeliver` | src/transport/SftpTaskQueue.h:18-30 | on every run of uploads, downloads, listings and single operations whose steps obey that, until the service stops, every reply on a session slot goes to its sender, and every close's too when Close is counted in |
| `SftpScheduling.StepKeepsTask` | src/transport/SshSftpService.cpp:391-772 | every step of every kind of task leaves it valid or retires it with one report, which says success only for a transfer that arrived whole |
| `SftpScheduling.TwoListingsCollide` | src/transport/SftpTaskQueue.h:127-128 | two real listings pushed one after the other collide: the slot named after a step is taken unchecked, and the sixth run hands the second listing the first one's reply |
| `SftpCollisions.DisobeyingCosts` | src/transport/SftpTaskQueue.h:105-133 | from any steady state, while the service runs, a step that does not obey takes another task's reply itself, or leaves a reply that the next call on its slot is handed, or shares a slot so that the next runs, as many as there are tasks, hand a reply to the wrong task, unless an upload with nothing left to send is in the way |
| `SftpCollisions.NamingHeldCollides` | src/transport/SftpTaskQueue.h:127-128 | a step that names a slot held by another task is such a step: with nothing more answered, one of the two takes the other's reply within as many runs as there are tasks |
| `SftpCollisions.DangerIsMet` | src/transport/SftpTaskQueue.h:105-133 | of two tasks holding one slot with one request outstanding, the one that did not send it is stepped within its place in the queue and takes the reply |
| `SftpCollisions.CollidingIsReal` | src/transport/SftpTaskQueue.h:105-133 | meeting a reply within so many runs is the failure of the delivery that obedient runs guarantee, on a run of scheduled steps |
| `SftpCollisions.CancellingOrphans` | src/transport/SshSftpService.cpp:548-560 | a transfer cancelled in the middle of a call leaves a reply nobody waits for on a slot other than the closing one |
| `SftpCollisions.OrphanIsMet` | src/transport/SftpTaskQueue.h:152-161 | such a reply stays until a task calls on that slot, however much later and whatever else runs, and that task is handed it |
| `SftpService.EveryRunIsAccounted` | src/transport/SshSftpService.cpp:853-856 | over any pushes and any runs, each task ever pushed is queued or has had its callback, never both, never twice, and what each callback was told is true of the task as it was pushed |
| `SftpService.CancellingReportsEachOnce` | src/transport/SshSftpService.cpp:858-867 | after any run, cancelling what is pending and any later pushes: every task pushed before the queue was taken has had its callback exactly once, every later one never |
| `SftpService.EverythingIsReportedIff` | src/transport/SshTransport.cpp:245-247 | every task ever pushed is reported if and only if none was pushed once the queue had been taken |
| `SftpService.RetiringSaysLastWords` | src/transport/SshSftpService.cpp:858-867 | the pending tasks are told in queue order that there is no connection, or how their closing was to end |
| `SftpService.SftpService.Push` | src/transport/SftpTaskQueue.h:95-99 | enters the task in the account |
| `SftpService.SftpService.Service` | src/transport/SshSftpService.cpp:853-856 | one run, accounted for |
| `SftpService.SftpService.CancelPending` | src/transport/SshSftpService.cpp:858-867 | takes the queue and steps each task once, accounted for |
| `SftpTaskQueue.SftpTaskQueue.Push` | src/transport/SftpTaskQueue.h:95-99 | appends the task, holding nothing |
| `SftpTaskQueue.SftpTaskQueue.RunNext` | src/transport/SftpTaskQueue.h:105-133 | refines one run, tasks pushed by the step's callbacks included |
| `SftpTaskQueue.SftpTaskQueue.Drain` | src/transport/SftpTaskQueue.h:139-146 | hands every task back in order and frees every slot |
| `SftpTasks.CloseKeepsTheFirstError` | src/transport/SshSftpService.cpp:814-836 | a close never replaces an earlier error, never turns one into success, and is not waited for once the service is stopped |
| `SftpTasks.Registry.RegisterTransfer` | src/transport/SshSftpService.cpp:877-882 | the handle becomes live |
| `SftpTasks.Registry.Cancel` | src/transport/SshSftpService.cpp:899-909 | only a live handle can be marked cancelled, so the cancelled ones stay a subset of the live ones |
| `SftpTasks.Registry.ForgetCancellation` | src/transport/SshSftpService.cpp:891-897 | a finished handle is in neither set |
| `SftpTasks.UploadTask.Step` | src/transport/SshSftpService.cpp:698-772 | the callback fires once, in the step that returns false, with the first error: stop, cancellation, a failing open, each leaving its own; success means the server has the whole file in order |
| `SftpTasks.WritingConserves` | src/transport/SshSftpService.cpp:738-771 | for every pattern of short, empty and blocked writes and failing reads, sent bytes, unsent buffer and unread rest make up the file, and a loop that ends well has sent it all |
| `SftpTasks.WriteErrorCause` | src/transport/SshSftpService.cpp:738-771 | an upload that fails in the write loop fails for its reason: a local read, the very last write the step made, every one before it having taken something, or a close that failed with that error after everything was sent |
| `SftpTasks.ReadingConserves` | src/transport/SshSftpService.cpp:602-618 | for every pattern of short and blocked reads and failing writes, what was written is a prefix of the remote file, and all of it at the end |
| `SftpTasks.ReadErrorCause` | src/transport/SshSftpService.cpp:602-618 | a download that fails in the read loop fails for its reason: the very last read the step made, or the local write of what it brought, every read before it having brought something that was written, or a close that failed with that error after everything was written |
| `SftpTasks.ReadingTakesAll` | src/transport/SshSftpService.cpp:440-460 | one step of a listing takes exactly the entries at hand and finishes exactly at the end or the first error among the answers |
| `SftpTasks.UploadTask.WriteLoopStep` | src/transport/SshSftpService.cpp:738-771 | the write loop in place: refill when spent, write, yield when nothing moves |
| `SftpTasks.DownloadTask.ReadLoopStep` | src/transport/SshSftpService.cpp:602-618 | the read loop in place |
| `SftpTasks.UploadTask.Refill` | src/transport/SshSftpService.cpp:742-758 | an empty refill without a read error means everything was sent |
| `SftpTasks.UploadTask.Send` | src/transport/SshSftpService.cpp:760-769 | the next bytes move from the buffer to the server, and are counted |
| `SftpRuns.RunUpload` | src/transport/SshSftpService.cpp:698-772 | a whole upload reports exactly once, at the end, success only for a file that arrived whole, and a stopped service ends it in that step; it is the run the laws of this module speak of |
| `SftpTasks.DownloadTask.Step` | src/transport/SshSftpService.cpp:548-619 | the same for a download; what is on disk is always a prefix of the remote file, all of it on success |
| `SftpRuns.RunDownload` | src/transport/SshSftpService.cpp:548-619 | a whole download reports exactly once, success only when all of the remote file was written; it is the run those laws speak of |
| `SftpRuns.KindRunsSucceed` | src/transport/SshSftpService.cpp:156-774 | whatever the kind of task, if nothing it calls fails and nobody stops or cancels it, however often calls block, nothing but success is ever reported, with the whole file sent or written, and it is reported once more calls have got somewhere than there was to do |
| `SftpRuns.KindTransfersArrive` | src/transport/SshSftpService.cpp:476-774 | so every such upload and download of n bytes arrives whole after at most n + 5 calls that get somewhere |
| `SftpRuns.ListingHandsOver` | src/transport/SshSftpService.cpp:356-474 | every such listing hands over just the entries named from the opening of the directory to its end, in order, the dot entries left out |
| `SftpRuns.OperationSucceedsIff` | src/transport/SshSftpService.cpp:156-201 | for all answers whatever, a single operation succeeds if and only if the subsystem comes up and then its own call does, before anyone stops it |
| `SftpRuns.EarlyFailuresAreSaid` | src/transport/SshSftpService.cpp:156-774 | before its own work begins a task fails if and only if it is stopped, cancelled, or the subsystem, the local file or the remote handle does not open, and says which |
| `SftpTasks.ListDirTask.Step` | src/transport/SshSftpService.cpp:412-473 | a listing hands over, once, everything it read without the dot entries, however the entries are split over steps; it succeeds exactly on the end of the directory, and a failing open or read leaves its own error |
| `SftpTasks.SimpleOpTask.Step` | src/transport/SshSftpService.cpp:172-201 | a one-call operation reports once, succeeds only on its own call's success, and retires at once when stopped |
| `RemoteDeleter.PlanRemovesSubtreeIff` | src/fs/RemoteDeleter.cpp:24-113 | for every finite tree and truthful listings, carrying out the plan removes exactly the target's subtree without ever meeting a directory that is not empty, if and only if nothing lies below the depth limit |
| `RemoteDeleter.DeepEntryBlocks` | src/fs/RemoteDeleter.cpp:88-93 | an entry deeper than the limit is not planned, so the plan stops at its directory |
| `RemoteDeleter.MergedPlanRemovesSubtrees` | src/fs/RemoteDeleter.cpp:115-159 | with nothing below the limit, a merged plan runs all its steps if and only if the targets lie apart, and then removes exactly their subtrees |
| `RemoteDeleter.MergedPlanRunsIff` | src/fs/RemoteDeleter.cpp:115-213 | for any targets at all, overlapping, repeated or too deep, every step of the merged plan succeeds if and only if no target is reached from another within the limit and whatever lies one level below a target's limit is itself an earlier target; then exactly the subtrees go |
| `RemoteDeleter.TwiceBlocks` | src/fs/RemoteDeleter.cpp:165-213 | a path planned twice stops the plan, whatever the file system |
| `RemoteDeleter.ChildLeftBlocks` | src/fs/RemoteDeleter.cpp:165-213 | a directory with a child no earlier step removes stops the plan |
| `RemoteDeleter.PlanListsSubtree` | src/fs/RemoteDeleter.cpp:79-105 | the plan holds one step for each path of the subtree within the limit, of the right kind, and no other |
| `RemoteDeleter.NothingThroughLinks` | src/fs/RemoteDeleter.cpp:88-91 | everything between the target and a planned step is a real directory: nothing behind a link is planned |
| `RemoteDeleter.PlanIsExecutable` | src/fs/RemoteDeleter.cpp:61-66 | each step matches what is there, none is repeated, and every child comes before its directory |
| `RemoteDeleter.ExecutableStepsAllRun` | src/fs/RemoteDeleter.cpp:165-213 | such steps all succeed and remove exactly their paths |
| `RemoteDeleter.SortDescends` | src/fs/RemoteDeleter.cpp:61-66 | the sort puts deeper steps first |
| `RemoteDeleter.SortIsPermutation` | src/fs/RemoteDeleter.cpp:61-66 | the sort neither loses nor doubles a step |
| `RemoteDeleter.RecordEntries` | src/fs/RemoteDeleter.cpp:86-105 | one listing adds a step per row and a pending directory per real one above the limit; files, directories and bytes are counted as they are |
| `RemoteDeleter.PlanTarget` | src/fs/RemoteDeleter.cpp:24-113 | refines the plan; its directory and file counts are those of its steps, its bytes and its failure those of the walk; it terminates on any listings |
| `RemoteDeleter.PlanAll` | src/fs/RemoteDeleter.cpp:115-159 | the merged plan: the targets' steps in order, with the counts of those steps, the sum of the bytes, and a failure exactly when some target's walk failed |
| `RemoteDeleter.Execute` | src/fs/RemoteDeleter.cpp:165-213 | counts the steps carried out before the first refusal |
| `Glob.GlobMatch` | src/fs/DirModel.cpp:41-69 | terminates on every input and computes the scan; on inputs where a star is in only one of the two it decides the recursive meaning of the pattern |
| `Glob.AgreesWithoutLiteralStar` | src/fs/DirModel.cpp:41-69 | without a star in both name and pattern, the loop is right |
| `Glob.AgreesOnAllPatternsIff` | src/fs/DirModel.cpp:50-54 | for a given name the loop is right about every pattern if and only if the name holds no star |
| `Glob.AgreesOnAllTextsIff` | src/fs/DirModel.cpp:50-54 | for a given pattern the loop is right about every name if and only if the pattern holds no star |
| `Glob.LiteralStarCounterexample` | src/fs/DirModel.cpp:50-54 | `*?` does not match the name `*` |
| `Glob.LastStarSuffices` | src/fs/DirModel.cpp:55-62 | taking up from the last star alone loses no match |
| `Glob.ScanIsSound` | src/fs/DirModel.cpp:41-69 | what the loop accepts matches |
| `Glob.ScanIsComplete` | src/fs/DirModel.cpp:41-69 | what matches is accepted, if no star is met literally |
| `RemotePath.TrimTrailingSlashes` | src/fs/RemotePath.cpp:10-15 | drops trailing slashes, never the root's |
| `RemotePath.ReadParts` | src/fs/RemotePath.cpp:61-84 | the component stack the two index loops build is the path's components with dots resolved |
| `RemotePath.Normalise` | src/fs/RemotePath.cpp:57-96 | refines normalisation |
| `RemotePath.Contains` | src/fs/RemotePath.cpp:98-108 | for absolute paths, exactly the component-prefix test on the normalised paths |
| `RemotePath.NormaliseIsIdempotent` | src/fs/RemotePath.cpp:57-96 | normalising twice is normalising once |
| `RemotePath.NormaliseDecidesEquality` | src/fs/RemotePath.cpp:57-96 | two paths normalise alike exactly when they are anchored alike and resolve to the same components |
| `RemotePath.ContainsExactly` | src/fs/RemotePath.cpp:98-108 | every case, relative and empty paths included, in terms of resolved components |
| `RemotePath.ContainsIsComponentPrefix` | src/fs/RemotePath.cpp:98-108 | for absolute paths, containment is component prefix |
| `RemotePath.DotContainsNothing` | src/fs/RemotePath.cpp:98-108 | the relative directory `.` is not said to contain `a` |
| `RemotePath.ContainsIsReflexive` | src/fs/RemotePath.cpp:98-108 | every path contains itself |
| `RemotePath.ContainsIsTransitive` | src/fs/RemotePath.cpp:98-108 | containment of absolute paths composes |
| `RemotePath.JoinedLeafIsInside` | src/fs/RemotePath.cpp:24-31 | a real leaf joined to an absolute directory lies inside it, one component below |
| `RemotePath.ParentAndLeafUndoJoin` | src/fs/RemotePath.cpp:33-55 | parent and leaf take a joined path apart again |
| `Lines.DocLine.WriteAt` | src/document/Document.cpp:52-100 | refines writing a cell, padding and appending included |
| `Lines.DocLine.DeletePreviousChar` | src/document/Document.cpp:108-133 | refines backspace |
| `Lines.DocLine.DeleteAt` | src/document/Document.cpp:135-166 | refines deletion |
| `Lines.DocLine.DeleteAtClamped` | src/document/Document.cpp:168-190 | refines deletion up to a boundary with refill |
| `Lines.DocLine.InsertAt` | src/document/Document.cpp:192-226 | refines insertion, with its early return |
| `Lines.DocLine.TruncateFrom` | src/document/Document.cpp:228-243 | refines truncation |
| `CellEdits.WriteEditsCells` | src/document/Document.cpp:52-100 | on a line whose runs cover each column once, writing past or inside the text changes exactly one (character, style) cell and keeps the cover |
| `CellEdits.PadEditsCells` | src/document/Document.cpp:55-68 | padding appends default-styled blanks and nothing else |
| `CellEdits.DeleteEditsCells` | src/document/Document.cpp:135-166 | deletion removes exactly those cells and keeps the cover |
| `CellEdits.BackspaceEditsCells` | src/document/Document.cpp:108-133 | backspace removes exactly the cell before the cursor and keeps the cover |
| `CellEdits.TruncateEditsCells` | src/document/Document.cpp:228-243 | truncation keeps exactly the cells before the column and the cover |
| `CellEdits.InsertExactlyWhenSafe` | src/document/Document.cpp:208-221 | insertion inserts exactly one cell if and only if no run behind a straddling one starts at or past the column; otherwise the cover is lost |
| `CellEdits.InsertAtBoundary` | src/document/Document.cpp:208-221 | at a run boundary insertion is exact whatever the runs are |
| `CellEdits.InsertCounterexample` | src/document/Document.cpp:208-221 | a two-run line that loses its cover |
| `CellEdits.DeleteClampedText` | src/document/Document.cpp:168-190 | for any runs, the text at or past the boundary stays in place |
| `CellEdits.DeleteClampedExactlyWhenSafe` | src/document/Document.cpp:168-190 | on a line whose runs cover each column once, the cells are the deleted, refilled and untouched ones if and only if no run behind one that reaches across the boundary stands at or past it |
| `Parser.ChunksDoNotMatter` | src/parser/Parser.cpp:10-35 | however the bytes are split into chunks, the calls are the same once runs are taken apart, and the parser ends in the same state |
| `Parser.FlatDecidesJoined` | src/parser/Parser.cpp:30-35 | call logs that agree with runs taken apart agree with adjacent runs joined |
| `Parser.ChunksDoNotMatterToTarget` | src/parser/Parser.cpp:10-35 | any target whose runs are folds of single characters ends the same for every split |
| `Parser.ProcessSends` | src/parser/Parser.cpp:10-28 | a chunk sends exactly what byte-by-byte parsing without batching would |
| `Parser.StepSends` | src/parser/Parser.cpp:10-91 | one byte, with runs collected and flushed, sends what the unbatched step sends |
| `Parser.Parser.Process` | src/parser/Parser.cpp:10-28 | refines a chunk |
| `Parser.Parser.HandleNormal` | src/parser/Parser.cpp:37-91 | refines the normal state: control codes and the UTF-8 decoder |
| `Parser.Parser.HandleEscape` | src/parser/Parser.cpp:93-127 | refines the escape state |
| `Parser.Parser.HandleCsi` | src/parser/Parser.cpp:152-216 | refines the control-sequence state |
| `Parser.Parser.DispatchSgr` | src/parser/Parser.cpp:324-414 | refines the style update |
| `Parser.Parser.Reset` | src/parser/Parser.cpp:416-428 | refines the reset |
| `Parser.ParseParam` | src/parser/Parser.cpp:301-317 | the parameter loop computes the index-th parameter |
| `Parser.ReadSgrParams` | src/parser/Parser.cpp:324-344 | the loop computes all style parameters |
| `ParserRequests.UnderstoodExactly` | src/parser/Parser.cpp:37-322 | for every way of writing a control byte, an escape, a control sequence with any decimal parameters given or left out, a private one, a single shift, a character set or a command with any payload, the parser makes a given call if and only if that is what asks for it, never more than one, and is ready for the next |
| `ParserRequests.RequestsAreMet` | src/parser/Parser.cpp:37-322 | there is a way to ask for every call with every argument it can have, and a program that asks for any sequence of calls gets exactly that sequence |
| `ParserRequests.StyleIsReached` | src/parser/Parser.cpp:324-414 | from any style any other one, palette and true colours included, is reached by the parameters that differ, in short forms or long ones, and nothing else changes |
| `ParserRequests.RenditionIsReset` | src/parser/Parser.cpp:324-414 | no parameter, or a 0, sets the default style |
| `ParserRequests.ResetIsUnderstood` | src/parser/Parser.cpp:93-127 | a reset is reported and leaves the parser as at the start |
| `ParserRequests.CutShortIsUnderstood` | src/parser/Parser.cpp:254-266 | a command cut short by an escape is heeded all the same, and so is what the escape begins |
| `ParserRequests.EscapeBeginsAnew` | src/parser/Parser.cpp:93-101 | a second escape begins anew |
| `WordSelector.BuildUtf8WithMap` | src/layout/WordSelector.cpp:16-59 | the loop writes the encoding and, per column, its offset |
| `WordSelector.AppendUtf8` | src/layout/WordSelector.cpp:38-52 | one code point's bytes |
| `WordSelector.ByteOffsetToCol` | src/layout/WordSelector.cpp:66-80 | the binary search finds the last column at or before the offset in any sorted map |
| `WordSelector.RoundTrip` | src/layout/WordSelector.cpp:16-59 | parsing the encoding of any printable line delivers exactly that line without its fillers (section 3 of RFC 3629) |
| `WordSelector.EncodedIsDelivered` | src/parser/Parser.cpp:69-90 | each encoded code point up to U+10FFFF is decoded to itself, leaving the parser as it was |
| `WordSelector.ProcessingEncodedText` | src/parser/Parser.cpp:10-35 | the same for the batching parser, from any pending run |
| `WordSelector.OffsetToColInvertsMap` | src/layout/WordSelector.cpp:66-80 | looking a column's own offset up gives that column exactly when no filler follows it |
| `WordSelector.ColumnMapSteps` | src/layout/WordSelector.cpp:23-37 | offsets grow with the columns, strictly except at fillers |
| `MainScreen.MainScreenDocument.AppendInsertChar` | src/document/Document.cpp:302-325 | refines appending one character, wide and insert mode included |
| `MainScreen.MainScreenDocument.AppendRun` | src/document/Document.cpp:327-348 | a run is the fold of single appends |
| `MainPrinting.RunIsPrinted` | src/document/Document.cpp:302-348 | a run of characters, wide ones with their fillers, goes into the cursor's line from the cursor on, cell by cell, over what was there or in front of it in insert mode; the cursor ends behind it and no other line changes |
| `MainScreen.ChunksDoNotMatterToDocument` | src/document/Document.cpp:302-348 | whatever the other calls do to the main screen and to any further state, the document, that state, and whether a run ever missed the lines are the same however the input is split |
| `MainScreen.MainScreenDocument.PtyToDoc` | src/document/Document.cpp:594-621 | terminates, only appends blank lines, and its position's canvas row is the requested one if and only if the column lies within the terminal; then its column is right too |
| `MainScreen.PositionIsUnique` | src/document/Document.cpp:594-621 | no other position of the canvas has that row and column |
| `MainScreen.MainScreenDocument.MoveCursorToPosition` | src/document/Document.cpp:623-631 | the cursor ends on the requested row and column |
| `MainScreen.MainScreenDocument.MoveCursorToRow` | src/document/Document.cpp:633-641 | the cursor ends on the requested row |
| `MainScreen.MainScreenDocument.DeleteLines` | src/document/Document.cpp:700-711 | erases lines from the cursor's on; the cursor stays on a line if and only if fewer are asked for than are left |
| `AltScreen.AnyInputKeepsTheGrid` | src/document/Document.cpp:840-1303 | whatever bytes arrive and in whatever mode they find the parser, what one chunk makes it send, a reset included, leaves exactly as many lines as rows, the cursor in the grid and the margins in order: the screen the calls would leave unbatched |
| `AltScreen.CallKeepsValid` | src/document/Document.cpp:840-1303 | every call the parser makes keeps that |
| `AltScreen.ParserCallsAreSupplied` | src/parser/Parser.cpp:152-240 | the parser passes no negative count |
| `AltScreen.ScrollingStaysInMargins` | src/document/Document.cpp:917-996 | line feed, reverse index, insert line and delete line leave every line outside the margins alone |
| `AltScreen.DeleteUndoesInsert` | src/document/Document.cpp:1185-1227 | inserting and deleting lines restores all but the lines pushed off the region |
| `AltScreen.ReverseFeedUndoesLineFeed` | src/document/Document.cpp:917-996 | a line feed at the bottom margin and a reverse index at the top one lose only the top line |
| `AltPrinting.RunIsPrinted` | src/document/Document.cpp:877-953 | from any tidy screen, not in insert mode and with the cursor not below the bottom margin, a run fills the cells along the rows from the cursor's on; what passes the margin pushes the region up, line by line, and nothing outside it moves; the cursor ends behind the run, the wrap put off at the end of a row |
| `AltPrinting.BlankScreenFills` | src/document/Document.cpp:877-904 | on a blank screen, while it fits, character row * cols + c stands in that row and column and everything else is blank |
| `AltPrinting.CharIsPutDown` | src/document/Document.cpp:877-904 | one character, of any width and from any tidy screen, changes its own cell and the next one if it is wide and that one is there, once the wrap that was put off has been taken |
| `AltPrinting.CharIsPutBetween` | src/document/Document.cpp:889-892 | in insert mode the cells behind it in the row move along first |
| `AltPrinting.WideRunIsItsCells` | src/document/Document.cpp:884-902 | a run of wide and narrow characters prints what its cells would, the fillers included, except that a wide character in the last column has none |
| `AltPrinting.WideRunIsPrinted` | src/document/Document.cpp:877-953 | so it fills the cells from the cursor's on and scrolls as narrow characters do |
| `AltEditing.MovesToItsAim` | src/document/Document.cpp:998-1123 | every movement goes as near to its aim as the grid allows, forgets a wrap that was put off and changes nothing else |
| `AltEditing.NearestIsUnique` | src/document/Document.cpp:998-1123 | there is only one such place |
| `AltEditing.RowEditShows` | src/document/Document.cpp:1125-1183 | erasing in the line, erasing, deleting and inserting characters change exactly the cells they should, in the cursor's row alone, insertion where no later run stands behind the place |
| `AltEditing.DisplayEraseShows` | src/document/Document.cpp:1229-1279 | erasing in the display blanks exactly what lies behind the cursor, before it, or everything, the cursor going home in the last case; before it in its own row the styles stay |
| `AltEditing.RollsRows` | src/document/Document.cpp:917-996 | the two feeds and inserting and deleting lines roll the rows of the region by exactly so many, blank lines coming in |
| `AltEditing.MarginsAsAsked` | src/document/Document.cpp:955-969 | the margins are the ones asked for, counted from 1; what is out of range stands for the edge of the screen, and the cursor goes to the top |
| `AltEditing.SavedCursorComesBack` | src/document/Document.cpp:1020-1036 | whatever happens in between, short of saving again or a reset, restoring brings the saved cursor back |
| `AltEditing.TidyIsKept` | src/document/Document.cpp:877-1303 | every call keeps one style to each cell, but for an insertion in front of a later run |
| `AltEditing.ResetAndResizeBlank` | src/document/Document.cpp:847-875 | a reset and a new size leave nothing shown and the whole screen as the region; a new size keeps style, modes and saved position and the cursor as near as it gets |
| `AltScreen.AltScreenDocument.constructor` | src/document/Document.cpp:840-845 | a blank grid |
| `AltScreen.AltScreenDocument.FullReset` | src/document/Document.cpp:1281-1303 | a blank grid of the same size, margins, modes and style as at the start |
| `AltScreen.PlayedFlat` | src/document/Document.cpp:877-904 | batching characters into runs makes no difference to the screen |
| `AltScreen.AltScreenDocument.Resize` | src/document/Document.cpp:847-875 | refines resizing |
| `AltScreen.AltScreenDocument.AppendInsertChar` | src/document/Document.cpp:877-904 | refines appending with deferred wrap |
| `AltScreen.AltScreenDocument.AppendRun` | src/document/Document.cpp:877-904 | a run is the fold of single appends |
| `AltScreen.AltScreenDocument.NewLine` | src/document/Document.cpp:917-953 | refines the line feed |
| `AltScreen.AltScreenDocument.SetScrollRegion` | src/document/Document.cpp:955-969 | refines setting the margins |
| `AltScreen.AltScreenDocument.ReverseIndex` | src/document/Document.cpp:971-996 | refines the reverse index |
| `AltScreen.AltScreenDocument.MoveTo` | src/document/Document.cpp:998-1123 | refines the clamped cursor moves |
| `AltScreen.AltScreenDocument.EraseInLine` | src/document/Document.cpp:1125-1144 | refines line erasure |
| `AltScreen.AltScreenDocument.EraseChar` | src/document/Document.cpp:1146-1158 | refines character erasure |
| `AltScreen.AltScreenDocument.DeleteChar` | src/document/Document.cpp:1160-1167 | refines character deletion |
| `AltScreen.AltScreenDocument.InsertChar` | src/document/Document.cpp:1169-1183 | refines character insertion with the overflow cut off |
| `AltScreen.AltScreenDocument.InsertLines` | src/document/Document.cpp:1185-1205 | refines line insertion |
| `AltScreen.AltScreenDocument.DeleteLines` | src/document/Document.cpp:1207-1227 | refines line deletion |
| `AltScreen.AltScreenDocument.EraseInDisplay` | src/document/Document.cpp:1229-1279 | refines display erasure |
| `AltScreen.CopyDown` | src/document/Document.cpp:1197-1201 | the copying loops move the region down and blank the gap |
| `AltScreen.CopyUp` | src/document/Document.cpp:1219-1223 | the copying loops move the region up and blank the gap |
| `DocLayout.WalkAnchorBy` | src/layout/DocLayout.cpp:56-94 | from any anchor in range, for any distance, the walk is clamped addition on the flattened row number, the pending-wrap row counted |
| `DocLayout.FlatRowIsInjective` | src/layout/DocLayout.cpp:56-94 | distinct anchors are distinct rows, so the walk's result is determined |
| `DocLayout.DocLayout.GetRenderedLine` | src/layout/DocLayout.cpp:236-241 | draws the row at that clamped distance |
| `DocLayout.DocLayout.GetRenderedLines` | src/layout/DocLayout.cpp:243-255 | the step-by-step batch draws row by row what the single query draws, unless it starts above the document |
| `DocLayout.BatchAgreesIff` | src/layout/DocLayout.cpp:243-255 | the batch and the single query name the same rows if and only if the batch does not start above the document, or is at most one row, or there are no rows |
| `DocLayout.BuildRenderedLine` | src/layout/DocLayout.cpp:131-234 | refines one row's text and attributes, and draws the cursor on it |
| `DocLayout.ExpandRuns` | src/layout/DocLayout.cpp:148-161 | the run loops give each column the style of the last run that covers it |
| `DocLayout.TidyRowShowsCells` | src/layout/DocLayout.cpp:131-161 | on a line whose runs cover each column once, a row shows exactly its cells |
| `DocLayout.WrappedRowsShowTheLine` | src/layout/DocLayout.cpp:131-161 | when wrapping, the rows of a line put together are its text, nothing twice and nothing lost |
| `DocLayout.CursorIsDrawnOnce` | src/layout/DocLayout.cpp:214-231 | when wrapping, a cursor on or just past the text is drawn on exactly one row, inside it, at its own column of the line |
| `DocLayout.CursorIsDrawnInWindow` | src/layout/DocLayout.cpp:224-231 | when not wrapping, it is drawn exactly on its own line while its column is in the window, at that column of it |
| `DocLayout.WindowShowsTheLine` | src/layout/DocLayout.cpp:131-145 | when not wrapping, a row shows exactly the part of its line that is in the window |
| `DocLayout.DocLayout.ScrollByVisualDelta` | src/layout/DocLayout.cpp:317-324 | moves the viewport by that walk |
| `DocLayout.DocLayout.MarkDocLineDirty` | src/layout/DocLayout.cpp:759-783 | flags exactly the viewport rows that draw an existing line, wrapped or not, and clears none |
| `ScrollbackWriter.SegmentsKeepEnough` | src/db/ScrollbackWriter.cpp:38-99 | after any lines from a start on an empty directory, the older segment followed by the current one is a suffix of them, at least the limit long if there are that many, below twice the limit |
| `ScrollbackWriter.WriteKeeps` | src/db/ScrollbackWriter.cpp:75-99 | one more line, a rotation included, keeps that |
| `ScrollbackWriter.MergeIsInOrderIff` | src/db/ScrollbackWriter.cpp:101-139 | the merge writes the lines in order when segment 1 is current or nothing has rotated; without repeated lines, only then |
| `ScrollbackWriter.MergeLosesEverythingIff` | src/db/ScrollbackWriter.cpp:118-129 | the merge writes nothing at all exactly just after a rotation onto segment 0, whose empty copy fails the output stream |
| `ScrollbackWriter.FullSegmentsAreLost` | src/db/ScrollbackWriter.cpp:101-139 | for every limit and every positive k, writing k times both segments' worth of lines and merging leaves nothing on disk but an empty merged file |
| `ScrollbackWriter.FailedRenameLosesSegments` | src/db/ScrollbackWriter.cpp:127-136 | for any lines and any limit, a merge whose rename fails leaves the merged file as it was and no segment, so everything written since is lost if anything was; a merge that cannot open its file loses nothing |
| `ScrollbackWriter.MergedFileExactly` | src/db/ScrollbackWriter.cpp:101-139 | for any lines and any limit, what a merge puts in place is everything if nothing has rotated, else the last full segment and what was begun since, in that order if the number of full segments is odd, the other way round if it is even, and nothing just after a rotation onto segment 0; no segment is left |
| `ScrollbackWriter.MergedFileKeepsEnough` | src/db/ScrollbackWriter.cpp:101-139 | so the merged file is a suffix of what was written, at least the limit long if there are that many, when segment 1 is current or nothing has rotated, and holds what the segments held unless segment 0 is the current one and empty |
| `ScrollbackWriter.MergeOutOfOrder` | src/db/ScrollbackWriter.cpp:101-139 | with two lines to a segment, five lines are merged newest first |
| `ScrollbackWriter.ScrollbackWriter.Start` | src/db/ScrollbackWriter.cpp:38-59 | refines starting, a restored snapshot included |
| `ScrollbackWriter.ScrollbackWriter.WriteLine` | src/db/ScrollbackWriter.cpp:75-86 | refines writing a line |
| `ScrollbackWriter.ScrollbackWriter.Rotate` | src/db/ScrollbackWriter.cpp:88-99 | refines a rotation |
| `ScrollbackWriter.ScrollbackWriter.Compact` | src/db/ScrollbackWriter.cpp:101-139 | refines the merge, a temporary file that will not open and a failing rename included |
| `ScrollbackWriter.ScrollbackWriter.Truncate` | src/db/ScrollbackWriter.cpp:141-156 | removes every file |

## Left out

- Byte counts, progress, error texts, listeners, the forecast's arithmetic and scratch files of the transfer queue: the model says which requests are made and what becomes of jobs, and takes whether a space report is worrying as a setting.
- `DocLayout.BuildRenderedLine`: the overlays for search, selection and links are absent from the rendered row.
- Answers given inline, before the call that asked returns: a request is answered by a later event.
- Destruction of a file system: closing one retires its jobs, but requests already made to it may still be answered in the model.
- Mutexes, atomics and listener order: each method is one step.
- libssh2, sockets and disks: their outcomes (would block, error, done) are arguments.
- `SftpTasks.DownloadTask.Step`: progress reporting is not modelled, and the local file is the sequence of bytes written to it.
- `SftpTasks.UploadTask.Step`: the same; the remote file is the sequence of bytes the server took.
- `TransferTrees.TreeIsWalked`: the run it names answers listings and nothing else; with other events in between, what becomes of the tree is `TransferWalk.AcceptedTreeExactly`.
- `AltPrinting.RunIsPrinted`: characters of width 0, which are put down where the cursor stays, are in `AltPrinting.CharIsPutDown` only, as is printing below the bottom margin.
- `ParserRequests.UnderstoodExactly`: text beyond ASCII is in `WordSelector.EncodedIsDelivered`, and parameters spelled with leading zeros are left out.
- `TransferConflicts.NothingIsOverwrittenUnasked`: what is found is what the answer says; that another program puts something there meanwhile is not modelled.
- `SftpCollisions.DisobeyingCosts`: an upload that has sent everything closes instead of calling on the slot it holds, so when one shares a slot nothing need go astray; when it does is not decided.
- `RemoteDeleter.MergedPlanRunsIff`: as for one target, listings are truthful and nothing else changes the tree.
- `SftpTaskQueue.SftpTaskQueue.RunNext`: one request outstanding per slot is session state of the model; what a wrongly delivered reply then does to a task is not modelled, only whether one is delivered.
- `SftpScheduling.RealRunsDeliver`: the slot for starting the subsystem is not watched, since its one reply is everybody's.
- Tasks for single paths, stat and statvfs: they have the steps of `SimpleOpTask` with another result.
- `RemoteDeleter.PlanRemovesSubtreeIff`: the tree is unchanged between planning and execution, and every listing is truthful.
- `WordSelector.OffsetToColInvertsMap`: lines that begin with a wide filler, which no writer produces, are excluded.
- Everything in the layout that only reads the numbers proved here.
- Word-boundary search by regular expression; directory sorting and filtering.
- Other main-screen operations, which are single edits of lines whose laws are proved, and title changes.
- The character-width table is an arbitrary function.
- Widths of integers: counters are unbounded, except the decoder's, which is cut to 32 bits where the source's is.
- Connections, authentication, windows, settings and colour themes.
