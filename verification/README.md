# A verified model of exotomailcow's migration engine

exotomailcow copies mail, calendars and contacts of Exchange Online mailboxes into Mailcow. This
project models, in Dafny, the parts of it that are easy to get wrong, and proves what operators rely on.

| modules | what they model |
|---|---|
| `Runner`, `ImportModel` | the worker that runs one job: loops, retries, rows, counters, watermark, target mailbox (`app/jobs/runner.py`, `app/db/repositories.py`) |
| `Items`, `Passes` | what becomes of one item or folder in every state it is met in; which questions a job asks, what stops it, and when it finishes |
| `Histories` | histories of runs on one mapping: each finishes, fails, is cancelled or is cut off by a crash |
| `ImportSafety`, `Counting`, `DryRuns`, `Convergence`, `Cancellation`, `Readiness`, `RenamedFolders`, `Refusals` | what every such history keeps, and what it does not |
| `Outcomes`, `Watermark` | what a finished run did for every listed item; resyncs against a source mailbox that changes while the job runs |
| `Jobs`, `JobProtocol`, `JobService` | the job table and its writers; the worker pool, cancels and restarts, interleaved step by step; the methods that take these steps |
| `Recurrence`, `RecurrenceText`, `Translation`, `Rules`, `Days`, `RecurrenceMeaning`, `Text` | Graph recurrences, their RRULE text (section 3.3.10 of RFC 5545), and the days both denote |
| `FolderMapping`, `GraphFolders` | the folder listing and the folder paths |
| `Retry` | requests to Graph with back-off |

How the import engine is modelled:

- `Runner.MigrationRun` is the worker as a class. Each of its methods appends to a log one event for
  every commit and every effect on the target, and its `Valid()` says that the rows and the target are
  what the logged events made of the initial ones. `ImportModel` says, as functions, which events an
  item, a folder and a whole run produce; each method is proved against them.
- Every external call takes its outcome from an arbitrary script. An import attempt either has no
  effect, or takes effect and then raises, as an APPEND does that is answered without APPENDUID
  (section 3 of RFC 4315), or succeeds. A listing may raise after any entry.
- The calls of `run` on the job's own row may raise like any other: the commit of the guarded start, the
  read after it, the guarded terminal updates and the last commit (`Runner.RowCalls`). A database call
  that raises is taken to have written nothing.
- A crash is a cut of the log at any event. A history is any sequence of runs, each whole or cut, each
  going on from the rows the last one left.
- A cancel lands before the start, as the status CANCELLED, or at an arbitrary position of the log, also
  before its first event; the next check sees it, and so do the guarded updates of a run that makes no
  check at all.
- The target mailbox is a multiset of message copies, because APPEND adds a copy, and a map from uid to
  the version an object was made from, because PUT overwrites.
- `ItemStatus.FAILED` is the status of a row, `JobStatus.FAULTED` the status FAILED of a job.
- In `Watermark` each step of the worker is one run of `Runner`, cut off or not, with arbitrary listings,
  while the source mailbox changes before, after and during it. Three things are taken from Graph: a
  stamp lags local time by at most the 15-minute buffer; a listing that ends without an error has held
  every item that matches its filter and has not changed since the run began; and such an item is
  listed in its one live version only. That a finished run has dealt with all it listed is proved
  (`Outcomes.FinishedJobHasOutcome`).
- In `JobProtocol` a worker whose call on the job's row raises abandons the job and leaves the row as it
  is; that is what `Runner.MigrationRun.Run` says of such a run.

- RFC 5545 leaves open what a start means that its own rule does not yield, and counts the start as the
  first occurrence. `Rules.Occurs` takes such a start for no occurrence and does not count it; Graph's
  pattern is read the same way. A start in the pattern is the first occurrence and the first that COUNT
  counts (`RecurrenceMeaning.StartIsFirst`), so the choice matters for no other start.

What the proofs brought to light:

- A cancel read while a job is active may be written after the job has completed, and then overwrites
  COMPLETED or FAILED (`JobProtocol.LateCancelOverwrites`); a terminal status can be lost exactly while
  such a cancel is pending (`JobProtocol.TerminalLostExactly`).
- The guard against overlapping jobs (`app/db/repositories.py:10-17`) does not keep two workers off one
  mapping: a cancelled job stops counting as active before its worker has stopped
  (`JobProtocol.OverlapHappens`, exact condition in `JobProtocol.OverlapExactly`).
- The watermark moves at the end of any run that is not a dry run, also past the items of a category
  that was switched off and past mail older than the job's own date, so a later resync never lists
  them (`Watermark.UnlistedItemLeavesGap`, exact condition in `Watermark.KindCoversExactly`).
- `_commit_with_retry` rolls back before it retries, so the retry commits nothing and that item stays
  uncounted (`Counting.ItemCounted` says exactly when).
- A run that won its start does not always end cleanly. When the read after the start, the terminal
  update or the last commit raises, the row keeps saying RUNNING (`Runner.MigrationRun.Run` gives the
  exact condition). Such rows block new jobs for their mapping until a cancel or a restart
  (`JobProtocol.StrandedBlocks`) and may outnumber the pool (`JobProtocol.StrandedHappens`). A start whose
  commit raises, or a request that raises before its submits, leaves a pending job that nobody works on
  (`JobProtocol.ForgottenExactly`).
- A folder row marked as created keeps its mark when the folder is renamed or moved; the APPENDs of its
  messages then ask for a mailbox that nobody has created. A server that follows section 6.3.11 of
  RFC 3501 refuses them, and the messages end FAILED though nothing else went wrong
  (`Refusals.RenameFailsMail`). `RenamedFolders.AppendsLandExactly` leaves the server free and says when a
  run asks for such mailboxes at all, `Refusals.MessagesArriveExactly` has it refuse. Both come to one
  condition, `RenamedFolders.MarksOpen`, which looks at the marks, the present paths and the mailboxes of
  the target. The mailbox name stored in the row would not do: a dry run may store one name and a later
  real run create another.
- The listing skips the children of a folder whose reported child count is wrong
  (`GraphFolders.ListingIsPreorder`).
- An IMAP delimiter that is `_`, or a letter of a well-known mailbox name, survives sanitising
  (`FolderMapping.SafeDelimiters`).

## Model

| member | source | states |
|---|---|---|
| Runner.MigrationRun.Run | app/jobs/runner.py:215-293 | A run that does not find its job PENDING, or whose start cannot be committed, changes nothing. When all calls on the row go through, any other ends with a terminal status and a finish time, whatever else raises and whenever a cancel lands: FAILED when a pass raised, COMPLETED when all finished, CANCELLED when a cancel has landed. The exact condition for a clean end is given for calls that raise too; failing it the row stays RUNNING. The watermark becomes the start time exactly when all enabled passes finished in a real run and the last commit went through. |
| Runner.MigrationRun.Conclude | app/jobs/runner.py:262-291 | A pass that raised makes the job FAILED, finished passes make it COMPLETED and move the watermark of a real run; neither replaces a cancel that has landed, yet the watermark still moves after a late one; a completion that cannot be written becomes a failure without the watermark; without the last commit nothing is written. |
| Runner.MigrationRun.Migrate | app/jobs/runner.py:236-261 | The passes stop at the first that raises or sees a cancel; a resync without a mail date takes watermark minus buffer and keeps it in the job, also when a client cannot be set up afterwards. |
| Passes.AsksOnly | app/jobs/runner.py:240-261 | What a job does is settled by its answers to these questions: messages since its own date, else since 15 minutes before the watermark for a resync, else all; events and contacts since 15 minutes before the watermark for a resync, else all. |
| Passes.FinishesExactly | app/jobs/runner.py:236-261 | A job finishes only if no setup, login, listing or close raises in the passes it has enabled; and it does so when besides no unit raises and no cancel lands. |
| Passes.MailFaultStops | app/jobs/runner.py:76-91 | Three failed logins or a failed folder listing end the job before it has done anything. |
| Passes.CalendarFaultStops | app/jobs/runner.py:256-261 | When the calendars cannot be listed, contacts are not touched either and the job does not finish. |
| Passes.FoldersHaveTheirPaths | app/jobs/runner.py:90-98 | Each folder is recorded under its path of display names and created under its path on the target. |
| Runner.MigrationRun.MigrateMail | app/jobs/runner.py:76-108 | Its log is that of the folder units in listing order, each followed by its messages; three failed connects, a failed listing or a failed close make it raise. |
| Runner.MigrationRun.MigrateFolders | app/jobs/runner.py:92-106 | Every folder and every message is preceded by its own cancel check, and each folder by the messages of all earlier ones. |
| Runner.MigrationRun.MigrateFolder | app/jobs/runner.py:98-101 | A folder row is inserted once; the mailbox is created and then marked only when not marked yet and not in a dry run. |
| Runner.MigrationRun.MigrateCalendar | app/jobs/runner.py:139-146 | All events of all calendars, in order, each after its own check, until one raises or a cancel is seen. |
| Runner.MigrationRun.MigrateContacts | app/jobs/runner.py:178-183 | All contacts in order, each after its own check. |
| Runner.MigrationRun.MigrateOne | app/jobs/runner.py:110-213 | One listed message, event or contact commits exactly the events `ItemBlock` names, whose effect `Items.ItemExactly` spells out. |
| Items.ItemExactly | app/jobs/runner.py:110-213 | From any rows and for all outcomes of the calls: which items are skipped, how many copies the attempts add or which version they store, the row and the one counter that results, and when it raises. |
| Items.NobodyIsForgotten | app/db/repositories.py:34-48 | In a real run a listed item of any kind that meets no failure ends DONE, an event or contact with at least the stamp listed, whatever row it had before, FAILED included. |
| Items.UntouchedExactly | app/db/repositories.py:34-48 | Its rows and the target stay untouched if and only if the row was DONE and no older than the version listed. |
| Items.FolderExactly | app/jobs/runner.py:98-101 | From any rows: the columns a new folder row gets, also in a dry run, when the mailbox is created, when the row is marked, and when it raises. |
| Runner.MigrationRun.TryImport | app/jobs/runner.py:123-135 | The retry loop stops at the first success and leaves every effect of an earlier failed attempt in the target. |
| Runner.MigrationRun.CommitWithRetry | app/jobs/runner.py:26-48 | Only a first commit that succeeds carries the increment; it raises when all three commits fail. |
| Runner.MigrationRun.RecordSuccess | app/db/repositories.py:51-75 | The row becomes DONE and keeps its old stamp when the new one is absent. |
| Runner.MigrationRun.RecordFailure | app/db/repositories.py:78-88 | The row becomes FAILED and keeps its stamp. |
| Runner.MigrationRun.IsCancelled | app/jobs/runner.py:72-74 | The check sees a cancel exactly when one has landed before it. |
| ImportModel.FutureStep | app/jobs/runner.py:92-106 | Doing the next unit leaves the future of the whole run as it was: the loop form and the whole-run specification agree step by step. |
| ImportModel.CancelSeenIsReal | app/jobs/runner.py:93-94 | A run stops for a cancel only if one has landed. |
| Histories.JobAsOneRun | app/jobs/runner.py:256-261 | The mail pass with its close, the calendar pass and the contact pass do together what one run over all their units does, so every result about units is one about jobs. |
| ImportSafety.HistoryLegal | app/jobs/runner.py:110-213 | In every history of runs and crashes an APPEND only ever meets a message that is not DONE, and every success row directly follows the effect it records. |
| ImportSafety.MailCopies | app/jobs/runner.py:123-135 | From a message with neither copy nor row: copies in the target equal 1 if its row is DONE plus the appends whose success row was never committed, over every history. |
| ImportSafety.DoneIsFinal | app/jobs/runner.py:113-114 | A DONE message stays DONE, is never appended again and keeps its number of copies, over every history. |
| ImportSafety.AppendsBounded | app/jobs/runner.py:123-135 | Processing a listed item makes at most three appends. |
| ImportSafety.ObjectsNeverOlder | app/jobs/runner.py:158-168 | With crashes anywhere, the target object of a DONE event or contact is never older than the row's stamp. |
| Counting.CountersFollow | app/jobs/runner.py:26-48 | Over any log, resumed runs included, the sum of the four counters grows by exactly the committed counts. |
| Counting.ItemCounted | app/jobs/runner.py:26-48 | Each processed item is counted at most once, and exactly when the item gets to its counter and the first commit goes through. |
| Counting.CountersTellOutcome | app/jobs/runner.py:148-176 | The counter that was raised tells the truth: skipped means nothing changed, failed means a FAILED row, created or updated means a DONE row and a target made from that version, updated exactly for an event or contact with a row. |
| Counting.RunCounts | app/jobs/runner.py:137 | A run cut off anywhere never counts more than the items it started, and all of them if and only if each gets to its counter, the first commit succeeds, and the cut does not come before it. |
| Counting.Conservation | app/jobs/runner.py:26-48 | Over a job's first attempt and all resumed ones, with crashes anywhere, the four counters together grow by at most the items started, and by exactly these if and only if that holds of each item a run started. |
| Counting.SmoothRunCountsAll | app/jobs/runner.py:26-48 | It holds when all database writes go through and a crash, if any, falls between two units. |
| DryRuns.DryRunOnlyReports | app/jobs/runner.py:99-116 | A dry run of a whole job, cut off after any event, changes no item row, target object, mailbox, mark or watermark. |
| DryRuns.DryHistoryOnlyReports | app/jobs/runner.py:262-263 | Nor does any history of dry runs. |
| DryRuns.DryRunPredicts | app/jobs/runner.py:115-128 | Over listings without repeats a dry run of a job makes the same counts, item by item in the same order, as a failure-free real run from the same state. |
| Convergence.Convergence | app/jobs/runner.py:148-176 | After a failure-free pass over any listing, in any order and with repeats, an object that was absent or in agreement has the newest of its old and listed stamps, in its row and in the target. |
| Convergence.JobConvergence | app/jobs/runner.py:256-261 | The same for a whole job over all its folders, calendars and contacts. |
| Cancellation.BoundedCancellation | app/jobs/runner.py:92-106 | Every event after a cancel belongs to one folder or item, except the check that ends the run, whose place is last. |
| Cancellation.JobCancellation | app/jobs/runner.py:256-261 | The same bound across the mail, calendar and contact passes of a job. |
| Readiness.AppendsReady | app/jobs/runner.py:92-106 | With unchanged paths every APPEND of a run finds its mailbox in place. |
| Readiness.EveryAppendHasItsMailbox | app/jobs/runner.py:97-106 | Over every history with one folder tree and delimiter, crashes included, every APPEND goes to a mailbox that exists at that moment. |
| RenamedFolders.AppendsLandExactly | app/jobs/runner.py:97-106 | Whatever the server does, no run over a folder tree, cut off or not, can have an APPEND take effect on a missing mailbox, if and only if each listed folder that is marked has a mailbox under its present path or comes after an unmarked folder of that path. |
| Refusals.MessagesArriveExactly | app/jobs/runner.py:97-137 | When a server refuses messages for missing mailboxes and nothing else goes wrong, every message listed by every run over a tree of unique ids ends DONE, under the same condition and only then. |
| Refusals.ObeysLands | app/importers/imap_importer.py:29-37 | With such a server no APPEND takes effect on a missing mailbox. |
| Refusals.RenameFailsMail | app/jobs/runner.py:97-106 | Two runs from an empty mailbox with a folder renamed in between, after which a message is FAILED though nothing but its refusal went wrong. |
| RenamedFolders.MailboxesAreEnsured | app/jobs/runner.py:99-101 | A mailbox exists exactly when it did at first or a folder was ensured under its path. |
| Outcomes.FinishedHasOutcome | app/jobs/runner.py:92-106 | When the loops of a real run finish, every listed item has a row that is FAILED or DONE with a stamp at least that of the version listed. |
| Outcomes.FinishedJobHasOutcome | app/jobs/runner.py:256-261 | The same for all passes of a job: what the watermark relies on when it moves. |
| Watermark.StepKeeps | app/jobs/runner.py:240-263 | Every run, finished, failed, cancelled or cut off by a crash, and every change of the source meanwhile, keeps the coverage invariant. |
| Watermark.AskedHasOutcome | app/jobs/runner.py:262-263 | A run that moves the watermark leaves an outcome for every unchanged item it asked for. |
| Watermark.InitialRunCovers | app/jobs/runner.py:240-263 | An initial job without a mail date that moves the watermark leaves an outcome for every unchanged item of its categories, whatever the watermark was and covered. |
| Watermark.LeftOutWasCovered | app/graph/client.py:133-134 | An item that a resync leaves out, with its bound cut to whole seconds and counted from the start time of an earlier run, was covered before. |
| Watermark.WatermarkCoverage | app/jobs/runner.py:240-263 | Over every history, each item of a covered category last changed before the watermark has a row that is FAILED or DONE with a stamp at least its own. |
| Watermark.ReachingRunsCover | app/jobs/resync.py:8-25 | From an empty database, runs that migrate the category and filter mail no later than watermark minus buffer, as resyncs do, leave none of its items behind; dry runs may come between. |
| Watermark.ResyncsReach | app/jobs/resync.py:17-25 | The rows that resync creation inserts are such runs in every category, also when the watermark has moved on meanwhile. |
| Watermark.KindCoversExactly | app/jobs/runner.py:240-263 | For jobs of one kind the watermark speaks for a category over every history if and only if they migrate it and, for mail, carry no date of their own. |
| Watermark.UnlistedItemLeavesGap | app/jobs/runner.py:256-263 | Any real job that does not ask for an item can move the watermark past it: the history is given. |
| Jobs.Database.CreateJobs | app/web/routes/jobs.py:31-54 | Each requested id is created or skipped, with repeats; afterwards every requested mapping has an active job, no other row has changed, and one active job per mapping stays so. |
| Jobs.Database.CreateResyncJob | app/jobs/resync.py:11-29 | Created exactly for a mapping that has a watermark and no active job, as a real run over all three categories with watermark minus buffer as its mail date. |
| Jobs.Database.CreateResyncJobsForAll | app/jobs/resync.py:32-48 | A mapping gets a job exactly when it had no active one and is skipped otherwise; the new rows are pending resyncs with the buffered watermark as mail date; no other row changes, and one active job per mapping stays so. |
| JobService.Service.CreateJobs | app/web/routes/jobs.py:31-54 | Batch creation, with as many submits as go through before one raises, is the creation step of the protocol, enabled in the state it is called in. |
| JobService.Service.Resync | app/web/routes/resync.py:15-30 | A resync request is the creation step for its one mapping, or changes nothing. |
| JobService.Service.ResyncAll | app/web/routes/resync.py:33-40 | Resyncs with their own dates for exactly the mappings without an active job, submitted as far as the calls go through; the invariant of the protocol is kept. |
| JobService.Service.Start | app/jobs/runner.py:224-233 | The worker that wins the guarded start is the only one past the start of its job; one that loses changes no row; the invariant of the protocol is kept. |
| JobService.Service.Finish | app/jobs/runner.py:264-287 | A terminal update that matches no row means that the job is CANCELLED, and it stays so; no worker is left on the job. |
| JobService.Service.CancelWrite | app/jobs/scheduler.py:30-33 | The write of a cancel, whatever happened since its read, is a step of the protocol and keeps its invariant. |
| JobService.Service.Restart | app/jobs/scheduler.py:37-53 | After startup exactly the active jobs are queued and no row says RUNNING without a worker. |
| Jobs.Database.ResumeIncompleteJobs | app/jobs/scheduler.py:37-53 | Every job that was PENDING or RUNNING is pending and submitted, and no other. |
| Jobs.AddsKeepsOneActive | app/db/repositories.py:10-23 | Adding jobs only for distinct mappings without an active one keeps at most one active job per mapping. |
| JobProtocol.StepKeeps | app/jobs/scheduler.py:18-53 | Every step of every interleaving, abandoned jobs included, keeps one active job per mapping and at most one worker past the start of a job, which is then RUNNING or CANCELLED. |
| JobProtocol.EveryHistoryKeeps | app/jobs/runner.py:224-233 | So does every history from the empty system, however often an id sits in the queue. |
| JobProtocol.StatusChanges | app/jobs/scheduler.py:27-48 | Only start, finish, cancel and startup resume change a status, each along its own edges. |
| JobProtocol.CancelledIsFinal | app/jobs/scheduler.py:27-48 | CANCELLED is never left, over every history. |
| JobProtocol.TerminalIsFinal | app/jobs/runner.py:264-287 | A job in a terminal status with no cancel between its read and its write keeps that status for ever; with atomic cancels this covers all three. |
| JobProtocol.TerminalLostExactly | app/jobs/scheduler.py:30-33 | Some history changes a terminal status if and only if a cancel of the job has been read and not written and the status is not CANCELLED. |
| JobProtocol.LateCancelOverwrites | app/jobs/scheduler.py:30-33 | A history in which CANCELLED overwrites COMPLETED. |
| JobProtocol.DeadForever | app/jobs/runner.py:224-233 | A job that is terminal and has no worker is never worked on again. |
| JobProtocol.BoundedCancellation | app/jobs/runner.py:93-94 | Over every interleaving a cancelled job's worker does at most the unit in progress. |
| JobProtocol.StrandedExactly | app/jobs/runner.py:229-234 | A row comes to say RUNNING without a worker exactly when a worker abandons its running job, and leaves that state exactly by a cancel or a restart. |
| JobProtocol.RunningCounted | app/jobs/scheduler.py:13-14 | RUNNING rows are the busy workers' plus the stranded ones, and outnumber the pool exactly when the stranded rows exceed the idle places. |
| JobProtocol.RunningBounded | app/jobs/scheduler.py:37-53 | From the empty system or any restart, while no worker abandons a running job, RUNNING rows never outnumber the pool. |
| JobProtocol.StrandedBlocks | app/db/repositories.py:10-23 | Until a cancel or a restart, over every history, a stranded row keeps its mapping active. |
| JobProtocol.StrandedHappens | app/jobs/runner.py:229-234 | A history with one worker and two RUNNING rows. |
| JobProtocol.ForgottenExactly | app/jobs/runner.py:224-229 | A pending job is held by no queue entry and no worker exactly from a request that raises before its submit, or a start whose commit raises, until a cancel, a restart or a new submit. |
| JobProtocol.OverlapOnlyAfterCancel | app/db/repositories.py:10-23 | Two workers on one mapping: one of the two jobs is cancelled. |
| JobProtocol.OverlapExactly | app/db/repositories.py:7-23 | A step brings two workers onto one mapping if and only if it starts a job while the worker of a cancelled job of that mapping has not stopped. |
| JobProtocol.OverlapHappens | app/db/repositories.py:10-23 | A history in which it happens. |
| Translation.GraphRecurrenceToRrule | app/conversion/ics.py:19-66 | A text is written exactly for the recurrences whose keys can be read, and it is `RuleText`, spelled out part by part. For a supported recurrence it parses, by the grammar of RFC 5545 with each part at most once, back to its type, interval, weekdays, month, day, position, first weekday and end. |
| RecurrenceText.TextIs | app/conversion/ics.py:12-66 | The specification of the text agrees with the literal one: weekdays by the first two letters of their names in capitals, positions 1 to 4 and -1, interval 1 and Sunday by default; an unknown pattern type is an error of its own, every other error is a missing or unknown key. |
| Recurrence.EmittedRule | app/conversion/ics.py:25-66 | The fields of every supported recurrence are read back as its rule. |
| Recurrence.UntilReads | app/conversion/ics.py:60-62 | An end date without its hyphens reads back as the last second of that day. |
| Recurrence.EndDateIsThatDay | app/conversion/ics.py:60-62 | The day meant has the year, month and day of the month that the end date spells. |
| Rules.TextRoundTrip | app/conversion/ics.py:66 | Joining fields with `;` and `=` loses nothing: reading the text gives the same rule as reading the fields. |
| Rules.PickIsFilter | app/conversion/ics.py:40 | BYSETPOS from the front or as -1 keeps exactly the day at that position of its period. |
| Rules.OccursIff | app/conversion/ics.py:25-66 | A rule expanded period by period, with COUNT or UNTIL, yields exactly the days of a predicate that agrees with it in every period. |
| RecurrenceMeaning.DaysAgree | app/conversion/ics.py:26-57 | A day matches a Graph pattern exactly when it passes the rule's interval, BY parts and position. |
| RecurrenceMeaning.SameDates | app/conversion/ics.py:19-66 | For every supported recurrence and any start, the emitted rule occurs on exactly the days the Graph recurrence denotes; a start outside the pattern is read on both sides as no occurrence. |
| RecurrenceMeaning.StartIsFirst | app/conversion/ics.py:59-64 | A start in the pattern is the first occurrence, within the end date, and the one that a count of one counts. |
| FolderMapping.PathResolver.Resolve | app/importers/folder_mapping.py:48-58 | With any correct memo, in any order of calls, the result is that of plain recursion: the segment below the path of the parent that the folder names, if it names one that is listed. The memo stays correct. |
| FolderMapping.BuildFolderPaths | app/importers/folder_mapping.py:12-29 | Every listed folder has its display name below the path of the parent it names, joined by a slash, or alone when that is empty or not listed. |
| FolderMapping.BuildImapPaths | app/importers/folder_mapping.py:32-62 | The same with the delimiter, where the five well-known folders have their fixed names and every other its display name with each delimiter replaced by an underscore. |
| FolderMapping.PathIsJoin | app/importers/folder_mapping.py:53-56 | A path is the join of the root-to-folder segments. |
| FolderMapping.PathRoundTrip | app/importers/folder_mapping.py:45-62 | Splitting a path gives its segments if and only if no segment holds the separator. |
| FolderMapping.SafeDelimiters | app/importers/folder_mapping.py:3-9 | Sanitising keeps a delimiter out of every segment if and only if it is not `_` and in no well-known mailbox name. |
| FolderMapping.ImapPathsDistinct | app/importers/folder_mapping.py:45-62 | With a safe delimiter, IMAP paths are distinct if and only if siblings have distinct segments. |
| FolderMapping.OrderDoesNotMatter | app/importers/folder_mapping.py:45 | The order of a list with unique ids does not change the table the paths are built from. |
| GraphFolders.PagedGet | app/graph/client.py:42-49 | The items of all chained pages, in order. |
| GraphFolders.ListChildFolders | app/graph/client.py:105-117 | Each child directly followed by what is listed below it. |
| GraphFolders.ListMailFolders | app/graph/client.py:93-127 | The same from the top level; each listed folder has the fields of its node, the parent it stands below, and the well-known name resolved to its id. |
| GraphFolders.ListingIsPreorder | app/graph/client.py:93-117 | The listing is the preorder of the whole tree if and only if positive child counts are reported wherever there are children. |
| GraphFolders.ListingParentsFirst | app/graph/client.py:105-117 | A parent is listed before its children, whatever the counts. |
| GraphFolders.ListingAcyclic | app/graph/client.py:93-117 | What is listed has no parent cycle, so path building terminates on it. |
| Retry.GraphRequest | app/graph/retry.py:40-53 | At most the retry limit plus one requests; every reply but the last had status 429 or at least 500; the last settles the result, and only a status from 200 to 299 is returned; the sleep is the sum of what the headers ask for or else of capped powers of two and jitter. |
| Retry.BackoffClosedForm | app/graph/retry.py:46-50 | That sum in closed form for every limit; 67 seconds for the limit of 5. |

## Left out

- HTTP, tokens, IMAP and DAV sockets: only the outcome of each call is kept.
- SQLAlchemy and SQLite internals: a commit is atomic, a call that raises has written nothing, and a rollback drops what was not committed.
- The back-off sleeps of item, connection and commit retries.
- `target_ref`, error messages, message flags and received dates: nothing depends on them.
- Conversion of messages, events and contacts: a target object is identified with the version it was made from.
- Stamps are instants; time zones and the `UTCDateTime` conversions are easy and left out.
- Resolution of well-known folder ids: the resulting map is a parameter.
- Message ids that change when mail is moved, flag changes, and deletions on the target.
- A delimiter of several characters, or none.
- Folder lists with a parent cycle, on which the source exceeds its recursion limit; listings have none (`GraphFolders.ListingAcyclic`).
- Months without the given day have no occurrence, and dates are in UTC; Graph's own choice is not documented in the repository.
- The value type of UNTIL for all-day events.
- Patterns and ranges without a `type` key: the key is taken to be present.
- Routes other than job creation, CSV import, templates, reports, setup, encryption, log redaction.
- Separate methods for the three kinds of item: `_migrate_one_message`, `_migrate_one_calendar_event` and `_migrate_one_contact` differ only in effect, stamp and counter, and are one method over the kind of item.
- The inside of a unit of work in `JobProtocol`, where a unit is one step; `Cancellation` follows its single events.
- Dry runs over listings that repeat a new item: they count it twice as created, while a real run skips or updates it the second time.
- Mail that moves between folders during a run counts as changed in `Watermark`.
