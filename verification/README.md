# Verified models of the wlan-opc control daemon

`opcd` is a control daemon with one main loop and one storage worker thread. What it
promises its clients has to hold across failed writes, power cuts, retransmissions and
session changes. This project models those protocols in Dafny and proves the promises for
every run. `dafny verify dfyconfig.toml` checks all of it.

How the models are built:

- A protocol is a state machine: a datatype for the state, one function per atomic step
  (a critical section, a system call, a message), and a run is any sequence of steps. The
  two threads, crashes and restarts are just steps, so a statement about all runs covers
  every interleaving and every crash point.
- Where the C code updates fields, arrays or buffers in place, a class or a loop does the
  same here, and its contract says which step, or which sequence of steps, it performed.
- A file is what readers see now plus every state a power loss may leave
  (`Store.File`). System calls, clocks, the radio driver, the customer and the client are
  parameters that may answer anything.

Modules, in reading order:

| module | part of the program |
|---|---|
| `Common`, `Lines`, `Decimal`, `OpcText`, `AddressBits` | counting facts, lines of text, numbers as text, the protocol's character set, facts about words |
| `Store` | the atomic file replacement and its three outcomes |
| `StoreAsync`, `WriterRuns`, `AsyncWriter` | the asynchronous NVRAM writer: its steps, its runs, its arrays and ring |
| `Persistence`, `PersistenceRuns`, `PersistenceCells`, `DeferredAcks` | admission gates, deferred acknowledgements and publication on top of the writer |
| `PersistenceCopy` | the copy of the published IP list in the customer's file and its record |
| `SettingCells` | the password's and the list's models as views of those two threads |
| `Password` | SetPassword and the repeat of an unconfirmed change |
| `IpConfig`, `IpSession` | IP lists, SetIpConfigList cycles, sessions and the deferred address change |
| `IpListText`, `IpListStart` | the list as text, and the choice among three files at start-up |
| `RadioTxn` | the SetRadioConfig transaction and its marker |
| `EssidText`, `EssidMarker`, `EssidChain`, `EssidFiles` | the volatile SSID change: text surgery, marker format, protocol, operations |
| `FaultProbe`, `Indication` | congestion detection and period coalescing |
| `ScanList`, `JsonMember` | the scan channel bitmap and the JSON member scanner |

`hide` statements keep a proof from unfolding definitions it does not need.

## Where the code falls short of its comments

The code is modelled as it is. Four statements its comments suggest do not hold without a
condition; each has an input that shows it and the exact condition where one exists.

- The original SSID is to survive every power loss (`opcd/essid_marker.h:75` calls the marker
  durable when arming succeeds). `write_atomic` ignores a failed directory sync, and the
  helper can be stopped between its rename and its own. `EssidChain.RestoredIff`: over every
  run, every crash point is recovered from if and only if no step installs a token that some
  marker a power loss may leave does not identify, and none writes or removes a marker while
  the configuration may still be left with a token the new one does not identify.
  `ArmNeedsItsSync`, `InstallNeedsItsSync`, `RollbackNeedsItsSync` and `RestoreNeedsItsSync`
  give this for each sync in terms of its outcome; `SecondInstallLoses` is a run that loses
  the original.
- A durable SetIpConfigList commit can be undone at a start without the customer touching the
  file. `IpListStart.SecureIff`: over every run, it never is if and only if no step commits
  another list while the one shown has no confirmed record, shows a list unsynced over a file
  the customer put there, or records what shows while another file may still come back.
  `CommitSurvivesIff` and `NextCommitSurvivesIff` give this in terms of write outcomes;
  `LostRecordUndoesCommit` is a run without any power loss.
- The scanner `member` agrees with the JSON tree for names that are the text of a key
  (`JsonMember.MemberIsLookup`). `JsonMember.QuoteInNameMisleads` and
  `JsonMember.BackslashInNameMisleads`: a name with a quote in it can match across a value and
  the next key, and one that ends in a lone backslash can match inside a key. The callers pass
  fixed names with neither.
- After a failed apply and a successful revert the radio configuration is committed again
  while the marker is still there. That is only conservative and is covered by
  `RadioTxn.CommittedBootIsLive`.

## Model

| member | source | states |
|---|---|---|
| Store.Target.WriteAtomicEx | opcd/store.c:13-89 | for every pattern of failing and short system calls: the file is left alone iff something up to the rename fails, the write is durable and reported so iff nothing fails, readers see the old or the whole new bytes as the outcome says, and no crash point leaves anything but an earlier state or the new bytes |
| Store.WriteAll | opcd/store.c:53-61 | all bytes get in iff no write(2) fails while some are still missing; interrupted and short calls are continued |
| StoreAsync.QuietWf | opcd/store_async.c:178-216 | reserving and cancelling keep the slot table well formed |
| StoreAsync.SubmitWf | opcd/store_async.c:218-248 | a submitted job is queued once, as the youngest |
| StoreAsync.ReserveGives | opcd/store_async.c:178-216 | a slot is given iff the job fits, the writer runs and one is free: a free slot for the path and size asked for, all others untouched; cancelling gives it back |
| StoreAsync.PublishWf | opcd/store_async.c:95-100 | finishing the oldest job keeps the queue and the order of finished and unfinished jobs |
| StoreAsync.HarvestWf | opcd/store_async.c:305-323 | freeing finished slots keeps the table well formed |
| StoreAsync.DoneSlotsAre | opcd/store_async.c:308-320 | a harvest scan sees exactly the finished slots |
| WriterRuns.HarvestAwake | opcd/store_async.c:289-323 | a drain that leaves finished jobs behind re-arms the event, so no wakeup is lost |
| WriterRuns.RunKeeps | opcd/store_async.c:69-324 | in every run and interleaving: jobs finish in submission order, a queued job keeps the path, data and token of its call, the files equal the submissions replayed one by one with their outcomes, each finished job is in its slot or was handed out once with its own token and outcome, and a finished job outside a drain means a readable event |
| WriterRuns.ReservationKept | opcd/store_async.c:178-248 | whatever else either thread does, a reservation stays as it is until it is cancelled, given an echo path or submitted |
| WriterRuns.FinalDrain | opcd/store_async.c:147-161 | once the stop has joined the worker, every submission of the run has been performed and one drain hands out each one not yet handed out |
| AsyncWriter.RoomToSubmit | opcd/store_async.c:243-244 | the ring cannot overflow: a reserved slot is never among the queued ones |
| AsyncWriter.NvramWriter.constructor | opcd/store_async.c:106-145 | a new writer has sixteen free slots and an empty ring |
| AsyncWriter.NvramWriter.Reserve | opcd/store_async.c:178-207 | the first-free scan of the slot array performs the reserve step, with its four refusals |
| AsyncWriter.NvramWriter.Cancel | opcd/store_async.c:209-216 | frees the slot only if it is still reserved |
| AsyncWriter.NvramWriter.SubmitReserved | opcd/store_async.c:218-248 | fills the slot and appends it to the ring: the submit step, or nothing |
| AsyncWriter.NvramWriter.SubmitEcho | opcd/store_async.c:250-271 | reserve, name the echo, submit, as one step or none |
| AsyncWriter.NvramWriter.Take | opcd/store_async.c:74-85 | the worker pops the oldest slot of the ring |
| AsyncWriter.NvramWriter.Returned | opcd/store_async.c:81-84 | the worker's write has returned and its outcome is kept for the publication |
| AsyncWriter.NvramWriter.Finished | opcd/store_async.c:95-100 | the worker stores its result and signals |
| AsyncWriter.NvramWriter.Drain | opcd/store_async.c:289-324 | clears the event, frees up to the cap of finished slots in table order, returns their completions, re-arms for the rest |
| AsyncWriter.NvramWriter.Stop | opcd/store_async.c:147-154 | sets the shutdown flag and nothing else |
| Persistence.AtMostFour | opcd/handler.c:302-334 | at most four of the sixteen job slots are in use: one per persisted resource and one customer-file copy |
| Persistence.SlotAvailable | opcd/handler.c:318-334 | so a job slot is always free |
| Persistence.FewPending | opcd/handler.c:254-259 | and so is an acknowledgement slot |
| Persistence.AdmitKeeps | opcd/handler.c:318-334 | admission keeps the joint invariant of writer, acknowledgements, files and published values |
| Persistence.AcceptKeeps | opcd/handler.c:340-374 | so does accepting a request: submission, acknowledgement slot and saved candidate, or a clean refusal |
| Persistence.DrainKeeps | opcd/handler.c:2411-2413 | a drain moves exactly the finished jobs to the batch being reconciled |
| Persistence.SettleKeeps | opcd/handler.c:2428-2479 | reconciling one completion makes the published value equal the file, answers once and opens the gate |
| Persistence.MirrorStepKeeps | opcd/handler.c:969-986 | queueing the customer-file copy, or writing it here after the stop, keeps the invariant |
| PersistenceCopy.CopyShows | opcd/handler.c:969-986 | over every run and interleaving: each copy on its way is of the list in effect, for the customer's file and its record; from the moment its write is visible until the next list is published the customer's file shows exactly that list, and so does the record if written; before that it waits in a slot unless its write failed; the same for the copy written here after the stop |
| PersistenceCopy.OnlyCopies | opcd/store_async.c:81-93 | no other step of either thread changes the customer's file or the record |
| Persistence.WriteKeeps | opcd/store_async.c:87-94 | the worker's write of a candidate, with any outcome, keeps it |
| Persistence.NextKeeps | opcd/handler.c:2407-2567 | every step of either thread keeps it |
| PersistenceRuns.CapacityNeverShort | opcd/handler.c:302-334 | in every reachable state and interleaving at most four slots are taken, admission is never refused for capacity, it is given iff the resource's own write is not outstanding, size and path fit and the writer runs, and the customer-file copy never meets a full table |
| PersistenceRuns.AdmittedIsAccepted | opcd/handler.c:336-374 | an admitted request that fits its reservation is accepted iff the writer has not been stopped |
| PersistenceRuns.TokensOneToOne | opcd/handler.c:254-374 | in-use acknowledgement slots and outstanding non-copy jobs or completions correspond one to one by token |
| PersistenceRuns.ReconciledInOrder | opcd/handler.c:2418-2513 | a list is never mirrored while an older copy is in the table, and the radio generation test at completion never fails |
| PersistenceRuns.AnsweredOnce | opcd/handler.c:2407-2567 | every accepted request is written at most once and answered at most once, to its own address with its own sequence number, OK iff its write was durable, and it holds a slot until then |
| PersistenceRuns.QuietMeansAnswered | opcd/handler.c:2407-2567 | with no job and no completion left, every accepted request has been answered and memory equals the files |
| PersistenceRuns.StopAnswersAll | opcd/opcd.c:817-822 | the exit sequence ends there from any reachable state, whatever becomes of the remaining writes |
| PersistenceCells.StepIsCellStep | opcd/handler.c:2428-2479 | seen through one setting, every step of the two-thread machine is a step of a three-stage cell: accept, decide, publish |
| PersistenceCells.RunsRefineCells | opcd/handler.c:2428-2464 | in every run the file shows the published value, or the candidate exactly while its visible write awaits reconciliation |
| SettingCells.PasswordRuns | opcd/handler.c:2435-2443 | every run of the two threads is, for the password, a run of its model with the outcomes the worker's writes had |
| SettingCells.ListSteps | opcd/handler.c:2444-2479 | every step of the session model is a step of the list's cell: requests and sessions change what is published only through it |
| SettingCells.ListFitsJob | opcd/handler.c:244-245 | the text of a sound list, and the reservation made for one, are never refused for their size |
| DeferredAcks.OneAttemptIsEnough | opcd/handler.c:318-334 | the harvest-and-retry of admission is never needed |
| DeferredAcks.Handler.constructor | opcd/opcd.c:180-195 | start-up publishes what the files show |
| DeferredAcks.Handler.PendingAckAlloc | opcd/handler.c:254-259 | returns the first unused slot, or -1 when all are in use |
| DeferredAcks.Handler.ResourceBusy | opcd/handler.c:302-310 | true iff some pending acknowledgement is for that resource |
| DeferredAcks.Handler.PersistAdmit | opcd/handler.c:318-334 | two attempts with one harvest between them |
| DeferredAcks.Handler.PersistBlob | opcd/handler.c:340-374 | performs the accept step on the arrays and keeps the invariant |
| DeferredAcks.Handler.Reconcile | opcd/handler.c:2414-2479 | one iteration of the reconcile loop is one reconcile step |
| DeferredAcks.Handler.MirrorUser | opcd/handler.c:969-986 | queues the copy with its echo, or writes both files when the writer refuses |
| DeferredAcks.Handler.OnReady | opcd/handler.c:2407-2567 | one drain and the reconcile of every completion it returned |
| OpcText.ValidCharset | opcd/handler.c:169-187 | accepts exactly the strings over the protocol's characters |
| OpcText.LetterIs | opcd/handler.c:169-187 | the admitted characters, code by code |
| Password.Judge | opcd/handler.c:1423-1452 | a request is accepted iff no write is outstanding, it is well formed and it names the password in force, or it repeats the change that replaced the named one |
| Password.RepeatNeverMismatched | opcd/handler.c:389-413 | a client repeating one accepted request until OK, among any rejected requests and for any sequence of outcomes, is never told its old password is wrong |
| Password.ReplacedPasswordChangesNothing | opcd/handler.c:389-397 | the replaced password opens nothing but a rewrite of the one in force |
| Password.ConfirmedEndsRepeats | opcd/handler.c:401-407 | after a confirmed write exactly the password in force is accepted |
| Password.MeaningOfUnsynced | opcd/handler.c:401-413 | over any run the published password is the stored one, and the repeat is open exactly while the last visible change is unconfirmed and unchanged, for the password it replaced |
| Password.Handler.SetPassword | opcd/handler.c:1413-1488 | the handler's verdict and state are those of the model, check by check |
| Password.Handler.Complete | opcd/handler.c:2438-2443 | a completion reconciles the pending candidate |
| IpConfig.ContiguousMasks | opcd/handler.c:129-132 | the bit trick accepts exactly the 32 prefix masks |
| IpConfig.AddressRules | opcd/handler.c:200-224 | an entry is accepted iff it keeps every address rule (usable host address, prefix mask, neither network nor broadcast address, gateway unset or another host of the same subnet unless /32, time server unset or usable), and the cause is the first one broken |
| IpConfig.CycleMeans | opcd/handler.c:1541-1598 | a cycle from START over continuations to END changes the committed list by exactly its entries, in order, whatever was staged before |
| IpConfig.SingleEntry | opcd/handler.c:1541-1598 | a one-entry cycle likewise; a continuation or end without a start is refused and changes nothing |
| IpConfig.LastNamedWins | opcd/handler.c:1561-1585 | merging updates leaves unnamed slots alone and gives a named slot its last update |
| IpConfig.RequestDenotes | opcd/handler.c:1536-1599 | the request loop computes the meaning of the request: completed cycles merged in order, the open cycle staged on top, stopped by the first error |
| IpConfig.UpdatesSound | opcd/handler.c:200-224 | merged lists hold only entries that passed the value checks, in their own slots |
| IpConfig.ProcessEntry | opcd/handler.c:1541-1598 | the loop body, branch by branch |
| IpConfig.Process | opcd/handler.c:1540-1599 | the loop with its early exits |
| IpSession.ListIsItsEdits | opcd/handler.c:1601-1641 | over any run of requests, sessions and write outcomes the list is the initial one with every visibly written cycle merged in order and nothing else, staging is the list with the open cycle on top, or empty, and every entry of either is valid |
| IpSession.RunStaged | opcd/handler.c:1042-1049 | a pending change is armed or awaiting a decision iff the address that staged it logged its session out explicitly, and a live session only ever holds its own holder's change |
| IpSession.DecisionStep | opcd/handler.c:1065-1089 | a change is armed only by the Logout of its own session, sent by the address that staged it, or the completion that Logout waited for, with no list write undecided, as a snapshot of the staged slot; the snapshot is then written once |
| IpSession.AppliedWasDecided | opcd/handler.c:2265-2336 | whatever is applied was staged by an address that logged its session out explicitly and is the entry of exactly such a decision earlier in the run |
| IpSession.LogoutIsHonoured | opcd/handler.c:1113-1139 | the staging session's Logout arms the slot iff the committed list has it and cancels the change otherwise, at once or when the outstanding write's outcome is in |
| IpSession.IdleNeverCommits | opcd/opcd.c:575-581 | a session that idles out leaves nothing armed, and the next login drops its change |
| IpSession.StagedUntilLogout | opcd/handler.c:1681-1716 | over any events during which its session lasts, an accepted ChangeIp stays staged and undecided, for the slot of the last one accepted, and the session stays with the address that staged it |
| IpSession.RequestTakesEffect | opcd/handler.c:1601-1641 | a request of the holder moves the open cycle at once, and list and cycle together with a visible write, at once or at its completion, and not at all otherwise |
| IpSession.HolderKept | opcd/handler.c:1001-1002 | as long as a session lasts it belongs to the address that logged in |
| IpSession.OthersChangeNothing | opcd/handler.c:1001-1002 | over any events of a session, the same events without the requests of other addresses lead to the same state |
| IpSession.LoginTakesEffect | opcd/handler.c:1020-1056 | anyone may log in while nobody is, and starts a session of their own |
| IpSession.ApplyOutcome | opcd/handler.c:2294-2335 | a successful apply ends a session held at the old address, a failed one keeps it; either way the reservation is over |
| IpSession.Handler.HandleLogin | opcd/handler.c:990-1056 | fresh logins drop an abandoned change, continued sessions keep theirs |
| IpSession.Handler.HandleLogout | opcd/handler.c:1091-1145 | decides at once or defers behind the outstanding write, then ends the session |
| IpSession.Handler.HandleSetList | opcd/handler.c:1490-1646 | the request's effect and its error cause |
| IpSession.Handler.HandleChangeIp | opcd/handler.c:1670-1721 | stages the slot, or refuses for each of the listed reasons |
| IpSession.Handler.OnWritten | opcd/handler.c:2444-2476 | publishes list and staging as the outcome and the session allow, then takes the deferred decision |
| IpSession.Handler.ApplyPending | opcd/handler.c:2265-2336 | applies the snapshot, ends a session held at the old address, clears the reservation |
| Decimal.Positional | opcd/iplist_text.c:72-75 | a decimal text is worth its front times a power of ten plus its rest |
| Decimal.TenDigits | opcd/iplist_text.c:72-75 | the digits are '0' to '9' with the values 0 to 9 |
| IpListText.AddressRoundTrip | opcd/iplist_text.c:29-80 | every address is read back as printed |
| IpListText.DottedText | opcd/iplist_text.c:29-33 | the address a*2^24 + b*2^16 + c*2^8 + d prints as the four decimal numbers a, b, c, d in that order joined by dots |
| IpListText.AddressText | opcd/iplist_text.c:60-83 | a text reads as an address iff it is that text: four numbers up to 255 without leading zeros, most significant first |
| IpListText.ListText | opcd/iplist_text.c:35-58 | a list prints as five lines, each field under its own name, in order |
| IpListText.BadLineRejects | opcd/handler.c:656-695 | a bad line anywhere makes the strict reading take nothing |
| IpListText.TextRoundTrip | opcd/handler.c:656-695 | formatted lists are accepted by both readings and give back the same entries with boundary flag 0 |
| IpListText.SameTextSameList | opcd/handler.c:895-901 | comparing texts is comparing lists |
| IpListText.FormatFits | opcd/iplist_text.h:28-30 | no valid list prints longer than 21,604 bytes |
| IpListText.FormatText | opcd/iplist_text.c:35-58 | the slot loop prints the list |
| IpListText.ParseText | opcd/iplist_text.c:154-170 | the line loop, with CR line ends and blank lines |
| IpListText.ParseList | opcd/handler.c:656-695 | the slot loop with its strict and lenient readings |
| IpListStart.StartChangesIff | opcd/handler.c:903-962 | a start takes another list than opcd's own iff the customer file is acceptable, is not the recorded one and holds another list |
| IpListStart.StartWithoutOwn | opcd/handler.c:926-943 | without a readable copy of its own a start takes any acceptable customer file and otherwise an empty list |
| IpListStart.BadFileNotApplied | opcd/handler.c:952-961 | a customer file with a bad line is not applied at all |
| IpListStart.StartAgrees | opcd/handler.c:903-962 | a start whose writes succeed leaves opcd's copy, the customer file and the record agreeing on the list in effect |
| IpListStart.SecureIff | opcd/handler.c:869-986 | over every run of starts, commits, customer replacements, restarts and power losses, with any outcome of any write and with or without a copy of opcd's own: at every crash point a start keeps the commit in effect unless the customer replaced the file, iff the run takes none of the endangering steps, each a condition on the state before it |
| IpListStart.SecureStep | opcd/handler.c:869-986 | the same step by step: from a secure state exactly an endangering step leads to an insecure one |
| IpListStart.RunKeeps | opcd/handler.c:869-986 | when every customer-file and record write is refused or confirmed, an unreplaced customer file is the recorded one or will not be applied |
| IpListStart.CleanIsSafe | opcd/handler.c:869-986 | so such a run takes no endangering step |
| IpListStart.StartKeepsCommit | opcd/handler.c:903-962 | without an endangering step a start from any files a power loss may leave yields opcd's own list or the last published one, and a durable commit is never undone unless the customer replaced the file |
| IpListStart.ShownSurvivesIff | opcd/handler.c:869-883 | after any run, a saved list about to be shown survives iff it is shown durably, or no other list can come back, or the files left as they were kept it |
| IpListStart.CommitSurvivesIff | opcd/store_async.c:86-93 | after any clean run, a durable commit survives every power loss iff it was not the case that its copy replaced another list in the customer file unsynced while the record went through |
| IpListStart.NextCommitSurvivesIff | opcd/handler.c:879-882 | after any clean run, a commit whose copy fails survives iff the record of the list shown before it was confirmed, or held it already, or the list is the same |
| IpListStart.LostRecordUndoesCommit | opcd/handler.c:879-882 | a concrete run: a failed record followed by a failed copy lets a restart bring an older list back |
| IpListStart.Handler.WriteUser | opcd/handler.c:869-883 | the copy, and its record once it shows, as steps of the model |
| IpListStart.Handler.Start | opcd/handler.c:903-962 | the whole start-up: choice, list in effect, and every write as a step |
| RadioTxn.AgreeIsEquivalence | opcd/handler.c:1781-1790 | agreement up to the ignored second interface is an equivalence |
| RadioTxn.DiffersIff | opcd/handler.c:1769-1790 | two requests are taken for the same iff station type and every field of the first interface are equal, and for a dual station also priority channel and second interface |
| RadioTxn.NextKeeps | opcd/handler.c:1938-2077 | every step of the transaction, the revert, a restart and a power loss keep the invariant |
| RadioTxn.CommittedBootIsLive | opcd/handler.c:522-540 | after a power loss at any point of any run, a configuration taken as committed is the one the radio has, and it is stored for good |
| RadioTxn.CommittedRestartIsLive | opcd/handler.c:522-540 | the same for a restart of the process alone |
| RadioTxn.OkMeansLiveAndStored | opcd/handler.c:1938-2036 | OK, on the shortcut or after a write, is answered only when radio and durably stored file have, field by field, what the request asked for |
| RadioTxn.FailureChangesNothing | opcd/handler.c:1817-1830 | after a failed apply, or a write that left the file as it was, a successful revert restores configuration, commitment, file and radio |
| RadioTxn.SuccessCommits | opcd/handler.c:1972-2036 | a transaction in which nothing fails ends with the requested configuration committed, live and stored, and without its marker |
| RadioTxn.UnknownBaselineDegrades | opcd/handler.c:1792-1830 | without a configuration known to be applied and usable nothing is reverted and the daemon no longer vouches for what it has |
| RadioTxn.ConfirmedStaysCommitted | opcd/handler.c:442-447 | once the marker of a confirmed configuration is removed, the next start takes it as committed |
| RadioTxn.IdleRadioIsExplained | opcd/handler.c:436-447 | between transactions a radio that differs from the stored configuration is always marked, durably |
| RadioTxn.Handler.SetRadioConfig | opcd/handler.c:1851-2036 | the handler's effect is a run of the model, so each of its crash points is covered; OK iff the committed configuration already grants the request or the whole transaction went through, no answer yet iff a write is outstanding, admission waits or the write was queued; after an OK radio and file have the request's fields |
| RadioTxn.Handler.Apply | opcd/handler.c:1972-2010 | apply, and the revert armed by a failed one |
| RadioTxn.Handler.Persist | opcd/handler.c:2011-2036 | submission failure, outstanding write or direct write |
| RadioTxn.Handler.Complete | opcd/handler.c:2491-2527 | OK iff durable, and then the confirming last step of the run, with radio and file holding the configuration field by field; an unchanged file reverts at once |
| RadioTxn.Handler.RevertDrain | opcd/handler.c:2045-2077 | a pending revert is carried out once and leaves the radio idle |
| EssidText.FindSsid | opcd/essid_marker.c:68-88 | counts the assignments and spans the first value |
| EssidText.TokenIsValue | opcd/essid_marker.c:68-88 | a value found is one line without trailing blanks |
| EssidText.ReplacedHolds | opcd/essid_marker.c:360-366 | after the edit there are as many assignments as before, the first in the same place |
| EssidText.ReplacedToken | opcd/essid_marker.c:360-366 | and its value is the one put there |
| EssidText.RestoreUndoesEdit | opcd/essid_marker.c:360-372 | putting the original value back gives the original text byte for byte, whatever was written in between |
| EssidMarker.MarkerRoundTrip | opcd/essid_marker.c:122-144 | every marker is read back as written |
| EssidMarker.MarkerLines | opcd/essid_marker.c:135-144 | the marker's lines: original first, slot and time, requested SSID and applied token under their own names |
| EssidMarker.HexText | opcd/essid_marker.c:259-264 | the requested SSID is recorded as two lower-case digits per byte, the high one first |
| EssidMarker.BodyFits | opcd/essid_marker.c:135-144 | no marker overruns the buffer it is composed in |
| EssidMarker.FindLine | opcd/essid_marker.c:103-120 | the line loop finds the first line of the key, with its two failures |
| EssidMarker.TokenIsSsid | opcd/essid_marker.c:180-198 | true iff the token decodes to the recorded bytes |
| EssidMarker.DenotesRequest | opcd/essid_marker.c:259-264 | for the recorded hexadecimal form that means: the token reads as the requested SSID |
| EssidChain.RestoredIff | opcd/essid_marker.c:237-377 | over every run of changes, helper installs and rollbacks, failures, crashes and restores, with any outcome of any write: the boot brings the first original back from every crash point iff the run takes no endangering step, each a condition on the files before it |
| EssidChain.RecoverableStep | opcd/essid_marker.c:237-377 | the same step by step: from a recoverable state exactly an endangering step leads to one that is not |
| EssidChain.NextKeeps | opcd/essid_marker.c:237-377 | with every directory synced, every step keeps: no marker means the original token, a marker carries the original and the token is the original or the chain's own |
| EssidChain.TrustedIsSafe | opcd/essid_marker.c:237-377 | so such a run takes no endangering step |
| EssidChain.BootRestoresOriginal | opcd/essid_marker.c:328-377 | after a power loss at any point of any run without an endangering step, the boot puts the first original back and removes the marker |
| EssidChain.NeverForeign | opcd/essid_marker.c:310-325 | with no other writer, settle never takes the token for somebody else's in any run, nor does the restore in a run without an endangering step |
| EssidChain.RestoreTouchesOnlyOwn | opcd/essid_marker.c:346-358 | a restore changes the configuration exactly when the token is the chain's own and not the original |
| EssidChain.ArmNeedsItsSync | opcd/essid_marker.c:38-63 | after any trusted run, arm and install leave the original safe iff arm's unreported directory sync succeeded or every marker that may be left identified the token already |
| EssidChain.InstallNeedsItsSync | opcd/platform_nxp.c:1423-1442 | after the helper's install and commit or settle it is safe iff the install was synced, the marker was not rewritten, or the token replaced was the original or the requested one |
| EssidChain.RollbackNeedsItsSync | opcd/platform_nxp.c:1435-1442 | after the helper's rollback and settle it is safe iff the rollback was synced, it took nothing back, or the marker stayed |
| EssidChain.RestoreNeedsItsSync | opcd/essid_marker.c:38-63 | after a restore at the end of any trusted run it is safe iff the configuration's directory sync succeeded or the marker stayed |
| EssidChain.SecondInstallLoses | opcd/platform_nxp.c:1435-1442 | a concrete run: the second change of a chain, stopped before its directory sync, loses the original |
| EssidFiles.Load | opcd/essid_marker.c:122-133 | parses a body by its lines |
| EssidFiles.Files.ConfToken | opcd/essid_marker.c:147-160 | the one value, if there is exactly one and it fits |
| EssidFiles.Files.Arm | opcd/essid_marker.c:237-268 | keeps the first original while the token is the chain's own, otherwise starts from the token; fails in exactly the listed cases |
| EssidFiles.Files.Commit | opcd/essid_marker.c:270-278 | records the token as applied |
| EssidFiles.Files.SettleFailed | opcd/essid_marker.c:290-326 | removes, keeps or completes the marker as the token found demands, with the return code of each case; an unreadable token leaves everything alone |
| EssidFiles.Files.RestoreOriginal | opcd/essid_marker.c:328-377 | puts the original into its line and changes no other byte: there is again exactly one assignment and its value is the stored original; otherwise leaves the text alone, with the return code of each case |
| FaultProbe.Measured | opcd/fault_probe.c:156-193 | a utilisation is unknown or at most 100 percent |
| FaultProbe.MeasuredRates | opcd/fault_probe.c:156-193 | for each resource when its utilisation is known, and then p percent of its own counter differences: p * whole <= 100 * part < (p + 1) * whole, and 100 when it is all or more |
| FaultProbe.ResetReadings | opcd/fault_probe.c:427-455 | a reset CPU or disk counter is a measured 0, a reset network counter is unknown |
| FaultProbe.MemoryUsed | opcd/fault_probe.c:103-129 | the saturating sum never lets usage go below zero |
| FaultProbe.CongestedIff | opcd/fault_probe.c:149-154 | over any samples and re-arms a resource is congested iff some measured sample reached the entry level and none since was below the release level; notified implies congested |
| FaultProbe.EntriesSeparated | opcd/fault_probe.c:458-496 | without a re-arm two reported entries are separated by a measured sample below the release level, and none is reported below it |
| FaultProbe.EntryIff | opcd/fault_probe.c:458-496 | an entry is reported iff a measured sample leaves the resource congested while no earlier entry is remembered: the first, the first after a release, the first after a re-arm |
| FaultProbe.ReleaseLevel | opcd/fault_probe.c:149-154 | a configured release level counts; 0 or one above the entry level means no band |
| FaultProbe.SamplesPaced | opcd/fault_probe.c:312-323 | at most one sample per interval and per tick, no burst after a stall, and every interval sampled with one-second ticks |
| FaultProbe.Probe.IsDue | opcd/fault_probe.c:312-323 | the countdown stays below the interval |
| FaultProbe.Probe.RearmLatch | opcd/fault_probe.c:325-337 | forgets that the entry was reported and nothing else |
| FaultProbe.Probe.Sample | opcd/fault_probe.c:392-513 | every resource steps by what was measured for it, and the readings become the next baseline |
| Indication.LatestWins | opcd/indication.c:114-155 | with any periods, information bits, send failures and reconfigurations: what is sent are changes that arrived, with their contents, in order and never twice, and what is staged is the newest of all |
| Indication.NewestSurvives | opcd/indication.c:294-307 | a change followed by boundaries only stays staged through every failed flush and is sent by the first that works; with period 0 it is sent on arrival or not at all |
| Indication.EntriesConserved | opcd/indication.c:188-242 | every congestion entry is sent, withdrawn because it cleared first, dropped by a new configuration or given back to the probe, exactly once; what is staged is still notified and congested |
| Indication.ReportsEntries | opcd/indication.c:188-242 | every report carries the percentage of the sample that entered, each entry is reported at most once and in order, and what is staged is the latest entry's |
| Indication.BoundaryReportsCongestion | opcd/indication.c:308-313 | a boundary reports a resource only while it is congested |
| Indication.BoundariesPaced | opcd/indication.c:283-290 | a tick crosses at most one boundary and the counter stays below the period |
| Indication.Indications.Configured | opcd/indication.c:157-165 | a new configuration forgets staged values and reported entries, not the congestion itself |
| Indication.Indications.Notify | opcd/indication.c:216-242 | stages, sends, re-arms or withdraws as the sample and the period demand |
| Indication.Indications.Tick | opcd/indication.c:268-313 | the boundary test, and the flush that keeps what could not be sent |
| ScanList.ChannelsRise | protocol/scan_chlist.c:18-41 | within a band channels rise with their bits |
| ScanList.TableIs | protocol/scan_chlist.c:18-41 | the channels of each band and the bits that carry them |
| ScanList.MaskIsShift | protocol/scan_chlist.c:86-90 | bit k of a byte counts from its least significant one |
| ScanList.SetsEnumerate | protocol/scan_chlist.c:86-96 | setting table channels in any order gives a valid list that enumerates exactly those, ascending |
| ScanList.RebuildsList | protocol/scan_chlist.c:118-174 | a valid list that names channels is rebuilt by setting the channels it enumerates |
| ScanList.NormalizeMoves | protocol/scan_chlist.c:105-116 | row-B bits move to row A unchanged, nothing else is set, and doing it again changes nothing |
| ScanList.DerivesLeast | protocol/scan_chlist.c:176-188 | the derived channel is the least the list names, with its centre frequency and band |
| ScanList.ListChannels | protocol/scan_chlist.c:141-174 | the enumeration loop |
| ScanList.SetInPlace | protocol/scan_chlist.c:43-96 | the table search and the byte update in place |
| JsonMember.CloseBody | opcd/devinfo_cfg.c:9-16 | a string literal ends at its own closing quote, past any escapes |
| JsonMember.NameIsKey | opcd/devinfo_cfg.c:20-24 | a name that matches up to a quote is the whole key |
| JsonMember.MemberIsLookup | opcd/devinfo_cfg.c:35-52 | for every object of any nesting, whitespace and escapes, the scanner finds a member iff the tree has one with that key at the top level, exactly at the first one's value in the text |
| JsonMember.QuoteInNameMisleads | opcd/devinfo_cfg.c:20-31 | names with a quote in them can be found where the tree has none |
| JsonMember.BackslashInNameMisleads | opcd/devinfo_cfg.c:20-31 | every name ending in a lone backslash can be found where the tree has none |
| JsonMember.SkipString | opcd/devinfo_cfg.c:9-16 | the escape-aware loop |
| JsonMember.AtKeyAt | opcd/devinfo_cfg.c:20-31 | the key test and where the value starts |
| JsonMember.FindMember | opcd/devinfo_cfg.c:35-52 | the depth-counting loop |

## Left out

- Sockets, the event loop's descriptors, signals, systemd, logging and wall-clock budgets: they appear as events and as success or failure of a send.
- Frame packing and unpacking (`protocol/commands.c`, `protocol/indications.c`): each pair copies fields at the same fixed offsets and keeps no state.
- The shell pipelines and drivers of `opcd/platform_nxp.c`: an apply succeeds, fails or leaves anything behind.
- Retransmission matching by request id and client address, and the login gate of the other handlers: requests that reach a model have passed them.
- The pre-text binary IP list, file-time comparison and the customer file that is not a regular file: a start is modelled after them.
- Conversion of Rev1.00 and row-B `radio.conf` files, and requests for a dual station, which the handler refuses.
- A configuration without a marker path, without a customer file or without a record file, and the daemon without a writer thread.
- Wrap-around of the session and radio generations and of the 64-bit counters of the probe.
- Documented open races of the SSID change (a helper that renames after settle, another writer between a successful helper and commit) and `disarm`, which the apply path does not use.
- Store.Target.WriteAtomicEx: file mode and ownership are reduced to one failing call.
- Persistence.NextKeeps: the bytes of the radio configuration are left to `RadioTxn`; here only its gate, generation and acknowledgement matter. The five paths are taken to be distinct.
- DeferredAcks.Handler.OnReady: the method runs without the worker stepping in between; interleavings are the subject of `PersistenceRuns`.
- SettingCells.PasswordRuns: the passwords written are taken to be ones the request checks let through, because `Persistence` does not look into a request.
- SettingCells.ListSteps: speaks of the daemon with its writer thread; a write done on the spot has no cell.
- EssidFiles.Files.Arm: texts are taken without NUL characters, and slot and time within their C types.
- JsonMember.MemberIsLookup: a name with an unescaped quote that no document can continue is also safe; which ones those are is not characterised.
- ScanList.SetsEnumerate: bits are tested on the bytes; the intermediate 32-bit row word of the code is not modelled.
