# A verified model of the print server's driver and of its upload path

The Teg print server drives 3D printers through a Marlin firmware and talks to a browser over a data channel. This
project models the parts of it in which state, order and bytes matter, and proves what they promise over all inputs
and all runs.

## What is modelled

**The Marlin driver.** Events go in, effects come out, and a queue of tasks is fed to the firmware one acknowledged
line at a time, interrupted by polling, override tasks, host macros, pauses, emergency stops and reconnects.
`DriverTypes` has its vocabulary and `DriverSpec` what it computes, as functions. `Driver` is the driver as it is
written: objects whose methods update their fields, with three mutually recursive despooling methods; it is proved to
compute those functions for every event and every run. `DriverRuns` defines runs, sessions (a stay in Ready) and the
readings of a trace. The theorems about runs:

- what is written: `LineText` (which text of a line counts), `WrittenLines` (why every line was written), `Agenda`
  (what comes next, without tasks), `SessionInvariant` and `SessionTheorems` (conservation, numbers, discipline),
  `MainOrder`, `FlowControl`, `LinesDue`, `Polls`;
- what is reported: `TaskReports`, `LeavingReady` (why Ready ends), `Reports`;
- timers and the port: `Reactor`, `Watching` (lines that get no ok), `Connection`, `EmergencyStop`;
- prints: `Spooling`, `PauseResume`; and `ExampleRuns`, on which natural claims fail.

**The SaltyRTC chunks**, with this repository's file bit, in the unordered mode that is in use. `ChunkFormat` has the
bytes and `WireFormat` what they look like from outside. Browser to server: `ChunkSender`, `ChunkDecoder`,
`UploadRoundTrip`. Server to browser: `ChunkEncoder`, `BrowserDechunker`, `DownloadRoundTrip`. `Assembly` says,
without bytes, what reassembly ought to do; both decoders are proved to do exactly that. `Scheduler` is the browser's
outgoing queue, `UploadPath` composes it with the upload, and `FilePointers` and `FileRequests` are the replacement of
files in request variables.

**Two algorithms.** `PartPositions` moves parts in the print queue and `Macros` compiles the macros of a print.

`Wrappers` has the two failure-carrying datatypes. Every lemma is proved without automatic induction: the inductions
are written out.

## How to read the driver theorems

`After(cfg, events)` is the driver after any list of events, `SessionTrace` the effects of the current session and
`RunTrace` those of the whole run. Each queue entry has a `key` that the original does not have: it tells apart tasks
that share an id. Serial lines carry an `Origin` label, and the effect `RanHostMacro` marks where a host macro was
executed; a progress record holds the `key` it was last recorded for. No operation reads these. `Config` holds what
the driver consults but never changes, among it the gcode and JSON parsers as uninterpreted functions, and a position
report says outright whether the awaited mark has been reached.

## Where the natural claim is false

- Payloads of one byte are rejected by the server's decoder, and empty sections vanish: `UploadRoundTrip.SoundExactly`
  says exactly which messages can arrive.
- A reached mark makes the driver send a line before the ok of the poll arrives: `ExampleRuns.MarksRunAhead` is a run
  two lines ahead of its oks, and `LinesDue.AheadExactly` says of every event whether it runs ahead. Over a session
  flow control counts the marks reached while an ok was awaited (`FlowControl.AtMostOneLineInFlight`).
- An auto-report capability that arrives while no ok is awaited queues a task and does not start it; nothing else can
  leave the driver idle with work (`FlowControl.ReadyFlow`).
- The driver counts despooled gcodes but skips raw lines, so comments make a resumed print repeat gcodes:
  `ExampleRuns.CommentsMakeLinesRepeat` is such a run, and `PauseResume.AtMostOneLineTwice` says for which files and
  resume numbers at most one gcode is repeated.
- A written line is not always followed up: a report that is no ok stops the timer even if it let a line out
  (`Watching.ReportsAreNotFollowedUp`), and so does an ok that overtakes a line let out by the mark it came with
  (`ExampleRuns.LastLineIsNotFollowedUp`). `Watching.EveryLineIsFollowedUp` has the exact condition.
- The tickle attempts are counted over a whole session and oks do not reset them (`Watching.AttemptsAreCounted`).
- A comment in `crates/marlin/src/state_machine/mod.rs:374-376` says that the set baud rate is tried first; the code
  tries it last (`Connection.RatesAreTriedInTurn`), and the model follows the code.
- A session that begins while the printer is paused for its user is never announced as ready
  (`Connection.StatusFollowsState`).
- An ok after an accepted resend request makes the driver panic, since the line to resend is never remembered:
  `FlowControl.PanicsExactly`.
- The comment in `crates/protobufs/protos/ServerMessage.proto` says that override tasks do not set the despooled line
  number; the code sets it for every task (`ready_state.rs:631-635`) and reports it (`TaskReports.PushLookup`), and the
  model follows the code.
- A connection timeout that was already on its way when it was cancelled puts a Ready driver in error
  (`Reactor.LateTimeoutIsFatal`); a timer that is still armed never does (`Reactor.TimersNeverSurprise`).
- The round robin never serves the newest of several lists (`Scheduler.NewestGoesLast`).
- A string in the variables that looks like a file pointer cannot be sent as a string (`FilePointers.RequestsRoundTrip`).
- A target outside the queue leaves positions that are not 0, 1, ... (`PartPositions.MoveIsReinsert`).
- A macro that expands to a gcode with a line break makes the line total too small (`Macros.TotalIsLinesWhenSingle`).

## Model

| member | source | states |
|---|---|---|
| SessionTheorems.NoLineLostOrRepeated | crates/marlin/src/state_machine/ready_state.rs:608-669 | In every reachable Ready state, for every queued task, what was despooled of it in this session followed by what its cursor will still yield is exactly what the lines it was admitted with stand for, in order (a line beginning with ! itself, any other its text up to the first ; unless that is blank), whatever preempted it; its line number counts exactly the despooled ones |
| SessionTheorems.AcceptedTasksRunToTheEnd | crates/marlin/src/state_machine/ready_state.rs:656-669 | A submission accepted in this session and not paused is still queued as it was submitted, or everything its lines stand for has been despooled, in order |
| SessionInvariant.FinishedIsComplete | crates/marlin/src/state_machine/ready_state.rs:656-666 | The turn of a front task reports it finished and drops it exactly when everything it was admitted with has been despooled, and otherwise reports it started and keeps it |
| SessionTheorems.LineNumbersHaveNoGaps | crates/marlin/src/state_machine/ready_state.rs:583-606 | Across despooling, polling, fallback, tickles, errors and reconnects, the numbered lines of a session are exactly 1, 2, 3, ..., all checksummed, and the next number is one more than the count sent |
| SessionTheorems.QueueStaysDisciplined | crates/marlin/src/state_machine/ready_state.rs:238-247 | In every reachable Ready state overrides precede non-overrides, each class is in order of arrival, and among non-overrides only the first can have started |
| MainOrder.MainTasksNeverInterleave | crates/marlin/src/state_machine/ready_state.rs:238-247 | Over a whole run, sessions and reconnects included, the gcodes of non-override tasks come out task by task in order of arrival |
| SessionTheorems.PollingIsBounded | crates/marlin/src/state_machine/ready_state.rs:743-784 | After E poll requests and W mark waits in a session at most 2 + 2E + W polling lines have been sent |
| SessionTheorems.SilentOutsideReady | crates/marlin/src/state_machine/mod.rs:258-351 | A step that does not end in Ready writes no numbered line and no line of a task |
| SessionTheorems.EverySession | crates/marlin/src/state_machine/ready_state.rs:131-392 | The invariant behind the theorems of this table holds after every event sequence |
| SessionTheorems.StayReady | crates/marlin/src/state_machine/ready_state.rs:131-392 | Every event a Ready driver survives preserves the invariant |
| SessionTheorems.EnterReady | crates/marlin/src/state_machine/mod.rs:429-445 | The first ok begins a session in which the invariant holds, with fresh queue-entry identities |
| SessionTheorems.ReadyIsReachable | crates/marlin/src/state_machine/mod.rs:429-445 | Finding a port and hearing an ok leads to Ready, with the firmware query queued and exactly one line sent, the temperature poll under number 1 |
| FlowControl.DespoolEnds | crates/marlin/src/state_machine/ready_state.rs:583-741 | The mutually recursive despooling functions end either awaiting the ok of exactly one new numbered line, or with none sent and the queue empty or a mark to wait for; that they always end is the decreasing measure of lines plus entries in DriverSpec.Finish and in the methods of Driver.ReadyState |
| FlowControl.AtMostOneLineInFlight | crates/marlin/src/state_machine/ready_state.rs:531-606 | In every session, the numbered lines sent exceed the oks received since the transition ok, plus the awaited marks reached while an ok was awaited, by at most one, and not at all when no ok is awaited |
| FlowControl.OneLinePerOk | crates/marlin/src/state_machine/ready_state.rs:531-606 | Without host macros the same holds with the oks alone, and each event sends at most one numbered line |
| FlowControl.FewLinesPerEvent | crates/marlin/src/state_machine/ready_state.rs:516-522 | Each event sends at most one numbered line, and at most one more when it reports the awaited mark |
| FlowControl.NoMarksWithoutMacros | crates/marlin/src/state_machine/ready_state.rs:697-738 | A session that has despooled no host macro has reached no mark, early or at its last event |
| FlowControl.ReadyFlow | crates/marlin/src/state_machine/ready_state.rs:303-321 | For one event, exactly: a driver that is not idle with work stays so if and only if the event is not an auto-report capability arriving while no ok is awaited and no mark is pending |
| FlowControl.NeverIdleWithWork | crates/marlin/src/state_machine/ready_state.rs:249-265 | In every session without such a capability report, a Ready driver that awaits no ok has an empty queue or a mark pending |
| FlowControl.PanicsExactly | crates/marlin/src/state_machine/ready_state.rs:541-560 | In every run a step makes the driver panic if and only if an ok is handled while a resend is expected, with no feedback in it that changes the expectation |
| LinesDue.AheadExactly | crates/marlin/src/state_machine/ready_state.rs:516-522 | In every run, an event sends more numbered lines than its ok or the lack of an awaited ok allows for, if and only if it reports the awaited mark while an ok is awaited and there is a line due, or two if the report comes with the ok |
| LinesDue.DespoolSpends | crates/marlin/src/state_machine/ready_state.rs:583-741 | Despooling sends exactly one of the lines due (fallback, polls, gcodes up to the next wait) if there are any |
| LinesDue.EnoughOksEmptyTheQueue | crates/marlin/src/state_machine/ready_state.rs:531-606 | Progress: with no further submissions and no host macros queued, each ok sends one due line, and one ok more than there are lines due leaves the queue empty |
| LinesDue.EnoughOksPrintEverything | crates/marlin/src/state_machine/ready_state.rs:531-606 | So everything accepted in the session and not paused has then been despooled in full |
| LinesDue.DueIsBounded | crates/marlin/src/state_machine/ready_state.rs:743-784 | The lines due are the queued gcodes and at most two polls |
| ExampleRuns.MarksRunAhead | crates/marlin/src/state_machine/ready_state.rs:516-522 | A run of seven events after which six numbered lines were sent on four oks |
| TaskReports.NoAcceptedTaskVanishes | crates/marlin/src/state_machine/context.rs:139-170 | After every run, the last acceptance of every client task id while Ready is queued, or that acceptance itself, and no earlier one of the id, has been reported finished, paused, cancelled or errored, or its history was deleted, or the id was used for two queued tasks at once |
| TaskReports.StepKeeps | crates/marlin/src/state_machine/mod.rs:84-114 | Every single event, in every state, keeps that |
| TaskReports.PushLookup | crates/marlin/src/state_machine/context.rs:139-170 | Recording the progress of a task changes what is known of that task id and of no other; the driver's own tasks leave no record |
| TaskReports.WithoutLookup | crates/marlin/src/state_machine/context.rs:112-116 | Deleting the history of some ids forgets exactly those |
| LineText.CleanStands | crates/marlin/src/state_machine/task.rs:18-40 | What the driver makes of a raw line is what the line stands for: itself if it begins with !, otherwise the part before its first ;, unless the gcode parser finds that blank |
| LineText.GcodesArePicked | crates/marlin/src/state_machine/task.rs:18-40 | The gcodes of a list of lines are what lines at increasing positions stand for, and the other lines stand for nothing |
| WrittenLines.EveryLineSaysWhy | crates/marlin/src/state_machine/ready_state.rs:637-651 | Over a whole run, every serial line is explained: a task line is what a line of its own submission stands for, numbered and checksummed; polls are M105 or M114, the fallback M400, tickles an unnumbered M105, the handshake M110 N0; nothing else is written |
| WrittenLines.EveryMacroIsALine | crates/marlin/src/state_machine/ready_state.rs:688-697 | Every host macro carried out is a line of its submission that begins with ! |
| WrittenLines.QueuedAsAdmitted | crates/marlin/src/state_machine/ready_state.rs:161-170 | A queued task is what was admitted under its identity |
| Agenda.DespoolFollowsAgenda | crates/marlin/src/state_machine/ready_state.rs:583-784 | The despooling functions, task by task, do what a machine without tasks does on the list of queued gcodes: fallback, polls, then gcodes, marks and waits; they send the line it says under the next number and leave what it leaves, or fail as it does |
| Agenda.OksFollowTheAgenda | crates/marlin/src/state_machine/ready_state.rs:531-581 | In every run an awaited ok sends exactly the line that is next on that agenda, or nothing when there is none, or ends in error when a host macro fails |
| LeavingReady.ReadyEndsExactly | crates/marlin/src/state_machine/ready_state.rs:271-391 | In every run a Ready driver ends in error if and only if one of the listed causes holds of event and state, with the message of that cause, disconnected or stopped exactly when the port is lost or a stop asked for; nothing is written then and no timer stays armed |
| LeavingReady.QueuedTasksAreTold | crates/marlin/src/state_machine/mod.rs:84-114 | For every client task id that is queued and every event: still queued, finished, or paused on request while Ready; cancelled after a stop; errored after a disconnection or an error, but for a task finished in the same event |
| Reports.OutsideReadyEndsExactly | crates/marlin/src/state_machine/mod.rs:258-351 | The same for a driver that is not Ready: exactly when it ends in error and with what message, becomes Ready, begins and stops to connect, and is stopped |
| Reports.HandshakeIsWritten | crates/marlin/src/state_machine/mod.rs:447-478 | While connecting, the opened port, a greeting and a retry are answered with the handshake and change nothing |
| Reports.EndsAreAnnounced | crates/marlin/src/state_machine/context.rs:118-137 | Whenever a task id comes to be on record as finished, paused, cancelled or errored, the clients are sent the record by the same event |
| Reports.StartsAreAnnounced | crates/marlin/src/state_machine/ready_state.rs:617-624 | Despooling that takes the first gcode of a task sends the record too |
| Reports.ExitsWhenIdle | crates/marlin/src/state_machine/ready_state.rs:668-682 | While Ready the process is ended only with nothing left to print and when that is waited for, and always when an ok then finds nothing to do or the last task is paused |
| Reports.ExitsOnRequest | crates/marlin/src/state_machine/mod.rs:226-252 | The process is ended at once exactly on a reset, or on a reset when idle with nothing queued, which is remembered otherwise; exactly connecting clients are greeted |
| Reports.PausesRaiseTheFlag | crates/marlin/src/state_machine/context.rs:126-129 | The paused flag is raised exactly by pausing a queued task |
| Reports.UserPausesSkipAnOk | crates/marlin/src/state_machine/ready_state.rs:400-403 | After a report that the printer is paused for its user the next ok sends nothing and the one after it counts again |
| Watching.EveryLineIsFollowedUp | crates/marlin/src/state_machine/send_serial.rs:46-61 | In every run, after an event that wrote a line and is not a mere report, the tickle timer runs with the timeout of the last line written, if and only if that line does not block and no ok has overtaken it |
| Watching.ReportsAreNotFollowedUp | crates/marlin/src/state_machine/ready_state.rs:344-357 | After a report that is no ok the tickle timer is stopped, even if the report let a line out |
| Watching.TimerIsArmed | crates/marlin/src/state_machine/effect.rs:84-118 | That timer is the one the reactor has armed, and it fires the tickle |
| Watching.TicklesRunOut | crates/marlin/src/state_machine/ready_state.rs:786-821 | In vain a Ready driver tickles with the same line as often as it has attempts left, and with the next tickle is in error and stays so |
| Watching.AttemptsAreCounted | crates/marlin/src/state_machine/ready_state.rs:786-821 | In every session the attempts counted are the tickle lines written in it, however many oks came in between, and never more than allowed |
| ExampleRuns.LastLineIsNotFollowedUp | crates/marlin/src/state_machine/ready_state.rs:516-522 | A run in which the last line was written, does not block, and no timer runs |
| Polls.TemperaturesStartPolling | crates/marlin/src/state_machine/ready_state.rs:404-435 | In every run a report of temperatures leaves the polling timer armed with the poll, started with the short interval while there is a mark and the configured one otherwise |
| Polls.RequestedPollsComeNext | crates/marlin/src/state_machine/ready_state.rs:370-385 | Once a poll was requested, the next numbered line of the run, whenever it is sent, is a poll, or the fallback for a mark and then a poll |
| Polls.ReportedTemperaturesAreNotPolled | crates/marlin/src/state_machine/ready_state.rs:743-755 | In every session the driver knows exactly the capabilities reported in it, and after that of reporting temperatures polls only positions |
| Polls.ReportsAreTurnedOn | crates/marlin/src/state_machine/ready_state.rs:303-315 | That report queues one task of the driver ahead of all others, with M155 S1 |
| Connection.PortFollowsState | crates/marlin/src/state_machine/mod.rs:354-419 | After every run a disconnected driver has closed its port, a connecting or Ready one has it open at the rate it records, and a stopped one at 19200 |
| Connection.RatesAreTriedInTurn | crates/marlin/src/state_machine/mod.rs:131-141 | A disconnected driver that discovers a device and hears nothing tries 115200, 250000, ... down to 9600 and then the configured rate, each once, and is then disconnected |
| Connection.StatusFollowsState | crates/marlin/src/state_machine/context.rs:84-110 | After every run the clients see the state of the driver and the message of its error, except that a session which began while the printer was paused for its user is shown as connecting |
| EmergencyStop.EstopSilencesTheSerialPort | crates/marlin/src/state_machine/mod.rs:209-225 | After an emergency stop in any reachable state nothing is written to the serial port until the driver was Disconnected and a device was discovered |
| EmergencyStop.EndedSessionsSendNoMore | crates/marlin/src/state_machine/mod.rs:84-92 | No gcode of a task that was queued when the driver left Ready is ever sent afterwards, in any later session |
| EmergencyStop.LaterSessionsAreFresh | crates/marlin/src/state_machine/mod.rs:429-445 | Every later session uses only queue-entry identities handed out after the earlier one ended |
| Spooling.FilesAreInline | crates/marlin/src/state_machine/ready_state.rs:161-190 | A request that names a file makes the driver ask for that file and no more; when it is answered with the fields of the effect, the driver does exactly what it does for the same request with the lines in it |
| Spooling.QueuedAsAsked | crates/marlin/src/state_machine/effect.rs:207-247 | Whatever happens before the answer and after it, the task queued under the identity handed out for a request is what the request asked for, with its start number |
| PauseResume.QueuedTaskIsInACycle | crates/marlin/src/state_machine/ready_state.rs:230-236 | For a start number within the file, what was despooled of a queued task is the gcodes of the raw lines between its start and its cursor, and its reported number counts them |
| PauseResume.StartsBeyondTheEnd | crates/marlin/src/state_machine/ready_state.rs:230-236 | For a start number at or beyond the end of the file nothing is left to send |
| PauseResume.PauseReportsTheCycle | crates/marlin/src/state_machine/ready_state.rs:192-221 | Pausing takes exactly that task off the queue and reports exactly how far it got |
| PauseResume.ReportStaysBehindCursor | crates/marlin/src/state_machine/ready_state.rs:631-635 | The reported number never exceeds the raw lines consumed |
| PauseResume.StartRoundTrips | crates/machine/src/machine/messages/spool_task.rs:79-81 | Resubmitting with the reported number plus one makes the driver skip the reported number of lines if and only if that is below 2^32, and fewer otherwise |
| PauseResume.NothingIsSkipped | crates/marlin/src/state_machine/ready_state.rs:230-236 | Over any number of pauses and resumes, the gcode of every raw line before the last cursor was sent in one of the cycles, in its place |
| PauseResume.RepeatsAreTheOverlaps | crates/marlin/src/state_machine/ready_state.rs:631-635 | On any file, a resumed cycle begins with the gcodes between its start and the earlier cursor, which the cycle before it ended with; leaving them out once, the two are the gcodes of the file |
| PauseResume.TotalIsFileAndOverlaps | crates/marlin/src/state_machine/ready_state.rs:631-635 | All gcodes sent, counted over all cycles, are those of the file up to the last cursor and the overlaps |
| PauseResume.OverlapsAreBlanks | crates/marlin/src/state_machine/ready_state.rs:631-635 | The overlaps are one gcode if the first cycle sent any, and one for every line before the last resume number that is no gcode |
| PauseResume.AtMostOneLineTwice | crates/marlin/src/state_machine/ready_state.rs:631-635 | At most one gcode is sent again if and only if all lines before the last resume number are gcodes (all but one, if the first cycle sent nothing); both are known before resubmitting |
| PauseResume.FinishedPrintsRepeat | crates/marlin/src/state_machine/ready_state.rs:631-635 | A print that was paused, resumed and finished has sent at most one gcode more than its file has if and only if the same holds of its lines |
| PauseResume.StaysAreCycles | crates/machine/src/machine/messages/spool_task.rs:79-81 | Runs of the driver, in each of which the file is requested, inline or by its path, with the number that the pause before recorded plus one, make a chain of such cycles |
| PauseResume.ResumedPrintsSkipNothing | crates/machine/src/machine/messages/spool_task.rs:79-81 | Over such runs no gcode before the last cursor is skipped |
| PauseResume.ResumedPrintsRepeat | crates/machine/src/machine/messages/spool_task.rs:79-81 | And exactly as much is despooled twice as OverlapsAreBlanks says |
| ExampleRuns.CommentsMakeLinesRepeat | crates/marlin/src/state_machine/ready_state.rs:631-635 | A run in which a file with one comment is submitted, printed, paused, requested again by its path, loaded and printed: both of its gcodes are despooled under both submissions |
| Reactor.Timers.Exec | crates/marlin/src/state_machine/effect.rs:84-118 | Arming a timer replaces the one with its key, and timers are cancelled by key or all at once |
| Reactor.Timers.ExecAll | crates/marlin/src/lib.rs:101-114 | The effects of an event are performed in order |
| Reactor.StepFits | crates/marlin/src/state_machine/mod.rs:166-352 | Every event in every state leaves only timers armed that the next state has a use for |
| Reactor.TimersFitTheState | crates/marlin/src/state_machine/effect.rs:84-118 | After every run no timer is armed outside Connecting and Ready, only tickle and poll while Ready, and while Connecting only the tickle and, always, the connection timeout |
| Reactor.TimersNeverSurprise | crates/marlin/src/state_machine/mod.rs:421-427 | A timer that fires while armed meets a state that handles it, and puts the driver in error exactly when it is the tickle and the attempts are used up |
| Reactor.LateTimeoutIsFatal | crates/marlin/src/state_machine/mod.rs:421-427 | A connection timeout delivered after it was cancelled puts the driver in error in every state but Connecting |
| Reactor.FlagIsAnnounced | crates/marlin/src/state_machine/effect.rs:205-206 | An event that raises the paused flag also sends the feedback, which clears it, so the flag is down between any two events |
| Driver.NextGCode | crates/marlin/src/state_machine/task.rs:18-40 | Yields what the first line that stands for anything stands for, a line beginning with ! uncut and any other its longest text without ; if that is not blank, and leaves the lines after it |
| Driver.SkipLines | crates/marlin/src/state_machine/ready_state.rs:232-236 | Skips the despooled lines of a resumed task, ending early on a short file |
| Driver.SendSerialLine | crates/marlin/src/state_machine/send_serial.rs:6-62 | Appends the line and arms the tickle timer, or cancels it for blocking codes |
| Driver.Context.HandleStateChange | crates/marlin/src/state_machine/context.rs:84-110 | Sets status and error as the state entered asks and keeps task progress |
| Driver.Context.PushTaskProgress | crates/marlin/src/state_machine/context.rs:139-170 | Updates the first record of the task id in place or appends one; nothing for the driver's own tasks |
| Driver.Context.PushAllProgress | crates/marlin/src/state_machine/disconnect.rs:13-19 | Reports on every queued task in queue order |
| Driver.Context.DeleteTaskHistory | crates/marlin/src/state_machine/context.rs:112-116 | Removes exactly the records of the given ids |
| Driver.ReadyState.DespoolNext | crates/marlin/src/state_machine/ready_state.rs:583-606 | Fallback before poll before task; the new state, context and effects are those of DriverSpec.DespoolAll |
| Driver.ReadyState.DespoolFrontTask | crates/marlin/src/state_machine/ready_state.rs:608-686 | Waits for a mark, idles on an empty queue, or serves the front task; as DriverSpec.DespoolTask |
| Driver.ReadyState.DespoolFromFront | crates/marlin/src/state_machine/ready_state.rs:616-670 | Sends, executes or finishes, as one turn of the front task followed by the rest of despooling |
| Driver.ReadyState.ExecuteHostGCode | crates/marlin/src/state_machine/ready_state.rs:688-741 | Sets a mark, or waits for the one set and polls the position, then despools on; an error if none is set or the text does not parse |
| Driver.ReadyState.PollForFeedback | crates/marlin/src/state_machine/ready_state.rs:743-784 | M105 then M114, or M114 alone with auto-report |
| Driver.ReadyState.ReceiveFeedbackReport | crates/marlin/src/state_machine/ready_state.rs:394-529 | What each kind of feedback changes, a reached mark despooling on at once |
| Driver.ReadyState.ReceiveAnOk | crates/marlin/src/state_machine/ready_state.rs:531-581 | What an ok does for each of the five expectations, with the failure of a resend that has nothing to send |
| Driver.ReadyState.LoadTask | crates/marlin/src/state_machine/ready_state.rs:230-266 | Skips, queues by class, and despools at once when no ok is awaited |
| Driver.ReadyState.SpoolPayload | crates/marlin/src/state_machine/ready_state.rs:140-191 | Inline tasks are loaded on the spot, files requested, missing content ignored |
| Driver.ReadyState.PauseById | crates/marlin/src/state_machine/ready_state.rs:192-221 | Removes and reports the first task with the id |
| Driver.ReadyState.ReceiveCapability | crates/marlin/src/state_machine/ready_state.rs:303-321 | Records an enabled capability, and puts an auto-report task ahead of the queue |
| Driver.ReadyState.ReceiveResendRequest | crates/marlin/src/state_machine/ready_state.rs:823-845 | Accepts only a request for the line just sent |
| Driver.ReadyState.TickleSerial | crates/marlin/src/state_machine/ready_state.rs:786-821 | An unnumbered M105 until the attempts are used up, then an error |
| Driver.ReadyState.ReceiveSerial | crates/marlin/src/state_machine/ready_state.rs:268-369 | Every response while Ready, as DriverSpec.ReadySerial |
| Driver.ReadyState.Consume | crates/marlin/src/state_machine/ready_state.rs:131-392 | Every event while Ready, as DriverSpec.ReadyConsume |
| Driver.EnterErrored | crates/marlin/src/state_machine/mod.rs:94-114 | Reports every queued task errored and cancels all delays |
| Driver.EnterDisconnected | crates/marlin/src/state_machine/disconnect.rs:10-35 | Reports every queued task errored, closes the port and cancels all delays |
| Driver.TryNextBaudRate | crates/marlin/src/state_machine/mod.rs:354-419 | Takes the last candidate, or disconnects when there is none |
| Driver.EnterReady | crates/marlin/src/state_machine/mod.rs:429-445 | A fresh Ready state handles the ok that made it |
| Driver.ReceiveWhileIdle | crates/marlin/src/state_machine/mod.rs:297-327 | Every response outside Ready |
| Driver.StopImmediately | crates/marlin/src/state_machine/mod.rs:209-225 | Cancels every queued task and reopens the port |
| Driver.ConsumeCommon | crates/marlin/src/state_machine/mod.rs:169-256 | The messages handled alike in every state |
| Driver.ConsumeEvent | crates/marlin/src/state_machine/mod.rs:166-352 | One event in any state is DriverSpec.Step, the step relation of all theorems about runs |
| Driver.RunDriver | crates/marlin/src/state_machine/mod.rs:166-352 | The objects, driven through any event sequence, end in the state and with the effects the theorems speak of |
| ChunkFormat.DecodeEncode | crates/data_channel/src/saltyrtc_chunk.rs:200-265 | The server reads back what was written if and only if the payload has at least two bytes, since the length test runs after the options byte was consumed; otherwise it returns an error |
| ChunkFormat.DecodeInBrowserEncode | frontend/teg-web-ui/src/webrtc/saltyRTCChunk.ts:356-380 | The browser reads back every chunk without a file start |
| ChunkFormat.BitFieldReads | crates/data_channel/src/saltyrtc_chunk.rs:36-50 | End bit, multipart bit and mode are read independently of one another |
| ChunkFormat.WordRoundTrip | frontend/teg-web-ui/src/webrtc/saltyRTCChunk.ts:91-99 | A 32 bit big-endian word reads back, higher bits lost |
| WireFormat.Layout | frontend/teg-web-ui/src/webrtc/saltyRTCChunk.ts:49-103 | Where everything is in a chunk: the bits of the options byte, the words by their place value, the payload to the end |
| WireFormat.AcceptsExactlyChunks | crates/data_channel/src/saltyrtc_chunk.rs:200-265 | The server accepts exactly the encodings of chunks with at least two bytes of payload, and ignores the upper half of the options byte |
| WireFormat.ServerChunksFit | crates/data_channel/src/saltyrtc_chunk.rs:372-400 | No chunk of the server is longer than 65535 bytes and all but the last of a message are exactly that long |
| WireFormat.BrowserChunksFit | frontend/teg-web-ui/src/webrtc/saltyRTCChunk.ts:105-133 | No chunk of the browser is longer than the maximum, and the full slices of a section make chunks of exactly that length |
| ChunkSender.SplitSlice | frontend/teg-web-ui/src/webrtc/saltyRTCChunk.ts:11-20 | The slicing loop computes the slices |
| ChunkSender.SlicesMakeUpSection | frontend/teg-web-ui/src/webrtc/saltyRTCChunk.ts:11-20 | Slices join to the section, none is empty or too long, and none has one byte if and only if the section leaves no remainder of one |
| ChunkSender.SplitSectionIntoChunks | frontend/teg-web-ui/src/webrtc/saltyRTCChunk.ts:118-144 | Numbers the slices from the serial offset and advances it; files carry their first serial |
| ChunkSender.SplitMessageIntoChunks | frontend/teg-web-ui/src/webrtc/saltyRTCChunk.ts:146-174 | Cuts payload and files, in order, into one sequence of chunks |
| ChunkSender.PlanIsNumbered | frontend/teg-web-ui/src/webrtc/saltyRTCChunk.ts:134-143 | Serials count up from 0 and the end mark is on the last chunk alone, or on none when the last section is empty |
| ChunkSender.PlanAt | frontend/teg-web-ui/src/webrtc/saltyRTCChunk.ts:131-143 | Which slice of which section every serial carries |
| ChunkDecoder.Decoder.DecodeSingleMessage | crates/data_channel/src/saltyrtc_chunk.rs:200-317 | One chunk updates the store of partial messages as ChunkDecoder.DecodeSingle |
| ChunkDecoder.Decoder.Insert | crates/data_channel/src/saltyrtc_chunk.rs:286-302 | Marks the serial, files the payload under its section and remembers the end |
| ChunkDecoder.Decoder.TakeMessage | crates/data_channel/src/saltyrtc_chunk.rs:320-348 | Removes the partial message and joins its sections in order of first serial |
| Assembly.DeliveredByLastMissingChunk | crates/data_channel/src/saltyrtc_chunk.rs:280-316 | In any stream a message that can be delivered is delivered by the arrival of its last missing chunk and not before |
| Assembly.UndeliverableIsNeverDelivered | crates/data_channel/src/saltyrtc_chunk.rs:304-314 | A message with a rejected chunk, without an end mark or without chunks is never delivered |
| Assembly.FullByCount | crates/data_channel/src/saltyrtc_chunk.rs:305-309 | Comparing the number of chunks with the final serial decides whether any is missing |
| UploadRoundTrip.StepRefines | crates/data_channel/src/saltyrtc_chunk.rs:200-317 | One chunk off the wire does to the decoder exactly what it does to an abstract receiver that remembers serials |
| UploadRoundTrip.StreamRefines | crates/data_channel/src/saltyrtc_chunk.rs:200-317 | So does every stream, with duplicates after completion starting afresh |
| UploadRoundTrip.JoinFrom | crates/data_channel/src/saltyrtc_chunk.rs:328-340 | Joining ordered maps of ordered maps gives back the non-empty sections in order |
| UploadRoundTrip.UploadsArriveIntact | crates/data_channel/src/saltyrtc_chunk.rs:200-348 | Browser to server: for any messages with files in flight under distinct ids and any interleaving, reordering and duplication of their chunks, nothing is returned for a sound message until its last missing chunk, and then exactly its payload and files |
| UploadRoundTrip.SoundExactly | crates/data_channel/src/saltyrtc_chunk.rs:231-236 | A message can arrive as sent if and only if no section is empty and none leaves a slice of one byte |
| UploadRoundTrip.OnlySoundArrive | crates/data_channel/src/saltyrtc_chunk.rs:231-236 | An unsound message is never delivered as sent, in any stream |
| UploadRoundTrip.OrderedModeKeepsTheLast | crates/data_channel/src/saltyrtc_chunk.rs:239-245 | In the ordered mode, which is not in use, only the last slice of a message of any number of slices is delivered, so that it arrives intact if and only if it fits one chunk |
| ChunkEncoder.IdentifyFirstLast.Next | crates/data_channel/src/iter/identify_first_last.rs:14-21 | Flags the first and the last item and passes all on in order |
| ChunkEncoder.Encoder.EncodeSingleMessage | crates/data_channel/src/saltyrtc_chunk.rs:372-404 | Encodes the numbered slices under the next id |
| BrowserDechunker.Dechunker.ProcessEvent | frontend/teg-web-ui/src/webrtc/saltyRTCChunk.ts:356-435 | One chunk updates the sparse array of its message as BrowserDechunker.Process |
| DownloadRoundTrip.OnlyTheLastEnds | crates/data_channel/src/saltyrtc_chunk.rs:383-399 | Of the encoder's chunks only the highest serial carries the end bit |
| DownloadRoundTrip.StepRefines | frontend/teg-web-ui/src/webrtc/saltyRTCChunk.ts:356-435 | One chunk off the wire does to the dechunker exactly what it does to the abstract receiver |
| DownloadRoundTrip.StreamRefines | frontend/teg-web-ui/src/webrtc/saltyRTCChunk.ts:356-435 | So does every stream |
| DownloadRoundTrip.DownloadsArriveIntact | crates/data_channel/src/saltyrtc_chunk.rs:372-404 | Server to browser: in any stream of the encoder's chunks nothing is returned for a message until its last missing chunk, and then exactly its bytes |
| DownloadRoundTrip.OrderedDownloadsArrive | crates/data_channel/src/saltyrtc_chunk.rs:372-405 | In the ordered mode a message arrives intact in the browser at its last chunk, nothing before, and nothing is kept |
| Scheduler.Outgoing.SendNextChunks | frontend/teg-web-ui/src/webrtc/saltyRTCChunk.ts:198-234 | The sending loop computes Scheduler.Drain and ends for every finite script of messages queued while it waits |
| Scheduler.Outgoing.SendNext | frontend/teg-web-ui/src/webrtc/saltyRTCChunk.ts:208-232 | One iteration: the index is in range, a chunk is shifted and sent or an empty list removed |
| Scheduler.Outgoing.Send | frontend/teg-web-ui/src/webrtc/saltyRTCChunk.ts:324-333 | Queues a message and starts the loop exactly when nothing was queued |
| Scheduler.EveryChunkOnceInOrder | frontend/teg-web-ui/src/webrtc/saltyRTCChunk.ts:198-234 | However messages are queued, everything queued is sent, each chunk once and each message's chunks in order |
| Scheduler.Index | frontend/teg-web-ui/src/webrtc/saltyRTCChunk.ts:209-211 | The round robin index is in range, and never that of the newest of several lists |
| Scheduler.OlderListsTakeTurns | frontend/teg-web-ui/src/webrtc/saltyRTCChunk.ts:208-211 | With nothing further queued, as many turns as there are older lists with chunks send the first chunk of each of them exactly once and leave the newest alone |
| Scheduler.NewcomersGoLast | frontend/teg-web-ui/src/webrtc/saltyRTCChunk.ts:322-325 | A message queued while the loop waits, and last of all, goes out after all others |
| Scheduler.NewestGoesLast | frontend/teg-web-ui/src/webrtc/saltyRTCChunk.ts:208-211 | With nothing further queued, the chunks of the list queued last go out after all others |
| UploadPath.EveryMessageArrivesOnce | frontend/teg-web-ui/src/webrtc/saltyRTCChunk.ts:198-234 | Sender and decoder together: whenever messages are queued and wherever the round robin stands, every chunk of a message that can arrive is sent, once, and the message is returned, complete and with its files, at its last chunk and only there |
| FilePointers.Link.NormalizeVariables | frontend/teg-web-ui/src/webrtc/WebRTCLink.ts:75-98 | Replaces the files of a tree by fresh pointers and registers them under those |
| FilePointers.Send.NormalizeVariables | frontend/teg-web-ui/src/webrtc/WebRTCSocket.ts:126-150 | Takes the files out of the shared map, renumbering their pointers, or throws on a pointer that is not there |
| FilePointers.RequestsRoundTrip | frontend/teg-web-ui/src/webrtc/WebRTCSocket.ts:119-169 | Linking and then sending can be inverted if and only if no string of the tree is a pointer already, and never leaves a file in the tree; then each file is listed once, in order, and the shared map is as before |
| FilePointers.OverlappingRequests | frontend/teg-web-ui/src/webrtc/WebRTCSocket.ts:127-139 | Two requests linked before either is sent can be sent in either order without exchanging files, and the shared map is then as before |
| FileRequests.AnyRequestsInAnyOrder | frontend/teg-web-ui/src/webrtc/WebRTCSocket.ts:127-139 | Any number of requests, linked one after the other, can be sent in any order: each gets its own files, and when all are sent the shared map is as before |
| FilePointers.RestoredIsClean | frontend/teg-web-ui/src/webrtc/WebRTCSocket.ts:127-139 | Whatever is sent, every pointer in it stands for a listed file |
| FilePointers.PointersAreDistinct | frontend/teg-web-ui/src/webrtc/WebRTCLink.ts:82-84 | Pointers with different numbers differ |
| PartPositions.SetPartPositions | crates/print-queue/src/mutations/set_part_positions_mutation.rs:75-113 | The nested in-place loops compute the moves in turn and collect the changed parts, or fail on an unknown part |
| PartPositions.Bump | crates/print-queue/src/mutations/set_part_positions_mutation.rs:90-103 | The inner loop shifts every position once and sets the moved part's |
| PartPositions.MovesKeepOrder | crates/print-queue/src/mutations/set_part_positions_mutation.rs:80-104 | For every list with distinct ids and positions and every sequence of moves, positions stay distinct and parts no move names keep their relative order |
| PartPositions.MoveIsReinsert | crates/print-queue/src/mutations/set_part_positions_mutation.rs:90-103 | On positions 0, 1, ... a move is the removal of the part and its reinsertion at the target, if the target is in range, and leaves positions that are no such list if it is not |
| PartPositions.MovesAreReinserts | crates/print-queue/src/mutations/set_part_positions_mutation.rs:80-104 | Any number of moves within the queue are those list moves in turn |
| PartPositions.FailsForUnknownParts | crates/print-queue/src/mutations/set_part_positions_mutation.rs:84-86 | The request fails if and only if a move names no part |
| PartPositions.ReturnsTheChanged | crates/print-queue/src/mutations/set_part_positions_mutation.rs:106-113 | Exactly the parts whose position changed are returned, each once |
| Macros.MacrosCompiler.Next | crates/macros/src/lib.rs:79-152 | Yields the head of the concatenated expansions, passing over empty ones, and ends only at the end of the print |
| Macros.CompiledMacros.Next | crates/macros/src/lib.rs:202-217 | Numbers annotations by the gcodes yielded so far |
| Macros.CompilePrintFile | crates/print-queue/src/insert_print.rs:283-336 | Fails if and only if some line does not compile; otherwise the file is, line by line and in order, the plain line, the rendered text or every gcode the macro was compiled to, the total their number summed over the lines, and the annotations exactly those the macros were compiled to, in order and numbered by the gcodes before them |
| Macros.PrintIsMade | crates/macros/src/lib.rs:79-152 | The iterator's stream is, in terms of the parser, the compiler and the renderer alone, what each line contributes, in order |
| Macros.CompilesLineByLine | crates/macros/src/lib.rs:92-150 | A print compiles if and only if every line was read and is a plain gcode, a macro that compiles or JSON that can be written; lines starting with an exclamation mark are refused |
| Macros.PlainPrintsAreCopied | crates/macros/src/lib.rs:139-142 | A print without macros or JSON is written out line by line as it was read, with no annotations |
| Macros.AnnotationsAreInPlace | crates/macros/src/lib.rs:202-217 | Each annotation's number is the number of gcodes that the file begins with before it; numbers never decrease and never exceed the total |
| Macros.TotalIsLinesWhenSingle | crates/print-queue/src/insert_print.rs:320-325 | The total equals the number of lines written if and only if no gcode contains a line break |

## Left out

- The 32 bit width of `next_serial_line_number`, the despooled line number and the tickle count: they are unbounded
  here, so the model does not see an overflow. The start number on the wire is truncated to 32 bits as in the source.
- Feedback values, axis targets, heaters and the floating point comparison behind a reached mark: a position report
  carries the two outcomes the driver acts on.
- The history of sent and received gcodes, the current hotend and the parsing of sent gcodes into feedback.
- The texts of error messages, beyond the cases that produce them.
- Performing effects other than timers (`crates/marlin/src/state_machine/effect.rs`): ports are opened and files loaded
  outside, and the theorems hold for every sequence of events that could come of it. Durations are not modelled.
- What happens after a panic: the model ends the run there.
- Tasks that an emergency stop finds still being loaded from a file: they arrive later as events like any other.
- Driver.Context.HandleStateChange: does not reset temperatures, axes and the current hotend, which the model does not
  have.
- Driver.ReadyState.ExecuteHostGCode: does not keep the axes of a mark; that a mark is set, or waited for, is all there is.
- Driver.ReadyState.ReceiveFeedbackReport: does not store temperatures and positions; whether all axes have reported and
  whether the mark is reached come with the event.
- The paused flag of the context, which no operation reads, is cleared by the reactor and not in `After`
  (`Reactor.FlagIsAnnounced`).
- The ordered mode of the chunk protocol in general: downloads arrive in it (`DownloadRoundTrip.OrderedDownloadsArrive`),
  uploads only if they fit one chunk (`UploadRoundTrip.OrderedModeKeepsTheLast`, for messages without files).
- The 32 bit width of message ids: the round trips ask for distinct ids below 2^32, and no more than 2^32 chunks.
- `decode_stream` and `encode_stream` as asynchronous streams, temporary files, timing, and the text decoding of a
  delivered download.
- The reading of files by the `FileReader` fallback, during which a second sending loop could start; the order in
  which the browser relays messages whose chunks are decoded in parallel.
- The JSON text between link and socket: variables are trees on both sides.
- SQL, transactions and part records beyond id and position; 64 bit overflow of positions.
- Estimates read from the first hundred lines of a print, and the compilers of the individual macros.
- The uninterpreted parsers are total functions of their text; the gcode and response parsers themselves are not part
  of this model.
