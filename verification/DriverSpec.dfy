/**
 What the driver computes, as functions on values. The classes in Driver.dfy are proved to compute
 exactly these functions; the theorems about runs are lemmas about them.
 */
module DriverSpec {
  import opened Wrappers
  import opened DriverTypes

  // ---------------------------------------------------------------- a task's line cursor

  /** The text before the first ';'. */
  function BeforeSemicolon(line: string): string {
    if line == [] || line[0] == ';' then [] else [line[0]] + BeforeSemicolon(line[1..])
  }

  predicate IsHostMacro(line: string) {
    line != [] && line[0] == '!'
  }

  /** The gcode a raw line stands for, if any. */
  function Clean(cfg: Config, line: string): Option<string> {
    if IsHostMacro(line) then Some(line)
    else if cfg.isBlank(BeforeSemicolon(line)) then None
    else Some(BeforeSemicolon(line))
  }

  /** All gcodes of a list of raw lines, in order. */
  function Gcodes(cfg: Config, lines: seq<string>): seq<string> {
    if lines == [] then []
    else match Clean(cfg, lines[0])
      case Some(g) => [g] + Gcodes(cfg, lines[1..])
      case None => Gcodes(cfg, lines[1..])
  }

  /** How many leading lines yield nothing. */
  function BlankPrefix(cfg: Config, lines: seq<string>): (n: nat)
    ensures n <= |lines|
    ensures n < |lines| ==> Clean(cfg, lines[n]).Some?
    ensures forall i :: 0 <= i < n ==> Clean(cfg, lines[i]).None?
  {
    if lines == [] || Clean(cfg, lines[0]).Some? then 0 else 1 + BlankPrefix(cfg, lines[1..])
  }

  /** Lines not yet consumed, plus one for each queue entry. */
  function Work(tasks: seq<Task>): nat {
    if tasks == [] then 0 else |tasks[0].lines| + 1 + Work(tasks[1..])
  }

  // ---------------------------------------------------------------- context

  function StatusOf(state: State, current: Status): Status {
    match state
    case Disconnected => StatusDisconnected
    case Connecting(_) => StatusConnecting
    case InReady(_) => StatusReady
    case Errored(_) => StatusErrored
    case EStopped => StatusEStopped
    case Panicked => current
  }

  function StateChanged(ctx: Ctx, state: State): Ctx {
    ctx.(status := StatusOf(state, ctx.status),
         error := if state.Errored? then Some(state.message) else None)
  }

  /** Index of the first entry for a task id, or the length when there is none. */
  function FindProgress(progress: seq<Progress>, id: string): (i: nat)
    ensures i <= |progress|
    ensures i < |progress| ==> progress[i].taskId == id
    ensures forall j :: 0 <= j < i ==> progress[j].taskId != id
  {
    if progress == [] || progress[0].taskId == id then 0 else 1 + FindProgress(progress[1..], id)
  }

  function PushProgress(ctx: Ctx, task: Task, status: TaskStatus): (ctx': Ctx)
    ensures ctx' == ctx.(progress := ctx'.progress)
  {
    if task.clientId == INTERNAL then ctx
    else
      var i := FindProgress(ctx.progress, task.id);
      var entry := Progress(task.id, task.despooled.GetOr(0), status, task.key);
      ctx.(progress := if i < |ctx.progress| then ctx.progress[i := entry] else ctx.progress + [entry])
  }

  function PushAll(ctx: Ctx, tasks: seq<Task>, status: TaskStatus): (ctx': Ctx)
    ensures ctx' == ctx.(progress := ctx'.progress)
    decreases |tasks|
  {
    if tasks == [] then ctx else PushAll(PushProgress(ctx, tasks[0], status), tasks[1..], status)
  }

  function WithoutIds(progress: seq<Progress>, ids: seq<string>): seq<Progress> {
    if progress == [] then []
    else (if progress[0].taskId in ids then [] else [progress[0]]) + WithoutIds(progress[1..], ids)
  }

  // ---------------------------------------------------------------- serial lines

  function SendLine(cfg: Config, line: GCodeLine, origin: Origin): seq<Effect> {
    [SendSerial(line, origin),
     if cfg.isBlocking(line.gcode) then CancelDelay(TICKLE_DELAY)
     else Delay(TICKLE_DELAY, cfg.timeout(line.gcode), TickleSerialPort)]
  }

  /** Writes the next numbered line and leaves the driver awaiting its ok. */
  function SendNumbered(cfg: Config, r: Ready, gcode: string, origin: Origin): (Ready, seq<Effect>) {
    (r.(onOk := Despool, nextLine := r.nextLine + 1),
     SendLine(cfg, GCodeLine(gcode, Some(r.nextLine), true), origin))
  }

  /** Temperature polls turn into position polls when the firmware reports temperatures itself. */
  function EffectivePoll(r: Ready, pollFor: Polling): Polling {
    if pollFor == PollTemperature && AUTOREPORT in r.capabilities then PollPosition else pollFor
  }

  function Poll(cfg: Config, r: Ready, pollFor: Polling): (Ready, seq<Effect>) {
    var p := EffectivePoll(r, pollFor);
    SendNumbered(cfg,
                 r.(awaitingPollingFeedback := true, pollFor := if p == PollTemperature then Some(PollPosition) else None),
                 if p == PollTemperature then "M105" else "M114",
                 Origin.Poll)
  }

  // ---------------------------------------------------------------- despooling

  /**
   One turn of the despool loop: it either settles what the driver does until the next event, fails,
   or consumes some of the queue and has to go round again.
   */
  datatype Turn =
    | Settled(r: Ready, ctx: Ctx, fx: seq<Effect>)
    | Again(r: Ready, ctx: Ctx, fx: seq<Effect>)
    | Failed(r: Ready, ctx: Ctx, message: string)

  /** The front task finished: report it and drop it. */
  function FinishFront(r: Ready, ctx: Ctx): (turn: Turn)
    requires r.tasks != []
  {
    Again(r.(tasks := r.tasks[1..]), PushProgress(ctx, r.tasks[0], Finished), [SendFeedbackProtobuf])
  }

  /** The front task after its next gcode, found at line `n`, has been taken. */
  function AfterTaking(task: Task, n: nat): Task
    requires n < |task.lines|
  {
    task.(lines := task.lines[n + 1..],
          started := true,
          despooled := Some(match task.despooled case Some(d) => d + 1 case None => 0))
  }

  function RunHost(cfg: Config, r: Ready, ctx: Ctx, task: Task, gcode: string, fx: seq<Effect>): (turn: Turn)
    requires IsHostMacro(gcode)
    ensures turn.r.tasks == r.tasks && turn.ctx == ctx && turn.r.nextLine == r.nextLine && !turn.Settled?
  {
    match cfg.parseHost(gcode[1..])
    case None => Failed(r, ctx, "invalid host macro")
    case Some(macro) =>
      var ran := fx + [RanHostMacro(task.key, task.machineOverride, gcode, macro)];
      match macro
      case MarkTargetPosition => Again(r.(mark := Some(MarkSet)), ctx, ran)
      case WaitToReachMark =>
        if r.mark == Some(MarkSet)
        then Again(r.(mark := Some(WaitingToReachMark), pollFor := Some(PollPosition)), ctx, ran)
        else Failed(r, ctx, "Cannot wait to reach mark if mark is not set")
  }

  function TakeFront(cfg: Config, r: Ready, ctx: Ctx, n: nat): (turn: Turn)
    requires r.tasks != [] && n < |r.tasks[0].lines| && Clean(cfg, r.tasks[0].lines[n]).Some?
    ensures turn.r.tasks == [AfterTaking(r.tasks[0], n)] + r.tasks[1..]
    ensures turn.ctx == PushProgress(ctx, AfterTaking(r.tasks[0], n), Started)
  {
    var before := r.tasks[0];
    var gcode := Clean(cfg, before.lines[n]).value;
    var task := AfterTaking(before, n);
    var r1 := r.(tasks := [task] + r.tasks[1..]);
    var ctx1 := PushProgress(ctx, task, Started);
    var fx1 := if before.started then [] else [SendFeedbackProtobuf];
    if IsHostMacro(gcode) then RunHost(cfg, r1, ctx1, task, gcode, fx1)
    else
      var (r2, fx2) := SendNumbered(cfg, r1, gcode, FromTask(task.key, task.machineOverride));
      Settled(r2, ctx1, fx1 + fx2)
  }

  /** What the front task does; `r` no longer awaits polling feedback. */
  function FrontTurn(cfg: Config, r: Ready, ctx: Ctx): (turn: Turn)
    requires r.tasks != []
    ensures turn.Again? ==> Work(turn.r.tasks) < Work(r.tasks)
    ensures turn.ctx == ctx.(progress := turn.ctx.progress)
  {
    var n := BlankPrefix(cfg, r.tasks[0].lines);
    if n == |r.tasks[0].lines| then FinishFront(r, ctx)
    else
      WorkOfTail(r.tasks, [AfterTaking(r.tasks[0], n)] + r.tasks[1..]);
      TakeFront(cfg, r, ctx, n)
  }

  lemma {:induction false} WorkOfTail(before: seq<Task>, after: seq<Task>)
    requires before != [] && after != [] && before[1..] == after[1..]
    requires |after[0].lines| < |before[0].lines|
    ensures Work(after) < Work(before)
  {
  }

  function TaskTurn(cfg: Config, r: Ready, ctx: Ctx): (turn: Turn)
    ensures turn.Again? ==> Work(turn.r.tasks) < Work(r.tasks)
    ensures turn.ctx == ctx.(progress := turn.ctx.progress)
  {
    var r1 := r.(awaitingPollingFeedback := false);
    if r.mark == Some(WaitingToReachMark) then Settled(r1.(onOk := NotAwaitingOk), ctx, [])
    else if r.tasks == [] then
      Settled(r1.(onOk := NotAwaitingOk), ctx,
              [CancelDelay(TICKLE_DELAY)] + (if ctx.resetWhenIdle then [ExitProcessAfterDelay] else []))
    else FrontTurn(cfg, r1, ctx)
  }

  function DespoolTurn(cfg: Config, r: Ready, ctx: Ctx): (turn: Turn)
    ensures turn.Again? ==> Work(turn.r.tasks) < Work(r.tasks)
    ensures turn.ctx == ctx.(progress := turn.ctx.progress)
  {
    if r.mark == Some(WaitingToSendFallbackGCode) then
      var (r1, fx) := SendNumbered(cfg, r.(mark := None), "M400", Fallback);
      Settled(r1, ctx, fx)
    else if r.pollFor.Some? then
      var (r1, fx) := Poll(cfg, r, r.pollFor.value);
      Settled(r1, ctx, fx)
    else TaskTurn(cfg, r, ctx)
  }

  /** The outcome of handling something while Ready: effects to perform, or an error to report. */
  datatype Out = Out(r: Ready, ctx: Ctx, fx: seq<Effect>, err: Option<string>)

  function Prepend(fx: seq<Effect>, out: Out): Out {
    out.(fx := fx + out.fx)
  }

  /** Go round until a turn settles or fails. */
  function Finish(cfg: Config, turn: Turn): (out: Out)
    ensures out.ctx == turn.ctx.(progress := out.ctx.progress)
    decreases if turn.Again? then Work(turn.r.tasks) + 1 else 0
  {
    match turn
    case Settled(r, ctx, fx) => Out(r, ctx, fx, None)
    case Failed(r, ctx, message) => Out(r, ctx, [], Some(message))
    case Again(r, ctx, fx) =>
      Prepend(fx, Finish(cfg, DespoolTurn(cfg, r, ctx)))
  }

  function DespoolAll(cfg: Config, r: Ready, ctx: Ctx): (out: Out)
    ensures out.ctx == ctx.(progress := out.ctx.progress)
  {
    Finish(cfg, DespoolTurn(cfg, r, ctx))
  }

  function DespoolTask(cfg: Config, r: Ready, ctx: Ctx): (out: Out)
    ensures out.ctx == ctx.(progress := out.ctx.progress)
  {
    Finish(cfg, TaskTurn(cfg, r, ctx))
  }

  // ---------------------------------------------------------------- while Ready

  function ReceiveFeedback(cfg: Config, r: Ready, ctx: Ctx, feedback: Feedback): (out: Out)
    ensures out.ctx == ctx.(progress := out.ctx.progress)
  {
    match feedback
    case BusyPausedForUser => Out(r.(onOk := IgnoreOK), ctx, [], None)
    case ActualTemperatures =>
      Out(r.(awaitingPollingDelay := true), ctx,
          [Delay("polling_delay", if r.mark.Some? then 50 else cfg.pollingInterval, PollFeedback), SendFeedbackProtobuf],
          None)
    case Positions(allAxesReceived, reachedMark) =>
      if r.mark != Some(WaitingToReachMark) then Out(r, ctx, [], None)
      else if !allAxesReceived then Out(r.(mark := Some(WaitingToSendFallbackGCode)), ctx, [], None)
      else if reachedMark then DespoolAll(cfg, r.(mark := None), ctx)
      else Out(r, ctx, [], None)
    case OtherFeedback => Out(r, ctx, [], None)
  }

  /** What an ok does once the connection is established; None when the driver would panic. */
  function ReceiveOk(cfg: Config, r: Ready, ctx: Ctx): (result: Option<Out>)
    ensures result.Some? ==> result.value.ctx.nextKey == ctx.nextKey && result.value.ctx.lowKey == ctx.lowKey
    ensures result.Some? ==> result.value.ctx.pausedFlag == ctx.pausedFlag
  {
    match r.onOk
    case NotAwaitingOk => Some(Out(r, ctx, [], None))
    case Resend =>
      if r.lastGCodeSent.None? then None
      else
        Some(Out(r.(onOk := IgnoreOK), ctx,
                 SendLine(cfg, GCodeLine(r.lastGCodeSent.value, Some(if r.nextLine == 0 then 0 else r.nextLine - 1), true), Resent),
                 None))
    case IgnoreOK => Some(Out(r.(onOk := Despool), ctx, [], None))
    case TransitionToReady =>
      var ctx1 := StateChanged(ctx, InReady(r));
      Some(Prepend([SendFeedbackProtobuf], DespoolAll(cfg, r.(onOk := Despool), ctx1)))
    case Despool => Some(DespoolAll(cfg, r, ctx))
  }

  function ReceiveOkResponse(cfg: Config, r: Ready, ctx: Ctx, feedback: Option<Feedback>): (result: Option<Out>)
    ensures result.Some? ==> result.value.ctx.nextKey == ctx.nextKey && result.value.ctx.lowKey == ctx.lowKey
    ensures result.Some? ==> result.value.ctx.pausedFlag == ctx.pausedFlag
  {
    if feedback.None? then ReceiveOk(cfg, r, ctx)
    else
      var first := ReceiveFeedback(cfg, r, ctx, feedback.value);
      if first.err.Some? then Some(first)
      else
        match ReceiveOk(cfg, first.r, first.ctx)
        case None => None
        case Some(second) => Some(Prepend(first.fx, second))
  }

  /** The one place an error while Ready becomes a state. */
  function Close(out: Out): (Machine, seq<Effect>) {
    match out.err
    case None => (Machine(InReady(out.r), out.ctx), out.fx)
    case Some(message) => ToErrored(message, Machine(InReady(out.r), out.ctx))
  }

  function QueuedTasks(state: State): seq<Task> {
    if state.InReady? then state.ready.tasks else []
  }

  function ToErrored(message: string, m: Machine): (Machine, seq<Effect>) {
    var ctx := PushAll(m.ctx, QueuedTasks(m.state), TaskErrored);
    (Machine(Errored(message), StateChanged(ctx, Errored(message))), [CancelAllDelays, SendFeedbackProtobuf])
  }

  function Disconnect(m: Machine): (Machine, seq<Effect>) {
    var ctx := PushAll(m.ctx, QueuedTasks(m.state), TaskErrored);
    (Machine(Disconnected, StateChanged(ctx, Disconnected)), [CancelAllDelays, CloseSerialPort, SendFeedbackProtobuf])
  }

  function Skip(lines: seq<string>, n: nat): seq<string> {
    if n <= |lines| then lines[n..] else []
  }

  function Admit(key: int, s: Submission): Task {
    Task(key, s.id, s.clientId, Skip(s.lines, s.despooled.GetOr(0)), s.despooled, s.machineOverride, false, s)
  }

  /** Position of the first task that is not an override, or the length. */
  function FirstNonOverride(tasks: seq<Task>): (i: nat)
    ensures i <= |tasks|
    ensures i < |tasks| ==> !tasks[i].machineOverride
    ensures forall j :: 0 <= j < i ==> tasks[j].machineOverride
  {
    if tasks == [] || !tasks[0].machineOverride then 0 else 1 + FirstNonOverride(tasks[1..])
  }

  function Enqueue(tasks: seq<Task>, task: Task): seq<Task> {
    if task.machineOverride then
      var i := FirstNonOverride(tasks);
      tasks[..i] + [task] + tasks[i..]
    else tasks + [task]
  }

  function Load(cfg: Config, r: Ready, ctx: Ctx, s: Submission): (Machine, seq<Effect>) {
    var r1 := r.(tasks := Enqueue(r.tasks, Admit(ctx.nextKey, s)));
    var ctx1 := ctx.(nextKey := ctx.nextKey + 1);
    if r.onOk == NotAwaitingOk then Close(DespoolTask(cfg, r1, ctx1))
    else (Machine(InReady(r1), ctx1), [])
  }

  /** Where a resumed task starts: the wire counts from one, and the driver keeps 32 bits. */
  function StartNumber(startAt: nat): Option<nat> {
    if startAt == 0 then None else Some((startAt - 1) % 0x1_0000_0000)
  }

  function Spool(cfg: Config, r: Ready, ctx: Ctx, p: Payload): (Machine, seq<Effect>)
    requires p.SpoolTask?
  {
    var r1 := r.(loadingGCode := true);
    match p.content
    case Some(Inline(commands)) =>
      Load(cfg, r1, ctx, Submission(p.taskId, p.clientId, commands, StartNumber(p.startAt), p.machineOverride))
    case Some(FilePath(path)) =>
      (Machine(InReady(r1), ctx), [LoadGCode(path, p.taskId, p.clientId, p.machineOverride, StartNumber(p.startAt))])
    case None => (Machine(InReady(r1), ctx), [])
  }

  /** Index of the first task with an id, or the length when there is none. */
  function FindTask(tasks: seq<Task>, id: string): (i: nat)
    ensures i <= |tasks|
    ensures i < |tasks| ==> tasks[i].id == id
    ensures forall j :: 0 <= j < i ==> tasks[j].id != id
  {
    if tasks == [] || tasks[0].id == id then 0 else 1 + FindTask(tasks[1..], id)
  }

  function Pause(r: Ready, ctx: Ctx, id: string): (Machine, seq<Effect>) {
    var i := FindTask(r.tasks, id);
    if i == |r.tasks| then (Machine(InReady(r), ctx), [])
    else
      var ctx1 := PushProgress(ctx.(pausedFlag := true), r.tasks[i], Paused);
      var r1 := r.(tasks := r.tasks[..i] + r.tasks[i + 1..]);
      (Machine(InReady(r1), ctx1),
       [SendFeedbackProtobuf] + (if ctx.resetWhenIdle && r1.tasks == [] then [ExitProcessAfterDelay] else []))
  }

  function DriverTask(key: int, id: string, gcode: string): Task {
    Task(key, id, INTERNAL, [gcode], None, true, false, Submission(id, INTERNAL, [gcode], None, true))
  }

  function LearnCapability(r: Ready, ctx: Ctx, name: string, enabled: bool): (Machine, seq<Effect>) {
    var r1 := if enabled then r.(capabilities := r.capabilities + {name}) else r;
    if name == AUTOREPORT && enabled then
      (Machine(InReady(r1.(tasks := [DriverTask(ctx.lowKey, AUTOREPORT, "M155 S1")] + r.tasks)),
               ctx.(lowKey := ctx.lowKey - 1)), [])
    else (Machine(InReady(r1), ctx), [])
  }

  function TickleLine(cfg: Config, r: Ready, ctx: Ctx): (Machine, seq<Effect>) {
    if r.ticklesAttempted >= cfg.maxTickles then
      ToErrored("Serial port communication timed out.", Machine(InReady(r), ctx))
    else
      (Machine(InReady(r.(ticklesAttempted := r.ticklesAttempted + 1)), ctx),
       SendLine(cfg, GCodeLine("M105", None, cfg.checksumTickles), Tickle))
  }

  function RequestResend(r: Ready, ctx: Ctx, lineNumber: nat): (Machine, seq<Effect>) {
    if lineNumber + 1 != r.nextLine then
      ToErrored("resend line number does not match sent line number", Machine(InReady(r), ctx))
    else (Machine(InReady(r.(onOk := Resend)), ctx), [])
  }

  function ReadySerial(cfg: Config, r: Ready, ctx: Ctx, response: Response): (Machine, seq<Effect>) {
    match response
    case Unknown => (Machine(InReady(r), ctx), [])
    case Echo => (Machine(InReady(r), ctx), [])
    case Debug => (Machine(InReady(r), ctx), [])
    case Warning => (Machine(InReady(r), ctx), [])
    case FirmwareVersion => (Machine(InReady(r), ctx), [])
    case Error(message) => ToErrored(message, Machine(InReady(r), ctx))
    case Greeting => ToErrored("Unexpected printer firmware restart.", Machine(InReady(r), ctx))
    case Capability(name, enabled) => LearnCapability(r, ctx, name, enabled)
    case OkResponse(feedback) =>
      (match ReceiveOkResponse(cfg, r, ctx, feedback)
       case None => (Machine(Panicked, if feedback.Some? then ReceiveFeedback(cfg, r, ctx, feedback.value).ctx else ctx), [])
       case Some(out) => Close(out))
    case FeedbackResponse(feedback) =>
      var out := ReceiveFeedback(cfg, r, ctx, feedback);
      Close(out.(fx := out.fx + [CancelDelay(TICKLE_DELAY), SendFeedbackProtobuf]))
    case ResendRequest(lineNumber) => RequestResend(r, ctx, lineNumber)
  }

  function ReadyPoll(cfg: Config, r: Ready, ctx: Ctx): (Machine, seq<Effect>) {
    var r1 := r.(pollFor := Some(PollTemperature));
    if r.onOk == NotAwaitingOk then
      var (r2, fx) := Poll(cfg, r1, PollTemperature);
      (Machine(InReady(r2), ctx), fx)
    else (Machine(InReady(r1), ctx), [])
  }

  function ReadyConsume(cfg: Config, r: Ready, ctx: Ctx, event: Event): (Machine, seq<Effect>) {
    match event
    case ProtobufRec(Some(SpoolTask(id, client, startAt, content, machineOverride))) =>
      Spool(cfg, r, ctx, SpoolTask(id, client, startAt, content, machineOverride))
    case ProtobufRec(Some(PauseTask(id))) => Pause(r, ctx, id)
    case ProtobufRec(_) => (Machine(InReady(r), ctx), [])
    case SerialPortDisconnected => Disconnect(Machine(InReady(r), ctx))
    case GCodeLoaded(submission) => Load(cfg, r, ctx, submission)
    case SerialRec(_, response) => ReadySerial(cfg, r, ctx, response)
    case PollFeedback => ReadyPoll(cfg, r, ctx)
    case TickleSerialPort => TickleLine(cfg, r, ctx)
    case _ => ToErrored("Invalid transition.", Machine(InReady(r), ctx))
  }

  // ---------------------------------------------------------------- every state

  function DefaultBaudRates(): seq<nat> {
    [9600, 19200, 38400, 57600, 230400, 250000, 115200]
  }

  function Reconnect(cfg: Config, m: Machine): (Machine, seq<Effect>) {
    var candidates :=
      if m.state.Connecting? then m.state.baudRates
      else [cfg.baudRate] + (if cfg.autoBaud then DefaultBaudRates() else []);
    if candidates == [] then Disconnect(m)
    else
      var baud := candidates[|candidates| - 1];
      var next := Connecting(candidates[..|candidates| - 1]);
      var ctx := m.ctx.(baudRate := baud);
      var fx := [CancelAllDelays, OpenSerialPort(baud), Delay("connection_timeout", cfg.connectionTimeout, ConnectionTimeout)];
      if m.state.Connecting? then (Machine(next, ctx), fx)
      else (Machine(next, StateChanged(ctx, next)), fx + [SendFeedbackProtobuf])
  }

  function ResetLineNumber(cfg: Config, m: Machine): (Machine, seq<Effect>) {
    (m, SendLine(cfg, GCodeLine("M110 N0", None, true), Handshake))
  }

  function DefaultReady(key: int): Ready {
    Ready(None, Some(PollTemperature), false, false, 0, None, TransitionToReady, 1, false,
          [DriverTask(key, "FIRMWARE_INFO", "M115")], {})
  }

  /** The first ok while connecting: a fresh Ready state handles the same event. */
  function FirstOk(cfg: Config, ctx: Ctx, event: Event): (Machine, seq<Effect>) {
    var (m, fx) := ReadyConsume(cfg, DefaultReady(ctx.lowKey), ctx.(lowKey := ctx.lowKey - 1), event);
    (m, [CancelAllDelays] + fx)
  }

  function IdleSerial(cfg: Config, m: Machine, src: string, response: Response): (Machine, seq<Effect>)
    requires !m.state.InReady?
  {
    if m.state.Errored? then
      var next := Errored(m.state.message + "\n" + src);
      (Machine(next, StateChanged(m.ctx, next)), [CancelAllDelays, SendFeedbackProtobuf])
    else if response.Error? then ToErrored(response.message, m)
    else if m.state.Connecting? && response.Greeting? then ResetLineNumber(cfg, m)
    else if m.state.Connecting? && response.OkResponse? then FirstOk(cfg, m.ctx, SerialRec(src, response))
    else if response.ResendRequest? then ToErrored("Invalid transition.", m)
    else (m, [])
  }

  function IdleConsume(cfg: Config, m: Machine, event: Event): (Machine, seq<Effect>)
    requires !m.state.InReady?
  {
    match event
    case Init(available) => if cfg.simulate || available then Reconnect(cfg, m) else (m, [])
    case SerialPortOpened => if m.state.Connecting? then ResetLineNumber(cfg, m) else (m, [])
    case SerialPortDisconnected => Disconnect(m)
    case SerialPortError(message) => ToErrored(message, m)
    case SerialRec(src, response) => IdleSerial(cfg, m, src, response)
    case ConnectionTimeout => if m.state.Connecting? then Reconnect(cfg, m) else ToErrored("Invalid transition.", m)
    case RetryResetLineNumber =>
      if m.state.Connecting? then ResetLineNumber(cfg, m) else ToErrored("Invalid transition.", m)
    case _ => (m, [])
  }

  function EmergencyStop(m: Machine): (Machine, seq<Effect>) {
    (Machine(EStopped, StateChanged(PushAll(m.ctx, QueuedTasks(m.state), Cancelled), EStopped)),
     [CloseSerialPort, OpenSerialPort(19200), CancelAllDelays, SendFeedbackProtobuf])
  }

  /** The messages every state handles the same way; None when the state has to decide. */
  function Common(cfg: Config, m: Machine, event: Event): Option<(Machine, seq<Effect>)> {
    match event
    case ProtobufClientConnection => Some((m, [SendInitProtobuf, SendFeedbackProtobuf]))
    case GCodeLoadFailed(_) => Some(ToErrored("Failed to load GCode", m))
    case ProtobufRec(Some(DeviceDiscovered)) =>
      Some(if m.state.Disconnected? then Reconnect(cfg, m) else (m, []))
    case ProtobufRec(Some(DeviceDisconnected)) =>
      Some(if m.state.Disconnected? then (m, []) else Disconnect(m))
    case ProtobufRec(Some(DeleteTaskHistory(ids))) =>
      Some((m.(ctx := m.ctx.(progress := WithoutIds(m.ctx.progress, ids))), []))
    case ProtobufRec(Some(Estop)) => Some(EmergencyStop(m))
    case ProtobufRec(Some(Reset)) => Some((m, [ExitProcess]))
    case ProtobufRec(Some(ResetWhenIdle)) =>
      Some(if QueuedTasks(m.state) != [] then (m.(ctx := m.ctx.(resetWhenIdle := true)), []) else (m, [ExitProcess]))
    case _ => None
  }

  /** One event. */
  function Step(cfg: Config, m: Machine, event: Event): (Machine, seq<Effect>) {
    if m.state.Panicked? then (m, [])
    else
      var common := Common(cfg, m, event);
      if common.Some? then common.value
      else if m.state.InReady? then ReadyConsume(cfg, m.state.ready, m.ctx, event)
      else IdleConsume(cfg, m, event)
  }

  function Start(): Machine {
    Machine(Disconnected, Ctx(115200, false, false, StatusDisconnected, None, [], 0, -1))
  }
}
