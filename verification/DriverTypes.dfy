/**
 The vocabulary of the Marlin driver: what it receives (events), what it asks its reactor to do
 (effects) and the values its state is made of.
 */
module DriverTypes {
  import opened Wrappers

  /** The verdict of the JSON parser on the text after a host macro's leading '!'. */
  datatype HostGCode = MarkTargetPosition | WaitToReachMark

  /**
   Everything the driver consults but does not change: its configuration, and the external
   parsers as uninterpreted total functions.
   */
  datatype Config = Config(
    isBlank: string -> bool,                  // the gcode parser finds a comment or nothing
    parseHost: string -> Option<HostGCode>,   // the JSON text of a host macro
    timeout: string -> nat,                   // milliseconds before a line is tickled
    isBlocking: string -> bool,               // lines that are never tickled
    maxTickles: nat,
    checksumTickles: bool,
    pollingInterval: nat,
    connectionTimeout: nat,
    baudRate: nat,
    autoBaud: bool,
    simulate: bool)

  /** A task as it arrives, whether inline or from a file. */
  datatype Submission = Submission(
    id: string,
    clientId: string,
    lines: seq<string>,
    despooled: Option<nat>,
    machineOverride: bool)

  /**
   A task in the driver's queue. `lines` is what its line iterator has left. `key` stands for the
   identity of the queue entry: task ids may repeat, keys do not. `submitted` remembers what the
   entry was made from; no operation reads it.
   */
  datatype Task = Task(
    key: int,
    id: string,
    clientId: string,
    lines: seq<string>,
    despooled: Option<nat>,
    machineOverride: bool,
    started: bool,
    submitted: Submission)

  datatype Polling = PollTemperature | PollPosition
  datatype OnOK = TransitionToReady | Resend | IgnoreOK | Despool | NotAwaitingOk
  datatype Mark = MarkSet | WaitingToReachMark | WaitingToSendFallbackGCode

  datatype Feedback =
    | BusyPausedForUser
    | ActualTemperatures
    // The outcome of the two position tests a mark wait makes, decided outside the model.
    | Positions(allAxesReceived: bool, reachedMark: bool)
    | OtherFeedback

  datatype Response =
    | Unknown
    | Echo
    | Debug
    | Warning
    | Error(message: string)
    | Greeting
    | FirmwareVersion
    | Capability(name: string, enabled: bool)
    | OkResponse(feedback: Option<Feedback>)
    | FeedbackResponse(report: Feedback)
    | ResendRequest(lineNumber: nat)

  datatype Content = Inline(commands: seq<string>) | FilePath(path: string)

  datatype Payload =
    | SpoolTask(taskId: string, clientId: string, startAt: nat, content: Option<Content>, machineOverride: bool)
    | PauseTask(pausedId: string)
    | DeviceDiscovered
    | DeviceDisconnected
    | DeleteTaskHistory(taskIds: seq<string>)
    | Estop
    | Reset
    | ResetWhenIdle
    | SetConfig

  datatype Event =
    | Init(serialPortAvailable: bool)
    | ConnectionTimeout
    | RetryResetLineNumber
    | SerialPortOpened
    | SerialRec(src: string, response: Response)
    | ProtobufClientConnection
    | ProtobufRec(payload: Option<Payload>)
    | PollFeedback
    | TickleSerialPort
    | SerialPortDisconnected
    | SerialPortError(message: string)
    | GCodeLoaded(submission: Submission)
    | GCodeLoadFailed(filePath: string)

  datatype GCodeLine = GCodeLine(gcode: string, lineNumber: Option<nat>, checksum: bool)

  /** Why a serial line was written; a label the driver itself never reads. */
  datatype Origin =
    | FromTask(key: int, machineOverride: bool)
    | Poll
    | Fallback
    | Tickle
    | Resent
    | Handshake

  datatype Effect =
    | Delay(name: string, millis: nat, event: Event)
    | CancelDelay(name: string)
    | CancelAllDelays
    | SendSerial(line: GCodeLine, origin: Origin)
    | OpenSerialPort(baudRate: nat)
    | SendInitProtobuf
    | SendFeedbackProtobuf
    | LoadGCode(path: string, taskId: string, clientId: string, machineOverride: bool, despooled: Option<nat>)
    | CloseSerialPort
    | ExitProcess
    | ExitProcessAfterDelay
    // Not an effect of the original: marks the point where a task's '!' line was executed.
    | RanHostMacro(key: int, machineOverride: bool, gcode: string, macro: HostGCode)

  datatype TaskStatus = Started | Finished | Paused | Cancelled | TaskErrored

  /**
   What the clients are told about a task id. `key` is the queue entry last recorded under the id; no
   operation reads it.
   */
  datatype Progress = Progress(taskId: string, despooledLineNumber: nat, status: TaskStatus, key: int)

  datatype Status = StatusDisconnected | StatusConnecting | StatusReady | StatusErrored | StatusEStopped

  /**
   The part of the driver's context that its decisions and its reports depend on. `nextKey` and
   `lowKey` hand out queue-entry identities: submissions count up from 0, the driver's own
   front-of-queue tasks count down from -1.
   */
  datatype Ctx = Ctx(
    baudRate: nat,
    resetWhenIdle: bool,
    pausedFlag: bool,
    status: Status,
    error: Option<string>,
    progress: seq<Progress>,
    nextKey: nat,
    lowKey: int)

  datatype Ready = Ready(
    mark: Option<Mark>,
    pollFor: Option<Polling>,
    awaitingPollingDelay: bool,
    awaitingPollingFeedback: bool,
    ticklesAttempted: nat,
    lastGCodeSent: Option<string>,
    onOk: OnOK,
    nextLine: nat,
    loadingGCode: bool,
    tasks: seq<Task>,
    capabilities: set<string>)

  datatype State =
    | Disconnected
    | Connecting(baudRates: seq<nat>)
    | InReady(ready: Ready)
    | Errored(message: string)
    | EStopped
    // The process has panicked; nothing happens any more.
    | Panicked

  /** The driver between two events. */
  datatype Machine = Machine(state: State, ctx: Ctx)

  const INTERNAL := "INTERNAL"
  const AUTOREPORT := "AUTOREPORT_TEMP"
  const TICKLE_DELAY := "tickle_delay"
}
