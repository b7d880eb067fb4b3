/** When and why a driver leaves Ready, and what the clients are then told of the tasks it had queued. */
module LeavingReady {
  import opened Wrappers
  import opened DriverTypes
  import opened DriverSpec
  import opened DriverRuns
  import opened TaskReports
  import opened LinesDue
  import opened Agenda
  import opened Reactor
  import opened EmergencyStop
  import WrittenLines

  // ---------------------------------------------------------------- causes

  function FailureOf(next: Next): Option<string> {
    match next
    case Fails(message) => Some(message)
    case _ => None
  }

  /** The event reports that the awaited mark has been reached. */
  predicate Reaches(r: Ready, feedback: Option<Feedback>) {
    r.mark == Some(WaitingToReachMark) && feedback == Some(Positions(true, true))
  }

  /** A host macro fails that is next on the agenda, or next after the line that a reached mark lets out. */
  function MarkFailure(cfg: Config, r: Ready, andOk: bool): Option<string> {
    match NextOf(cfg, AgendaOf(cfg, r.(mark := None)))
    case Fails(message) => Some(message)
    case Sends(_, rest) => if andOk then FailureOf(NextOf(cfg, rest)) else None
    case Rests(_) => None
  }

  /** A host macro fails that an ok, with this feedback in it, makes the driver carry out. */
  function OkFailure(cfg: Config, r: Ready, feedback: Option<Feedback>): Option<string> {
    if Reaches(r, feedback) then MarkFailure(cfg, r, true)
    else if feedback == Some(BusyPausedForUser) || (r.onOk != Despool && r.onOk != TransitionToReady) then None
    else
      var axesMissing := feedback.Some? && feedback.value.Positions? && !feedback.value.allAxesReceived;
      var mark := if axesMissing && r.mark == Some(WaitingToReachMark) then Some(WaitingToSendFallbackGCode) else r.mark;
      FailureOf(NextOf(cfg, AgendaOf(cfg, r.(mark := mark))))
  }

  /** A host macro fails in the queue that the submission is added to, if nothing else is awaited. */
  function LoadFailure(cfg: Config, r: Ready, s: Submission): Option<string> {
    if r.onOk != NotAwaitingOk then None
    else FailureOf(NextOfTask(cfg, r.(tasks := Enqueue(r.tasks, Admit(0, s)))))
  }

  /** The message of the error that an event puts a Ready driver in, if it does. */
  function WhyErrored(cfg: Config, r: Ready, event: Event): Option<string> {
    match event
    case SerialRec(_, Error(message)) => Some(message)
    case SerialRec(_, Greeting) => Some("Unexpected printer firmware restart.")
    case SerialRec(_, ResendRequest(n)) =>
      if n + 1 == r.nextLine then None else Some("resend line number does not match sent line number")
    case SerialRec(_, OkResponse(feedback)) => OkFailure(cfg, r, feedback)
    case SerialRec(_, FeedbackResponse(feedback)) =>
      if Reaches(r, Some(feedback)) then MarkFailure(cfg, r, false) else None
    case TickleSerialPort =>
      if r.ticklesAttempted < cfg.maxTickles then None else Some("Serial port communication timed out.")
    case GCodeLoaded(s) => LoadFailure(cfg, r, s)
    case ProtobufRec(Some(SpoolTask(id, client, startAt, Some(Inline(commands)), machineOverride))) =>
      LoadFailure(cfg, r, Submission(id, client, commands, StartNumber(startAt), machineOverride))
    case GCodeLoadFailed(_) => Some("Failed to load GCode")
    case Init(_) => Some("Invalid transition.")
    case ConnectionTimeout => Some("Invalid transition.")
    case RetryResetLineNumber => Some("Invalid transition.")
    case SerialPortOpened => Some("Invalid transition.")
    case SerialPortError(_) => Some("Invalid transition.")
    case _ => None
  }

  /** The two ways of losing the serial port. */
  predicate LosesPort(event: Event) {
    event == SerialPortDisconnected || event == ProtobufRec(Some(DeviceDisconnected))
  }

  // ---------------------------------------------------------------- exactly when

  lemma {:induction false} FollowsFails(cfg: Config, next: Next, before: Ready, out: Out)
    requires Follows(cfg, next, before, out)
    ensures out.err == FailureOf(next)
  {
  }

  /** The agenda looks at the mark, the polls, the queue and what the firmware can do. */
  lemma {:induction false} SameAgenda(cfg: Config, r: Ready, r': Ready)
    requires r'.mark == r.mark && r'.pollFor == r.pollFor && r'.capabilities == r.capabilities && r'.tasks == r.tasks
    ensures AgendaOf(cfg, r') == AgendaOf(cfg, r) && NextOfTask(cfg, r') == NextOfTask(cfg, r)
  {
    hide NextOf, NextGcode, QueuedGcodes, Gcodes;
  }

  lemma {:induction false} FeedbackFails(cfg: Config, r: Ready, ctx: Ctx, feedback: Feedback)
    ensures ReceiveFeedback(cfg, r, ctx, feedback).err ==
            if Reaches(r, Some(feedback)) then MarkFailure(cfg, r, false) else None
  {
    hide DespoolAll, NextOf, AgendaOf, Follows;
    var r1 := r.(mark := None);
    DespoolFollowsAgenda(cfg, r1, ctx);
    FollowsFails(cfg, NextOf(cfg, AgendaOf(cfg, r1)), r1, DespoolAll(cfg, r1, ctx));
  }

  lemma {:induction false} OkFails(cfg: Config, r: Ready, ctx: Ctx)
    requires ReceiveOk(cfg, r, ctx).Some?
    ensures ReceiveOk(cfg, r, ctx).value.err ==
            if r.onOk == Despool || r.onOk == TransitionToReady then FailureOf(NextOf(cfg, AgendaOf(cfg, r))) else None
  {
    hide DespoolAll, NextOf, AgendaOf, Follows;
    var r1, ctx1 := r.(onOk := Despool), StateChanged(ctx, InReady(r));
    SameAgenda(cfg, r, r1);
    DespoolFollowsAgenda(cfg, r, ctx);
    DespoolFollowsAgenda(cfg, r1, ctx1);
    FollowsFails(cfg, NextOf(cfg, AgendaOf(cfg, r)), r, DespoolAll(cfg, r, ctx));
    FollowsFails(cfg, NextOf(cfg, AgendaOf(cfg, r1)), r1, DespoolAll(cfg, r1, ctx1));
  }

  /** The state after feedback that reaches the awaited mark is what the agenda leaves. */
  lemma {:induction false} AfterMark(cfg: Config, r: Ready, ctx: Ctx)
    requires r.mark == Some(WaitingToReachMark) && ReceiveFeedback(cfg, r, ctx, Positions(true, true)).err.None?
    ensures var r' := ReceiveFeedback(cfg, r, ctx, Positions(true, true)).r;
            match NextOf(cfg, AgendaOf(cfg, r.(mark := None)))
            case Sends(_, rest) => r'.onOk == Despool && AgendaOf(cfg, r') == rest
            case Rests(_) => r'.onOk == NotAwaitingOk
            case Fails(_) => false
  {
    hide DespoolAll, NextOf, AgendaOf, NumberedLines;
    DespoolFollowsAgenda(cfg, r.(mark := None), ctx);
  }

  /** Other feedback changes at most the mark and what the next ok means. */
  lemma {:induction false} AfterFeedback(cfg: Config, r: Ready, ctx: Ctx, feedback: Feedback)
    requires !Reaches(r, Some(feedback))
    ensures var out := ReceiveFeedback(cfg, r, ctx, feedback);
            var missing := feedback.Positions? && !feedback.allAxesReceived && r.mark == Some(WaitingToReachMark);
            && out.err.None?
            && out.r.onOk == (if feedback == BusyPausedForUser then IgnoreOK else r.onOk)
            && AgendaOf(cfg, out.r) == AgendaOf(cfg, r.(mark := if missing then Some(WaitingToSendFallbackGCode) else r.mark))
  {
    hide DespoolAll, QueuedGcodes;
  }

  lemma {:induction false} OkResponseFails(cfg: Config, r: Ready, ctx: Ctx, feedback: Option<Feedback>)
    requires ReceiveOkResponse(cfg, r, ctx, feedback).Some?
    ensures ReceiveOkResponse(cfg, r, ctx, feedback).value.err == OkFailure(cfg, r, feedback)
  {
    hide ReceiveFeedback, ReceiveOk, NextOf, AgendaOf;
    if feedback.None? {
      OkFails(cfg, r, ctx);
      SameAgenda(cfg, r, r.(mark := r.mark));
    } else {
      var first := ReceiveFeedback(cfg, r, ctx, feedback.value);
      FeedbackFails(cfg, r, ctx, feedback.value);
      if first.err.None? {
        OkFails(cfg, first.r, first.ctx);
        if Reaches(r, feedback) { AfterMark(cfg, r, ctx); } else { AfterFeedback(cfg, r, ctx, feedback.value); }
      }
    }
  }

  /** An ok that would make the driver panic fails at nothing. */
  lemma {:induction false} PanicIsNoError(cfg: Config, r: Ready, ctx: Ctx, feedback: Option<Feedback>)
    requires ReceiveOkResponse(cfg, r, ctx, feedback).None?
    ensures OkFailure(cfg, r, feedback) == None
  {
    hide NextOf, AgendaOf, DespoolAll;
    if feedback.Some? {
      var first := ReceiveFeedback(cfg, r, ctx, feedback.value);
      if Reaches(r, feedback) { AfterMark(cfg, r, ctx); } else { AfterFeedback(cfg, r, ctx, feedback.value); }
    }
  }

  lemma {:induction false} LoadFails(cfg: Config, r: Ready, ctx: Ctx, s: Submission)
    ensures var m := Load(cfg, r, ctx, s).0;
            match LoadFailure(cfg, r, s)
            case Some(message) => m.state == Errored(message)
            case None => m.state.InReady?
  {
    hide DespoolTask, Follows, NextOfTask, Enqueue, Admit;
    if r.onOk == NotAwaitingOk {
      var r1 := r.(tasks := Enqueue(r.tasks, Admit(ctx.nextKey, s)));
      var ctx1 := ctx.(nextKey := ctx.nextKey + 1);
      DespoolFollowsAgenda(cfg, r1, ctx1);
      FollowsFails(cfg, NextOfTask(cfg, r1), r1, DespoolTask(cfg, r1, ctx1));
      KeyDoesNotMatter(cfg, r, ctx.nextKey, s);
    }
  }

  lemma {:induction false} KeyDoesNotMatter(cfg: Config, r: Ready, key: int, s: Submission)
    ensures NextOfTask(cfg, r.(tasks := Enqueue(r.tasks, Admit(key, s)))) ==
            NextOfTask(cfg, r.(tasks := Enqueue(r.tasks, Admit(0, s))))
  {
    var a, b := Enqueue(r.tasks, Admit(key, s)), Enqueue(r.tasks, Admit(0, s));
    var i := if s.machineOverride then FirstNonOverride(r.tasks) else |r.tasks|;
    SameLines(cfg, a, b);
    hide NextOf, NextGcode, Gcodes, QueuedGcodes, Enqueue;
    assert a[0].lines == b[0].lines;
  }

  /** The gcodes of a queue are those of its lines. */
  lemma {:induction false} SameLines(cfg: Config, a: seq<Task>, b: seq<Task>)
    requires |a| == |b| && forall i :: 0 <= i < |a| ==> a[i].lines == b[i].lines
    ensures QueuedGcodes(cfg, a) == QueuedGcodes(cfg, b)
  {
    if a != [] { SameLines(cfg, a[1..], b[1..]); }
  }

  lemma {:induction false} SerialFails(cfg: Config, r: Ready, ctx: Ctx, src: string, response: Response)
    ensures var m := ReadySerial(cfg, r, ctx, response).0;
            match WhyErrored(cfg, r, SerialRec(src, response))
            case Some(message) => m.state == Errored(message)
            case None => m.state.InReady? || m.state.Panicked?
  {
    hide ReceiveFeedback, ReceiveOkResponse, PushAll, OkFailure, MarkFailure;
    match response
    case OkResponse(feedback) =>
      if ReceiveOkResponse(cfg, r, ctx, feedback).Some? { OkResponseFails(cfg, r, ctx, feedback); }
      else { PanicIsNoError(cfg, r, ctx, feedback); }
    case FeedbackResponse(feedback) => FeedbackFails(cfg, r, ctx, feedback);
    case _ =>
  }

  lemma {:induction false} ReadyFails(cfg: Config, r: Ready, ctx: Ctx, event: Event)
    requires Common(cfg, Machine(InReady(r), ctx), event).None?
    ensures var m := ReadyConsume(cfg, r, ctx, event).0;
            match WhyErrored(cfg, r, event)
            case Some(message) => m.state == Errored(message)
            case None =>
              if LosesPort(event) then m.state.Disconnected? else m.state.InReady? || m.state.Panicked?
  {
    hide ReadySerial, Load, PushAll, PushProgress, FindTask, LoadFailure;
    match event
    case SerialRec(src, response) => SerialFails(cfg, r, ctx, src, response);
    case GCodeLoaded(s) => LoadFails(cfg, r, ctx, s);
    case ProtobufRec(Some(SpoolTask(id, client, startAt, Some(Inline(commands)), machineOverride))) =>
      var s := Submission(id, client, commands, StartNumber(startAt), machineOverride);
      LoadFails(cfg, r.(loadingGCode := true), ctx, s);
      FlagDoesNotMatter(cfg, r, s);
    case _ =>
  }

  lemma {:induction false} FlagDoesNotMatter(cfg: Config, r: Ready, s: Submission)
    ensures LoadFailure(cfg, r.(loadingGCode := true), s) == LoadFailure(cfg, r, s)
  {
    hide NextOfTask, Enqueue, Admit;
    var tasks := Enqueue(r.tasks, Admit(0, s));
    SameAgenda(cfg, r.(tasks := tasks), r.(loadingGCode := true).(tasks := tasks));
  }

  /** A Ready driver leaves Ready exactly for these reasons. */
  lemma {:induction false} LeavesReadyExactly(cfg: Config, m: Machine, event: Event)
    requires m.state.InReady?
    ensures var state := Step(cfg, m, event).0.state;
            && (state.Errored? <==> WhyErrored(cfg, m.state.ready, event).Some?)
            && (state.Errored? ==> state.message == WhyErrored(cfg, m.state.ready, event).value)
            && (state.Disconnected? <==> LosesPort(event))
            && (state.EStopped? <==> event == ESTOP)
            && !state.Connecting?
  {
    hide ReadyConsume, PushAll, WithoutIds, OkFailure, LoadFailure, MarkFailure;
    if Common(cfg, m, event).None? { ReadyFails(cfg, m.state.ready, m.ctx, event); }
  }

  // ---------------------------------------------------------------- what the clients are told

  /** The status on record for a task id. */
  function Told(ctx: Ctx, id: string): Option<TaskStatus> {
    match Lookup(ctx.progress, id)
    case Some(p) => Some(p.status)
    case None => None
  }

  /** A client has a task of the id queued, or it is on record as finished. */
  predicate QueuedOrFinished(id: string, tasks: seq<Task>, ctx: Ctx) {
    Taken(tasks, id) || Told(ctx, id) == Some(Finished)
  }

  lemma {:induction false} TakenTail(tasks: seq<Task>, id: string)
    requires tasks != []
    ensures Taken(tasks, id) <==> (tasks[0].id == id && tasks[0].clientId != INTERNAL) || Taken(tasks[1..], id)
  {
    assert forall t :: t in tasks <==> t == tasks[0] || t in tasks[1..];
  }

  lemma {:induction false} TakenJoin(a: seq<Task>, b: seq<Task>, id: string)
    ensures Taken(a + b, id) <==> Taken(a, id) || Taken(b, id)
  {
    assert forall t :: t in a + b <==> t in a || t in b;
  }

  lemma {:induction false} FrontTurnTells(cfg: Config, id: string, r: Ready, ctx: Ctx)
    requires r.tasks != [] && QueuedOrFinished(id, r.tasks, ctx)
    ensures var turn := FrontTurn(cfg, r, ctx); QueuedOrFinished(id, turn.r.tasks, turn.ctx)
  {
    hide TakeFront, PushProgress, Taken, Lookup;
    TakenTail(r.tasks, id);
    var n := BlankPrefix(cfg, r.tasks[0].lines);
    if n == |r.tasks[0].lines| {
      PushLookup(ctx, r.tasks[0], Finished, id);
    } else {
      var t := AfterTaking(r.tasks[0], n);
      assert ([t] + r.tasks[1..])[1..] == r.tasks[1..];
      TakenTail([t] + r.tasks[1..], id);
      PushLookup(ctx, t, Started, id);
    }
  }

  lemma {:induction false} TurnTells(cfg: Config, id: string, r: Ready, ctx: Ctx, turn: Turn)
    requires IsTurn(cfg, r, ctx, turn) && QueuedOrFinished(id, r.tasks, ctx)
    ensures QueuedOrFinished(id, turn.r.tasks, turn.ctx)
  {
    hide FrontTurn, QueuedOrFinished;
    if r.tasks != [] { FrontTurnTells(cfg, id, r.(awaitingPollingFeedback := false), ctx); }
  }

  lemma {:induction false} FinishTells(cfg: Config, id: string, turn: Turn)
    requires QueuedOrFinished(id, turn.r.tasks, turn.ctx)
    ensures var out := Finish(cfg, turn); QueuedOrFinished(id, out.r.tasks, out.ctx)
    decreases if turn.Again? then Work(turn.r.tasks) + 1 else 0
  {
    hide QueuedOrFinished, DespoolTurn, IsTurn;
    if turn.Again? {
      var next := FinishAgain(cfg, turn);
      TurnTells(cfg, id, turn.r, turn.ctx, next);
      FinishTells(cfg, id, next);
    }
  }

  /** Despooling drops no task untold, whether it succeeds or fails. */
  lemma {:induction false} DespoolTells(cfg: Config, id: string, r: Ready, ctx: Ctx, out: Out)
    requires out == DespoolAll(cfg, r, ctx) || out == DespoolTask(cfg, r, ctx)
    requires QueuedOrFinished(id, r.tasks, ctx)
    ensures QueuedOrFinished(id, out.r.tasks, out.ctx)
  {
    hide QueuedOrFinished, DespoolTurn, TaskTurn;
    var turn := if out == DespoolAll(cfg, r, ctx) then DespoolTurn(cfg, r, ctx) else TaskTurn(cfg, r, ctx);
    assert IsTurn(cfg, r, ctx, turn);
    TurnTells(cfg, id, r, ctx, turn);
    FinishTells(cfg, id, turn);
  }

  /** Recording all queued tasks under one status leaves every queued id with it. */
  lemma {:induction false} AllTold(tasks: seq<Task>, ctx: Ctx, status: TaskStatus, id: string)
    ensures Told(PushAll(ctx, tasks, status), id) == if Taken(tasks, id) then Some(status) else Told(ctx, id)
    decreases |tasks|
  {
    hide PushProgress, Taken, Lookup;
    if tasks != [] {
      TakenTail(tasks, id);
      PushLookup(ctx, tasks[0], status, id);
      AllTold(tasks[1..], PushProgress(ctx, tasks[0], status), status, id);
    } else {
      assert !Taken([], id) by { NoneTaken(id); }
    }
  }

  lemma {:induction false} NoneTaken(id: string)
    ensures !Taken([], id)
  {
  }

  /** After an event: the task is queued or finished while Ready, or told errored or finished in error. */
  predicate ToldAfter(id: string, m: Machine) {
    && (m.state.InReady? ==> QueuedOrFinished(id, m.state.ready.tasks, m.ctx))
    && (m.state.Errored? ==> Told(m.ctx, id) == Some(TaskErrored) || Told(m.ctx, id) == Some(Finished))
  }

  lemma {:induction false} ErroredTells(id: string, message: string, r: Ready, ctx: Ctx)
    requires QueuedOrFinished(id, r.tasks, ctx)
    ensures var m := ToErrored(message, Machine(InReady(r), ctx)).0;
            ToldAfter(id, m) && (Taken(r.tasks, id) ==> Told(m.ctx, id) == Some(TaskErrored))
  {
    hide PushAll, Taken;
    AllTold(r.tasks, ctx, TaskErrored, id);
  }

  lemma {:induction false} CloseTells(id: string, out: Out)
    requires QueuedOrFinished(id, out.r.tasks, out.ctx)
    ensures ToldAfter(id, Close(out).0)
  {
    hide QueuedOrFinished, ToErrored;
    if out.err.Some? { ErroredTells(id, out.err.value, out.r, out.ctx); }
  }

  lemma {:induction false} FeedbackTells(cfg: Config, id: string, r: Ready, ctx: Ctx, feedback: Feedback)
    requires QueuedOrFinished(id, r.tasks, ctx)
    ensures var out := ReceiveFeedback(cfg, r, ctx, feedback); QueuedOrFinished(id, out.r.tasks, out.ctx)
  {
    hide QueuedOrFinished, DespoolAll;
    DespoolTells(cfg, id, r.(mark := None), ctx, DespoolAll(cfg, r.(mark := None), ctx));
  }

  lemma {:induction false} SameTold(id: string, tasks: seq<Task>, ctx: Ctx, ctx': Ctx)
    requires QueuedOrFinished(id, tasks, ctx) && ctx'.progress == ctx.progress
    ensures QueuedOrFinished(id, tasks, ctx')
  {
  }

  lemma {:induction false} OkTells(cfg: Config, id: string, r: Ready, ctx: Ctx)
    requires QueuedOrFinished(id, r.tasks, ctx) && ReceiveOk(cfg, r, ctx).Some?
    ensures var out := ReceiveOk(cfg, r, ctx).value; QueuedOrFinished(id, out.r.tasks, out.ctx)
  {
    hide QueuedOrFinished, DespoolAll;
    var r1, ctx1 := r.(onOk := Despool), StateChanged(ctx, InReady(r));
    SameTold(id, r.tasks, ctx, ctx1);
    DespoolTells(cfg, id, r1, ctx1, DespoolAll(cfg, r1, ctx1));
    DespoolTells(cfg, id, r, ctx, DespoolAll(cfg, r, ctx));
  }

  lemma {:induction false} OkResponseTells(cfg: Config, id: string, r: Ready, ctx: Ctx, feedback: Option<Feedback>)
    requires QueuedOrFinished(id, r.tasks, ctx) && ReceiveOkResponse(cfg, r, ctx, feedback).Some?
    ensures var out := ReceiveOkResponse(cfg, r, ctx, feedback).value; QueuedOrFinished(id, out.r.tasks, out.ctx)
  {
    hide QueuedOrFinished, ReceiveFeedback, ReceiveOk;
    if feedback.None? {
      OkTells(cfg, id, r, ctx);
    } else {
      var first := ReceiveFeedback(cfg, r, ctx, feedback.value);
      FeedbackTells(cfg, id, r, ctx, feedback.value);
      if first.err.None? { OkTells(cfg, id, first.r, first.ctx); }
    }
  }

  /** A driver's own task in front takes nothing away. */
  lemma {:induction false} OwnTaskTells(id: string, tasks: seq<Task>, ctx: Ctx, t: Task, ctx': Ctx)
    requires QueuedOrFinished(id, tasks, ctx) && ctx'.progress == ctx.progress
    ensures QueuedOrFinished(id, [t] + tasks, ctx')
  {
    TakenJoin([t], tasks, id);
    hide Taken, Lookup;
  }

  lemma {:induction false} SerialTells(cfg: Config, id: string, r: Ready, ctx: Ctx, response: Response)
    requires QueuedOrFinished(id, r.tasks, ctx)
    ensures ToldAfter(id, ReadySerial(cfg, r, ctx, response).0)
  {
    hide QueuedOrFinished, ToldAfter, ReceiveFeedback, ReceiveOkResponse, ToErrored, Close, Taken, Told;
    ReadyTold(id, r, ctx);
    match response
    case OkResponse(feedback) =>
      if ReceiveOkResponse(cfg, r, ctx, feedback).Some? {
        OkResponseTells(cfg, id, r, ctx, feedback);
        CloseTells(id, ReceiveOkResponse(cfg, r, ctx, feedback).value);
      } else {
        PanickedTold(id, ReadySerial(cfg, r, ctx, response).0);
      }
    case FeedbackResponse(feedback) =>
      var out := ReceiveFeedback(cfg, r, ctx, feedback);
      FeedbackTells(cfg, id, r, ctx, feedback);
      CloseTells(id, out.(fx := out.fx + [CancelDelay(TICKLE_DELAY), SendFeedbackProtobuf]));
    case Capability(name, enabled) =>
      var t, ctx' := DriverTask(ctx.lowKey, AUTOREPORT, "M155 S1"), ctx.(lowKey := ctx.lowKey - 1);
      OwnTaskTells(id, r.tasks, ctx, t, ctx');
      ReadyTold(id, ReadySerial(cfg, r, ctx, response).0.state.ready, ReadySerial(cfg, r, ctx, response).0.ctx);
    case Error(message) => ErroredTells(id, message, r, ctx);
    case Greeting => ErroredTells(id, "Unexpected printer firmware restart.", r, ctx);
    case ResendRequest(_) =>
      ErroredTells(id, "resend line number does not match sent line number", r, ctx);
      ReadyTold(id, r.(onOk := Resend), ctx);
    case _ =>
  }

  lemma {:induction false} ReadyTold(id: string, r: Ready, ctx: Ctx)
    ensures QueuedOrFinished(id, r.tasks, ctx) ==> ToldAfter(id, Machine(InReady(r), ctx))
  {
  }

  lemma {:induction false} PanickedTold(id: string, m: Machine)
    requires m.state.Panicked?
    ensures ToldAfter(id, m)
  {
  }

  lemma {:induction false} LoadTells(cfg: Config, id: string, r: Ready, ctx: Ctx, s: Submission)
    requires QueuedOrFinished(id, r.tasks, ctx) || (s.id == id && s.clientId != INTERNAL)
    ensures ToldAfter(id, Load(cfg, r, ctx, s).0)
  {
    hide DespoolTask, Enqueue, Close, Lookup;
    var t := Admit(ctx.nextKey, s);
    var r1, ctx1 := r.(tasks := Enqueue(r.tasks, t)), ctx.(nextKey := ctx.nextKey + 1);
    EnqueueMembers(r.tasks, t);
    assert QueuedOrFinished(id, r1.tasks, ctx1);
    hide QueuedOrFinished, ToldAfter;
    ReadyTold(id, r1, ctx1);
    if r.onOk == NotAwaitingOk {
      DespoolTells(cfg, id, r1, ctx1, DespoolTask(cfg, r1, ctx1));
      CloseTells(id, DespoolTask(cfg, r1, ctx1));
    }
  }

  /** A pause of another id; of this one, the first task of the id is told paused. */
  lemma {:induction false} PauseTells(id: string, r: Ready, ctx: Ctx, other: string)
    requires Taken(r.tasks, id)
    ensures var m := Pause(r, ctx, other).0;
            && m.state.InReady?
            && (Taken(m.state.ready.tasks, id) || (other == id && Told(m.ctx, id) == Some(Paused)))
  {
    hide PushProgress, Lookup;
    var i := FindTask(r.tasks, other);
    if i < |r.tasks| {
      var rest := r.tasks[..i] + r.tasks[i + 1..];
      PushLookup(ctx.(pausedFlag := true), r.tasks[i], Paused, id);
      assert r.tasks == r.tasks[..i] + [r.tasks[i]] + r.tasks[i + 1..];
      TakenJoin(r.tasks[..i], r.tasks[i + 1..], id);
      TakenJoin(r.tasks[..i] + [r.tasks[i]], r.tasks[i + 1..], id);
      TakenJoin(r.tasks[..i], [r.tasks[i]], id);
    }
  }

  /** Events that can make the driver go through its queue. */
  predicate Despools(event: Event) {
    match event
    case SerialRec(_, response) => response.OkResponse? || response.FeedbackResponse?
    case GCodeLoaded(_) => true
    case ProtobufRec(Some(SpoolTask(_, _, _, _, _))) => true
    case _ => false
  }

  lemma {:induction false} ReadyTells(cfg: Config, id: string, r: Ready, ctx: Ctx, event: Event)
    requires Taken(r.tasks, id) && Common(cfg, Machine(InReady(r), ctx), event).None?
    ensures var m := ReadyConsume(cfg, r, ctx, event).0;
            && (event != ProtobufRec(Some(PauseTask(id))) ==> ToldAfter(id, m))
            && (m.state.InReady? ==>
                  || QueuedOrFinished(id, m.state.ready.tasks, m.ctx)
                  || (event == ProtobufRec(Some(PauseTask(id))) && Told(m.ctx, id) == Some(Paused)))
            && (m.state.Disconnected? ==> Told(m.ctx, id) == Some(TaskErrored))
            && (m.state.Errored? && !Despools(event) ==> Told(m.ctx, id) == Some(TaskErrored))
  {
    hide ReadySerial, Load, Pause, ToErrored, Disconnect, TickleLine, ReadyPoll, Told, Taken;
    ReadyTold(id, r, ctx);
    match event
    case SerialRec(_, response) => SerialStatus(cfg, id, r, ctx, response);
    case GCodeLoaded(s) => LoadStatus(cfg, id, r, ctx, s);
    case ProtobufRec(Some(PauseTask(other))) => PauseTells(id, r, ctx, other);
    case ProtobufRec(Some(SpoolTask(task, client, startAt, content, machineOverride))) =>
      var r1 := r.(loadingGCode := true);
      ReadyTold(id, r1, ctx);
      if content.Some? && content.value.Inline? {
        LoadStatus(cfg, id, r1, ctx, Submission(task, client, content.value.commands, StartNumber(startAt), machineOverride));
      }
    case SerialPortDisconnected => DisconnectStatus(id, r, ctx);
    case TickleSerialPort => TickleStatus(cfg, id, r, ctx);
    case PollFeedback => PollStatus(cfg, id, r, ctx);
    case _ => ErroredTells(id, "Invalid transition.", r, ctx); ErroredOnly("Invalid transition.", r, ctx);
  }

  lemma {:induction false} ErroredOnly(message: string, r: Ready, ctx: Ctx)
    ensures ToErrored(message, Machine(InReady(r), ctx)).0.state == Errored(message)
  {
    hide PushAll;
  }

  lemma {:induction false} SerialStatus(cfg: Config, id: string, r: Ready, ctx: Ctx, response: Response)
    requires Taken(r.tasks, id)
    ensures var m := ReadySerial(cfg, r, ctx, response).0;
            && ToldAfter(id, m) && !m.state.Disconnected?
            && (m.state.Errored? && !response.OkResponse? && !response.FeedbackResponse? ==>
                  Told(m.ctx, id) == Some(TaskErrored))
  {
    hide ReceiveFeedback, ReceiveOkResponse, PushAll, Taken, Told, ToldAfter;
    SerialTells(cfg, id, r, ctx, response);
    match response
    case Error(message) => ErroredTells(id, message, r, ctx);
    case Greeting => ErroredTells(id, "Unexpected printer firmware restart.", r, ctx);
    case ResendRequest(_) => ErroredTells(id, "resend line number does not match sent line number", r, ctx);
    case _ =>
  }

  lemma {:induction false} LoadStatus(cfg: Config, id: string, r: Ready, ctx: Ctx, s: Submission)
    requires Taken(r.tasks, id)
    ensures var m := Load(cfg, r, ctx, s).0; ToldAfter(id, m) && (m.state.InReady? || m.state.Errored?)
  {
    hide DespoolTask, Enqueue, PushAll, ToldAfter, Taken, Told;
    LoadTells(cfg, id, r, ctx, s);
  }

  lemma {:induction false} DisconnectStatus(id: string, r: Ready, ctx: Ctx)
    requires Taken(r.tasks, id)
    ensures var m := Disconnect(Machine(InReady(r), ctx)).0;
            m.state.Disconnected? && ToldAfter(id, m) && Told(m.ctx, id) == Some(TaskErrored)
  {
    hide PushAll, Taken;
    AllTold(r.tasks, ctx, TaskErrored, id);
  }

  lemma {:induction false} TickleStatus(cfg: Config, id: string, r: Ready, ctx: Ctx)
    requires Taken(r.tasks, id)
    ensures var m := TickleLine(cfg, r, ctx).0;
            && ToldAfter(id, m) && !m.state.Disconnected?
            && (m.state.Errored? ==> Told(m.ctx, id) == Some(TaskErrored))
  {
    hide PushAll, Taken, Lookup;
    ErroredTells(id, "Serial port communication timed out.", r, ctx);
  }

  lemma {:induction false} PollStatus(cfg: Config, id: string, r: Ready, ctx: Ctx)
    requires Taken(r.tasks, id)
    ensures var m := ReadyPoll(cfg, r, ctx).0; m.state.InReady? && ToldAfter(id, m)
  {
    hide Taken, Lookup;
  }

  lemma {:induction false} EstopStatus(id: string, m: Machine)
    requires m.state.InReady? && Taken(m.state.ready.tasks, id)
    ensures Told(DriverSpec.EmergencyStop(m).0.ctx, id) == Some(Cancelled)
  {
    hide PushAll, Taken;
    AllTold(m.state.ready.tasks, m.ctx, Cancelled, id);
  }

  /**
   What an event does to a client's queued task, by its id: while Ready the id stays queued, or it is on
   record as finished, or paused if that was asked for; after an emergency stop it is on record as cancelled,
   after a disconnection as errored, and after an error as errored too, except that a task may just have been
   finished by the event in which a later one's macro failed.
   */
  lemma {:induction false} QueuedTasksAreTold(cfg: Config, m: Machine, event: Event, id: string)
    requires m.state.InReady? && Taken(m.state.ready.tasks, id)
    ensures var m' := Step(cfg, m, event).0;
            match m'.state
            case InReady(r) =>
              || QueuedOrFinished(id, r.tasks, m'.ctx)
              || (event == ProtobufRec(Some(PauseTask(id))) && Told(m'.ctx, id) == Some(Paused))
            case EStopped => Told(m'.ctx, id) == Some(Cancelled)
            case Disconnected => Told(m'.ctx, id) == Some(TaskErrored)
            case Errored(_) =>
              Told(m'.ctx, id) == Some(TaskErrored) || (Despools(event) && Told(m'.ctx, id) == Some(Finished))
            case Connecting(_) => false
            case Panicked => true
  {
    hide ReadyConsume, ToErrored, DriverSpec.EmergencyStop, Disconnect, WithoutIds, Taken, Told, WhyErrored;
    LeavesReadyExactly(cfg, m, event);
    if Common(cfg, m, event).None? {
      ReadyTells(cfg, id, m.state.ready, m.ctx, event);
    } else {
      EstopStatus(id, m);
      DisconnectStatus(id, m.state.ready, m.ctx);
      ErroredTells(id, "Failed to load GCode", m.state.ready, m.ctx);
    }
  }

  // ---------------------------------------------------------------- nothing goes on

  lemma {:induction false} LeavingWritesNothing(cfg: Config, m: Machine, event: Event, delays: Delays)
    requires m.state.InReady? && var state := Step(cfg, m, event).0.state; !state.InReady? && !state.Panicked?
    ensures var (m', fx) := Step(cfg, m, event); !WritesSerial(fx) && PerformAll(delays, fx) == map[]
  {
    hide ReadyConsume, PushAll, WithoutIds;
    var (m', fx) := Step(cfg, m, event);
    if Common(cfg, m, event).None? {
      LeavingReadyCancels(cfg, m.state.ready, m.ctx, event, delays);
      WrittenLines.LeavingWritesNothing(cfg, m.state.ready, m.ctx, event);
    } else {
      Shapes(delays, fx);
    }
  }

  /**
   In every run: a Ready driver ends in error exactly for one of the listed causes, with that cause's message,
   and disconnected or stopped exactly when the port is lost or a stop is asked for. Nothing is written then
   and no timer stays armed.
   */
  lemma {:induction false} ReadyEndsExactly(cfg: Config, events: seq<Event>, event: Event)
    requires After(cfg, events).state.InReady?
    ensures var r, m := After(cfg, events).state.ready, After(cfg, events + [event]);
            && (m.state.Errored? <==> WhyErrored(cfg, r, event).Some?)
            && (m.state.Errored? ==> m.state.message == WhyErrored(cfg, r, event).value)
            && (m.state.Disconnected? <==> LosesPort(event))
            && (m.state.EStopped? <==> event == ESTOP)
            && !m.state.Connecting?
            && (!m.state.InReady? && !m.state.Panicked? ==>
                  !WritesSerial(LastStep(cfg, events + [event]).fx) && DelaysAfter(cfg, events + [event]) == map[])
  {
    hide Step, WhyErrored, After, WritesSerial;
    var m := After(cfg, events);
    OneMore(cfg, events, event);
    assert (events + [event])[..|events + [event]| - 1] == events;
    LeavesReadyExactly(cfg, m, event);
    if !Step(cfg, m, event).0.state.InReady? && !Step(cfg, m, event).0.state.Panicked? {
      LeavingWritesNothing(cfg, m, event, DelaysAfter(cfg, events));
    }
  }
}
