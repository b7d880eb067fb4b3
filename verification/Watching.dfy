/**
 A line whose ok gets lost is followed up: after a line was written the tickle timer runs, unless the firmware
 may take its time over that line, and tickles in vain end in an error.
 */
module Watching {
  import opened Wrappers
  import opened DriverTypes
  import opened DriverSpec
  import opened DriverRuns
  import opened SessionInvariant
  import opened SessionTheorems
  import opened FlowControl
  import opened LinesDue
  import opened Reactor
  import WrittenLines

  // ---------------------------------------------------------------- the last line and the tickle timer

  /** The last line that some effects write. */
  function LastLine(fx: seq<Effect>): Option<GCodeLine> {
    if fx == [] then None
    else if fx[|fx| - 1].SendSerial? then Some(fx[|fx| - 1].line)
    else LastLine(fx[..|fx| - 1])
  }

  /** What some effects do to the tickle timer: nothing, start it with a timeout, or stop it. */
  datatype Touch = Untouched | Starts(millis: nat) | Stops

  function TouchOf(e: Effect): Touch {
    match e
    case Delay(name, millis, _) => if name == "tickle_delay" then Starts(millis) else Untouched
    case CancelDelay(name) => if name == "tickle_delay" then Stops else Untouched
    case CancelAllDelays => Stops
    case _ => Untouched
  }

  function LastTouch(fx: seq<Effect>): Touch {
    if fx == [] then Untouched
    else if TouchOf(fx[|fx| - 1]) != Untouched then TouchOf(fx[|fx| - 1])
    else LastTouch(fx[..|fx| - 1])
  }

  /** Which touch the last line calls for. */
  function Watch(cfg: Config, line: GCodeLine): Touch {
    if cfg.isBlocking(line.gcode) then Stops else Starts(cfg.timeout(line.gcode))
  }

  lemma {:induction false} LastOfBoth(a: seq<Effect>, b: seq<Effect>)
    ensures LastLine(a + b) == if LastLine(b).Some? then LastLine(b) else LastLine(a)
    ensures LastTouch(a + b) == if LastTouch(b) != Untouched then LastTouch(b) else LastTouch(a)
    decreases |b|
  {
    if b == [] {
      assert a + b == a;
    } else {
      assert (a + b)[..|a + b| - 1] == a + b[..|b| - 1];
      LastOfBoth(a, b[..|b| - 1]);
    }
  }

  /** Effects that neither write nor touch any timer. */
  predicate Idle(fx: seq<Effect>) {
    forall e :: e in fx ==> !e.SendSerial? && TouchOf(e) == Untouched
  }

  lemma {:induction false} IdleIsNothing(fx: seq<Effect>)
    requires Idle(fx)
    ensures LastLine(fx) == None && LastTouch(fx) == Untouched
  {
    if fx != [] { IdleIsNothing(fx[..|fx| - 1]); }
  }

  lemma {:induction false} LastOfLine(cfg: Config, line: GCodeLine, origin: Origin)
    ensures var fx := SendLine(cfg, line, origin); LastLine(fx) == Some(line) && LastTouch(fx) == Watch(cfg, line)
  {
    var fx := SendLine(cfg, line, origin);
    assert fx[..|fx| - 1] == [SendSerial(line, origin)];
  }

  // ---------------------------------------------------------------- despooling

  /**
   Either a line was written, and is watched and awaited, or none was; then nothing is awaited, and the timer
   is stopped unless a mark is.
   */
  predicate Outcome(cfg: Config, r: Ready, fx: seq<Effect>) {
    match LastLine(fx)
    case Some(line) => LastTouch(fx) == Watch(cfg, line) && r.onOk == Despool
    case None =>
      && r.onOk == NotAwaitingOk
      && LastTouch(fx) == if r.mark == Some(WaitingToReachMark) then Untouched else Stops
  }

  predicate Written(cfg: Config, line: GCodeLine, r: Ready, fx: seq<Effect>) {
    LastLine(fx) == Some(line) && LastTouch(fx) == Watch(cfg, line) && r.onOk == Despool
  }

  lemma {:induction false} SendOutcome(cfg: Config, r: Ready, before: seq<Effect>, gcode: string, origin: Origin)
    ensures var (r', fx) := SendNumbered(cfg, r, gcode, origin); Outcome(cfg, r', before + fx) && Outcome(cfg, r', fx)
  {
    LastOfLine(cfg, GCodeLine(gcode, Some(r.nextLine), true), origin);
    LastOfBoth(before, SendNumbered(cfg, r, gcode, origin).1);
  }

  predicate TurnOutcome(cfg: Config, turn: Turn) {
    match turn
    case Settled(r, _, fx) => Outcome(cfg, r, fx)
    case Again(_, _, fx) => Idle(fx)
    case Failed(_, _, _) => true
  }

  lemma {:induction false} FrontOutcome(cfg: Config, r: Ready, ctx: Ctx)
    requires r.tasks != []
    ensures TurnOutcome(cfg, FrontTurn(cfg, r, ctx))
  {
    hide PushProgress, BlankPrefix, Clean, Work, SendNumbered, Outcome;
    var n := BlankPrefix(cfg, r.tasks[0].lines);
    if n < |r.tasks[0].lines| {
      var gcode, t := Clean(cfg, r.tasks[0].lines[n]).value, AfterTaking(r.tasks[0], n);
      var r1, fx1: seq<Effect> := r.(tasks := [t] + r.tasks[1..]), if r.tasks[0].started then [] else [SendFeedbackProtobuf];
      if !IsHostMacro(gcode) { SendOutcome(cfg, r1, fx1, gcode, FromTask(t.key, t.machineOverride)); }
    }
  }

  lemma {:induction false} EmptyOutcome(cfg: Config, r: Ready, ctx: Ctx)
    requires r.mark == Some(WaitingToReachMark) || r.tasks == []
    ensures TurnOutcome(cfg, TaskTurn(cfg, r, ctx))
  {
    var stop: seq<Effect>, exit: seq<Effect> := [CancelDelay(TICKLE_DELAY)], [ExitProcessAfterDelay];
    assert stop[..|stop| - 1] == [] && LastLine([]) == None;
    assert TouchOf(stop[0]) == Stops;
    IdleIsNothing(exit);
    LastOfBoth(stop, exit);
    assert stop + [] == stop;
  }

  lemma {:induction false} TurnHasOutcome(cfg: Config, r: Ready, ctx: Ctx, turn: Turn)
    requires IsTurn(cfg, r, ctx, turn)
    ensures TurnOutcome(cfg, turn)
  {
    hide FrontTurn, SendNumbered, Outcome, Work, Idle;
    var r1 := r.(awaitingPollingFeedback := false);
    if turn == TaskTurn(cfg, r, ctx) {
      if r.mark != Some(WaitingToReachMark) && r.tasks != [] { FrontOutcome(cfg, r1, ctx); }
      else { EmptyOutcome(cfg, r, ctx); }
    } else if r.mark == Some(WaitingToSendFallbackGCode) {
      SendOutcome(cfg, r.(mark := None), [], "M400", Fallback);
    } else {
      PollOutcome(cfg, r, r.pollFor.value);
    }
  }

  lemma {:induction false} PollOutcome(cfg: Config, r: Ready, p: Polling)
    ensures var (r', fx) := DriverSpec.Poll(cfg, r, p); Outcome(cfg, r', fx)
  {
    hide SendNumbered, Outcome;
    var q := EffectivePoll(r, p);
    var r1 := r.(awaitingPollingFeedback := true, pollFor := if q == PollTemperature then Some(PollPosition) else None);
    SendOutcome(cfg, r1, [], if q == PollTemperature then "M105" else "M114", Origin.Poll);
  }

  lemma {:induction false} FinishHasOutcome(cfg: Config, turn: Turn)
    requires TurnOutcome(cfg, turn) && Finish(cfg, turn).err.None?
    ensures Outcome(cfg, Finish(cfg, turn).r, Finish(cfg, turn).fx)
    decreases if turn.Again? then Work(turn.r.tasks) + 1 else 0
  {
    hide DespoolTurn, IsTurn, Idle;
    if turn.Again? {
      var next := FinishAgain(cfg, turn);
      TurnHasOutcome(cfg, turn.r, turn.ctx, next);
      FinishHasOutcome(cfg, next);
      IdleIsNothing(turn.fx);
      LastOfBoth(turn.fx, Finish(cfg, next).fx);
    }
  }

  lemma {:induction false} DespoolHasOutcome(cfg: Config, r: Ready, ctx: Ctx, out: Out)
    requires (out == DespoolAll(cfg, r, ctx) || out == DespoolTask(cfg, r, ctx)) && out.err.None?
    ensures Outcome(cfg, out.r, out.fx)
  {
    hide DespoolTurn, TaskTurn, Outcome;
    var turn := if out == DespoolAll(cfg, r, ctx) then DespoolTurn(cfg, r, ctx) else TaskTurn(cfg, r, ctx);
    assert IsTurn(cfg, r, ctx, turn);
    TurnHasOutcome(cfg, r, ctx, turn);
    FinishHasOutcome(cfg, turn);
  }

  // ---------------------------------------------------------------- one event

  /**
   A line was written, and has been overtaken by an ok: the reached mark that came with the ok let it out, and
   the ok then found nothing more to send and stopped the timer.
   */
  predicate Overtaken(m: Machine, event: Event) {
    && event.SerialRec? && m.state.InReady?
    && m.state.ready.onOk == NotAwaitingOk && m.state.ready.mark != Some(WaitingToReachMark)
  }

  /** The timer is as the last line of the event calls for. */
  predicate Follows(cfg: Config, m: Machine, event: Event, fx: seq<Effect>) {
    LastLine(fx).Some? ==> LastTouch(fx) == if Overtaken(m, event) then Stops else Watch(cfg, LastLine(fx).value)
  }

  lemma {:induction false} SameBehind(a: seq<Effect>, b: seq<Effect>)
    requires Idle(a)
    ensures LastLine(a + b) == LastLine(b) && LastTouch(a + b) == LastTouch(b)
  {
    IdleIsNothing(a);
    LastOfBoth(a, b);
  }

  lemma {:induction false} OkFollows(cfg: Config, r: Ready, ctx: Ctx)
    requires ReceiveOk(cfg, r, ctx).Some? && ReceiveOk(cfg, r, ctx).value.err.None? && r.lastGCodeSent.None?
    ensures var out := ReceiveOk(cfg, r, ctx).value;
            if r.onOk == Despool || r.onOk == TransitionToReady then Outcome(cfg, out.r, out.fx)
            else out.fx == [] && (r.onOk == NotAwaitingOk ==> out.r == r)
  {
    hide DespoolAll, Outcome;
    if r.onOk == Despool {
      DespoolHasOutcome(cfg, r, ctx, DespoolAll(cfg, r, ctx));
    } else if r.onOk == TransitionToReady {
      var r1, ctx1 := r.(onOk := Despool), StateChanged(ctx, InReady(r));
      var out := DespoolAll(cfg, r1, ctx1);
      DespoolHasOutcome(cfg, r1, ctx1, out);
      SameBehind([SendFeedbackProtobuf], out.fx);
      SameOutcome(cfg, out.r, out.fx, [SendFeedbackProtobuf] + out.fx);
    }
  }

  lemma {:induction false} SameOutcome(cfg: Config, r: Ready, fx: seq<Effect>, fx': seq<Effect>)
    requires Outcome(cfg, r, fx) && LastLine(fx') == LastLine(fx) && LastTouch(fx') == LastTouch(fx)
    ensures Outcome(cfg, r, fx')
  {
  }

  lemma {:induction false} FeedbackFollows(cfg: Config, r: Ready, ctx: Ctx, feedback: Feedback)
    requires ReceiveFeedback(cfg, r, ctx, feedback).err.None?
    ensures var out := ReceiveFeedback(cfg, r, ctx, feedback);
            if r.mark == Some(WaitingToReachMark) && feedback == Positions(true, true) then Outcome(cfg, out.r, out.fx)
            else Idle(out.fx)
  {
    hide DespoolAll;
    if r.mark == Some(WaitingToReachMark) && feedback == Positions(true, true) {
      DespoolHasOutcome(cfg, r.(mark := None), ctx, DespoolAll(cfg, r.(mark := None), ctx));
    }
  }

  /** One outcome after the other. */
  lemma {:induction false} TwoOutcomes(cfg: Config, m: Machine, event: Event, a: seq<Effect>, b: seq<Effect>)
    requires m.state.InReady? && event.SerialRec? && Outcome(cfg, m.state.ready, b)
    requires LastLine(a).Some? ==> LastTouch(a) == Watch(cfg, LastLine(a).value)
    ensures Follows(cfg, m, event, a + b)
  {
    LastOfBoth(a, b);
  }

  lemma {:induction false} OkResponseFollows(cfg: Config, r: Ready, ctx: Ctx, src: string, feedback: Option<Feedback>)
    requires ReceiveOkResponse(cfg, r, ctx, feedback).Some? && ReceiveOkResponse(cfg, r, ctx, feedback).value.err.None?
    requires r.lastGCodeSent.None?
    ensures var out := ReceiveOkResponse(cfg, r, ctx, feedback).value;
            Follows(cfg, Machine(InReady(out.r), out.ctx), SerialRec(src, OkResponse(feedback)), out.fx)
  {
    hide ReceiveFeedback, ReceiveOk, Idle, Outcome;
    var event, out := SerialRec(src, OkResponse(feedback)), ReceiveOkResponse(cfg, r, ctx, feedback).value;
    var m := Machine(InReady(out.r), out.ctx);
    if feedback.None? {
      OkFollows(cfg, r, ctx);
      if out.fx != [] { OutcomeFollows(cfg, m, event, out.fx); }
    } else {
      var first := ReceiveFeedback(cfg, r, ctx, feedback.value);
      FeedbackFollows(cfg, r, ctx, feedback.value);
      NothingToResend(cfg, r, ctx, feedback.value);
      OkFollows(cfg, first.r, first.ctx);
      var second := ReceiveOk(cfg, first.r, first.ctx).value;
      assert first.fx + [] == first.fx;
      if r.mark == Some(WaitingToReachMark) && feedback.value == Positions(true, true) {
        OutcomeWatches(cfg, first.r, first.fx);
        if first.r.onOk == Despool { TwoOutcomes(cfg, m, event, first.fx, second.fx); }
      } else {
        IdleIsNothing(first.fx);
        SameBehind(first.fx, second.fx);
        if second.fx != [] {
          SameOutcome(cfg, second.r, second.fx, out.fx);
          OutcomeFollows(cfg, m, event, out.fx);
        }
      }
    }
  }

  lemma {:induction false} OutcomeFollows(cfg: Config, m: Machine, event: Event, fx: seq<Effect>)
    requires m.state.InReady? && Outcome(cfg, m.state.ready, fx)
    ensures Follows(cfg, m, event, fx)
  {
  }

  lemma {:induction false} OutcomeWatches(cfg: Config, r: Ready, fx: seq<Effect>)
    requires Outcome(cfg, r, fx)
    ensures LastLine(fx).Some? ==> LastTouch(fx) == Watch(cfg, LastLine(fx).value)
    ensures if LastLine(fx).Some? then r.onOk == Despool else r.onOk == NotAwaitingOk
  {
  }

  lemma {:induction false} NothingToResend(cfg: Config, r: Ready, ctx: Ctx, feedback: Feedback)
    requires r.lastGCodeSent.None? && ReceiveFeedback(cfg, r, ctx, feedback).err.None?
    ensures ReceiveFeedback(cfg, r, ctx, feedback).r.lastGCodeSent.None?
  {
    WrittenLines.FeedbackForgets(cfg, r, ctx, feedback);
  }

  lemma {:induction false} NoLineFollows(cfg: Config, m: Machine, event: Event, fx: seq<Effect>)
    requires forall e :: e in fx ==> !e.SendSerial?
    ensures Follows(cfg, m, event, fx)
  {
    NoLastLine(fx);
  }

  lemma {:induction false} NoLastLine(fx: seq<Effect>)
    requires forall e :: e in fx ==> !e.SendSerial?
    ensures LastLine(fx) == None
  {
    if fx != [] { NoLastLine(fx[..|fx| - 1]); }
  }

  lemma {:induction false} SerialFollows(cfg: Config, r: Ready, ctx: Ctx, src: string, response: Response)
    requires r.lastGCodeSent.None? && !response.FeedbackResponse?
    requires ReadySerial(cfg, r, ctx, response).0.state.InReady?
    ensures var (m, fx) := ReadySerial(cfg, r, ctx, response); Follows(cfg, m, SerialRec(src, response), fx)
  {
    hide ReceiveOkResponse, PushAll, Follows;
    if response.OkResponse? { OkResponseFollows(cfg, r, ctx, src, response.feedback); }
    else {
      var (m, fx) := ReadySerial(cfg, r, ctx, response);
      NoLineFollows(cfg, m, SerialRec(src, response), fx);
    }
  }

  lemma {:induction false} LoadFollows(cfg: Config, r: Ready, ctx: Ctx, s: Submission, event: Event)
    requires Load(cfg, r, ctx, s).0.state.InReady? && !event.SerialRec?
    ensures var (m, fx) := Load(cfg, r, ctx, s); Follows(cfg, m, event, fx)
  {
    hide DespoolTask, PushAll, Enqueue, Outcome;
    if r.onOk == NotAwaitingOk {
      var r1, ctx1 := r.(tasks := Enqueue(r.tasks, Admit(ctx.nextKey, s))), ctx.(nextKey := ctx.nextKey + 1);
      var out := DespoolTask(cfg, r1, ctx1);
      DespoolHasOutcome(cfg, r1, ctx1, out);
      OutcomeWatches(cfg, out.r, out.fx);
    }
  }

  lemma {:induction false} PollEventFollows(cfg: Config, r: Ready, ctx: Ctx)
    ensures var (m, fx) := ReadyPoll(cfg, r, ctx); Follows(cfg, m, PollFeedback, fx)
  {
    hide DriverSpec.Poll, Outcome;
    var r1 := r.(pollFor := Some(PollTemperature));
    PollOutcome(cfg, r1, PollTemperature);
    OutcomeWatches(cfg, DriverSpec.Poll(cfg, r1, PollTemperature).0, DriverSpec.Poll(cfg, r1, PollTemperature).1);
  }

  lemma {:induction false} TickleFollows(cfg: Config, r: Ready, ctx: Ctx)
    requires TickleLine(cfg, r, ctx).0.state.InReady?
    ensures var (m, fx) := TickleLine(cfg, r, ctx); Follows(cfg, m, TickleSerialPort, fx)
  {
    hide PushAll;
    LastOfLine(cfg, GCodeLine("M105", None, cfg.checksumTickles), Tickle);
  }

  /** The event is a report of the firmware that is no ok. */
  predicate IsReport(event: Event) {
    event.SerialRec? && event.response.FeedbackResponse?
  }

  lemma {:induction false} ReadyFollows(cfg: Config, r: Ready, ctx: Ctx, event: Event)
    requires r.lastGCodeSent.None? && !IsReport(event) && ReadyConsume(cfg, r, ctx, event).0.state.InReady?
    ensures var (m, fx) := ReadyConsume(cfg, r, ctx, event); Follows(cfg, m, event, fx)
  {
    hide ReadySerial, Load, Pause, ReadyPoll, TickleLine, Follows;
    var (m, fx) := ReadyConsume(cfg, r, ctx, event);
    match event
    case SerialRec(src, response) => SerialFollows(cfg, r, ctx, src, response);
    case GCodeLoaded(s) => LoadFollows(cfg, r, ctx, s, event);
    case ProtobufRec(Some(SpoolTask(id, client, startAt, Some(Inline(commands)), machineOverride))) =>
      LoadFollows(cfg, r.(loadingGCode := true), ctx,
                  Submission(id, client, commands, StartNumber(startAt), machineOverride), event);
    case ProtobufRec(Some(PauseTask(id))) => PauseWritesNothing(r, ctx, id); NoLineFollows(cfg, m, event, fx);
    case PollFeedback => PollEventFollows(cfg, r, ctx);
    case TickleSerialPort => TickleFollows(cfg, r, ctx);
    case _ => NoLineFollows(cfg, m, event, fx);
  }

  lemma {:induction false} PauseWritesNothing(r: Ready, ctx: Ctx, id: string)
    ensures forall e :: e in Pause(r, ctx, id).1 ==> !e.SendSerial?
  {
  }

  /** Outside Ready only the handshake is written. */
  lemma {:induction false} OutsideFollows(cfg: Config, m: Machine, event: Event)
    requires !Step(cfg, m, event).0.state.InReady?
    ensures var (m', fx) := Step(cfg, m, event); Follows(cfg, m', event, fx)
  {
    hide PushAll, WithoutIds, ReadyConsume, LastLine, LastTouch;
    var (m', fx) := Step(cfg, m, event);
    LastOfLine(cfg, GCodeLine("M110 N0", None, true), Handshake);
    if !m.state.Panicked? && Common(cfg, m, event).None? && m.state.InReady? {
      WrittenLines.LeavingWritesNothing(cfg, m.state.ready, m.ctx, event);
      NoLastLine(fx);
    } else if !m.state.InReady? && m.state.Connecting? && event.SerialRec? && event.response.OkResponse? {
      WrittenLines.LeavingWritesNothing(cfg, DefaultReady(m.ctx.lowKey), m.ctx.(lowKey := m.ctx.lowKey - 1), event);
      NoLastLine(fx);
    } else if forall e :: e in fx ==> !e.SendSerial? {
      NoLastLine(fx);
    }
  }

  lemma {:induction false} EnteringFollows(cfg: Config, m: Machine, event: Event)
    requires !m.state.InReady? && Step(cfg, m, event).0.state.InReady?
    ensures var (m', fx) := Step(cfg, m, event); Follows(cfg, m', event, fx)
  {
    hide PushAll, WithoutIds, ReadyConsume;
    var r, ctx := DefaultReady(m.ctx.lowKey), m.ctx.(lowKey := m.ctx.lowKey - 1);
    ReadyFollows(cfg, r, ctx, event);
    LastOfBoth([CancelAllDelays], ReadyConsume(cfg, r, ctx, event).1);
    NoLastLine([CancelAllDelays]);
  }

  lemma {:induction false} StepFollows(cfg: Config, m: Machine, event: Event)
    requires !IsReport(event) && (m.state.InReady? ==> m.state.ready.lastGCodeSent.None?)
    ensures var (m', fx) := Step(cfg, m, event); Follows(cfg, m', event, fx)
  {
    hide Common, ReadyConsume, IdleConsume, Follows;
    var (m', fx) := Step(cfg, m, event);
    if !m'.state.InReady? {
      OutsideFollows(cfg, m, event);
    } else if !m.state.InReady? {
      EnteringFollows(cfg, m, event);
    } else if Common(cfg, m, event).Some? {
      CommonWritesNothing(cfg, m, event);
      NoLineFollows(cfg, m', event, fx);
    } else {
      ReadyFollows(cfg, m.state.ready, m.ctx, event);
    }
  }

  lemma {:induction false} CommonWritesNothing(cfg: Config, m: Machine, event: Event)
    requires Common(cfg, m, event).Some?
    ensures forall e :: e in Common(cfg, m, event).value.1 ==> !e.SendSerial?
  {
    hide PushAll, WithoutIds;
  }

  /** A report that is no ok stops the timer, even if it let a line out. */
  lemma {:induction false} ReportsStop(cfg: Config, m: Machine, event: Event)
    requires IsReport(event) && m.state.InReady? && Step(cfg, m, event).0.state.InReady?
    ensures LastTouch(Step(cfg, m, event).1) == Stops
  {
    hide ReceiveFeedback, PushAll;
    var out, tail: seq<Effect> := ReceiveFeedback(cfg, m.state.ready, m.ctx, event.response.report),
      [CancelDelay(TICKLE_DELAY), SendFeedbackProtobuf];
    assert tail[..|tail| - 1] == [CancelDelay(TICKLE_DELAY)];
    LastOfBoth(out.fx, tail);
  }

  // ---------------------------------------------------------------- every run

  /** The timeout the tickle timer was last started with in a run, unless it has been stopped since. */
  function TickleTimer(cfg: Config, events: seq<Event>): Option<nat> {
    if events == [] then None
    else match LastTouch(LastStep(cfg, events).fx)
      case Starts(millis) => Some(millis)
      case Stops => None
      case Untouched => TickleTimer(cfg, events[..|events| - 1])
  }

  /** That is the timer the reactor has armed. */
  lemma {:induction false} TimerIsArmed(cfg: Config, events: seq<Event>)
    ensures "tickle_delay" in DelaysAfter(cfg, events) <==> TickleTimer(cfg, events).Some?
    ensures "tickle_delay" in DelaysAfter(cfg, events) && !After(cfg, events).state.Panicked? ==>
              DelaysAfter(cfg, events)["tickle_delay"] == TickleSerialPort
  {
    TimersFitTheState(cfg, events);
    if events != [] {
      hide Step, After;
      TimerIsArmed(cfg, events[..|events| - 1]);
      TouchPerformed(DelaysAfter(cfg, events[..|events| - 1]), LastStep(cfg, events).fx);
    }
  }

  lemma {:induction false} TouchPerformed(delays: Delays, fx: seq<Effect>)
    ensures "tickle_delay" in PerformAll(delays, fx) <==>
            match LastTouch(fx)
            case Starts(_) => true
            case Stops => false
            case Untouched => "tickle_delay" in delays
  {
    if fx != [] {
      var before, last := fx[..|fx| - 1], fx[|fx| - 1];
      TouchPerformed(delays, before);
      assert fx == before + [last];
      PerformSplit(delays, before, [last]);
      Shapes(PerformAll(delays, before), [last]);
      hide PerformAll;
    }
  }

  /**
   In every run: after an event that wrote a line and is no mere report, the tickle timer is armed with the
   timeout of the last line written, unless that line blocks, or an ok has overtaken it.
   */
  lemma {:induction false} EveryLineIsFollowedUp(cfg: Config, events: seq<Event>)
    requires events != [] && LastLine(LastStep(cfg, events).fx).Some? && !IsReport(LastStep(cfg, events).event)
    ensures var last := LastStep(cfg, events);
            var line := LastLine(last.fx).value;
            TickleTimer(cfg, events) ==
            if cfg.isBlocking(line.gcode) || Overtaken(last.post, last.event) then None else Some(cfg.timeout(line.gcode))
  {
    LastFollows(cfg, events);
    hide LastStep, LastLine, LastTouch;
  }

  lemma {:induction false} LastFollows(cfg: Config, events: seq<Event>)
    requires events != [] && !IsReport(LastStep(cfg, events).event)
    ensures var last := LastStep(cfg, events); Follows(cfg, last.post, last.event, last.fx)
  {
    hide Step, After, Follows, IsReport;
    WrittenLines.NothingRemembered(cfg, events[..|events| - 1]);
    StepFollows(cfg, After(cfg, events[..|events| - 1]), events[|events| - 1]);
  }

  /** After a mere report while Ready it is not armed. */
  lemma {:induction false} ReportsAreNotFollowedUp(cfg: Config, events: seq<Event>)
    requires events != [] && After(cfg, events).state.InReady? && After(cfg, events[..|events| - 1]).state.InReady?
    requires IsReport(LastStep(cfg, events).event)
    ensures TickleTimer(cfg, events) == None
  {
    var before, last := events[..|events| - 1], LastStep(cfg, events);
    assert last.pre == After(cfg, before) && Step(cfg, last.pre, last.event) == (last.post, last.fx) by { hide Step; }
    assert last.post == After(cfg, events) by { hide Step; }
    hide Step, After, LastTouch, LastStep, IsReport;
    ReportsStop(cfg, last.pre, last.event);
  }

  // ---------------------------------------------------------------- tickles

  /** The tickle timer going off a number of times. */
  function Tickles(n: nat): seq<Event> {
    seq(n, _ => TickleSerialPort)
  }

  const TIMED_OUT := "Serial port communication timed out."

  lemma {:induction false} TickleStep(cfg: Config, m: Machine)
    requires m.state.InReady?
    ensures var (m', fx) := Step(cfg, m, TickleSerialPort);
            if m.state.ready.ticklesAttempted < cfg.maxTickles then
              && m' == Machine(InReady(m.state.ready.(ticklesAttempted := m.state.ready.ticklesAttempted + 1)), m.ctx)
              && LastLine(fx) == Some(GCodeLine("M105", None, cfg.checksumTickles))
            else m'.state == Errored(TIMED_OUT)
  {
    hide PushAll;
    LastOfLine(cfg, GCodeLine("M105", None, cfg.checksumTickles), Tickle);
  }

  lemma {:induction false} NoMoreTickles(cfg: Config, m: Machine)
    requires m.state.Errored?
    ensures Step(cfg, m, TickleSerialPort).0 == m
  {
  }

  /**
   In vain, a Ready driver tickles as often as it has attempts left, each time with the same line, and is then
   in error and stays so.
   */
  lemma {:induction false} TicklesRunOut(cfg: Config, events: seq<Event>, n: nat)
    requires After(cfg, events).state.InReady? && After(cfg, events).state.ready.ticklesAttempted <= cfg.maxTickles
    ensures var m, m' := After(cfg, events), After(cfg, events + Tickles(n));
            if m.state.ready.ticklesAttempted + n <= cfg.maxTickles then
              && m' == Machine(InReady(m.state.ready.(ticklesAttempted := m.state.ready.ticklesAttempted + n)), m.ctx)
              && (n > 0 ==> LastLine(LastStep(cfg, events + Tickles(n)).fx) ==
                            Some(GCodeLine("M105", None, cfg.checksumTickles)))
            else m'.state == Errored(TIMED_OUT)
  {
    hide Step, After, LastLine;
    if n == 0 {
      assert events + Tickles(0) == events;
    } else {
      var fewer := events + Tickles(n - 1);
      assert events + Tickles(n) == fewer + [TickleSerialPort];
      TicklesRunOut(cfg, events, n - 1);
      OneMore(cfg, fewer, TickleSerialPort);
      var m := After(cfg, fewer);
      if m.state.InReady? { TickleStep(cfg, m); } else { NoMoreTickles(cfg, m); }
      assert LastStep(cfg, fewer + [TickleSerialPort]).fx == Step(cfg, m, TickleSerialPort).1 by {
        assert (fewer + [TickleSerialPort])[..|fewer + [TickleSerialPort]| - 1] == fewer;
      }
    }
  }

  /** Attempts are counted over the whole session, and never more than allowed. */
  function TickleOf(e: Effect): seq<GCodeLine> {
    if e.SendSerial? && e.origin == Tickle then [e.line] else []
  }

  function TickleLines(trace: seq<Effect>): seq<GCodeLine> { FlatMap(trace, TickleOf) }

  predicate SameTickles(before: Ready, r: Ready, fx: seq<Effect>) {
    r.ticklesAttempted == before.ticklesAttempted && TickleLines(fx) == []
  }

  lemma {:induction false} UntickledFront(cfg: Config, r: Ready, ctx: Ctx)
    requires r.tasks != [] && !FrontTurn(cfg, r, ctx).Failed?
    ensures FrontTurn(cfg, r, ctx).r.ticklesAttempted == r.ticklesAttempted
    ensures forall e :: e in FrontTurn(cfg, r, ctx).fx ==> !(e.SendSerial? && e.origin == Tickle)
  {
    hide BlankPrefix, PushProgress, Clean, Work, AfterTaking;
  }

  lemma {:induction false} UntickledTurn(cfg: Config, r: Ready, ctx: Ctx, turn: Turn)
    requires IsTurn(cfg, r, ctx, turn) && !turn.Failed?
    ensures turn.r.ticklesAttempted == r.ticklesAttempted
    ensures forall e :: e in turn.fx ==> !(e.SendSerial? && e.origin == Tickle)
  {
    hide FrontTurn, Work;
    var r1 := r.(awaitingPollingFeedback := false);
    if r.tasks != [] && !FrontTurn(cfg, r1, ctx).Failed? { UntickledFront(cfg, r1, ctx); }
  }

  lemma {:induction false} UntickledDespool(cfg: Config, r: Ready, ctx: Ctx, out: Out)
    requires (out == DespoolAll(cfg, r, ctx) || out == DespoolTask(cfg, r, ctx)) && out.err.None?
    ensures SameTickles(r, out.r, out.fx)
  {
    hide DespoolAll, DespoolTask, IsTurn;
    var inv := (trace: seq<Effect>, now: Ready, ctx: Ctx) =>
      now.ticklesAttempted == r.ticklesAttempted && forall e :: e in trace ==> !(e.SendSerial? && e.origin == Tickle);
    forall trace: seq<Effect>, now, ctx, turn | inv(trace, now, ctx) && IsTurn(cfg, now, ctx, turn) && !turn.Failed?
      ensures inv(trace + turn.fx, turn.r, turn.ctx)
    {
      UntickledTurn(cfg, now, ctx, turn);
    }
    DespoolInduction(cfg, [], r, ctx, out, inv);
    assert [] + out.fx == out.fx;
    NoTickles(out.fx);
  }

  lemma {:induction false} NoTickles(fx: seq<Effect>)
    requires forall e :: e in fx ==> !(e.SendSerial? && e.origin == Tickle)
    ensures TickleLines(fx) == []
  {
    SilentFlatMap(fx, TickleOf);
  }

  lemma {:induction false} TicklesJoin(a: seq<Effect>, b: seq<Effect>)
    ensures TickleLines(a + b) == TickleLines(a) + TickleLines(b)
  {
    FlatMapSplit(a, b, TickleOf);
  }

  lemma {:induction false} UntickledFeedback(cfg: Config, r: Ready, ctx: Ctx, feedback: Feedback)
    requires ReceiveFeedback(cfg, r, ctx, feedback).err.None?
    ensures var out := ReceiveFeedback(cfg, r, ctx, feedback); SameTickles(r, out.r, out.fx)
  {
    hide DespoolAll, TickleLines;
    if feedback == Positions(true, true) && r.mark == Some(WaitingToReachMark) {
      UntickledDespool(cfg, r.(mark := None), ctx, DespoolAll(cfg, r.(mark := None), ctx));
    } else {
      NoTickles(ReceiveFeedback(cfg, r, ctx, feedback).fx);
    }
  }

  lemma {:induction false} UntickledOk(cfg: Config, r: Ready, ctx: Ctx)
    requires ReceiveOk(cfg, r, ctx).Some? && ReceiveOk(cfg, r, ctx).value.err.None?
    ensures var out := ReceiveOk(cfg, r, ctx).value; SameTickles(r, out.r, out.fx)
  {
    hide DespoolAll, TickleLines;
    if r.onOk == Despool {
      UntickledDespool(cfg, r, ctx, DespoolAll(cfg, r, ctx));
    } else if r.onOk == TransitionToReady {
      var r1, ctx1 := r.(onOk := Despool), StateChanged(ctx, InReady(r));
      UntickledDespool(cfg, r1, ctx1, DespoolAll(cfg, r1, ctx1));
      NoTickles([SendFeedbackProtobuf]);
      TicklesJoin([SendFeedbackProtobuf], DespoolAll(cfg, r1, ctx1).fx);
    } else {
      NoTickles(ReceiveOk(cfg, r, ctx).value.fx);
    }
  }

  lemma {:induction false} UntickledOkResponse(cfg: Config, r: Ready, ctx: Ctx, feedback: Option<Feedback>)
    requires ReceiveOkResponse(cfg, r, ctx, feedback).Some? && ReceiveOkResponse(cfg, r, ctx, feedback).value.err.None?
    ensures var out := ReceiveOkResponse(cfg, r, ctx, feedback).value; SameTickles(r, out.r, out.fx)
  {
    hide ReceiveFeedback, ReceiveOk, TickleLines;
    if feedback.None? {
      UntickledOk(cfg, r, ctx);
    } else {
      var first := ReceiveFeedback(cfg, r, ctx, feedback.value);
      UntickledFeedback(cfg, r, ctx, feedback.value);
      UntickledOk(cfg, first.r, first.ctx);
      TicklesJoin(first.fx, ReceiveOk(cfg, first.r, first.ctx).value.fx);
    }
  }

  lemma {:induction false} UntickledSerial(cfg: Config, r: Ready, ctx: Ctx, response: Response)
    requires ReadySerial(cfg, r, ctx, response).0.state.InReady?
    ensures var (m, fx) := ReadySerial(cfg, r, ctx, response); SameTickles(r, m.state.ready, fx)
  {
    hide ReceiveFeedback, ReceiveOkResponse, PushAll, TickleLines;
    NoTickles([]);
    match response
    case OkResponse(feedback) => UntickledOkResponse(cfg, r, ctx, feedback);
    case FeedbackResponse(feedback) =>
      var tail := [CancelDelay(TICKLE_DELAY), SendFeedbackProtobuf];
      UntickledFeedback(cfg, r, ctx, feedback);
      NoTickles(tail);
      TicklesJoin(ReceiveFeedback(cfg, r, ctx, feedback).fx, tail);
    case _ =>
  }

  lemma {:induction false} UntickledLoad(cfg: Config, r: Ready, ctx: Ctx, s: Submission)
    requires Load(cfg, r, ctx, s).0.state.InReady?
    ensures var (m, fx) := Load(cfg, r, ctx, s); SameTickles(r, m.state.ready, fx)
  {
    hide DespoolTask, PushAll, Enqueue, Admit, TickleLines;
    NoTickles([]);
    if r.onOk == NotAwaitingOk {
      var r1, ctx1 := r.(tasks := Enqueue(r.tasks, Admit(ctx.nextKey, s))), ctx.(nextKey := ctx.nextKey + 1);
      UntickledDespool(cfg, r1, ctx1, DespoolTask(cfg, r1, ctx1));
    }
  }

  /** Each attempt writes one tickle line, and nothing else does. */
  predicate Attempts(before: Ready, r: Ready, fx: seq<Effect>) {
    r.ticklesAttempted == before.ticklesAttempted + |TickleLines(fx)|
  }

  lemma {:induction false} ReadyAttempts(cfg: Config, r: Ready, ctx: Ctx, event: Event)
    requires ReadyConsume(cfg, r, ctx, event).0.state.InReady? && r.ticklesAttempted <= cfg.maxTickles
    ensures var (m, fx) := ReadyConsume(cfg, r, ctx, event);
            Attempts(r, m.state.ready, fx) && m.state.ready.ticklesAttempted <= cfg.maxTickles
  {
    hide ReadySerial, Load, FindTask, PushProgress, PushAll, TickleLines;
    var (m, fx) := ReadyConsume(cfg, r, ctx, event);
    match event
    case SerialRec(_, response) => UntickledSerial(cfg, r, ctx, response);
    case GCodeLoaded(s) => UntickledLoad(cfg, r, ctx, s);
    case ProtobufRec(Some(SpoolTask(id, client, startAt, Some(Inline(commands)), machineOverride))) =>
      UntickledLoad(cfg, r.(loadingGCode := true), ctx,
                    Submission(id, client, commands, StartNumber(startAt), machineOverride));
    case TickleSerialPort => OneTickle(cfg, GCodeLine("M105", None, cfg.checksumTickles));
    case _ => NoTickles(fx);
  }

  lemma {:induction false} OneTickle(cfg: Config, line: GCodeLine)
    ensures TickleLines(SendLine(cfg, line, Tickle)) == [line]
  {
    var fx := SendLine(cfg, line, Tickle);
    TicklesJoin([fx[0]], [fx[1]]);
    FlatMapOne(fx[0], TickleOf);
    FlatMapOne(fx[1], TickleOf);
    assert fx == [fx[0]] + [fx[1]];
  }

  lemma {:induction false} EnteringAttempts(cfg: Config, m: Machine, event: Event)
    requires !m.state.InReady? && Step(cfg, m, event).0.state.InReady?
    ensures var (m', fx) := Step(cfg, m, event);
            m'.state.ready.ticklesAttempted == |TickleLines(fx)| <= cfg.maxTickles
  {
    hide PushAll, WithoutIds, ReadyConsume, TickleLines;
    var r, ctx := DefaultReady(m.ctx.lowKey), m.ctx.(lowKey := m.ctx.lowKey - 1);
    ReadyAttempts(cfg, r, ctx, event);
    NoTickles([CancelAllDelays]);
    TicklesJoin([CancelAllDelays], ReadyConsume(cfg, r, ctx, event).1);
  }

  lemma {:induction false} StayingAttempts(cfg: Config, m: Machine, event: Event)
    requires m.state.InReady? && Step(cfg, m, event).0.state.InReady? && m.state.ready.ticklesAttempted <= cfg.maxTickles
    ensures var (m', fx) := Step(cfg, m, event);
            Attempts(m.state.ready, m'.state.ready, fx) && m'.state.ready.ticklesAttempted <= cfg.maxTickles
  {
    hide ReadyConsume, TickleLines;
    if Common(cfg, m, event).Some? {
      CommonFlow(cfg, m, event);
      CommonWritesNothing(cfg, m, event);
      NoTickles(Step(cfg, m, event).1);
    } else {
      ReadyAttempts(cfg, m.state.ready, m.ctx, event);
    }
  }

  /**
   In every session the attempts counted are the tickle lines written, over the whole session and however many
   oks came in between, and they never exceed what is allowed.
   */
  lemma {:induction false} AttemptsAreCounted(cfg: Config, events: seq<Event>)
    requires After(cfg, events).state.InReady?
    ensures After(cfg, events).state.ready.ticklesAttempted == |TickleLines(SessionTrace(cfg, events))| <= cfg.maxTickles
  {
    SessionGrows(cfg, events);
    var before, last := events[..|events| - 1], LastStep(cfg, events);
    assert Step(cfg, last.pre, last.event) == (last.post, last.fx) && last.pre == After(cfg, before) by { hide Step; }
    assert last.post == After(cfg, events) by { hide Step; }
    hide Step, After, LastStep, Session, SessionTrace, TickleLines, PollRequests;
    if last.pre.state.InReady? {
      AttemptsAreCounted(cfg, before);
      StayingAttempts(cfg, last.pre, last.event);
      TicklesJoin(SessionTrace(cfg, before), last.fx);
    } else {
      EnteringAttempts(cfg, last.pre, last.event);
    }
  }
}
