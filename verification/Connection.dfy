/** The driver's connection over whole runs: its port, its baud rates, and what the clients are told of it. */
module Connection {
  import opened Wrappers
  import opened DriverTypes
  import opened DriverSpec
  import opened DriverRuns
  import opened SessionTheorems
  import opened FlowControl
  import opened LinesDue
  import opened EmergencyStop
  import Spooling

  // ---------------------------------------------------------------- the port

  function PortOf(port: Option<nat>, e: Effect): Option<nat> {
    match e
    case OpenSerialPort(baudRate) => Some(baudRate)
    case CloseSerialPort => None
    case _ => port
  }

  /** The baud rate at which the port is open after some effects, if it is. */
  function PortAfter(port: Option<nat>, fx: seq<Effect>): Option<nat>
    decreases |fx|
  {
    if fx == [] then port else PortAfter(PortOf(port, fx[0]), fx[1..])
  }

  function Port(cfg: Config, events: seq<Event>): Option<nat> {
    if events == [] then None else PortAfter(Port(cfg, events[..|events| - 1]), LastStep(cfg, events).fx)
  }

  /** What the state says about the port. */
  predicate PortFits(m: Machine, port: Option<nat>) {
    match m.state
    case Disconnected => port == None
    case Connecting(_) => port == Some(m.ctx.baudRate)
    case InReady(_) => port == Some(m.ctx.baudRate)
    case EStopped => port == Some(19200)
    case Errored(_) => true
    case Panicked => true
  }

  predicate NoPort(fx: seq<Effect>) {
    forall e :: e in fx ==> !e.OpenSerialPort? && !e.CloseSerialPort?
  }

  lemma {:induction false} PortUntouched(port: Option<nat>, fx: seq<Effect>)
    requires NoPort(fx)
    ensures PortAfter(port, fx) == port
  {
    if fx != [] { PortUntouched(port, fx[1..]); }
  }

  lemma {:induction false} PortOfFew(port: Option<nat>, fx: seq<Effect>)
    ensures |fx| == 2 ==> PortAfter(port, fx) == PortOf(PortOf(port, fx[0]), fx[1])
    ensures |fx| == 3 ==> PortAfter(port, fx) == PortOf(PortOf(PortOf(port, fx[0]), fx[1]), fx[2])
    ensures |fx| == 4 ==> PortAfter(port, fx) == PortOf(PortOf(PortOf(PortOf(port, fx[0]), fx[1]), fx[2]), fx[3])
  {
    if |fx| > 0 {
      var p1, rest1 := PortOf(port, fx[0]), fx[1..];
      if |rest1| > 0 {
        var p2, rest2 := PortOf(p1, rest1[0]), rest1[1..];
        if |rest2| > 0 {
          var p3, rest3 := PortOf(p2, rest2[0]), rest2[1..];
          if |rest3| > 0 { assert PortAfter(p3, rest3) == PortAfter(PortOf(p3, rest3[0]), rest3[1..]); }
          assert PortAfter(p2, rest2) == PortAfter(p3, rest3);
        }
        assert PortAfter(p1, rest1) == PortAfter(p2, rest2);
      }
      assert PortAfter(port, fx) == PortAfter(p1, rest1);
    }
  }

  lemma {:induction false} TurnNoPort(cfg: Config, r: Ready, ctx: Ctx, turn: Turn)
    requires IsTurn(cfg, r, ctx, turn) && !turn.Failed?
    ensures NoPort(turn.fx)
  {
    hide FrontTurn, Work;
    var r1 := r.(awaitingPollingFeedback := false);
    if r.tasks != [] && !FrontTurn(cfg, r1, ctx).Failed? { FrontNoPort(cfg, r1, ctx); }
  }

  lemma {:induction false} FrontNoPort(cfg: Config, r: Ready, ctx: Ctx)
    requires r.tasks != [] && !FrontTurn(cfg, r, ctx).Failed?
    ensures NoPort(FrontTurn(cfg, r, ctx).fx)
  {
    hide PushProgress, BlankPrefix, Work, Clean, AfterTaking;
  }

  lemma {:induction false} DespoolNoPort(cfg: Config, r: Ready, ctx: Ctx, out: Out)
    requires (out == DespoolAll(cfg, r, ctx) || out == DespoolTask(cfg, r, ctx)) && out.err.None?
    ensures NoPort(out.fx)
  {
    hide DespoolAll, DespoolTask, IsTurn;
    var inv := (trace: seq<Effect>, r: Ready, ctx: Ctx) => NoPort(trace);
    forall trace: seq<Effect>, r, ctx, turn | inv(trace, r, ctx) && IsTurn(cfg, r, ctx, turn) && !turn.Failed?
      ensures inv(trace + turn.fx, turn.r, turn.ctx)
    {
      TurnNoPort(cfg, r, ctx, turn);
    }
    DespoolInduction(cfg, [], r, ctx, out, inv);
    assert [] + out.fx == out.fx;
  }

  lemma {:induction false} FeedbackNoPort(cfg: Config, r: Ready, ctx: Ctx, feedback: Feedback)
    requires ReceiveFeedback(cfg, r, ctx, feedback).err.None?
    ensures NoPort(ReceiveFeedback(cfg, r, ctx, feedback).fx)
  {
    hide DespoolAll;
    if feedback == Positions(true, true) && r.mark == Some(WaitingToReachMark) {
      DespoolNoPort(cfg, r.(mark := None), ctx, DespoolAll(cfg, r.(mark := None), ctx));
    }
  }

  lemma {:induction false} OkNoPort(cfg: Config, r: Ready, ctx: Ctx)
    requires ReceiveOk(cfg, r, ctx).Some? && ReceiveOk(cfg, r, ctx).value.err.None?
    ensures NoPort(ReceiveOk(cfg, r, ctx).value.fx)
  {
    hide DespoolAll;
    if r.onOk == Despool {
      DespoolNoPort(cfg, r, ctx, DespoolAll(cfg, r, ctx));
    } else if r.onOk == TransitionToReady {
      var ctx1 := StateChanged(ctx, InReady(r));
      DespoolNoPort(cfg, r.(onOk := Despool), ctx1, DespoolAll(cfg, r.(onOk := Despool), ctx1));
    }
  }

  lemma {:induction false} SerialNoPort(cfg: Config, r: Ready, ctx: Ctx, response: Response)
    requires ReadySerial(cfg, r, ctx, response).0.state.InReady?
    ensures NoPort(ReadySerial(cfg, r, ctx, response).1)
  {
    hide ReceiveFeedback, ReceiveOk, PushAll;
    match response
    case OkResponse(feedback) =>
      if feedback.None? {
        OkNoPort(cfg, r, ctx);
      } else {
        var first := ReceiveFeedback(cfg, r, ctx, feedback.value);
        FeedbackNoPort(cfg, r, ctx, feedback.value);
        OkNoPort(cfg, first.r, first.ctx);
      }
    case FeedbackResponse(feedback) => FeedbackNoPort(cfg, r, ctx, feedback);
    case _ =>
  }

  /** While Ready the port is left alone. */
  lemma {:induction false} ReadyNoPort(cfg: Config, r: Ready, ctx: Ctx, event: Event)
    requires ReadyConsume(cfg, r, ctx, event).0.state.InReady?
    ensures var (m, fx) := ReadyConsume(cfg, r, ctx, event); NoPort(fx)
  {
    hide ReadySerial, DespoolTask, PushAll, PushProgress, Enqueue, FindTask;
    match event
    case SerialRec(_, response) => SerialNoPort(cfg, r, ctx, response);
    case GCodeLoaded(s) => LoadNoPort(cfg, r, ctx, s);
    case ProtobufRec(Some(SpoolTask(id, client, startAt, Some(Inline(commands)), machineOverride))) =>
      LoadNoPort(cfg, r.(loadingGCode := true), ctx, Submission(id, client, commands, StartNumber(startAt), machineOverride));
    case _ =>
  }

  lemma {:induction false} LoadNoPort(cfg: Config, r: Ready, ctx: Ctx, s: Submission)
    requires Load(cfg, r, ctx, s).0.state.InReady?
    ensures NoPort(Load(cfg, r, ctx, s).1)
  {
    hide DespoolTask, PushAll, Enqueue;
    if r.onOk == NotAwaitingOk {
      var r1, ctx1 := r.(tasks := Enqueue(r.tasks, Admit(ctx.nextKey, s))), ctx.(nextKey := ctx.nextKey + 1);
      DespoolNoPort(cfg, r1, ctx1, DespoolTask(cfg, r1, ctx1));
    }
  }

  lemma {:induction false} SerialBaud(cfg: Config, r: Ready, ctx: Ctx, response: Response)
    ensures ReadySerial(cfg, r, ctx, response).0.ctx.baudRate == ctx.baudRate
  {
    hide DespoolAll, PushAll;
  }

  lemma {:induction false} ReadyBaud(cfg: Config, r: Ready, ctx: Ctx, event: Event)
    ensures ReadyConsume(cfg, r, ctx, event).0.ctx.baudRate == ctx.baudRate
  {
    hide ReadySerial, DespoolTask, PushAll, PushProgress, Enqueue, FindTask;
    if event.SerialRec? { SerialBaud(cfg, r, ctx, event.response); }
  }

  lemma {:induction false} LeavingPort(cfg: Config, r: Ready, ctx: Ctx, event: Event, port: Option<nat>)
    requires !ReadyConsume(cfg, r, ctx, event).0.state.InReady?
    ensures var (m, fx) := ReadyConsume(cfg, r, ctx, event);
            && (m.state.Disconnected? || m.state.Errored? || m.state.Panicked?)
            && (m.state.Disconnected? ==> PortAfter(port, fx) == None)
  {
    hide ReadySerial, DespoolTask, PushAll, PushProgress, Enqueue, FindTask;
    var fx := ReadyConsume(cfg, r, ctx, event).1;
    PortOfFew(port, fx);
    if event.SerialRec? { hide PushAll; LeavingBySerial(cfg, r, ctx, event.response); }
  }

  lemma {:induction false} LeavingBySerial(cfg: Config, r: Ready, ctx: Ctx, response: Response)
    ensures var state := ReadySerial(cfg, r, ctx, response).0.state; state.InReady? || state.Errored? || state.Panicked?
  {
    hide ReceiveOkResponse, ReceiveFeedback, PushAll;
  }

  lemma {:induction false} ReadyPort(cfg: Config, r: Ready, ctx: Ctx, event: Event, port: Option<nat>)
    requires port == Some(ctx.baudRate)
    ensures var (m, fx) := ReadyConsume(cfg, r, ctx, event); PortFits(m, PortAfter(port, fx))
  {
    hide ReadyConsume;
    ReadyBaud(cfg, r, ctx, event);
    if ReadyConsume(cfg, r, ctx, event).0.state.InReady? {
      ReadyNoPort(cfg, r, ctx, event);
      PortUntouched(port, ReadyConsume(cfg, r, ctx, event).1);
    } else {
      LeavingPort(cfg, r, ctx, event, port);
    }
  }

  lemma {:induction false} FirstOkPort(cfg: Config, m: Machine, event: Event, port: Option<nat>)
    requires port == Some(m.ctx.baudRate)
    ensures var (m', fx) := FirstOk(cfg, m.ctx, event); PortFits(m', PortAfter(port, fx))
  {
    hide ReadyConsume;
    var r, ctx := DefaultReady(m.ctx.lowKey), m.ctx.(lowKey := m.ctx.lowKey - 1);
    var fx := ReadyConsume(cfg, r, ctx, event).1;
    ReadyPort(cfg, r, ctx, event, port);
    assert ([CancelAllDelays] + fx)[1..] == fx;
  }

  lemma {:induction false} IdlePort(cfg: Config, m: Machine, event: Event, port: Option<nat>)
    requires !m.state.InReady? && !m.state.Panicked? && PortFits(m, port) && Common(cfg, m, event).None?
    ensures var (m', fx) := IdleConsume(cfg, m, event); PortFits(m', PortAfter(port, fx))
  {
    hide PushAll, FirstOk, ReadyConsume;
    var (m', fx) := IdleConsume(cfg, m, event);
    if m.state.Connecting? && event.SerialRec? && event.response.OkResponse? {
      FirstOkPort(cfg, m, event, port);
    } else if NoPort(fx) {
      PortUntouched(port, fx);
    } else {
      PortOfFew(port, fx);
    }
  }

  lemma {:induction false} CommonPort(cfg: Config, m: Machine, event: Event, port: Option<nat>)
    requires PortFits(m, port) && !m.state.Panicked? && Common(cfg, m, event).Some?
    ensures var (m', fx) := Common(cfg, m, event).value; PortFits(m', PortAfter(port, fx))
  {
    hide PushAll, WithoutIds, Reconnect, PortAfter;
    var (m', fx) := Common(cfg, m, event).value;
    if m.state.Disconnected? { ReconnectPort(cfg, m, port); }
    PortOfFew(port, fx);
    if NoPort(fx) { PortUntouched(port, fx); }
  }

  lemma {:induction false} ReconnectPort(cfg: Config, m: Machine, port: Option<nat>)
    requires !m.state.InReady? && !m.state.Panicked?
    ensures var (m', fx) := Reconnect(cfg, m); PortFits(m', PortAfter(port, fx))
  {
    hide PortAfter;
    PortOfFew(port, Reconnect(cfg, m).1);
  }

  lemma {:induction false} StepPort(cfg: Config, m: Machine, event: Event, port: Option<nat>)
    requires PortFits(m, port)
    ensures var (m', fx) := Step(cfg, m, event); PortFits(m', PortAfter(port, fx))
  {
    hide Common, ReadyConsume, IdleConsume, PortAfter;
    if !m.state.Panicked? {
      if Common(cfg, m, event).Some? { CommonPort(cfg, m, event, port); }
      else if m.state.InReady? { ReadyPort(cfg, m.state.ready, m.ctx, event, port); }
      else { IdlePort(cfg, m, event, port); }
    }
  }

  /**
   After every run: a disconnected driver has closed its port, a connecting or Ready one has it open at the
   rate it reports, and a stopped one at 19200.
   */
  lemma {:induction false} PortFollowsState(cfg: Config, events: seq<Event>)
    ensures PortFits(After(cfg, events), Port(cfg, events))
  {
    if events != [] {
      hide Step, PortFits;
      var before := events[..|events| - 1];
      PortFollowsState(cfg, before);
      StepPort(cfg, After(cfg, before), events[|events| - 1], Port(cfg, before));
    } else {
      assert PortFits(Start(), None);
    }
  }

  // ---------------------------------------------------------------- baud rates

  /**
   The rates a driver tries, in turn: the likely ones first if it is to detect the rate, and the configured one
   last.
   */
  function Rates(cfg: Config): seq<nat> {
    (if cfg.autoBaud then [115200, 250000, 230400, 57600, 38400, 19200, 9600] else []) + [cfg.baudRate]
  }

  /** Attempts that time out. */
  function Timeouts(n: nat): seq<Event> {
    seq(n, _ => ConnectionTimeout)
  }

  /** The candidates left after `n` attempts, the next one at the end. */
  predicate LeftAfter(cfg: Config, n: nat, left: seq<nat>) {
    |left| + n == |Rates(cfg)| && forall i :: 0 <= i < |left| ==> left[i] == Rates(cfg)[|Rates(cfg)| - 1 - i]
  }

  lemma {:induction false} FirstAttempt(cfg: Config, m: Machine)
    requires m.state.Disconnected?
    ensures var (m', fx) := Step(cfg, m, DISCOVERED);
            && m'.state.Connecting? && m'.ctx.baudRate == Rates(cfg)[0] && LeftAfter(cfg, 1, m'.state.baudRates)
            && Delay("connection_timeout", cfg.connectionTimeout, ConnectionTimeout) in fx
  {
  }

  lemma {:induction false} NextAttempt(cfg: Config, m: Machine, n: nat)
    requires m.state.Connecting? && LeftAfter(cfg, n, m.state.baudRates)
    ensures var (m', fx) := Step(cfg, m, ConnectionTimeout);
            if n < |Rates(cfg)| then
              && m'.state.Connecting? && m'.ctx.baudRate == Rates(cfg)[n] && LeftAfter(cfg, n + 1, m'.state.baudRates)
              && Delay("connection_timeout", cfg.connectionTimeout, ConnectionTimeout) in fx
            else m'.state.Disconnected?
  {
    hide Rates, PushAll;
  }

  /**
   A disconnected driver that discovers a device and hears nothing tries each of the rates once, in turn, each
   for as long as it is configured to wait, and is then disconnected again.
   */
  lemma {:induction false} RatesAreTriedInTurn(cfg: Config, events: seq<Event>, n: nat)
    requires After(cfg, events).state.Disconnected? && n <= |Rates(cfg)|
    ensures var all := events + [DISCOVERED] + Timeouts(n);
            var m := After(cfg, all);
            if n < |Rates(cfg)| then
              && m.state.Connecting? && m.ctx.baudRate == Rates(cfg)[n] && Port(cfg, all) == Some(Rates(cfg)[n])
              && LeftAfter(cfg, n + 1, m.state.baudRates)
              && Delay("connection_timeout", cfg.connectionTimeout, ConnectionTimeout) in LastStep(cfg, all).fx
            else m.state.Disconnected? && Port(cfg, all) == None
  {
    var all := events + [DISCOVERED] + Timeouts(n);
    PortFollowsState(cfg, all);
    hide Step, After, Rates, LeftAfter, Port;
    if n == 0 {
      assert all == events + [DISCOVERED];
      OneMore(cfg, events, DISCOVERED);
      Spooling.FxOfLast(cfg, events, DISCOVERED);
      FirstAttempt(cfg, After(cfg, events));
    } else {
      var before := events + [DISCOVERED] + Timeouts(n - 1);
      RatesAreTriedInTurn(cfg, events, n - 1);
      assert all == before + [ConnectionTimeout];
      OneMore(cfg, before, ConnectionTimeout);
      Spooling.FxOfLast(cfg, before, ConnectionTimeout);
      NextAttempt(cfg, After(cfg, before), n);
    }
  }

  // ---------------------------------------------------------------- what the clients see

  /** The status that goes with a state, but for a Ready driver that was not announced. */
  predicate StatusFits(m: Machine, announced: bool) {
    match m.state
    case Disconnected => m.ctx.status == StatusDisconnected && m.ctx.error == None
    case Connecting(_) => m.ctx.status == StatusConnecting && m.ctx.error == None
    case InReady(r) =>
      && m.ctx.status == (if announced then StatusReady else StatusConnecting) && m.ctx.error == None
      && r.onOk != TransitionToReady
    case Errored(message) => m.ctx.status == StatusErrored && m.ctx.error == Some(message)
    case EStopped => m.ctx.status == StatusEStopped && m.ctx.error == None
    case Panicked => true
  }

  /** The ok that began the session came without a report that the printer is paused for its user. */
  predicate Announced(cfg: Config, events: seq<Event>) {
    var steps := Session(cfg, events);
    steps != [] && FeedbackOf(steps[0].event) != Some(BusyPausedForUser)
  }

  predicate SameStatus(ctx: Ctx, ctx': Ctx) {
    ctx'.status == ctx.status && ctx'.error == ctx.error
  }

  lemma {:induction false} SettlesOnOk(cfg: Config, r: Ready, ctx: Ctx, out: Out)
    requires out == DespoolAll(cfg, r, ctx) || out == DespoolTask(cfg, r, ctx)
    requires out.err.None?
    ensures out.r.onOk == Despool || out.r.onOk == NotAwaitingOk
    ensures SameStatus(ctx, out.ctx)
  {
    DespoolEnds(cfg, r, ctx, out);
    hide DespoolTurn, TaskTurn;
  }

  lemma {:induction false} FeedbackStatus(cfg: Config, r: Ready, ctx: Ctx, feedback: Feedback)
    requires ReceiveFeedback(cfg, r, ctx, feedback).err.None? && (r.onOk == TransitionToReady ==> r.mark == None)
    ensures var out := ReceiveFeedback(cfg, r, ctx, feedback);
            && SameStatus(ctx, out.ctx)
            && (out.r.onOk == TransitionToReady <==> r.onOk == TransitionToReady && feedback != BusyPausedForUser)
  {
    hide DespoolAll;
    if feedback == Positions(true, true) && r.mark == Some(WaitingToReachMark) {
      SettlesOnOk(cfg, r.(mark := None), ctx, DespoolAll(cfg, r.(mark := None), ctx));
    }
  }

  lemma {:induction false} OkStatus(cfg: Config, r: Ready, ctx: Ctx)
    requires ReceiveOk(cfg, r, ctx).Some? && ReceiveOk(cfg, r, ctx).value.err.None?
    ensures var out := ReceiveOk(cfg, r, ctx).value;
            && out.r.onOk != TransitionToReady
            && if r.onOk == TransitionToReady then out.ctx.status == StatusReady && out.ctx.error == None
               else SameStatus(ctx, out.ctx)
  {
    hide DespoolAll;
    if r.onOk == Despool { SettlesOnOk(cfg, r, ctx, DespoolAll(cfg, r, ctx)); }
    if r.onOk == TransitionToReady {
      var r1, ctx1 := r.(onOk := Despool), StateChanged(ctx, InReady(r));
      SettlesOnOk(cfg, r1, ctx1, DespoolAll(cfg, r1, ctx1));
    }
  }

  /** The first ok announces the driver as Ready; later ones change no status. */
  lemma {:induction false} OkResponseStatus(cfg: Config, r: Ready, ctx: Ctx, feedback: Option<Feedback>)
    requires ReceiveOkResponse(cfg, r, ctx, feedback).Some? && ReceiveOkResponse(cfg, r, ctx, feedback).value.err.None?
    requires r.onOk == TransitionToReady ==> r.mark == None
    ensures var out := ReceiveOkResponse(cfg, r, ctx, feedback).value;
            && out.r.onOk != TransitionToReady
            && if r.onOk == TransitionToReady && feedback != Some(BusyPausedForUser)
               then out.ctx.status == StatusReady && out.ctx.error == None
               else SameStatus(ctx, out.ctx)
  {
    hide ReceiveFeedback, ReceiveOk;
    if feedback.None? {
      OkStatus(cfg, r, ctx);
    } else {
      var first := ReceiveFeedback(cfg, r, ctx, feedback.value);
      FeedbackStatus(cfg, r, ctx, feedback.value);
      OkStatus(cfg, first.r, first.ctx);
    }
  }

  lemma {:induction false} SerialStatus(cfg: Config, r: Ready, ctx: Ctx, response: Response)
    requires r.onOk != TransitionToReady
    ensures var m := ReadySerial(cfg, r, ctx, response).0;
            if m.state.InReady? then m.state.ready.onOk != TransitionToReady && SameStatus(ctx, m.ctx)
            else StatusFits(m, true)
  {
    hide ReceiveFeedback, ReceiveOkResponse, PushAll;
    match response
    case OkResponse(feedback) =>
      var result := ReceiveOkResponse(cfg, r, ctx, feedback);
      if result.Some? && result.value.err.None? { OkResponseStatus(cfg, r, ctx, feedback); }
    case FeedbackResponse(feedback) =>
      if ReceiveFeedback(cfg, r, ctx, feedback).err.None? { FeedbackStatus(cfg, r, ctx, feedback); }
    case _ =>
  }

  lemma {:induction false} LoadStatus(cfg: Config, r: Ready, ctx: Ctx, s: Submission)
    requires r.onOk != TransitionToReady
    ensures var m := Load(cfg, r, ctx, s).0;
            if m.state.InReady? then m.state.ready.onOk != TransitionToReady && SameStatus(ctx, m.ctx)
            else StatusFits(m, true)
  {
    hide DespoolTask, PushAll, Enqueue;
    if r.onOk == NotAwaitingOk {
      var r1, ctx1 := r.(tasks := Enqueue(r.tasks, Admit(ctx.nextKey, s))), ctx.(nextKey := ctx.nextKey + 1);
      var out := DespoolTask(cfg, r1, ctx1);
      if out.err.None? { SettlesOnOk(cfg, r1, ctx1, out); }
    }
  }

  lemma {:induction false} ReadyStatus(cfg: Config, r: Ready, ctx: Ctx, event: Event)
    requires r.onOk != TransitionToReady
    ensures var m := ReadyConsume(cfg, r, ctx, event).0;
            if m.state.InReady? then m.state.ready.onOk != TransitionToReady && SameStatus(ctx, m.ctx)
            else StatusFits(m, true)
  {
    hide ReadySerial, Load, PushAll, PushProgress, FindTask;
    match event
    case SerialRec(_, response) => SerialStatus(cfg, r, ctx, response);
    case GCodeLoaded(s) => LoadStatus(cfg, r, ctx, s);
    case ProtobufRec(Some(SpoolTask(id, client, startAt, Some(Inline(commands)), machineOverride))) =>
      LoadStatus(cfg, r.(loadingGCode := true), ctx, Submission(id, client, commands, StartNumber(startAt), machineOverride));
    case _ =>
  }

  lemma {:induction false} EnteringStatus(cfg: Config, m: Machine, event: Event)
    requires !m.state.InReady? && Step(cfg, m, event).0.state.InReady? && StatusFits(m, true)
    ensures StatusFits(Step(cfg, m, event).0, FeedbackOf(event) != Some(BusyPausedForUser))
  {
    hide PushAll, WithoutIds, ReceiveOkResponse;
    var r, ctx := DefaultReady(m.ctx.lowKey), m.ctx.(lowKey := m.ctx.lowKey - 1);
    OkResponseStatus(cfg, r, ctx, event.response.feedback);
  }

  lemma {:induction false} OutsideStatus(cfg: Config, m: Machine, event: Event)
    requires !m.state.InReady? && StatusFits(m, true) && !Step(cfg, m, event).0.state.InReady?
    ensures StatusFits(Step(cfg, m, event).0, true)
  {
    hide PushAll, WithoutIds, ReceiveOkResponse;
  }

  lemma {:induction false} StayingStatus(cfg: Config, m: Machine, event: Event, announced: bool)
    requires m.state.InReady? && StatusFits(m, announced)
    ensures StatusFits(Step(cfg, m, event).0, announced)
  {
    hide PushAll, WithoutIds, ReadyConsume;
    if Common(cfg, m, event).None? { ReadyStatus(cfg, m.state.ready, m.ctx, event); }
  }

  /**
   After every run the clients see the state the driver is in, and the message of an error. The exception is a
   session that began while the printer was paused for its user: it is shown as connecting throughout.
   */
  lemma {:induction false} StatusFollowsState(cfg: Config, events: seq<Event>)
    ensures var m := After(cfg, events); StatusFits(m, m.state.InReady? ==> Announced(cfg, events))
  {
    if events == [] {
      assert StatusFits(Start(), true);
    } else {
      var before, event := events[..|events| - 1], events[|events| - 1];
      var m, m' := After(cfg, before), After(cfg, events);
      StatusFollowsState(cfg, before);
      hide Step, StatusFits;
      if m'.state.InReady? { SessionGrows(cfg, events); }
      if m.state.InReady? {
        StayingStatus(cfg, m, event, Announced(cfg, before));
        if !m'.state.InReady? { LeftStatus(m', Announced(cfg, before)); }
      } else if m'.state.InReady? {
        EnteringStatus(cfg, m, event);
      } else {
        OutsideStatus(cfg, m, event);
      }
    }
  }

  lemma {:induction false} LeftStatus(m: Machine, announced: bool)
    requires StatusFits(m, announced) && !m.state.InReady?
    ensures StatusFits(m, true)
  {
  }
}
