/**
 The reactor's keyed timers: effects arm and cancel them, and they fire as events. Whatever happens to the
 driver, only timers that its state can handle are armed.
 */
module Reactor {
  import opened Wrappers
  import opened DriverTypes
  import opened DriverSpec
  import opened DriverRuns

  /** The timers by key, with the event each one fires; a timer that has fired keeps its entry. */
  type Delays = map<string, Event>

  const POLLING_DELAY := "polling_delay"
  const CONNECTION_TIMEOUT := "connection_timeout"

  // ---------------------------------------------------------------- performing effects

  function Perform(delays: Delays, e: Effect): Delays {
    match e
    case Delay(name, _, event) => delays[name := event]
    case CancelDelay(name) => delays - {name}
    case CancelAllDelays => map[]
    case _ => delays
  }

  function PerformAll(delays: Delays, fx: seq<Effect>): Delays
    decreases |fx|
  {
    if fx == [] then delays else PerformAll(Perform(delays, fx[0]), fx[1..])
  }

  class Timers {
    var delays: Delays

    constructor ()
      ensures delays == map[]
    {
      delays := map[];
    }

    method Exec(e: Effect)
      modifies this
      ensures delays == Perform(old(delays), e)
    {
      match e
      case Delay(name, _, event) =>
        // The previous delay of the key is aborted and replaced.
        delays := (delays - {name})[name := event];
      case CancelDelay(name) =>
        if name in delays { delays := delays - {name}; }
      case CancelAllDelays =>
        delays := map[];
      case _ =>
    }

    method ExecAll(fx: seq<Effect>)
      modifies this
      ensures delays == PerformAll(old(delays), fx)
    {
      for i := 0 to |fx|
        invariant PerformAll(delays, fx[i..]) == PerformAll(old(delays), fx)
      {
        Exec(fx[i]);
      }
    }
  }

  lemma {:induction false} PerformSplit(delays: Delays, a: seq<Effect>, b: seq<Effect>)
    ensures PerformAll(delays, a + b) == PerformAll(PerformAll(delays, a), b)
    decreases |a|
  {
    if a == [] {
      assert a + b == b;
    } else {
      assert (a + b)[1..] == a[1..] + b;
      PerformSplit(Perform(delays, a[0]), a[1..], b);
    }
  }

  // ---------------------------------------------------------------- which timers a state allows

  predicate IsTickle(name: string, event: Event) {
    name == TICKLE_DELAY && event == TickleSerialPort
  }

  predicate IsReadyTimer(name: string, event: Event) {
    IsTickle(name, event) || (name == POLLING_DELAY && event == PollFeedback)
  }

  predicate IsConnectingTimer(name: string, event: Event) {
    IsTickle(name, event) || (name == CONNECTION_TIMEOUT && event == ConnectionTimeout)
  }

  /** Only timers for which the state has a use. */
  predicate Allowed(state: State, delays: Delays) {
    match state
    case InReady(_) => forall name :: name in delays ==> IsReadyTimer(name, delays[name])
    case Connecting(_) =>
      CONNECTION_TIMEOUT in delays && forall name :: name in delays ==> IsConnectingTimer(name, delays[name])
    case Panicked => true
    case _ => delays == map[]
  }

  /** Effects that arm nothing but timers of Ready. */
  predicate ArmsReady(fx: seq<Effect>) {
    forall e :: e in fx && e.Delay? ==> IsReadyTimer(e.name, e.event)
  }

  lemma {:induction false} ReadyStays(state: State, delays: Delays, fx: seq<Effect>)
    requires state.InReady? && Allowed(state, delays) && ArmsReady(fx)
    ensures Allowed(state, PerformAll(delays, fx))
    decreases |fx|
  {
    if fx != [] {
      assert fx[0] in fx;
      ReadyStays(state, Perform(delays, fx[0]), fx[1..]);
    }
  }

  lemma {:induction false} FrontArmsReady(cfg: Config, r: Ready, ctx: Ctx)
    requires r.tasks != [] && !FrontTurn(cfg, r, ctx).Failed?
    ensures ArmsReady(FrontTurn(cfg, r, ctx).fx)
  {
    hide PushProgress, BlankPrefix, Work, Clean;
  }

  lemma {:induction false} TurnsArmReady(cfg: Config, r: Ready, ctx: Ctx, turn: Turn)
    requires IsTurn(cfg, r, ctx, turn) && !turn.Failed?
    ensures ArmsReady(turn.fx)
  {
    hide FrontTurn, Work;
    var r1 := r.(awaitingPollingFeedback := false);
    if r.tasks != [] && !FrontTurn(cfg, r1, ctx).Failed? { FrontArmsReady(cfg, r1, ctx); }
  }

  lemma {:induction false} DespoolArmsReady(cfg: Config, r: Ready, ctx: Ctx, out: Out)
    requires (out == DespoolAll(cfg, r, ctx) || out == DespoolTask(cfg, r, ctx)) && out.err.None?
    ensures ArmsReady(out.fx)
  {
    hide DespoolAll, DespoolTask, IsTurn;
    var inv := (trace: seq<Effect>, r: Ready, ctx: Ctx) => ArmsReady(trace);
    forall trace: seq<Effect>, r, ctx, turn | inv(trace, r, ctx) && IsTurn(cfg, r, ctx, turn) && !turn.Failed?
      ensures inv(trace + turn.fx, turn.r, turn.ctx)
    {
      TurnsArmReady(cfg, r, ctx, turn);
    }
    DespoolInduction(cfg, [], r, ctx, out, inv);
    assert [] + out.fx == out.fx;
  }

  lemma {:induction false} FeedbackArmsReady(cfg: Config, r: Ready, ctx: Ctx, feedback: Feedback)
    requires ReceiveFeedback(cfg, r, ctx, feedback).err.None?
    ensures ArmsReady(ReceiveFeedback(cfg, r, ctx, feedback).fx)
  {
    hide DespoolAll;
    if feedback == Positions(true, true) && r.mark == Some(WaitingToReachMark) {
      DespoolArmsReady(cfg, r.(mark := None), ctx, DespoolAll(cfg, r.(mark := None), ctx));
    }
  }

  lemma {:induction false} OkArmsReady(cfg: Config, r: Ready, ctx: Ctx)
    requires ReceiveOk(cfg, r, ctx).Some? && ReceiveOk(cfg, r, ctx).value.err.None?
    ensures ArmsReady(ReceiveOk(cfg, r, ctx).value.fx)
  {
    hide DespoolAll;
    if r.onOk == Despool {
      DespoolArmsReady(cfg, r, ctx, DespoolAll(cfg, r, ctx));
    } else if r.onOk == TransitionToReady {
      var ctx1 := StateChanged(ctx, InReady(r));
      DespoolArmsReady(cfg, r.(onOk := Despool), ctx1, DespoolAll(cfg, r.(onOk := Despool), ctx1));
    }
  }

  lemma {:induction false} OkResponseArmsReady(cfg: Config, r: Ready, ctx: Ctx, feedback: Option<Feedback>)
    requires ReceiveOkResponse(cfg, r, ctx, feedback).Some? && ReceiveOkResponse(cfg, r, ctx, feedback).value.err.None?
    ensures ArmsReady(ReceiveOkResponse(cfg, r, ctx, feedback).value.fx)
  {
    hide ReceiveFeedback, ReceiveOk;
    if feedback.None? {
      OkArmsReady(cfg, r, ctx);
    } else {
      var first := ReceiveFeedback(cfg, r, ctx, feedback.value);
      FeedbackArmsReady(cfg, r, ctx, feedback.value);
      OkArmsReady(cfg, first.r, first.ctx);
    }
  }

  lemma {:induction false} SerialArmsReady(cfg: Config, r: Ready, ctx: Ctx, response: Response)
    requires ReadySerial(cfg, r, ctx, response).0.state.InReady?
    ensures ArmsReady(ReadySerial(cfg, r, ctx, response).1)
  {
    hide ReceiveFeedback, ReceiveOkResponse, PushAll;
    match response
    case OkResponse(feedback) => OkResponseArmsReady(cfg, r, ctx, feedback);
    case FeedbackResponse(feedback) => FeedbackArmsReady(cfg, r, ctx, feedback);
    case _ =>
  }

  lemma {:induction false} LoadArmsReady(cfg: Config, r: Ready, ctx: Ctx, s: Submission)
    requires Load(cfg, r, ctx, s).0.state.InReady?
    ensures ArmsReady(Load(cfg, r, ctx, s).1)
  {
    hide DespoolTask, PushAll, Enqueue;
    if r.onOk == NotAwaitingOk {
      var r1, ctx1 := r.(tasks := Enqueue(r.tasks, Admit(ctx.nextKey, s))), ctx.(nextKey := ctx.nextKey + 1);
      DespoolArmsReady(cfg, r1, ctx1, DespoolTask(cfg, r1, ctx1));
    }
  }

  /** While Ready only timers of Ready are armed. */
  lemma {:induction false} ReadyArmsReady(cfg: Config, r: Ready, ctx: Ctx, event: Event)
    requires ReadyConsume(cfg, r, ctx, event).0.state.InReady?
    ensures ArmsReady(ReadyConsume(cfg, r, ctx, event).1)
  {
    hide ReadySerial, Load, PushAll, PushProgress, FindTask;
    match event
    case SerialRec(_, response) => SerialArmsReady(cfg, r, ctx, response);
    case GCodeLoaded(s) => LoadArmsReady(cfg, r, ctx, s);
    case ProtobufRec(Some(SpoolTask(id, client, startAt, Some(Inline(commands)), machineOverride))) =>
      LoadArmsReady(cfg, r.(loadingGCode := true), ctx,
                    Submission(id, client, commands, StartNumber(startAt), machineOverride));
    case _ =>
  }

  /** Whoever leaves Ready cancels every timer. */
  lemma {:induction false} LeavingReadyCancels(cfg: Config, r: Ready, ctx: Ctx, event: Event, delays: Delays)
    requires !ReadyConsume(cfg, r, ctx, event).0.state.InReady? && !ReadyConsume(cfg, r, ctx, event).0.state.Panicked?
    ensures PerformAll(delays, ReadyConsume(cfg, r, ctx, event).1) == map[]
    ensures ReadyConsume(cfg, r, ctx, event).0.state.Errored? || ReadyConsume(cfg, r, ctx, event).0.state.Disconnected?
  {
    hide ReadySerial, DespoolTask, PushAll, PushProgress, Enqueue, FindTask, PerformAll;
    if event.SerialRec? { SerialLeavingCancels(cfg, r, ctx, event.response); }
    CancelsAll(delays, ReadyConsume(cfg, r, ctx, event).1);
  }

  lemma {:induction false} SerialLeavingCancels(cfg: Config, r: Ready, ctx: Ctx, response: Response)
    requires var m := ReadySerial(cfg, r, ctx, response).0; !m.state.InReady? && !m.state.Panicked?
    ensures ReadySerial(cfg, r, ctx, response).0.state.Errored?
    ensures ReadySerial(cfg, r, ctx, response).1 == [CancelAllDelays, SendFeedbackProtobuf]
  {
    hide ReceiveFeedback, ReceiveOkResponse, PushAll;
  }

  lemma {:induction false} CancelsAll(delays: Delays, fx: seq<Effect>)
    requires fx == [CancelAllDelays, SendFeedbackProtobuf] || fx == [CancelAllDelays, CloseSerialPort, SendFeedbackProtobuf]
    ensures PerformAll(delays, fx) == map[]
  {
    assert fx[1..] == [SendFeedbackProtobuf] || fx[1..] == [CloseSerialPort, SendFeedbackProtobuf];
    assert [CloseSerialPort, SendFeedbackProtobuf][1..] == [SendFeedbackProtobuf];
    assert [SendFeedbackProtobuf][1..] == [];
  }

  // ---------------------------------------------------------------- every step and every run

  /** Connecting, and whatever else happens outside Ready, arms nothing but timers of Connecting. */
  lemma {:induction false} IdleFits(cfg: Config, m: Machine, event: Event, delays: Delays)
    requires !m.state.InReady? && !m.state.Panicked? && Allowed(m.state, delays)
    requires Common(cfg, m, event).None? && !FirstOkOf(m, event)
    ensures var (m', fx) := IdleConsume(cfg, m, event); Allowed(m'.state, PerformAll(delays, fx))
  {
    hide PushAll, FirstOk;
    var (m', fx) := IdleConsume(cfg, m, event);
    Shapes(delays, fx);
  }

  /** The first ok while connecting. */
  predicate FirstOkOf(m: Machine, event: Event) {
    m.state.Connecting? && event.SerialRec? && event.response.OkResponse?
  }

  /** Short lists of effects, performed. */
  lemma {:induction false} Shapes(delays: Delays, fx: seq<Effect>)
    ensures fx == [] ==> PerformAll(delays, fx) == delays
    ensures |fx| == 1 ==> PerformAll(delays, fx) == Perform(delays, fx[0])
    ensures |fx| == 2 ==> PerformAll(delays, fx) == Perform(Perform(delays, fx[0]), fx[1])
    ensures |fx| == 3 ==> PerformAll(delays, fx) == Perform(Perform(Perform(delays, fx[0]), fx[1]), fx[2])
    ensures |fx| == 4 ==> PerformAll(delays, fx) == Perform(Perform(Perform(Perform(delays, fx[0]), fx[1]), fx[2]), fx[3])
  {
    if |fx| > 0 {
      var d1, rest1 := Perform(delays, fx[0]), fx[1..];
      if |rest1| > 0 {
        var d2, rest2 := Perform(d1, rest1[0]), rest1[1..];
        if |rest2| > 0 {
          var d3, rest3 := Perform(d2, rest2[0]), rest2[1..];
          if |rest3| > 0 { assert PerformAll(d3, rest3) == PerformAll(Perform(d3, rest3[0]), rest3[1..]); }
          assert PerformAll(d2, rest2) == PerformAll(d3, rest3);
        }
        assert PerformAll(d1, rest1) == PerformAll(d2, rest2);
      }
      assert PerformAll(delays, fx) == PerformAll(d1, rest1);
    }
  }

  lemma {:induction false} CommonFits(cfg: Config, m: Machine, event: Event, delays: Delays)
    requires Allowed(m.state, delays) && Common(cfg, m, event).Some?
    ensures var (m', fx) := Common(cfg, m, event).value; Allowed(m'.state, PerformAll(delays, fx))
  {
    hide PushAll, WithoutIds;
    var (m', fx) := Common(cfg, m, event).value;
    Shapes(delays, fx);
  }

  lemma {:induction false} StepFits(cfg: Config, m: Machine, event: Event, delays: Delays)
    requires Allowed(m.state, delays)
    ensures var (m', fx) := Step(cfg, m, event); Allowed(m'.state, PerformAll(delays, fx))
  {
    hide Common, IdleConsume, ReadyConsume;
    if Common(cfg, m, event).Some? {
      CommonFits(cfg, m, event, delays);
    } else if m.state.InReady? {
      ReadyFits(cfg, m.state.ready, m.ctx, event, delays);
    } else if !m.state.Panicked? && !FirstOkOf(m, event) {
      IdleFits(cfg, m, event, delays);
    } else if !m.state.Panicked? {
      FirstOkFits(cfg, m, event, delays);
    }
  }

  lemma {:induction false} ReadyFits(cfg: Config, r: Ready, ctx: Ctx, event: Event, delays: Delays)
    requires Allowed(InReady(r), delays)
    ensures var (m', fx) := ReadyConsume(cfg, r, ctx, event); Allowed(m'.state, PerformAll(delays, fx))
  {
    hide ReadyConsume;
    var (m', fx) := ReadyConsume(cfg, r, ctx, event);
    if m'.state.InReady? {
      ReadyArmsReady(cfg, r, ctx, event);
      ReadyStays(m'.state, delays, fx);
    } else if !m'.state.Panicked? {
      LeavingReadyCancels(cfg, r, ctx, event, delays);
    }
  }

  lemma {:induction false} FirstOkFits(cfg: Config, m: Machine, event: Event, delays: Delays)
    requires FirstOkOf(m, event)
    ensures var (m', fx) := IdleConsume(cfg, m, event); Allowed(m'.state, PerformAll(delays, fx))
  {
    hide ReadyConsume, DefaultReady, ToErrored, PerformAll;
    var r, ctx := DefaultReady(m.ctx.lowKey), m.ctx.(lowKey := m.ctx.lowKey - 1);
    var (m', fx) := ReadyConsume(cfg, r, ctx, event);
    ReadyFits(cfg, r, ctx, event, map[]);
    PerformSplit(delays, [CancelAllDelays], fx);
    Shapes(delays, [CancelAllDelays]);
  }

  /** The timers after a run. */
  function DelaysAfter(cfg: Config, events: seq<Event>): Delays {
    if events == [] then map[] else PerformAll(DelaysAfter(cfg, events[..|events| - 1]), LastStep(cfg, events).fx)
  }

  /**
   After every run: outside Connecting and Ready no timer is armed at all, while Ready only the tickle and
   the poll, while Connecting only the tickle and the connection timeout, and that one always.
   */
  lemma {:induction false} TimersFitTheState(cfg: Config, events: seq<Event>)
    ensures Allowed(After(cfg, events).state, DelaysAfter(cfg, events))
  {
    if events != [] {
      hide Step, Allowed;
      var before := events[..|events| - 1];
      TimersFitTheState(cfg, before);
      StepFits(cfg, After(cfg, before), events[|events| - 1], DelaysAfter(cfg, before));
    }
  }

  // ---------------------------------------------------------------- timers that fire

  /** Events that only timers cause. */
  predicate FromTimer(event: Event) {
    event.ConnectionTimeout? || event.RetryResetLineNumber? || event.PollFeedback? || event.TickleSerialPort?
  }

  predicate Armed(delays: Delays, event: Event) {
    exists name :: name in delays && delays[name] == event
  }

  predicate TickledOut(cfg: Config, m: Machine) {
    m.state.InReady? && m.state.ready.ticklesAttempted >= cfg.maxTickles
  }

  /**
   A timer that fires while armed never meets a state that has no use for it. So the only error a timer
   can cause is running out of tickles, and the only other state change is giving up on a baud rate.
   */
  lemma {:induction false} TimersNeverSurprise(cfg: Config, events: seq<Event>, event: Event)
    requires FromTimer(event) && Armed(DelaysAfter(cfg, events), event)
    ensures var m, m' := After(cfg, events), Step(cfg, After(cfg, events), event).0;
            && (!m.state.Panicked? ==>
                  match event
                  case ConnectionTimeout => m.state.Connecting? && (m'.state.Connecting? || m'.state.Disconnected?)
                  case PollFeedback => m.state.InReady? && m'.state.InReady?
                  case TickleSerialPort => (m.state.Connecting? && m'.state == m.state) || m.state.InReady?
                  case _ => false)
            && (m'.state.Errored? <==> event.TickleSerialPort? && TickledOut(cfg, m))
  {
    TimersFitTheState(cfg, events);
    hide After, DelaysAfter, PushAll;
    var name :| name in DelaysAfter(cfg, events) && DelaysAfter(cfg, events)[name] == event;
  }

  /**
   A connection timeout that is delivered late, after its timer was cancelled, is fatal in every state but
   the one it was meant for.
   */
  lemma {:induction false} LateTimeoutIsFatal(cfg: Config, m: Machine)
    requires !m.state.Panicked?
    ensures Step(cfg, m, ConnectionTimeout).0.state.Errored? <==> !m.state.Connecting?
  {
    hide PushAll;
  }

  // ---------------------------------------------------------------- the paused flag

  /** The paused flag after effects were performed: sending the feedback clears it. */
  function FlagAfter(flag: bool, fx: seq<Effect>): bool {
    if fx == [] then flag else FlagAfter(flag && !fx[0].SendFeedbackProtobuf?, fx[1..])
  }

  lemma {:induction false} FlagCleared(flag: bool, fx: seq<Effect>)
    ensures FlagAfter(flag, fx) <==> flag && SendFeedbackProtobuf !in fx
  {
    if fx != [] {
      FlagCleared(flag && !fx[0].SendFeedbackProtobuf?, fx[1..]);
      assert forall e :: e in fx <==> e == fx[0] || e in fx[1..];
    }
  }

  lemma {:induction false} SerialKeepsFlag(cfg: Config, r: Ready, ctx: Ctx, response: Response)
    ensures ReadySerial(cfg, r, ctx, response).0.ctx.pausedFlag == ctx.pausedFlag
  {
    hide ReceiveFeedback, ReceiveOkResponse, PushAll;
  }

  lemma {:induction false} ReadyFlag(cfg: Config, r: Ready, ctx: Ctx, event: Event)
    ensures var (m, fx) := ReadyConsume(cfg, r, ctx, event);
            m.ctx.pausedFlag == ctx.pausedFlag || SendFeedbackProtobuf in fx
  {
    hide ReadySerial, DespoolTask, PushAll, PushProgress, Enqueue, FindTask;
    if event.SerialRec? { SerialKeepsFlag(cfg, r, ctx, event.response); }
  }

  lemma {:induction false} IdleFlag(cfg: Config, m: Machine, event: Event)
    requires !m.state.InReady?
    ensures IdleConsume(cfg, m, event).0.ctx.pausedFlag == m.ctx.pausedFlag
  {
    hide ReadyConsume, PushAll;
    if m.state.Connecting? && event.SerialRec? && event.response.OkResponse? {
      FirstOkFlag(cfg, m.ctx, event);
    }
  }

  lemma {:induction false} FirstOkFlag(cfg: Config, ctx: Ctx, event: Event)
    requires event.SerialRec?
    ensures FirstOk(cfg, ctx, event).0.ctx.pausedFlag == ctx.pausedFlag
  {
    hide ReadySerial;
    SerialKeepsFlag(cfg, DefaultReady(ctx.lowKey), ctx.(lowKey := ctx.lowKey - 1), event.response);
  }

  /**
   Whatever raises the paused flag also sends the feedback, which clears it: between two events the flag is
   always down, and the clients have been told.
   */
  lemma {:induction false} FlagIsAnnounced(cfg: Config, m: Machine, event: Event)
    requires !m.ctx.pausedFlag
    ensures var (m', fx) := Step(cfg, m, event);
            !FlagAfter(m'.ctx.pausedFlag, fx) && (m'.ctx.pausedFlag ==> SendFeedbackProtobuf in fx)
  {
    FlagCleared(Step(cfg, m, event).0.ctx.pausedFlag, Step(cfg, m, event).1);
    hide IdleConsume, ReadyConsume, FlagAfter, PushAll, WithoutIds;
    if !m.state.Panicked? && Common(cfg, m, event).None? {
      if m.state.InReady? { ReadyFlag(cfg, m.state.ready, m.ctx, event); } else { IdleFlag(cfg, m, event); }
    }
  }
}
