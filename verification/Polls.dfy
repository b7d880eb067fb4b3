/** Polling: what makes the driver ask for temperatures and positions, and when it does. */
module Polls {
  import opened Wrappers
  import opened DriverTypes
  import opened DriverSpec
  import opened DriverRuns
  import opened SessionTheorems
  import opened FlowControl
  import opened LinesDue
  import opened Agenda
  import opened Reactor
  import opened EmergencyStop
  import WrittenLines
  import Watching

  // ---------------------------------------------------------------- reports of temperatures

  /** The interval after which to ask again: short while a mark is set or awaited. */
  function Interval(cfg: Config, r: Ready): nat {
    if r.mark == None then cfg.pollingInterval else 50
  }

  predicate OnlyTickles(fx: seq<Effect>) {
    forall e :: e in fx ==>
      && !e.CancelAllDelays?
      && (e.Delay? ==> e.name == "tickle_delay") && (e.CancelDelay? ==> e.name == "tickle_delay")
  }

  lemma {:induction false} KeepsPolling(delays: Delays, fx: seq<Effect>)
    requires OnlyTickles(fx) && "polling_delay" in delays
    ensures "polling_delay" in PerformAll(delays, fx) && PerformAll(delays, fx)["polling_delay"] == delays["polling_delay"]
    decreases |fx|
  {
    if fx != [] {
      assert fx[0] in fx;
      KeepsPolling(Perform(delays, fx[0]), fx[1..]);
    }
  }

  lemma {:induction false} TurnOnlyTickles(cfg: Config, r: Ready, ctx: Ctx, turn: Turn)
    requires IsTurn(cfg, r, ctx, turn) && !turn.Failed?
    ensures OnlyTickles(turn.fx)
  {
    hide FrontTurn, Work;
    var r1 := r.(awaitingPollingFeedback := false);
    if r.tasks != [] && !FrontTurn(cfg, r1, ctx).Failed? { FrontOnlyTickles(cfg, r1, ctx); }
  }

  lemma {:induction false} FrontOnlyTickles(cfg: Config, r: Ready, ctx: Ctx)
    requires r.tasks != [] && !FrontTurn(cfg, r, ctx).Failed?
    ensures OnlyTickles(FrontTurn(cfg, r, ctx).fx)
  {
    hide PushProgress, BlankPrefix, Work, Clean, AfterTaking;
  }

  lemma {:induction false} DespoolOnlyTickles(cfg: Config, r: Ready, ctx: Ctx, out: Out)
    requires out == DespoolAll(cfg, r, ctx) && out.err.None?
    ensures OnlyTickles(out.fx)
  {
    hide DespoolAll, IsTurn;
    var inv := (trace: seq<Effect>, r: Ready, ctx: Ctx) => OnlyTickles(trace);
    forall trace: seq<Effect>, r, ctx, turn | inv(trace, r, ctx) && IsTurn(cfg, r, ctx, turn) && !turn.Failed?
      ensures inv(trace + turn.fx, turn.r, turn.ctx)
    {
      TurnOnlyTickles(cfg, r, ctx, turn);
    }
    DespoolInduction(cfg, [], r, ctx, out, inv);
    assert [] + out.fx == out.fx;
  }

  lemma {:induction false} OkOnlyTickles(cfg: Config, r: Ready, ctx: Ctx)
    requires ReceiveOk(cfg, r, ctx).Some? && ReceiveOk(cfg, r, ctx).value.err.None?
    ensures OnlyTickles(ReceiveOk(cfg, r, ctx).value.fx)
  {
    hide DespoolAll;
    if r.onOk == Despool {
      DespoolOnlyTickles(cfg, r, ctx, DespoolAll(cfg, r, ctx));
    } else if r.onOk == TransitionToReady {
      var ctx1 := StateChanged(ctx, InReady(r));
      DespoolOnlyTickles(cfg, r.(onOk := Despool), ctx1, DespoolAll(cfg, r.(onOk := Despool), ctx1));
    }
  }

  /** The polling timer is started first; nothing else in the step stops it. */
  lemma {:induction false} TemperaturesStep(cfg: Config, m: Machine, event: Event, delays: Delays)
    requires m.state.InReady? && FeedbackOf(event) == Some(ActualTemperatures) && Step(cfg, m, event).0.state.InReady?
    ensures var fx := Step(cfg, m, event).1;
            && fx != [] && fx[0] == Delay("polling_delay", Interval(cfg, m.state.ready), PollFeedback)
            && "polling_delay" in PerformAll(delays, fx) && PerformAll(delays, fx)["polling_delay"] == PollFeedback
  {
    hide ReceiveOk, DespoolAll, PushAll;
    var r, ctx, fx := m.state.ready, m.ctx, Step(cfg, m, event).1;
    var first := ReceiveFeedback(cfg, r, ctx, ActualTemperatures);
    if event.response.OkResponse? { OkOnlyTickles(cfg, first.r, first.ctx); }
    assert fx[0] == Delay("polling_delay", Interval(cfg, r), PollFeedback) && OnlyTickles(fx[1..]);
    KeepsPolling(Perform(delays, fx[0]), fx[1..]);
  }

  /**
   In every run, a report of temperatures makes the driver ask again after the interval: it starts the polling
   timer, and that is armed after the event.
   */
  lemma {:induction false} TemperaturesStartPolling(cfg: Config, events: seq<Event>, event: Event)
    requires After(cfg, events).state.InReady? && After(cfg, events + [event]).state.InReady?
    requires FeedbackOf(event) == Some(ActualTemperatures)
    ensures var r, delays := After(cfg, events).state.ready, DelaysAfter(cfg, events + [event]);
            && Delay("polling_delay", Interval(cfg, r), PollFeedback) in LastStep(cfg, events + [event]).fx
            && "polling_delay" in delays && delays["polling_delay"] == PollFeedback
  {
    hide Step, After;
    OneMore(cfg, events, event);
    assert (events + [event])[..|events + [event]| - 1] == events;
    TemperaturesStep(cfg, After(cfg, events), event, DelaysAfter(cfg, events));
  }

  // ---------------------------------------------------------------- requests to poll

  function TextOf(e: Effect): seq<string> {
    if e.SendSerial? && e.line.lineNumber.Some? then [e.line.gcode] else []
  }

  /** The numbered lines of some effects, without their numbers. */
  function Said(fx: seq<Effect>): seq<string> { FlatMap(fx, TextOf) }

  predicate IsPoll(gcode: string) {
    gcode == "M105" || gcode == "M114"
  }

  /** A poll was the first line, but for the fallback. */
  predicate Served(said: seq<string>) {
    (|said| > 0 && IsPoll(said[0])) || (|said| > 1 && said[0] == "M400" && IsPoll(said[1]))
  }

  /** A poll is due, and nothing but the fallback was said yet. */
  predicate Pending(r: Ready, said: seq<string>) {
    && r.pollFor == Some(PollTemperature) && r.onOk != NotAwaitingOk
    && (said == [] || (said == ["M400"] && r.mark == None))
  }

  lemma {:induction false} SaidIsNumbered(fx: seq<Effect>)
    ensures |Said(fx)| == |NumberedLines(fx)|
    ensures forall i :: 0 <= i < |Said(fx)| ==> Said(fx)[i] == NumberedLines(fx)[i].gcode
  {
    if fx != [] { SaidIsNumbered(fx[1..]); }
  }

  lemma {:induction false} SaidJoin(a: seq<Effect>, b: seq<Effect>)
    ensures Said(a + b) == Said(a) + Said(b)
  {
    FlatMapSplit(a, b, TextOf);
  }

  lemma {:induction false} NothingSaid(fx: seq<Effect>)
    requires forall e :: e in fx ==> TextOf(e) == []
    ensures Said(fx) == []
  {
    SilentFlatMap(fx, TextOf);
  }

  /** Despooling with a poll due says the poll, or the fallback first. */
  lemma {:induction false} DespoolServes(cfg: Config, r: Ready, ctx: Ctx, said: seq<string>)
    requires Pending(r, said) && DespoolAll(cfg, r, ctx).err.None?
    ensures var out := DespoolAll(cfg, r, ctx);
            && out.r.onOk == Despool
            && (Served(said + Said(out.fx)) || Pending(out.r, said + Said(out.fx)))
  {
    hide DespoolAll, QueuedGcodes, Said, NumberedLines;
    var out := DespoolAll(cfg, r, ctx);
    DespoolFollowsAgenda(cfg, r, ctx);
    SaidIsNumbered(out.fx);
    var next := NextOf(cfg, AgendaOf(cfg, r));
    assert Said(out.fx) == [next.gcode];
    if said == [] { assert said + Said(out.fx) == Said(out.fx); }
  }

  predicate Due(r: Ready, said: seq<string>) {
    Served(said) || Pending(r, said)
  }

  lemma {:induction false} ServedStays(said: seq<string>, more: seq<string>)
    requires Served(said)
    ensures Served(said + more)
  {
  }

  lemma {:induction false} FeedbackDue(cfg: Config, r: Ready, ctx: Ctx, feedback: Feedback, said: seq<string>)
    requires Due(r, said) && ReceiveFeedback(cfg, r, ctx, feedback).err.None?
    ensures var out := ReceiveFeedback(cfg, r, ctx, feedback); Due(out.r, said + Said(out.fx))
  {
    hide DespoolAll, Said, Served;
    var out := ReceiveFeedback(cfg, r, ctx, feedback);
    if Served(said) {
      ServedStays(said, Said(out.fx));
    } else if r.mark == Some(WaitingToReachMark) && feedback == Positions(true, true) {
      DespoolServes(cfg, r.(mark := None), ctx, said);
    } else {
      NothingSaid(out.fx);
      assert said + [] == said;
    }
  }

  lemma {:induction false} OkDue(cfg: Config, r: Ready, ctx: Ctx, said: seq<string>)
    requires Due(r, said) && r.lastGCodeSent.None?
    requires ReceiveOk(cfg, r, ctx).Some? && ReceiveOk(cfg, r, ctx).value.err.None?
    ensures var out := ReceiveOk(cfg, r, ctx).value; Due(out.r, said + Said(out.fx))
  {
    hide DespoolAll, Said, Served;
    var out := ReceiveOk(cfg, r, ctx).value;
    if Served(said) {
      ServedStays(said, Said(out.fx));
    } else if r.onOk == Despool {
      DespoolServes(cfg, r, ctx, said);
    } else if r.onOk == TransitionToReady {
      var r1, ctx1 := r.(onOk := Despool), StateChanged(ctx, InReady(r));
      DespoolServes(cfg, r1, ctx1, said);
      NothingSaid([SendFeedbackProtobuf]);
      SaidJoin([SendFeedbackProtobuf], DespoolAll(cfg, r1, ctx1).fx);
      assert [] + Said(DespoolAll(cfg, r1, ctx1).fx) == Said(DespoolAll(cfg, r1, ctx1).fx);
    } else {
      NothingSaid(out.fx);
      assert said + [] == said;
    }
  }

  lemma {:induction false} OkResponseDue(cfg: Config, r: Ready, ctx: Ctx, feedback: Option<Feedback>, said: seq<string>)
    requires Due(r, said) && r.lastGCodeSent.None?
    requires ReceiveOkResponse(cfg, r, ctx, feedback).Some? && ReceiveOkResponse(cfg, r, ctx, feedback).value.err.None?
    ensures var out := ReceiveOkResponse(cfg, r, ctx, feedback).value; Due(out.r, said + Said(out.fx))
  {
    hide ReceiveFeedback, ReceiveOk, Said, Due;
    if feedback.None? {
      OkDue(cfg, r, ctx, said);
    } else {
      var first := ReceiveFeedback(cfg, r, ctx, feedback.value);
      FeedbackDue(cfg, r, ctx, feedback.value, said);
      WrittenLines.FeedbackForgets(cfg, r, ctx, feedback.value);
      OkDue(cfg, first.r, first.ctx, said + Said(first.fx));
      var second := ReceiveOk(cfg, first.r, first.ctx).value;
      SaidJoin(first.fx, second.fx);
      assert said + Said(first.fx) + Said(second.fx) == said + (Said(first.fx) + Said(second.fx));
    }
  }

  lemma {:induction false} SerialDue(cfg: Config, r: Ready, ctx: Ctx, response: Response, said: seq<string>)
    requires Due(r, said) && r.lastGCodeSent.None? && ReadySerial(cfg, r, ctx, response).0.state.InReady?
    ensures var (m, fx) := ReadySerial(cfg, r, ctx, response); Due(m.state.ready, said + Said(fx))
  {
    hide ReceiveFeedback, ReceiveOkResponse, PushAll, Said, Served;
    assert said + [] == said;
    NothingSaid([]);
    match response
    case OkResponse(feedback) => OkResponseDue(cfg, r, ctx, feedback, said);
    case FeedbackResponse(feedback) =>
      var out, tail := ReceiveFeedback(cfg, r, ctx, feedback), [CancelDelay(TICKLE_DELAY), SendFeedbackProtobuf];
      FeedbackDue(cfg, r, ctx, feedback, said);
      NothingSaid(tail);
      SaidJoin(out.fx, tail);
      assert Said(out.fx) + [] == Said(out.fx);
    case _ =>
  }

  lemma {:induction false} TickleDue(cfg: Config, r: Ready, ctx: Ctx, said: seq<string>)
    requires Due(r, said) && TickleLine(cfg, r, ctx).0.state.InReady?
    ensures var (m, fx) := TickleLine(cfg, r, ctx); Due(m.state.ready, said + Said(fx))
  {
    hide PushAll, Said, Served;
    NothingSaid(TickleLine(cfg, r, ctx).1);
    assert said + [] == said;
  }

  lemma {:induction false} PauseDue(r: Ready, ctx: Ctx, id: string, said: seq<string>)
    requires Due(r, said)
    ensures var (m, fx) := Pause(r, ctx, id); m.state.InReady? && Due(m.state.ready, said + Said(fx))
  {
    hide PushProgress, FindTask, Said, Served;
    NothingSaid(Pause(r, ctx, id).1);
    assert said + [] == said;
  }

  /** Whatever happens while Ready, a poll that is due stays due or is served. */
  lemma {:induction false} ReadyDue(cfg: Config, r: Ready, ctx: Ctx, event: Event, said: seq<string>)
    requires Due(r, said) && r.lastGCodeSent.None? && ReadyConsume(cfg, r, ctx, event).0.state.InReady?
    ensures var (m, fx) := ReadyConsume(cfg, r, ctx, event); Due(m.state.ready, said + Said(fx))
  {
    hide ReadySerial, TickleLine, Pause, DespoolTask, Enqueue, PushAll, Said, Served;
    var (m, fx) := ReadyConsume(cfg, r, ctx, event);
    assert said + [] == said;
    NothingSaid([]);
    if Served(said) {
      ServedStays(said, Said(fx));
    } else {
      match event
      case SerialRec(_, response) => SerialDue(cfg, r, ctx, response, said);
      case TickleSerialPort => TickleDue(cfg, r, ctx, said);
      case ProtobufRec(Some(PauseTask(id))) => PauseDue(r, ctx, id, said);
      case _ => NothingSaid(fx);
    }
  }

  lemma {:induction false} StepDue(cfg: Config, m: Machine, event: Event, said: seq<string>)
    requires m.state.InReady? && Due(m.state.ready, said) && m.state.ready.lastGCodeSent.None?
    requires Step(cfg, m, event).0.state.InReady?
    ensures var (m', fx) := Step(cfg, m, event); Due(m'.state.ready, said + Said(fx))
  {
    hide ReadyConsume, Said, Due;
    if Common(cfg, m, event).Some? {
      CommonFlow(cfg, m, event);
      SilentCommonTexts(cfg, m, event);
      assert said + [] == said;
    } else {
      ReadyDue(cfg, m.state.ready, m.ctx, event, said);
    }
  }

  lemma {:induction false} SilentCommonTexts(cfg: Config, m: Machine, event: Event)
    requires Common(cfg, m, event).Some?
    ensures Said(Common(cfg, m, event).value.1) == []
  {
    hide PushAll, WithoutIds, Said;
    NothingSaid(Common(cfg, m, event).value.1);
  }

  /** A request to poll is served at once, or leaves a poll due. */
  lemma {:induction false} RequestDue(cfg: Config, m: Machine)
    requires m.state.InReady?
    ensures var (m', fx) := Step(cfg, m, PollFeedback); m'.state.InReady? && Due(m'.state.ready, Said(fx))
  {
    hide Said;
    var r := m.state.ready.(pollFor := Some(PollTemperature));
    NothingSaid([]);
    if r.onOk == NotAwaitingOk { PollSays(cfg, r); }
  }

  lemma {:induction false} PollSays(cfg: Config, r: Ready)
    ensures Said(DriverSpec.Poll(cfg, r, PollTemperature).1) ==
            [if EffectivePoll(r, PollTemperature) == PollTemperature then "M105" else "M114"]
  {
    var fx := DriverSpec.Poll(cfg, r, PollTemperature).1;
    SaidJoin([fx[0]], [fx[1]]);
    FlatMapOne(fx[0], TextOf);
    FlatMapOne(fx[1], TextOf);
    assert fx == [fx[0]] + [fx[1]];
  }

  /** Ready, after every one of the later events too. */
  predicate StaysReady(cfg: Config, events: seq<Event>, later: seq<Event>) {
    forall n :: 0 <= n <= |later| ==> After(cfg, events + later[..n]).state.InReady?
  }

  /**
   Once a poll was requested, the next numbered line, whenever it is sent, is a poll, unless the fallback for
   a mark comes first; then it is the one after that.
   */
  lemma {:induction false} RequestedPollsComeNext(cfg: Config, events: seq<Event>, later: seq<Event>)
    requires After(cfg, events).state.InReady? && StaysReady(cfg, events + [PollFeedback], later)
    ensures var said := Said(LastStep(cfg, events + [PollFeedback]).fx + SuffixTrace(cfg, events + [PollFeedback], later));
            said == [] || said == ["M400"] || Served(said)
  {
    RequestIsDue(cfg, events, later);
    hide Step, After, Said, Served;
  }

  lemma {:induction false} RequestIsDue(cfg: Config, events: seq<Event>, later: seq<Event>)
    requires After(cfg, events).state.InReady? && StaysReady(cfg, events + [PollFeedback], later)
    ensures var all := events + [PollFeedback] + later;
            && After(cfg, all).state.InReady?
            && Due(After(cfg, all).state.ready,
                   Said(LastStep(cfg, events + [PollFeedback]).fx + SuffixTrace(cfg, events + [PollFeedback], later)))
  {
    hide Step, After, Said, Due;
    var asked := events + [PollFeedback];
    var first := LastStep(cfg, asked).fx;
    if later == [] {
      OneMore(cfg, events, PollFeedback);
      assert asked[..|asked| - 1] == events;
      RequestDue(cfg, After(cfg, events));
      assert asked + later == asked && first + [] == first;
    } else {
      var fewer := later[..|later| - 1];
      assert forall n :: 0 <= n <= |fewer| ==> later[..n] == fewer[..n];
      assert later[..|later|] == later;
      RequestIsDue(cfg, events, fewer);
      AfterOneMore(cfg, asked, later);
      var last, before := LastStep(cfg, asked + later), first + SuffixTrace(cfg, asked, fewer);
      WrittenLines.NothingRemembered(cfg, asked + fewer);
      StepDue(cfg, last.pre, last.event, Said(before));
      SaidJoin(before, last.fx);
      assert first + SuffixTrace(cfg, asked, later) == before + last.fx;
    }
  }

  // ---------------------------------------------------------------- a firmware that reports by itself

  function EnabledBy(event: Event): set<string> {
    match event
    case SerialRec(_, Capability(name, enabled)) => if enabled then {name} else {}
    case _ => {}
  }

  /** What the firmware said it can do, since the session began. */
  function Enabled(steps: seq<StepRecord>): set<string> {
    if |steps| <= 1 then {} else Enabled(steps[..|steps| - 1]) + EnabledBy(steps[|steps| - 1].event)
  }

  /** A firmware that reports temperatures by itself is only asked for positions. */
  predicate AsksRight(r: Ready, fx: seq<Effect>) {
    "AUTOREPORT_TEMP" in r.capabilities ==>
      forall e :: e in fx && e.SendSerial? && e.origin == Origin.Poll ==> e.line.gcode == "M114"
  }

  /** What it can do stays as it was, and it is asked accordingly. */
  predicate AsksOn(before: Ready, r: Ready, fx: seq<Effect>) {
    r.capabilities == before.capabilities && AsksRight(before, fx)
  }

  lemma {:induction false} FrontAsks(cfg: Config, r: Ready, ctx: Ctx)
    requires r.tasks != [] && !FrontTurn(cfg, r, ctx).Failed?
    ensures var turn := FrontTurn(cfg, r, ctx); AsksOn(r, turn.r, turn.fx)
  {
    hide PushProgress, BlankPrefix, Work, Clean, AfterTaking;
  }

  lemma {:induction false} TurnAsks(cfg: Config, r: Ready, ctx: Ctx, turn: Turn)
    requires IsTurn(cfg, r, ctx, turn) && !turn.Failed?
    ensures AsksOn(r, turn.r, turn.fx)
  {
    hide FrontTurn, Work;
    var r1 := r.(awaitingPollingFeedback := false);
    if r.tasks != [] && !FrontTurn(cfg, r1, ctx).Failed? { FrontAsks(cfg, r1, ctx); }
  }

  lemma {:induction false} DespoolAsks(cfg: Config, r: Ready, ctx: Ctx, out: Out)
    requires (out == DespoolAll(cfg, r, ctx) || out == DespoolTask(cfg, r, ctx)) && out.err.None?
    ensures AsksOn(r, out.r, out.fx)
  {
    hide DespoolAll, DespoolTask, IsTurn;
    var inv := (trace: seq<Effect>, now: Ready, ctx: Ctx) => AsksOn(r, now, trace);
    forall trace: seq<Effect>, now, ctx, turn | inv(trace, now, ctx) && IsTurn(cfg, now, ctx, turn) && !turn.Failed?
      ensures inv(trace + turn.fx, turn.r, turn.ctx)
    {
      TurnAsks(cfg, now, ctx, turn);
    }
    DespoolInduction(cfg, [], r, ctx, out, inv);
    assert [] + out.fx == out.fx;
  }

  lemma {:induction false} FeedbackAsks(cfg: Config, r: Ready, ctx: Ctx, feedback: Feedback)
    requires ReceiveFeedback(cfg, r, ctx, feedback).err.None?
    ensures var out := ReceiveFeedback(cfg, r, ctx, feedback); AsksOn(r, out.r, out.fx)
  {
    hide DespoolAll;
    if feedback == Positions(true, true) && r.mark == Some(WaitingToReachMark) {
      DespoolAsks(cfg, r.(mark := None), ctx, DespoolAll(cfg, r.(mark := None), ctx));
    }
  }

  lemma {:induction false} OkAsks(cfg: Config, r: Ready, ctx: Ctx)
    requires ReceiveOk(cfg, r, ctx).Some? && ReceiveOk(cfg, r, ctx).value.err.None?
    ensures var out := ReceiveOk(cfg, r, ctx).value; AsksOn(r, out.r, out.fx)
  {
    hide DespoolAll;
    if r.onOk == Despool {
      DespoolAsks(cfg, r, ctx, DespoolAll(cfg, r, ctx));
    } else if r.onOk == TransitionToReady {
      var r1, ctx1 := r.(onOk := Despool), StateChanged(ctx, InReady(r));
      DespoolAsks(cfg, r1, ctx1, DespoolAll(cfg, r1, ctx1));
    }
  }

  lemma {:induction false} SerialAsks(cfg: Config, r: Ready, ctx: Ctx, src: string, response: Response)
    requires ReadySerial(cfg, r, ctx, response).0.state.InReady?
    ensures var (m, fx) := ReadySerial(cfg, r, ctx, response);
            && m.state.ready.capabilities == r.capabilities + EnabledBy(SerialRec(src, response))
            && AsksRight(r, fx)
  {
    hide ReceiveFeedback, ReceiveOk, PushAll;
    match response
    case OkResponse(feedback) =>
      if feedback.None? {
        OkAsks(cfg, r, ctx);
      } else {
        var first := ReceiveFeedback(cfg, r, ctx, feedback.value);
        FeedbackAsks(cfg, r, ctx, feedback.value);
        OkAsks(cfg, first.r, first.ctx);
      }
    case FeedbackResponse(feedback) => FeedbackAsks(cfg, r, ctx, feedback);
    case _ =>
  }

  lemma {:induction false} LoadAsks(cfg: Config, r: Ready, ctx: Ctx, s: Submission)
    requires Load(cfg, r, ctx, s).0.state.InReady?
    ensures var (m, fx) := Load(cfg, r, ctx, s); AsksOn(r, m.state.ready, fx)
  {
    hide DespoolTask, PushAll, Enqueue;
    if r.onOk == NotAwaitingOk {
      var r1, ctx1 := r.(tasks := Enqueue(r.tasks, Admit(ctx.nextKey, s))), ctx.(nextKey := ctx.nextKey + 1);
      DespoolAsks(cfg, r1, ctx1, DespoolTask(cfg, r1, ctx1));
    }
  }

  lemma {:induction false} ReadyAsks(cfg: Config, r: Ready, ctx: Ctx, event: Event)
    requires ReadyConsume(cfg, r, ctx, event).0.state.InReady?
    ensures var (m, fx) := ReadyConsume(cfg, r, ctx, event);
            m.state.ready.capabilities == r.capabilities + EnabledBy(event) && AsksRight(r, fx)
  {
    hide ReadySerial, Load, PushAll, PushProgress, FindTask;
    match event
    case SerialRec(src, response) => SerialAsks(cfg, r, ctx, src, response);
    case GCodeLoaded(s) => LoadAsks(cfg, r, ctx, s);
    case ProtobufRec(Some(SpoolTask(id, client, startAt, Some(Inline(commands)), machineOverride))) =>
      LoadAsks(cfg, r.(loadingGCode := true), ctx, Submission(id, client, commands, StartNumber(startAt), machineOverride));
    case _ =>
  }

  lemma {:induction false} StepAsks(cfg: Config, m: Machine, event: Event)
    requires m.state.InReady? && Step(cfg, m, event).0.state.InReady?
    ensures var (m', fx) := Step(cfg, m, event);
            m'.state.ready.capabilities == m.state.ready.capabilities + EnabledBy(event) && AsksRight(m.state.ready, fx)
  {
    hide ReadyConsume;
    if Common(cfg, m, event).Some? {
      CommonFlow(cfg, m, event);
      Watching.CommonWritesNothing(cfg, m, event);
    } else {
      ReadyAsks(cfg, m.state.ready, m.ctx, event);
    }
  }

  lemma {:induction false} EnteringAsks(cfg: Config, m: Machine, event: Event)
    requires !m.state.InReady? && Step(cfg, m, event).0.state.InReady?
    ensures Step(cfg, m, event).0.state.ready.capabilities == {}
  {
    hide ReadyConsume, PushAll, WithoutIds;
    ReadyAsks(cfg, DefaultReady(m.ctx.lowKey), m.ctx.(lowKey := m.ctx.lowKey - 1), event);
  }

  lemma {:induction false} EnabledGrows(steps: seq<StepRecord>, last: StepRecord)
    requires steps != []
    ensures Enabled(steps + [last]) == Enabled(steps) + EnabledBy(last.event)
  {
    assert (steps + [last])[..|steps + [last]| - 1] == steps;
  }

  /**
   In every session the driver knows exactly the capabilities that the firmware has reported in it; and once it
   has reported that it sends temperatures by itself, no temperature poll is sent any more.
   */
  lemma {:induction false} ReportedTemperaturesAreNotPolled(cfg: Config, events: seq<Event>)
    requires After(cfg, events).state.InReady?
    ensures var last := LastStep(cfg, events);
            && After(cfg, events).state.ready.capabilities == Enabled(Session(cfg, events))
            && (last.pre.state.InReady? && "AUTOREPORT_TEMP" in last.pre.state.ready.capabilities ==>
                  forall line :: SendSerial(line, Origin.Poll) in last.fx ==> line.gcode == "M114")
  {
    SessionGrows(cfg, events);
    var before, last := events[..|events| - 1], LastStep(cfg, events);
    assert Step(cfg, last.pre, last.event) == (last.post, last.fx) && last.pre == After(cfg, before) by { hide Step; }
    assert last.post == After(cfg, events) by { hide Step; }
    hide Step, After, LastStep, Session, SessionTrace, PollRequests;
    if last.pre.state.InReady? {
      ReportedTemperaturesAreNotPolled(cfg, before);
      StepAsks(cfg, last.pre, last.event);
      EnabledGrows(Session(cfg, before), last);
    } else {
      EnteringAsks(cfg, last.pre, last.event);
    }
  }

  /** The report also makes the driver queue a task of its own, ahead of all others, that turns the reports on. */
  lemma {:induction false} ReportsAreTurnedOn(cfg: Config, m: Machine, src: string)
    requires m.state.InReady?
    ensures var m' := Step(cfg, m, SerialRec(src, Capability("AUTOREPORT_TEMP", true))).0;
            && m'.state.InReady? && |m'.state.ready.tasks| == |m.state.ready.tasks| + 1
            && m'.state.ready.tasks[1..] == m.state.ready.tasks
            && var t := m'.state.ready.tasks[0];
               t.clientId == INTERNAL && t.machineOverride && t.lines == ["M155 S1"] && t.key == m.ctx.lowKey
  {
  }
}
