/** The driver never gets ahead of the firmware, and never sits idle with work it could do. */
module FlowControl {
  import opened Wrappers
  import opened DriverTypes
  import opened DriverSpec
  import opened DriverRuns
  import opened SessionInvariant
  import opened SessionTheorems

  // ---------------------------------------------------------------- how despooling ends

  /** How a turn, or a whole despooling, may end: one line in flight, or none and nothing to do now. */
  predicate Settles(before: Ready, after: Ready) {
    || (after.nextLine == before.nextLine + 1 && after.onOk == Despool)
    || (after.nextLine == before.nextLine && after.onOk == NotAwaitingOk
        && (after.tasks == [] || after.mark == Some(WaitingToReachMark)))
  }

  lemma {:induction false} FrontTurnEnds(cfg: Config, r: Ready, ctx: Ctx)
    requires r.tasks != []
    ensures var turn := FrontTurn(cfg, r, ctx);
            && (turn.Settled? ==> Settles(r, turn.r)) && (turn.Again? ==> turn.r.nextLine == r.nextLine)
  {
    hide BlankPrefix, PushProgress, Clean, Work;
  }

  lemma {:induction false} TurnEnds(cfg: Config, r: Ready, ctx: Ctx, turn: Turn)
    requires IsTurn(cfg, r, ctx, turn)
    ensures turn.Settled? ==> Settles(r, turn.r)
    ensures turn.Again? ==> turn.r.nextLine == r.nextLine
  {
    hide FrontTurn;
    if r.tasks != [] { FrontTurnEnds(cfg, r.(awaitingPollingFeedback := false), ctx); }
  }

  lemma {:induction false} FinishEnds(cfg: Config, before: Ready, turn: Turn, out: Out)
    requires out == Finish(cfg, turn) && out.err.None?
    requires turn.Settled? ==> Settles(before, turn.r)
    requires turn.Again? ==> turn.r.nextLine == before.nextLine
    ensures Settles(before, out.r)
    decreases if turn.Again? then Work(turn.r.tasks) + 1 else 0
  {
    hide DespoolTurn, IsTurn;
    if turn.Again? {
      var next := FinishAgain(cfg, turn);
      TurnEnds(cfg, turn.r, turn.ctx, next);
      FinishEnds(cfg, before, next, Finish(cfg, next));
    }
  }

  /**
   Despooling, wherever it starts, ends awaiting the ok of exactly one new numbered line, or having
   sent none and with the queue empty or a mark to wait for.
   */
  lemma {:induction false} DespoolEnds(cfg: Config, r: Ready, ctx: Ctx, out: Out)
    requires out == DespoolAll(cfg, r, ctx) || out == DespoolTask(cfg, r, ctx)
    requires out.err.None?
    ensures Settles(r, out.r)
  {
    hide DespoolTurn, TaskTurn;
    var turn := if out == DespoolAll(cfg, r, ctx) then DespoolTurn(cfg, r, ctx) else TaskTurn(cfg, r, ctx);
    assert IsTurn(cfg, r, ctx, turn);
    TurnEnds(cfg, r, ctx, turn);
    FinishEnds(cfg, r, turn, out);
  }

  // ---------------------------------------------------------------- one event

  function OkOf(event: Event): nat {
    if event.SerialRec? && event.response.OkResponse? then 1 else 0
  }

  function FeedbackOf(event: Event): Option<Feedback> {
    match event
    case SerialRec(_, OkResponse(feedback)) => feedback
    case SerialRec(_, FeedbackResponse(feedback)) => Some(feedback)
    case _ => None
  }

  /** The event reports that the mark the driver waits for has been reached. */
  function MarkReached(state: State, event: Event): nat {
    if state.InReady? && state.ready.mark == Some(WaitingToReachMark) && FeedbackOf(event) == Some(Positions(true, true))
    then 1 else 0
  }

  /** ... and an ok is still awaited, that of the poll or of something sent before. */
  function EarlyMark(state: State, event: Event): nat {
    if state.InReady? && state.ready.onOk != NotAwaitingOk then MarkReached(state, event) else 0
  }

  /** With `credits` lines allowed so far, at most one line is ahead, and none when no ok is awaited. */
  predicate InFlight(r: Ready, credits: int) {
    && r.nextLine <= credits + 2
    && (r.onOk == NotAwaitingOk ==> r.nextLine <= credits + 1)
  }

  /** Idle only for want of work: with no ok to wait for, the queue is empty or a mark is pending. */
  predicate NeverIdle(r: Ready) {
    r.onOk == NotAwaitingOk ==> r.tasks == [] || r.mark == Some(WaitingToReachMark) || r.mark == Some(WaitingToSendFallbackGCode)
  }

  predicate Advances(before: Ready, after: Ready, lines: nat) {
    before.nextLine <= after.nextLine <= before.nextLine + lines
  }

  lemma {:induction false} FeedbackFlow(cfg: Config, r: Ready, ctx: Ctx, feedback: Feedback, credits: int)
    requires InFlight(r, credits) && ReceiveFeedback(cfg, r, ctx, feedback).err.None?
    ensures var out := ReceiveFeedback(cfg, r, ctx, feedback);
            var reached := if r.mark == Some(WaitingToReachMark) && feedback == Positions(true, true) then 1 else 0;
            var early := if r.onOk != NotAwaitingOk then reached else 0;
            InFlight(out.r, credits + early) && (NeverIdle(r) ==> NeverIdle(out.r)) && Advances(r, out.r, reached)
  {
    hide DespoolAll;
    if feedback == Positions(true, true) && r.mark == Some(WaitingToReachMark) {
      DespoolEnds(cfg, r.(mark := None), ctx, DespoolAll(cfg, r.(mark := None), ctx));
    }
  }

  lemma {:induction false} OkFlow(cfg: Config, r: Ready, ctx: Ctx, credits: int)
    requires InFlight(r, credits)
    requires ReceiveOk(cfg, r, ctx).Some? && ReceiveOk(cfg, r, ctx).value.err.None?
    ensures var out := ReceiveOk(cfg, r, ctx).value;
            InFlight(out.r, credits + 1) && (NeverIdle(r) ==> NeverIdle(out.r)) && Advances(r, out.r, 1)
  {
    hide DespoolAll;
    if r.onOk == Despool { DespoolEnds(cfg, r, ctx, DespoolAll(cfg, r, ctx)); }
    if r.onOk == TransitionToReady {
      var r1, ctx1 := r.(onOk := Despool), StateChanged(ctx, InReady(r));
      DespoolEnds(cfg, r1, ctx1, DespoolAll(cfg, r1, ctx1));
    }
  }

  lemma {:induction false} OkResponseFlow(cfg: Config, r: Ready, ctx: Ctx, feedback: Option<Feedback>, credits: int)
    requires InFlight(r, credits)
    requires ReceiveOkResponse(cfg, r, ctx, feedback).Some? && ReceiveOkResponse(cfg, r, ctx, feedback).value.err.None?
    ensures var out := ReceiveOkResponse(cfg, r, ctx, feedback).value;
            var reached := if r.mark == Some(WaitingToReachMark) && feedback == Some(Positions(true, true)) then 1 else 0;
            var early := if r.onOk != NotAwaitingOk then reached else 0;
            && InFlight(out.r, credits + early + 1) && (NeverIdle(r) ==> NeverIdle(out.r))
            && Advances(r, out.r, reached + 1)
  {
    hide ReceiveFeedback, ReceiveOk;
    if feedback.None? {
      OkFlow(cfg, r, ctx, credits);
    } else {
      var reached := if r.mark == Some(WaitingToReachMark) && feedback == Some(Positions(true, true)) then 1 else 0;
      var early := if r.onOk != NotAwaitingOk then reached else 0;
      var first := ReceiveFeedback(cfg, r, ctx, feedback.value);
      FeedbackFlow(cfg, r, ctx, feedback.value, credits);
      OkFlow(cfg, first.r, first.ctx, credits + early);
    }
  }

  /** A capability report that queues a task while the driver waits for nothing. */
  predicate Strands(r: Ready, event: Event) {
    && event.SerialRec? && event.response == Capability(AUTOREPORT, true)
    && r.onOk == NotAwaitingOk && r.mark != Some(WaitingToReachMark) && r.mark != Some(WaitingToSendFallbackGCode)
  }

  lemma {:induction false} LoadFlow(cfg: Config, r: Ready, ctx: Ctx, s: Submission, credits: int)
    requires InFlight(r, credits) && Load(cfg, r, ctx, s).0.state.InReady?
    ensures var r' := Load(cfg, r, ctx, s).0.state.ready; InFlight(r', credits) && (NeverIdle(r) ==> NeverIdle(r')) && Advances(r, r', 1)
  {
    hide DespoolTask, Enqueue, Admit;
    if r.onOk == NotAwaitingOk {
      var r1 := r.(tasks := Enqueue(r.tasks, Admit(ctx.nextKey, s)));
      var ctx1 := ctx.(nextKey := ctx.nextKey + 1);
      DespoolEnds(cfg, r1, ctx1, DespoolTask(cfg, r1, ctx1));
    }
  }

  lemma {:induction false} SerialFlow(cfg: Config, r: Ready, ctx: Ctx, src: string, response: Response, credits: int)
    requires InFlight(r, credits) && ReadySerial(cfg, r, ctx, response).0.state.InReady?
    ensures var event, r' := SerialRec(src, response), ReadySerial(cfg, r, ctx, response).0.state.ready;
            var reached := MarkReached(InReady(r), event);
            && InFlight(r', credits + EarlyMark(InReady(r), event) + OkOf(event))
            && Advances(r, r', reached + OkOf(event))
            && (NeverIdle(r) ==> (NeverIdle(r') <==> !Strands(r, event)))
  {
    hide ReceiveFeedback, ReceiveOkResponse;
    match response
    case OkResponse(feedback) => OkResponseFlow(cfg, r, ctx, feedback, credits);
    case FeedbackResponse(feedback) => FeedbackFlow(cfg, r, ctx, feedback, credits);
    case _ =>
  }

  lemma {:induction false} PauseFlow(r: Ready, ctx: Ctx, id: string, credits: int)
    requires InFlight(r, credits)
    ensures var m := Pause(r, ctx, id).0;
            && m.state.InReady? && InFlight(m.state.ready, credits) && Advances(r, m.state.ready, 0)
            && (NeverIdle(r) ==> NeverIdle(m.state.ready))
  {
    hide PushProgress, FindTask;
  }

  /**
   One event, exactly: a Ready driver that is not idle stays so unless the event strands a task; it
   sends at most one numbered line, one more if the event reports the awaited mark; and the lines
   sent stay within one of the oks and early marks received.
   */
  lemma {:induction false} ReadyFlow(cfg: Config, r: Ready, ctx: Ctx, event: Event, credits: int)
    requires InFlight(r, credits) && ReadyConsume(cfg, r, ctx, event).0.state.InReady?
    ensures var r' := ReadyConsume(cfg, r, ctx, event).0.state.ready;
            && InFlight(r', credits + EarlyMark(InReady(r), event) + OkOf(event))
            && Advances(r, r', MarkReached(InReady(r), event) + 1)
            && (NeverIdle(r) ==> (NeverIdle(r') <==> !Strands(r, event)))
  {
    hide ReadySerial, Load, Pause;
    match event
    case SerialRec(src, response) => SerialFlow(cfg, r, ctx, src, response, credits);
    case GCodeLoaded(s) => LoadFlow(cfg, r, ctx, s, credits);
    case ProtobufRec(Some(PauseTask(id))) => PauseFlow(r, ctx, id, credits);
    case ProtobufRec(Some(SpoolTask(id, client, startAt, Some(Inline(commands)), machineOverride))) =>
      LoadFlow(cfg, r.(loadingGCode := true), ctx,
               Submission(id, client, commands, StartNumber(startAt), machineOverride), credits);
    case _ =>
  }

  // ---------------------------------------------------------------- every run

  /** Oks among some steps, the first step (which entered Ready) apart. */
  function Oks(steps: seq<StepRecord>): nat {
    if |steps| <= 1 then 0 else Oks(steps[..|steps| - 1]) + OkOf(steps[|steps| - 1].event)
  }

  /** Awaited marks reached while an ok was still awaited. */
  function EarlyMarks(steps: seq<StepRecord>): nat {
    if |steps| <= 1 then 0
    else EarlyMarks(steps[..|steps| - 1]) + EarlyMark(steps[|steps| - 1].pre.state, steps[|steps| - 1].event)
  }

  predicate NothingStranded(steps: seq<StepRecord>) {
    forall i :: 0 < i < |steps| ==> steps[i].pre.state.InReady? ==> !Strands(steps[i].pre.state.ready, steps[i].event)
  }

  lemma {:induction false} CommonFlow(cfg: Config, m: Machine, event: Event)
    requires m.state.InReady? && Common(cfg, m, event).Some? && Step(cfg, m, event).0.state.InReady?
    ensures Step(cfg, m, event).0.state == m.state && OkOf(event) == 0 && MarkReached(m.state, event) == 0
  {
    hide PushAll, WithoutIds, ReadyConsume;
  }

  lemma {:induction false} EnterFlow(cfg: Config, m: Machine, event: Event)
    requires !m.state.InReady? && Step(cfg, m, event).0.state.InReady?
    ensures var r := Step(cfg, m, event).0.state.ready; InFlight(r, 0) && NeverIdle(r)
  {
    hide ReceiveOkResponse, PushAll;
    var r, ctx := DefaultReady(m.ctx.lowKey), m.ctx.(lowKey := m.ctx.lowKey - 1);
    OkResponseFlow(cfg, r, ctx, event.response.feedback, -1);
  }

  lemma {:induction false} StayFlow(cfg: Config, m: Machine, event: Event, credits: int)
    requires m.state.InReady? && InFlight(m.state.ready, credits) && Step(cfg, m, event).0.state.InReady?
    ensures var r, r' := m.state.ready, Step(cfg, m, event).0.state.ready;
            && InFlight(r', credits + OkOf(event) + EarlyMark(m.state, event))
            && Advances(r, r', MarkReached(m.state, event) + 1)
            && (NeverIdle(r) ==> (NeverIdle(r') <==> !Strands(r, event)))
  {
    hide ReadyConsume;
    if Common(cfg, m, event).Some? {
      CommonFlow(cfg, m, event);
    } else {
      ReadyFlow(cfg, m.state.ready, m.ctx, event, credits);
    }
  }

  lemma {:induction false} CountsGrow(steps: seq<StepRecord>, last: StepRecord)
    requires steps != []
    ensures Oks(steps + [last]) == Oks(steps) + OkOf(last.event)
    ensures EarlyMarks(steps + [last]) == EarlyMarks(steps) + EarlyMark(last.pre.state, last.event)
    ensures NothingStranded(steps + [last]) ==> NothingStranded(steps)
    ensures NothingStranded(steps + [last]) && last.pre.state.InReady? ==> !Strands(last.pre.state.ready, last.event)
  {
    var all := steps + [last];
    assert all[..|all| - 1] == steps && all[|all| - 1] == last;
    if NothingStranded(all) {
      forall i | 0 < i < |steps| ensures steps[i].pre.state.InReady? ==> !Strands(steps[i].pre.state.ready, steps[i].event) {
        assert all[i] == steps[i];
      }
    }
  }

  /** What holds of a Ready driver after some steps of its session. */
  predicate Flows(r: Ready, steps: seq<StepRecord>) {
    InFlight(r, Oks(steps) + EarlyMarks(steps)) && (NothingStranded(steps) ==> NeverIdle(r))
  }

  lemma {:induction false} FlowsOn(cfg: Config, steps: seq<StepRecord>, last: StepRecord)
    requires steps != [] && last.pre.state.InReady? && Flows(last.pre.state.ready, steps)
    requires Step(cfg, last.pre, last.event) == (last.post, last.fx) && last.post.state.InReady?
    ensures Flows(last.post.state.ready, steps + [last])
  {
    hide Step, InFlight, NeverIdle, NothingStranded, Oks, EarlyMarks, EarlyMark, OkOf, Strands;
    CountsGrow(steps, last);
    StayFlow(cfg, last.pre, last.event, Oks(steps) + EarlyMarks(steps));
  }

  lemma {:induction false} FlowsFromEntry(cfg: Config, last: StepRecord)
    requires !last.pre.state.InReady? && last.post.state.InReady?
    requires Step(cfg, last.pre, last.event) == (last.post, last.fx)
    ensures Flows(last.post.state.ready, [last])
  {
    hide Step, InFlight, NeverIdle;
    EnterFlow(cfg, last.pre, last.event);
  }

  lemma {:induction false} EverySessionFlows(cfg: Config, events: seq<Event>)
    requires After(cfg, events).state.InReady?
    ensures Flows(After(cfg, events).state.ready, Session(cfg, events))
  {
    SessionGrows(cfg, events);
    var before, last := events[..|events| - 1], LastStep(cfg, events);
    assert Step(cfg, last.pre, last.event) == (last.post, last.fx) by { hide Step; }
    assert last.pre == After(cfg, before) && last.post == After(cfg, events) by { hide Step; }
    hide Step, Flows, After, Session, SessionTrace, LastStep, PollRequests;
    if last.pre.state.InReady? {
      EverySessionFlows(cfg, before);
      FlowsOn(cfg, Session(cfg, before), last);
    } else {
      FlowsFromEntry(cfg, last);
    }
  }

  /**
   Flow control: in every session, the numbered lines sent never exceed by more than one the oks
   received since the one that made the driver Ready, plus one for each awaited mark that was reached
   while an ok was awaited; and when no ok is awaited they do not exceed them at all.
   */
  lemma {:induction false} AtMostOneLineInFlight(cfg: Config, events: seq<Event>)
    requires After(cfg, events).state.InReady?
    ensures var steps, sent := Session(cfg, events), |Numbers(SessionTrace(cfg, events))|;
            && sent <= Oks(steps) + EarlyMarks(steps) + 1
            && (After(cfg, events).state.ready.onOk == NotAwaitingOk ==> sent <= Oks(steps) + EarlyMarks(steps))
  {
    hide Step, UpTo, After, Session, SessionTrace, Oks, EarlyMarks, NeverIdle, NothingStranded, Numbers, Checksummed;
    EverySessionFlows(cfg, events);
    LineNumbersHaveNoGaps(cfg, events);
  }

  /** The numbered lines one event sends, counted by the line counter. */
  lemma {:induction false} LinesOfEvent(cfg: Config, events: seq<Event>)
    requires events != [] && After(cfg, events).state.InReady?
    ensures var last := LastStep(cfg, events);
            |Numbers(last.fx)| == last.post.state.ready.nextLine - if last.pre.state.InReady? then last.pre.state.ready.nextLine else 1
  {
    hide Step, UpTo, Numbers, Checksummed;
    var before, last := events[..|events| - 1], LastStep(cfg, events);
    SessionGrows(cfg, events);
    LineNumbersHaveNoGaps(cfg, events);
    if last.pre.state.InReady? {
      LineNumbersHaveNoGaps(cfg, before);
      TraceSplit(SessionTrace(cfg, before), last.fx);
    }
  }

  /** Each event sends at most one numbered line, and one more if it reports the awaited mark. */
  lemma {:induction false} FewLinesPerEvent(cfg: Config, events: seq<Event>)
    requires events != [] && After(cfg, events).state.InReady?
    ensures var last := LastStep(cfg, events); |Numbers(last.fx)| <= 1 + MarkReached(last.pre.state, last.event)
  {
    hide Step, Numbers, NeverIdle, NothingStranded;
    var before, last := events[..|events| - 1], LastStep(cfg, events);
    LinesOfEvent(cfg, events);
    if last.pre.state.InReady? {
      EverySessionFlows(cfg, before);
      StayFlow(cfg, last.pre, last.event, Oks(Session(cfg, before)) + EarlyMarks(Session(cfg, before)));
    } else {
      EnterFlow(cfg, last.pre, last.event);
    }
  }

  /** Without host macros no mark is ever awaited, so the oks alone bound the lines. */
  lemma {:induction false} NoMarksWithoutMacros(cfg: Config, events: seq<Event>)
    requires After(cfg, events).state.InReady? && HostMacros(SessionTrace(cfg, events)) == []
    ensures EarlyMarks(Session(cfg, events)) == 0
    ensures MarkReached(LastStep(cfg, events).pre.state, LastStep(cfg, events).event) == 0
  {
    SessionGrows(cfg, events);
    var before, last := events[..|events| - 1], LastStep(cfg, events);
    assert last.pre == After(cfg, before) by { hide Step; }
    hide Step, After, LastStep, Session, SessionTrace, EarlyMarks, HostMacros, MarkReached, PollRequests;
    if last.pre.state.InReady? {
      TraceSplit(SessionTrace(cfg, before), last.fx);
      NoMarksWithoutMacros(cfg, before);
      NoMacrosNoMark(cfg, before);
      CountsGrow(Session(cfg, before), last);
      UnmarkedReachesNone(last.pre.state, last.event);
    } else {
      FirstStepReachesNone(last);
    }
  }

  lemma {:induction false} NoMacrosNoMark(cfg: Config, events: seq<Event>)
    requires After(cfg, events).state.InReady? && HostMacros(SessionTrace(cfg, events)) == []
    ensures After(cfg, events).state.ready.mark == None
  {
    hide Step, After, SessionTrace, HostMacros, GoodQueue;
    EverySession(cfg, events);
  }

  lemma {:induction false} UnmarkedReachesNone(state: State, event: Event)
    requires state.InReady? && state.ready.mark == None
    ensures MarkReached(state, event) == 0 && EarlyMark(state, event) == 0
  {
  }

  lemma {:induction false} FirstStepReachesNone(last: StepRecord)
    requires !last.pre.state.InReady?
    ensures MarkReached(last.pre.state, last.event) == 0 && EarlyMarks([last]) == 0
  {
  }

  /**
   The same with oks alone, and line by line: in a session that has despooled no host macro, the
   lines sent stay within one of the oks received, and each event sends at most one.
   */
  lemma {:induction false} OneLinePerOk(cfg: Config, events: seq<Event>)
    requires After(cfg, events).state.InReady? && HostMacros(SessionTrace(cfg, events)) == []
    ensures var steps, sent := Session(cfg, events), |Numbers(SessionTrace(cfg, events))|;
            && sent <= Oks(steps) + 1
            && (After(cfg, events).state.ready.onOk == NotAwaitingOk ==> sent <= Oks(steps))
            && |Numbers(LastStep(cfg, events).fx)| <= 1
  {
    hide Step, Numbers, HostMacros, NothingStranded;
    NoMarksWithoutMacros(cfg, events);
    AtMostOneLineInFlight(cfg, events);
    FewLinesPerEvent(cfg, events);
    SessionGrows(cfg, events);
    var before, last := events[..|events| - 1], LastStep(cfg, events);
    if last.pre.state.InReady? { CountsGrow(Session(cfg, before), last); }
  }

  /**
   Work conservation: as long as no capability report strands a task, a Ready driver that awaits
   no ok has an empty queue or a mark pending.
   */
  lemma {:induction false} NeverIdleWithWork(cfg: Config, events: seq<Event>)
    requires After(cfg, events).state.InReady? && NothingStranded(Session(cfg, events))
    ensures NeverIdle(After(cfg, events).state.ready)
  {
    EverySessionFlows(cfg, events);
  }

  // ---------------------------------------------------------------- the resend that cannot be made

  /** An ok arrives as the answer to an accepted resend request, with nothing in it that changes that. */
  predicate AsksForResend(state: State, event: Event) {
    && state.InReady? && state.ready.onOk == Resend && OkOf(event) == 1
    && FeedbackOf(event) != Some(BusyPausedForUser) && MarkReached(state, event) == 0
  }

  lemma {:induction false} OkResponsePanics(cfg: Config, r: Ready, ctx: Ctx, src: string, feedback: Option<Feedback>)
    requires r.lastGCodeSent.None?
    ensures ReceiveOkResponse(cfg, r, ctx, feedback).None? <==> AsksForResend(InReady(r), SerialRec(src, OkResponse(feedback)))
  {
    hide DespoolAll;
    if r.mark == Some(WaitingToReachMark) && feedback == Some(Positions(true, true)) {
      var out := DespoolAll(cfg, r.(mark := None), ctx);
      if out.err.None? { DespoolEnds(cfg, r.(mark := None), ctx, out); }
    }
  }

  lemma {:induction false} ReadyPanics(cfg: Config, r: Ready, ctx: Ctx, event: Event)
    requires r.lastGCodeSent.None?
    ensures ReadyConsume(cfg, r, ctx, event).0.state.Panicked? <==> AsksForResend(InReady(r), event)
  {
    hide ReceiveOkResponse, ReceiveFeedback, DespoolTask, PushAll, PushProgress, Enqueue, FindTask;
    if OkOf(event) == 1 { OkResponsePanics(cfg, r, ctx, event.src, event.response.feedback); }
  }

  /**
   In every run, a step makes the driver panic if and only if an ok is handled while a resend is expected:
   the line to resend is never remembered.
   */
  lemma {:induction false} PanicsExactly(cfg: Config, events: seq<Event>, event: Event)
    requires !After(cfg, events).state.Panicked?
    ensures Step(cfg, After(cfg, events), event).0.state.Panicked? <==>
            AsksForResend(After(cfg, events).state, event)
  {
    var m := After(cfg, events);
    EverySession(cfg, events);
    hide After, PushAll, WithoutIds, ReadyConsume;
    if m.state.InReady? {
      ReadyPanics(cfg, m.state.ready, m.ctx, event);
    } else if event.SerialRec? && event.response.OkResponse? {
      ReadyPanics(cfg, DefaultReady(m.ctx.lowKey), m.ctx.(lowKey := m.ctx.lowKey - 1), event);
    }
  }
}
