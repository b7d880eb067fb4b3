/**
 The lines the driver has to send: the fallback, the polls and the gcodes up to the next wait for a mark.
 Every despooling sends one of them while there are any; that decides exactly when the driver runs ahead of
 the firmware, and how many oks empty its queue.
 */
module LinesDue {
  import opened Wrappers
  import opened DriverTypes
  import opened DriverSpec
  import opened DriverRuns
  import opened SessionInvariant
  import opened SessionTheorems
  import opened FlowControl

  // ---------------------------------------------------------------- counting

  function PollsDue(r: Ready): nat {
    match r.pollFor
    case None => 0
    case Some(p) => if EffectivePoll(r, p) == PollTemperature then 2 else 1
  }

  /** The gcodes of the queue, in order. */
  function QueuedGcodes(cfg: Config, tasks: seq<Task>): seq<string> {
    if tasks == [] then [] else Gcodes(cfg, tasks[0].lines) + QueuedGcodes(cfg, tasks[1..])
  }

  /** The lines some gcodes make the driver send; a wait makes it send a position poll, and then wait. */
  function GcodesDue(cfg: Config, gcodes: seq<string>): nat {
    if gcodes == [] then 0
    else if !IsHostMacro(gcodes[0]) then 1 + GcodesDue(cfg, gcodes[1..])
    else match cfg.parseHost(gcodes[0][1..])
      case Some(MarkTargetPosition) => GcodesDue(cfg, gcodes[1..])
      case Some(WaitToReachMark) => 1
      case None => 0
  }

  function Due(cfg: Config, r: Ready): nat {
    (if r.mark == Some(WaitingToSendFallbackGCode) then 1 else 0)
    + PollsDue(r)
    + (if r.mark == Some(WaitingToReachMark) then 0 else GcodesDue(cfg, QueuedGcodes(cfg, r.tasks)))
  }

  function AtMostOne(n: nat): nat {
    if n > 0 then 1 else 0
  }

  /** From one state to the next the due lines became fewer by those that were sent. */
  predicate Spends(cfg: Config, before: Ready, after: Ready, lines: nat) {
    after.nextLine == before.nextLine + lines && Due(cfg, after) + lines == Due(cfg, before)
  }

  // ---------------------------------------------------------------- despooling

  /** The queue's gcodes after the front task's first one was taken, or the task was finished. */
  lemma {:induction false} FrontGcodes(cfg: Config, tasks: seq<Task>)
    requires tasks != []
    ensures var n := BlankPrefix(cfg, tasks[0].lines);
            QueuedGcodes(cfg, tasks) ==
            if n == |tasks[0].lines| then QueuedGcodes(cfg, tasks[1..])
            else [Clean(cfg, tasks[0].lines[n]).value] + QueuedGcodes(cfg, [AfterTaking(tasks[0], n)] + tasks[1..])
  {
    hide Gcodes, Clean, BlankPrefix;
    BlankPrefixGcodes(cfg, tasks[0].lines);
    var n := BlankPrefix(cfg, tasks[0].lines);
    if n < |tasks[0].lines| {
      var after := [AfterTaking(tasks[0], n)] + tasks[1..];
      assert after[1..] == tasks[1..];
    }
  }

  /** Nothing to do before the queue is served. */
  predicate Serves(r: Ready) {
    r.pollFor.None? && r.mark != Some(WaitingToReachMark) && r.mark != Some(WaitingToSendFallbackGCode)
  }

  /** What taking the front task's next gcode does to the lines due. */
  lemma {:induction false} TakeDue(cfg: Config, r: Ready, n: nat)
    requires r.tasks != [] && n == BlankPrefix(cfg, r.tasks[0].lines) < |r.tasks[0].lines| && Serves(r)
    ensures var gcode := Clean(cfg, r.tasks[0].lines[n]).value;
            var due := Due(cfg, r.(tasks := [AfterTaking(r.tasks[0], n)] + r.tasks[1..]));
            Due(cfg, r) ==
            if !IsHostMacro(gcode) then 1 + due
            else match cfg.parseHost(gcode[1..])
              case Some(MarkTargetPosition) => due
              case Some(WaitToReachMark) => 1
              case None => 0
  {
    FrontGcodes(cfg, r.tasks);
    var gcode := Clean(cfg, r.tasks[0].lines[n]).value;
    var rest := QueuedGcodes(cfg, [AfterTaking(r.tasks[0], n)] + r.tasks[1..]);
    hide BlankPrefix, Clean, QueuedGcodes, AfterTaking;
    assert ([gcode] + rest)[1..] == rest;
  }

  lemma {:induction false} TakeSpends(cfg: Config, r: Ready, ctx: Ctx, n: nat)
    requires r.tasks != [] && n == BlankPrefix(cfg, r.tasks[0].lines) < |r.tasks[0].lines|
    requires Serves(r) && !TakeFront(cfg, r, ctx, n).Failed?
    ensures var turn := TakeFront(cfg, r, ctx, n);
            && (turn.Settled? ==> Spends(cfg, r, turn.r, AtMostOne(Due(cfg, r))))
            && (turn.Again? ==> Spends(cfg, r, turn.r, 0))
  {
    TakeDue(cfg, r, n);
    hide PushProgress, BlankPrefix, Clean, Work, QueuedGcodes, GcodesDue, AfterTaking, SendLine;
  }

  lemma {:induction false} FrontSpends(cfg: Config, r: Ready, ctx: Ctx)
    requires r.tasks != [] && !FrontTurn(cfg, r, ctx).Failed? && Serves(r)
    ensures var turn := FrontTurn(cfg, r, ctx);
            && (turn.Settled? ==> Spends(cfg, r, turn.r, AtMostOne(Due(cfg, r))))
            && (turn.Again? ==> Spends(cfg, r, turn.r, 0))
  {
    FrontGcodes(cfg, r.tasks);
    hide PushProgress, BlankPrefix, Clean, Work, QueuedGcodes, GcodesDue, TakeFront;
    var n := BlankPrefix(cfg, r.tasks[0].lines);
    if n < |r.tasks[0].lines| { TakeSpends(cfg, r, ctx, n); }
  }

  lemma {:induction false} NothingDue(cfg: Config)
    ensures GcodesDue(cfg, QueuedGcodes(cfg, [])) == 0
  {
  }

  lemma {:induction false} TurnSpends(cfg: Config, r: Ready, ctx: Ctx)
    requires !DespoolTurn(cfg, r, ctx).Failed?
    ensures var turn := DespoolTurn(cfg, r, ctx);
            && (turn.Settled? ==> Spends(cfg, r, turn.r, AtMostOne(Due(cfg, r))))
            && (turn.Again? ==> Spends(cfg, r, turn.r, 0))
  {
    hide FrontTurn, Work, GcodesDue;
    var r1 := r.(awaitingPollingFeedback := false);
    assert Due(cfg, r1) == Due(cfg, r);
    assert r.tasks == [] ==> GcodesDue(cfg, QueuedGcodes(cfg, r.tasks)) == 0 by { NothingDue(cfg); }
    if Serves(r) && r.tasks != [] {
      FrontSpends(cfg, r1, ctx);
    }
  }

  lemma {:induction false} FinishSpends(cfg: Config, turn: Turn)
    requires turn.Again? && Finish(cfg, turn).err.None?
    ensures Spends(cfg, turn.r, Finish(cfg, turn).r, AtMostOne(Due(cfg, turn.r)))
    decreases Work(turn.r.tasks)
  {
    hide DespoolTurn, Due;
    var next := DespoolTurn(cfg, turn.r, turn.ctx);
    TurnSpends(cfg, turn.r, turn.ctx);
    if next.Again? { FinishSpends(cfg, next); }
  }

  /** Despooling sends one of the due lines, if there are any, and no more. */
  lemma {:induction false} DespoolSpends(cfg: Config, r: Ready, ctx: Ctx)
    requires DespoolAll(cfg, r, ctx).err.None?
    ensures Spends(cfg, r, DespoolAll(cfg, r, ctx).r, AtMostOne(Due(cfg, r)))
  {
    hide DespoolTurn, Due;
    var turn := DespoolTurn(cfg, r, ctx);
    TurnSpends(cfg, r, ctx);
    if turn.Again? { FinishSpends(cfg, turn); }
  }

  // ---------------------------------------------------------------- running ahead

  /**
   The event makes the driver run ahead: it reports the awaited mark while an ok is still awaited, and there
   is a line to send at once, and a second one if the report comes with the ok.
   */
  predicate RunsAhead(cfg: Config, r: Ready, event: Event) {
    && EarlyMark(InReady(r), event) == 1
    && Due(cfg, r.(mark := None)) >= 1 + OkOf(event)
  }

  /** The lines an event may send without running ahead: one for its ok, and one if no ok is awaited. */
  function Allowance(r: Ready, event: Event): nat {
    OkOf(event) + if r.onOk == NotAwaitingOk then 1 else 0
  }

  lemma {:induction false} MarkWithOkAhead(cfg: Config, r: Ready, ctx: Ctx)
    requires r.mark == Some(WaitingToReachMark)
    requires var result := ReceiveOkResponse(cfg, r, ctx, Some(Positions(true, true))); result.Some? && result.value.err.None?
    ensures var out := ReceiveOkResponse(cfg, r, ctx, Some(Positions(true, true))).value;
            var due := Due(cfg, r.(mark := None));
            out.r.nextLine == r.nextLine + if due >= 2 then 2 else due
  {
    hide DespoolAll, Due;
    var r1 := r.(mark := None);
    var first := DespoolAll(cfg, r1, ctx);
    DespoolSpends(cfg, r1, ctx);
    DespoolEnds(cfg, r1, ctx, first);
    if first.r.onOk == Despool { DespoolSpends(cfg, first.r, first.ctx); }
  }

  lemma {:induction false} SerialAhead(cfg: Config, r: Ready, ctx: Ctx, src: string, response: Response)
    requires ReadySerial(cfg, r, ctx, response).0.state.InReady?
    ensures var event, r' := SerialRec(src, response), ReadySerial(cfg, r, ctx, response).0.state.ready;
            r'.nextLine > r.nextLine + Allowance(r, event) <==> RunsAhead(cfg, r, event)
  {
    hide ReceiveOkResponse, DespoolAll, Due;
    var event := SerialRec(src, response);
    SerialFlow(cfg, r, ctx, src, response, r.nextLine);
    if MarkReached(InReady(r), event) == 1 {
      if response.OkResponse? {
        MarkWithOkAhead(cfg, r, ctx);
      } else {
        DespoolSpends(cfg, r.(mark := None), ctx);
      }
    }
  }

  /** One event, exactly: while Ready the driver sends more than its allowance just when it runs ahead. */
  lemma {:induction false} ReadyAhead(cfg: Config, r: Ready, ctx: Ctx, event: Event)
    requires ReadyConsume(cfg, r, ctx, event).0.state.InReady?
    ensures var r' := ReadyConsume(cfg, r, ctx, event).0.state.ready;
            r'.nextLine > r.nextLine + Allowance(r, event) <==> RunsAhead(cfg, r, event)
  {
    hide ReadySerial, Load, Pause, Due;
    match event
    case SerialRec(src, response) => SerialAhead(cfg, r, ctx, src, response);
    case GCodeLoaded(s) => LoadAhead(cfg, r, ctx, s);
    case ProtobufRec(Some(PauseTask(id))) => PauseFlow(r, ctx, id, r.nextLine);
    case ProtobufRec(Some(SpoolTask(id, client, startAt, Some(Inline(commands)), machineOverride))) =>
      LoadAhead(cfg, r.(loadingGCode := true), ctx,
                Submission(id, client, commands, StartNumber(startAt), machineOverride));
    case _ =>
  }

  lemma {:induction false} LoadAhead(cfg: Config, r: Ready, ctx: Ctx, s: Submission)
    requires Load(cfg, r, ctx, s).0.state.InReady?
    ensures Load(cfg, r, ctx, s).0.state.ready.nextLine <= r.nextLine + if r.onOk == NotAwaitingOk then 1 else 0
  {
    LoadFlow(cfg, r, ctx, s, r.nextLine);
    hide DespoolTask, Enqueue;
  }

  /**
   In every run: an event that a Ready driver survives sends more numbered lines than its ok, or the lack of
   an awaited ok, allows for, if and only if the driver runs ahead by it.
   */
  lemma {:induction false} AheadExactly(cfg: Config, events: seq<Event>, event: Event)
    requires After(cfg, events).state.InReady? && After(cfg, events + [event]).state.InReady?
    ensures var r := After(cfg, events).state.ready;
            |Numbers(LastStep(cfg, events + [event]).fx)| > Allowance(r, event) <==> RunsAhead(cfg, r, event)
  {
    hide After, Due, Numbers, ReadyConsume;
    var m := After(cfg, events);
    OneMore(cfg, events, event);
    LinesOfEvent(cfg, events + [event]);
    if Common(cfg, m, event).Some? {
      CommonFlow(cfg, m, event);
    } else {
      ReadyAhead(cfg, m.state.ready, m.ctx, event);
    }
  }

  lemma {:induction false} OneMore(cfg: Config, events: seq<Event>, event: Event)
    ensures var last := LastStep(cfg, events + [event]);
            && last.pre == After(cfg, events) && last.event == event
            && last.post == After(cfg, events + [event]) == Step(cfg, After(cfg, events), event).0
  {
    hide Step;
    assert (events + [event])[..|events + [event]| - 1] == events;
  }

  // ---------------------------------------------------------------- enough oks

  /** An ok that brings no feedback with it. */
  predicate IsOk(event: Event) {
    event.SerialRec? && event.response == OkResponse(None)
  }

  /** No host macro is queued, and no mark is awaited or being set up. */
  predicate Plain(cfg: Config, r: Ready) {
    && (r.mark.None? || r.mark == Some(MarkSet))
    && forall gcode :: gcode in QueuedGcodes(cfg, r.tasks) ==> !IsHostMacro(gcode)
  }

  /** All that is left to do is to await oks: lines are due, and the last ok will find nothing to send. */
  predicate Draining(cfg: Config, r: Ready) {
    r.onOk == Despool && Plain(cfg, r)
  }

  predicate Done(r: Ready) {
    r.onOk == NotAwaitingOk && r.tasks == []
  }

  lemma {:induction false} FrontStaysPlain(cfg: Config, r: Ready, ctx: Ctx)
    requires r.tasks != [] && Plain(cfg, r)
    ensures var turn := FrontTurn(cfg, r, ctx); !turn.Failed? && Plain(cfg, turn.r)
  {
    FrontGcodes(cfg, r.tasks);
    hide PushProgress, BlankPrefix, Clean, Work, QueuedGcodes, SendLine;
    var n := BlankPrefix(cfg, r.tasks[0].lines);
    if n < |r.tasks[0].lines| {
      var gcode := Clean(cfg, r.tasks[0].lines[n]).value;
      var rest := QueuedGcodes(cfg, [AfterTaking(r.tasks[0], n)] + r.tasks[1..]);
      assert gcode in [gcode] + rest && forall g :: g in rest ==> g in [gcode] + rest;
    }
  }

  lemma {:induction false} TurnStaysPlain(cfg: Config, r: Ready, ctx: Ctx)
    requires Plain(cfg, r)
    ensures var turn := DespoolTurn(cfg, r, ctx); !turn.Failed? && Plain(cfg, turn.r)
  {
    hide FrontTurn, Work, QueuedGcodes;
    if r.tasks != [] { FrontStaysPlain(cfg, r.(awaitingPollingFeedback := false), ctx); }
  }

  lemma {:induction false} FinishStaysPlain(cfg: Config, turn: Turn)
    requires !turn.Failed? && Plain(cfg, turn.r)
    ensures Finish(cfg, turn).err.None? && Plain(cfg, Finish(cfg, turn).r)
    decreases if turn.Again? then Work(turn.r.tasks) + 1 else 0
  {
    hide DespoolTurn, Plain;
    if turn.Again? {
      TurnStaysPlain(cfg, turn.r, turn.ctx);
      FinishStaysPlain(cfg, DespoolTurn(cfg, turn.r, turn.ctx));
    }
  }

  /** An ok sends a due line, or finds nothing left. */
  lemma {:induction false} OkDrains(cfg: Config, r: Ready, ctx: Ctx, event: Event)
    requires IsOk(event) && Draining(cfg, r)
    ensures var state := ReadyConsume(cfg, r, ctx, event).0.state;
            && state.InReady? && Plain(cfg, state.ready)
            && Spends(cfg, r, state.ready, AtMostOne(Due(cfg, r)))
            && if Due(cfg, r) > 0 then Draining(cfg, state.ready) else Done(state.ready)
  {
    hide DespoolTurn, Plain, Due;
    TurnStaysPlain(cfg, r, ctx);
    FinishStaysPlain(cfg, DespoolTurn(cfg, r, ctx));
    var out := DespoolAll(cfg, r, ctx);
    DespoolSpends(cfg, r, ctx);
    DespoolEnds(cfg, r, ctx, out);
    assert out.r.mark != Some(WaitingToReachMark) by { NotWaiting(cfg, out.r); }
  }

  lemma {:induction false} NotWaiting(cfg: Config, r: Ready)
    requires Plain(cfg, r)
    ensures r.mark != Some(WaitingToReachMark)
  {
  }

  lemma {:induction false} OkIsNotCommon(cfg: Config, m: Machine, event: Event)
    requires IsOk(event) && m.state.InReady?
    ensures Step(cfg, m, event) == ReadyConsume(cfg, m.state.ready, m.ctx, event)
    ensures m.state.ready.onOk == NotAwaitingOk ==> Step(cfg, m, event).0.state == m.state
  {
    hide DespoolTurn;
  }

  /**
   Progress: with no further submissions and no host macros queued, every ok sends one of the lines due, and
   one ok more than there are lines due empties the queue; the driver then stays as it is.
   */
  lemma {:induction false} EnoughOksEmptyTheQueue(cfg: Config, events: seq<Event>, oks: seq<Event>)
    requires After(cfg, events).state.InReady? && Draining(cfg, After(cfg, events).state.ready)
    requires forall e :: e in oks ==> IsOk(e)
    ensures var r, m := After(cfg, events).state.ready, After(cfg, events + oks);
            && m.state.InReady?
            && if |oks| <= Due(cfg, r) then Draining(cfg, m.state.ready) && Spends(cfg, r, m.state.ready, |oks|)
               else Done(m.state.ready) && m.state.ready.nextLine == r.nextLine + Due(cfg, r)
  {
    hide After, Step, Due, Plain;
    if oks == [] {
      assert events + oks == events;
    } else {
      var fewer, event := oks[..|oks| - 1], oks[|oks| - 1];
      EnoughOksEmptyTheQueue(cfg, events, fewer);
      assert (events + fewer) + [event] == events + oks;
      OneMore(cfg, events + fewer, event);
      var m := After(cfg, events + fewer);
      OkIsNotCommon(cfg, m, event);
      if m.state.ready.onOk == Despool { OkDrains(cfg, m.state.ready, m.ctx, event); }
    }
  }

  /** So everything accepted in the session and not paused has then been despooled, whole. */
  lemma {:induction false} EnoughOksPrintEverything(cfg: Config, events: seq<Event>, oks: seq<Event>, key: int)
    requires After(cfg, events).state.InReady? && Draining(cfg, After(cfg, events).state.ready)
    requires (forall e :: e in oks ==> IsOk(e)) && |oks| > Due(cfg, After(cfg, events).state.ready)
    requires key in SessionBook(cfg, events + oks).accepted
    ensures Despooled(SessionTrace(cfg, events + oks), key) ==
            Gcodes(cfg, AdmittedLines(SessionBook(cfg, events + oks).accepted[key]))
  {
    hide After, Due, Draining, SessionBook, SessionTrace, Despooled, Gcodes;
    EnoughOksEmptyTheQueue(cfg, events, oks);
    AcceptedTasksRunToTheEnd(cfg, events + oks, key);
  }

  /** The lines due are the queued gcodes and at most two polls. */
  lemma {:induction false} DueIsBounded(cfg: Config, r: Ready)
    requires Plain(cfg, r)
    ensures |QueuedGcodes(cfg, r.tasks)| <= Due(cfg, r) <= |QueuedGcodes(cfg, r.tasks)| + 2
  {
    AllDue(cfg, QueuedGcodes(cfg, r.tasks));
  }

  lemma {:induction false} AllDue(cfg: Config, gcodes: seq<string>)
    requires forall gcode :: gcode in gcodes ==> !IsHostMacro(gcode)
    ensures GcodesDue(cfg, gcodes) == |gcodes|
  {
    if gcodes != [] {
      AllDue(cfg, gcodes[1..]);
    }
  }
}
