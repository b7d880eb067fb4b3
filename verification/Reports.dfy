/** What the driver tells its clients and its reactor besides the lines it writes, and exactly when. */
module Reports {
  import opened Wrappers
  import opened DriverTypes
  import opened DriverSpec
  import opened DriverRuns
  import opened SessionTheorems
  import opened TaskReports
  import opened FlowControl
  import opened LinesDue
  import opened EmergencyStop
  import opened LeavingReady
  import Reactor
  import Connection

  // ---------------------------------------------------------------- ends are announced

  /** The status is final: the task is no longer in the queue. */
  predicate IsFinal(status: Option<TaskStatus>) {
    status != None && status != Some(Started)
  }

  /** Whatever final status the clients may newly learn, they are sent. */
  ghost predicate Tells(before: Ctx, ctx: Ctx, fx: seq<Effect>) {
    SendFeedbackProtobuf in fx || forall id :: IsFinal(Told(ctx, id)) ==> Told(ctx, id) == Told(before, id)
  }

  lemma {:induction false} FrontTells(cfg: Config, r: Ready, ctx: Ctx)
    requires r.tasks != [] && !FrontTurn(cfg, r, ctx).Failed?
    ensures var turn := FrontTurn(cfg, r, ctx); Tells(ctx, turn.ctx, turn.fx)
  {
    hide PushProgress, BlankPrefix, Work, Clean, AfterTaking, SendNumbered, Told, TakeFront;
    var n := BlankPrefix(cfg, r.tasks[0].lines);
    if n < |r.tasks[0].lines| { StartedTells(cfg, r, ctx, AfterTaking(r.tasks[0], n)); }
  }

  lemma {:induction false} StartedTells(cfg: Config, r: Ready, ctx: Ctx, t: Task)
    ensures forall id :: IsFinal(Told(PushProgress(ctx, t, Started), id)) ==>
                           Told(PushProgress(ctx, t, Started), id) == Told(ctx, id)
  {
    forall id
      ensures var told := Told(PushProgress(ctx, t, Started), id); told == Some(Started) || told == Told(ctx, id)
    {
      hide PushProgress, Lookup;
      PushLookup(ctx, t, Started, id);
    }
  }

  lemma {:induction false} TurnTells(cfg: Config, r: Ready, ctx: Ctx, turn: Turn)
    requires IsTurn(cfg, r, ctx, turn) && !turn.Failed?
    ensures Tells(ctx, turn.ctx, turn.fx)
  {
    hide FrontTurn, Work, Told;
    var r1 := r.(awaitingPollingFeedback := false);
    if r.tasks != [] && !FrontTurn(cfg, r1, ctx).Failed? { FrontTells(cfg, r1, ctx); }
  }

  lemma {:induction false} DespoolAnnounces(cfg: Config, r: Ready, ctx: Ctx, out: Out)
    requires (out == DespoolAll(cfg, r, ctx) || out == DespoolTask(cfg, r, ctx)) && out.err.None?
    ensures Tells(ctx, out.ctx, out.fx)
  {
    hide DespoolAll, DespoolTask, IsTurn, Told;
    var inv := (trace: seq<Effect>, r: Ready, now: Ctx) => Tells(ctx, now, trace);
    forall trace: seq<Effect>, r, now, turn | inv(trace, r, now) && IsTurn(cfg, r, now, turn) && !turn.Failed?
      ensures inv(trace + turn.fx, turn.r, turn.ctx)
    {
      TurnTells(cfg, r, now, turn);
    }
    DespoolInduction(cfg, [], r, ctx, out, inv);
    assert [] + out.fx == out.fx;
  }

  lemma {:induction false} FeedbackAnnounces(cfg: Config, r: Ready, ctx: Ctx, feedback: Feedback)
    requires ReceiveFeedback(cfg, r, ctx, feedback).err.None?
    ensures var out := ReceiveFeedback(cfg, r, ctx, feedback); Tells(ctx, out.ctx, out.fx)
  {
    hide DespoolAll, Told;
    if feedback == Positions(true, true) && r.mark == Some(WaitingToReachMark) {
      DespoolAnnounces(cfg, r.(mark := None), ctx, DespoolAll(cfg, r.(mark := None), ctx));
    }
  }

  lemma {:induction false} OkAnnounces(cfg: Config, r: Ready, ctx: Ctx)
    requires ReceiveOk(cfg, r, ctx).Some? && ReceiveOk(cfg, r, ctx).value.err.None?
    ensures var out := ReceiveOk(cfg, r, ctx).value; Tells(ctx, out.ctx, out.fx)
  {
    hide DespoolAll, Told;
    if r.onOk == Despool { DespoolAnnounces(cfg, r, ctx, DespoolAll(cfg, r, ctx)); }
  }

  lemma {:induction false} SerialAnnounces(cfg: Config, r: Ready, ctx: Ctx, response: Response)
    ensures var (m, fx) := ReadySerial(cfg, r, ctx, response); Tells(ctx, m.ctx, fx) || m.state.Panicked?
  {
    hide ReceiveFeedback, ReceiveOk, PushAll, Lookup;
    match response
    case OkResponse(feedback) =>
      if feedback.None? {
        if ReceiveOk(cfg, r, ctx).Some? && ReceiveOk(cfg, r, ctx).value.err.None? { OkAnnounces(cfg, r, ctx); }
      } else {
        var first := ReceiveFeedback(cfg, r, ctx, feedback.value);
        if first.err.None? {
          FeedbackAnnounces(cfg, r, ctx, feedback.value);
          var second := ReceiveOk(cfg, first.r, first.ctx);
          if second.Some? && second.value.err.None? { OkAnnounces(cfg, first.r, first.ctx); }
        }
      }
    case _ =>
  }

  lemma {:induction false} LoadAnnounces(cfg: Config, r: Ready, ctx: Ctx, s: Submission)
    ensures var (m, fx) := Load(cfg, r, ctx, s); Tells(ctx, m.ctx, fx)
  {
    hide DespoolTask, PushAll, Enqueue, Lookup;
    if r.onOk == NotAwaitingOk {
      var r1, ctx1 := r.(tasks := Enqueue(r.tasks, Admit(ctx.nextKey, s))), ctx.(nextKey := ctx.nextKey + 1);
      var out := DespoolTask(cfg, r1, ctx1);
      if out.err.None? { DespoolAnnounces(cfg, r1, ctx1, out); }
    }
  }

  lemma {:induction false} ReadyAnnounces(cfg: Config, r: Ready, ctx: Ctx, event: Event)
    ensures var (m, fx) := ReadyConsume(cfg, r, ctx, event); Tells(ctx, m.ctx, fx) || m.state.Panicked?
  {
    hide ReadySerial, Load, PushAll, PushProgress, FindTask, Lookup;
    match event
    case SerialRec(_, response) => SerialAnnounces(cfg, r, ctx, response);
    case GCodeLoaded(s) => LoadAnnounces(cfg, r, ctx, s);
    case ProtobufRec(Some(SpoolTask(id, client, startAt, Some(Inline(commands)), machineOverride))) =>
      LoadAnnounces(cfg, r.(loadingGCode := true), ctx,
                    Submission(id, client, commands, StartNumber(startAt), machineOverride));
    case _ =>
  }

  lemma {:induction false} IdleAnnounces(cfg: Config, m: Machine, event: Event)
    requires !m.state.InReady?
    ensures var (m', fx) := IdleConsume(cfg, m, event); Tells(m.ctx, m'.ctx, fx) || m'.state.Panicked?
  {
    hide ReadyConsume, Lookup;
    if m.state.Connecting? && event.SerialRec? && event.response.OkResponse? {
      ReadyAnnounces(cfg, DefaultReady(m.ctx.lowKey), m.ctx.(lowKey := m.ctx.lowKey - 1), event);
    }
  }

  lemma {:induction false} CommonAnnounces(cfg: Config, m: Machine, event: Event)
    requires Common(cfg, m, event).Some?
    ensures var (m', fx) := Common(cfg, m, event).value; Tells(m.ctx, m'.ctx, fx)
  {
    hide PushAll, WithoutIds, Lookup;
    if event.ProtobufRec? && event.payload.Some? && event.payload.value.DeleteTaskHistory? {
      forall id ensures var told := Told(Common(cfg, m, event).value.0.ctx, id); told == None || told == Told(m.ctx, id) {
        WithoutLookup(m.ctx.progress, event.payload.value.taskIds, id);
      }
    }
  }

  /**
   Every event: if a task id is on record as finished, paused, cancelled or errored after it and was not
   before, the clients are sent the record.
   */
  lemma {:induction false} EndsAreAnnounced(cfg: Config, m: Machine, event: Event, id: string)
    requires !Step(cfg, m, event).0.state.Panicked?
    requires var told := Told(Step(cfg, m, event).0.ctx, id); IsFinal(told) && told != Told(m.ctx, id)
    ensures SendFeedbackProtobuf in Step(cfg, m, event).1
  {
    hide Common, ReadyConsume, IdleConsume, Told;
    if Common(cfg, m, event).Some? { CommonAnnounces(cfg, m, event); }
    else if m.state.InReady? { ReadyAnnounces(cfg, m.state.ready, m.ctx, event); }
    else { IdleAnnounces(cfg, m, event); }
  }

  // ---------------------------------------------------------------- changes of state, and reports, are announced

  lemma {:induction false} DespoolKeepsStatus(cfg: Config, r: Ready, ctx: Ctx)
    ensures Connection.SameStatus(ctx, DespoolAll(cfg, r, ctx).ctx) && Connection.SameStatus(ctx, DespoolTask(cfg, r, ctx).ctx)
  {
    hide DespoolTurn, TaskTurn;
  }

  lemma {:induction false} FeedbackSent(cfg: Config, r: Ready, ctx: Ctx, feedback: Feedback)
    ensures Connection.SameStatus(ctx, ReceiveFeedback(cfg, r, ctx, feedback).ctx)
  {
    hide DespoolAll;
    DespoolKeepsStatus(cfg, r.(mark := None), ctx);
  }

  lemma {:induction false} OkSent(cfg: Config, r: Ready, ctx: Ctx)
    requires ReceiveOk(cfg, r, ctx).Some?
    ensures var out := ReceiveOk(cfg, r, ctx).value; Connection.SameStatus(ctx, out.ctx) || SendFeedbackProtobuf in out.fx
  {
    hide DespoolAll;
    DespoolKeepsStatus(cfg, r, ctx);
  }

  lemma {:induction false} OkResponseSent(cfg: Config, r: Ready, ctx: Ctx, feedback: Option<Feedback>)
    requires ReceiveOkResponse(cfg, r, ctx, feedback).Some? && ReceiveOkResponse(cfg, r, ctx, feedback).value.err.None?
    ensures var out := ReceiveOkResponse(cfg, r, ctx, feedback).value;
            Connection.SameStatus(ctx, out.ctx) || SendFeedbackProtobuf in out.fx
  {
    hide ReceiveFeedback, ReceiveOk;
    if feedback.None? {
      OkSent(cfg, r, ctx);
    } else {
      var first := ReceiveFeedback(cfg, r, ctx, feedback.value);
      FeedbackSent(cfg, r, ctx, feedback.value);
      OkSent(cfg, first.r, first.ctx);
    }
  }

  lemma {:induction false} SerialSent(cfg: Config, r: Ready, ctx: Ctx, response: Response)
    ensures var (m, fx) := ReadySerial(cfg, r, ctx, response);
            m.state.Panicked? || Connection.SameStatus(ctx, m.ctx) || SendFeedbackProtobuf in fx
  {
    hide ReceiveFeedback, ReceiveOkResponse, PushAll;
    if response.OkResponse? {
      var result := ReceiveOkResponse(cfg, r, ctx, response.feedback);
      if result.Some? && result.value.err.None? { OkResponseSent(cfg, r, ctx, response.feedback); }
    }
  }

  lemma {:induction false} ReadySent(cfg: Config, r: Ready, ctx: Ctx, event: Event)
    ensures var (m, fx) := ReadyConsume(cfg, r, ctx, event);
            m.state.Panicked? || Connection.SameStatus(ctx, m.ctx) || SendFeedbackProtobuf in fx
  {
    hide ReadySerial, Load, PushAll, PushProgress, FindTask;
    match event
    case SerialRec(_, response) => SerialSent(cfg, r, ctx, response);
    case GCodeLoaded(s) => LoadSent(cfg, r, ctx, s);
    case ProtobufRec(Some(SpoolTask(id, client, startAt, Some(Inline(commands)), machineOverride))) =>
      LoadSent(cfg, r.(loadingGCode := true), ctx, Submission(id, client, commands, StartNumber(startAt), machineOverride));
    case _ =>
  }

  lemma {:induction false} LoadSent(cfg: Config, r: Ready, ctx: Ctx, s: Submission)
    ensures var (m, fx) := Load(cfg, r, ctx, s); Connection.SameStatus(ctx, m.ctx) || SendFeedbackProtobuf in fx
  {
    hide DespoolTask, PushAll, Enqueue, Admit;
    DespoolKeepsStatus(cfg, r.(tasks := Enqueue(r.tasks, Admit(ctx.nextKey, s))), ctx.(nextKey := ctx.nextKey + 1));
  }

  /** Every event that changes the status or the error that clients see sends them to the clients. */
  lemma {:induction false} StatusIsSent(cfg: Config, m: Machine, event: Event)
    ensures var (m', fx) := Step(cfg, m, event);
            m'.state.Panicked? || Connection.SameStatus(m.ctx, m'.ctx) || SendFeedbackProtobuf in fx
  {
    hide ReadyConsume, PushAll, WithoutIds;
    if !m.state.Panicked? && Common(cfg, m, event).None? {
      if m.state.InReady? {
        ReadySent(cfg, m.state.ready, m.ctx, event);
      } else if m.state.Connecting? && event.SerialRec? && event.response.OkResponse? {
        ReadySent(cfg, DefaultReady(m.ctx.lowKey), m.ctx.(lowKey := m.ctx.lowKey - 1), event);
      }
    }
  }

  /** Every report of the firmware that is no ok, every report of temperatures and every connection is answered so too. */
  lemma {:induction false} ReportsAreSent(cfg: Config, m: Machine, event: Event)
    requires m.state.InReady? && Step(cfg, m, event).0.state.InReady?
    requires || (event.SerialRec? && event.response.FeedbackResponse?)
             || FeedbackOf(event) == Some(ActualTemperatures) || event.ProtobufClientConnection?
    ensures SendFeedbackProtobuf in Step(cfg, m, event).1
  {
    hide ReceiveOk, DespoolAll, PushAll;
  }

  // ---------------------------------------------------------------- starts are announced

  /** The queue entry an effect despools from. */
  function KeyOf(e: Effect): Option<int> {
    match e
    case SendSerial(_, FromTask(key, _)) => Some(key)
    case RanHostMacro(key, _, _, _) => Some(key)
    case _ => None
  }

  predicate Begun(tasks: seq<Task>, key: int) {
    exists t :: t in tasks && t.key == key && t.started
  }

  /** Gcodes of a task that had not begun are announced. */
  ghost predicate Announces(before: seq<Task>, tasks: seq<Task>, fx: seq<Effect>) {
    || SendFeedbackProtobuf in fx
    || (&& (forall e :: e in fx && KeyOf(e).Some? ==> Begun(before, KeyOf(e).value))
        && (forall key :: Begun(tasks, key) ==> Begun(before, key)))
  }

  lemma {:induction false} FrontAnnounces(cfg: Config, r: Ready, ctx: Ctx)
    requires r.tasks != [] && !FrontTurn(cfg, r, ctx).Failed?
    ensures var turn := FrontTurn(cfg, r, ctx); Announces(r.tasks, turn.r.tasks, turn.fx)
  {
    hide PushProgress, BlankPrefix, Work, Clean;
    var n := BlankPrefix(cfg, r.tasks[0].lines);
    if n < |r.tasks[0].lines| && r.tasks[0].started {
      assert Begun(r.tasks, r.tasks[0].key);
      assert forall t :: t in r.tasks[1..] ==> t in r.tasks;
    }
  }

  lemma {:induction false} TurnAnnounces(cfg: Config, r: Ready, ctx: Ctx, turn: Turn)
    requires IsTurn(cfg, r, ctx, turn) && !turn.Failed?
    ensures Announces(r.tasks, turn.r.tasks, turn.fx)
  {
    hide FrontTurn, Work, Begun;
    var r1 := r.(awaitingPollingFeedback := false);
    if r.tasks != [] && !FrontTurn(cfg, r1, ctx).Failed? { FrontAnnounces(cfg, r1, ctx); }
  }

  /** Despooling announces every task whose first gcode it takes. */
  lemma {:induction false} StartsAreAnnounced(cfg: Config, r: Ready, ctx: Ctx, out: Out)
    requires (out == DespoolAll(cfg, r, ctx) || out == DespoolTask(cfg, r, ctx)) && out.err.None?
    ensures Announces(r.tasks, out.r.tasks, out.fx)
  {
    hide DespoolAll, DespoolTask, IsTurn, Begun, KeyOf;
    var inv := (trace: seq<Effect>, now: Ready, ctx: Ctx) => Announces(r.tasks, now.tasks, trace);
    forall trace: seq<Effect>, now, ctx, turn | inv(trace, now, ctx) && IsTurn(cfg, now, ctx, turn) && !turn.Failed?
      ensures inv(trace + turn.fx, turn.r, turn.ctx)
    {
      TurnAnnounces(cfg, now, ctx, turn);
    }
    DespoolInduction(cfg, [], r, ctx, out, inv);
    assert [] + out.fx == out.fx;
  }

  // ---------------------------------------------------------------- exits

  /** Effects that end the process. */
  predicate Exits(e: Effect) {
    e.ExitProcess? || e.ExitProcessAfterDelay?
  }

  /** A request to end the process that can be met at once. */
  predicate AsksToExit(m: Machine, event: Event) {
    event == ProtobufRec(Some(Reset)) || (event == ProtobufRec(Some(ResetWhenIdle)) && QueuedTasks(m.state) == [])
  }

  /** Effects that no handling of a Ready driver has. */
  predicate Rare(e: Effect) {
    e.ExitProcess? || e.SendInitProtobuf?
  }

  /** An exit is only asked for with nothing left to print, and while waiting for that; none is missed. */
  predicate ExitsRight(r: Ready, resetWhenIdle: bool, fx: seq<Effect>) {
    && (forall e :: e in fx ==> !Rare(e))
    && (ExitProcessAfterDelay in fx ==> resetWhenIdle && r.tasks == [])
    && (resetWhenIdle && r.onOk == NotAwaitingOk && r.mark != Some(WaitingToReachMark) ==> ExitProcessAfterDelay in fx)
  }

  predicate TurnExits(r: Ready, ctx: Ctx, turn: Turn) {
    && turn.ctx.resetWhenIdle == ctx.resetWhenIdle
    && match turn
       case Settled(r', _, fx) => ExitsRight(r', ctx.resetWhenIdle, fx)
       case Again(_, _, fx) => forall e :: e in fx ==> !Rare(e) && !Exits(e)
       case Failed(_, _, _) => true
  }

  lemma {:induction false} FrontExits(cfg: Config, r: Ready, ctx: Ctx)
    requires r.tasks != []
    ensures TurnExits(r, ctx, FrontTurn(cfg, r, ctx))
  {
    hide PushProgress, BlankPrefix, Work, Clean, AfterTaking;
  }

  lemma {:induction false} LineExits(cfg: Config, r: Ready, gcode: string, origin: Origin, resetWhenIdle: bool)
    ensures var (r', fx) := SendNumbered(cfg, r, gcode, origin); ExitsRight(r', resetWhenIdle, fx)
  {
  }

  lemma {:induction false} PollExits(cfg: Config, r: Ready, p: Polling, resetWhenIdle: bool)
    ensures var (r', fx) := DriverSpec.Poll(cfg, r, p); ExitsRight(r', resetWhenIdle, fx)
  {
  }

  lemma {:induction false} TurnExitsRight(cfg: Config, r: Ready, ctx: Ctx, turn: Turn)
    requires IsTurn(cfg, r, ctx, turn)
    ensures TurnExits(r, ctx, turn)
  {
    hide FrontTurn, Work, DriverSpec.Poll, SendNumbered;
    if r.tasks != [] { FrontExits(cfg, r.(awaitingPollingFeedback := false), ctx); }
    if r.pollFor.Some? { PollExits(cfg, r, r.pollFor.value, ctx.resetWhenIdle); }
    LineExits(cfg, r.(mark := None), "M400", Fallback, ctx.resetWhenIdle);
  }

  lemma {:induction false} FinishExits(cfg: Config, resetWhenIdle: bool, turn: Turn)
    requires turn.ctx.resetWhenIdle == resetWhenIdle && Finish(cfg, turn).err.None?
    requires turn.Settled? ==> ExitsRight(turn.r, resetWhenIdle, turn.fx)
    requires turn.Again? ==> forall e :: e in turn.fx ==> !Rare(e) && !Exits(e)
    ensures var out := Finish(cfg, turn); ExitsRight(out.r, resetWhenIdle, out.fx)
    decreases if turn.Again? then Work(turn.r.tasks) + 1 else 0
  {
    hide DespoolTurn, IsTurn;
    if turn.Again? {
      var next := FinishAgain(cfg, turn);
      TurnExitsRight(cfg, turn.r, turn.ctx, next);
      FinishExits(cfg, resetWhenIdle, next);
    }
  }

  lemma {:induction false} DespoolExits(cfg: Config, r: Ready, ctx: Ctx, out: Out)
    requires (out == DespoolAll(cfg, r, ctx) || out == DespoolTask(cfg, r, ctx)) && out.err.None?
    ensures ExitsRight(out.r, ctx.resetWhenIdle, out.fx)
  {
    hide DespoolTurn, TaskTurn, ExitsRight;
    var turn := if out == DespoolAll(cfg, r, ctx) then DespoolTurn(cfg, r, ctx) else TaskTurn(cfg, r, ctx);
    assert IsTurn(cfg, r, ctx, turn);
    TurnExitsRight(cfg, r, ctx, turn);
    FinishExits(cfg, ctx.resetWhenIdle, turn);
  }

  /** A driver that has just run out of work, or never had to wait for it. */
  predicate NothingToDo(r: Ready) {
    r.onOk == NotAwaitingOk && r.mark != Some(WaitingToReachMark)
  }

  /** What a handled event does about exits, from a state that may already have had nothing to do. */
  predicate ExitsWhenDone(before: Ready, resetWhenIdle: bool, r: Ready, fx: seq<Effect>) {
    && (forall e :: e in fx ==> !Rare(e))
    && (ExitProcessAfterDelay in fx ==> resetWhenIdle && r.tasks == [])
    && (resetWhenIdle && before.onOk != NotAwaitingOk && NothingToDo(r) ==> ExitProcessAfterDelay in fx)
  }

  lemma {:induction false} FeedbackExits(cfg: Config, r: Ready, ctx: Ctx, feedback: Feedback)
    requires ReceiveFeedback(cfg, r, ctx, feedback).err.None?
    ensures var out := ReceiveFeedback(cfg, r, ctx, feedback); ExitsWhenDone(r, ctx.resetWhenIdle, out.r, out.fx)
  {
    hide DespoolAll;
    if feedback == Positions(true, true) && r.mark == Some(WaitingToReachMark) {
      DespoolExits(cfg, r.(mark := None), ctx, DespoolAll(cfg, r.(mark := None), ctx));
    }
  }

  lemma {:induction false} OkExits(cfg: Config, r: Ready, ctx: Ctx)
    requires ReceiveOk(cfg, r, ctx).Some? && ReceiveOk(cfg, r, ctx).value.err.None?
    ensures var out := ReceiveOk(cfg, r, ctx).value;
            && ExitsWhenDone(r, ctx.resetWhenIdle, out.r, out.fx)
            && (r.onOk == NotAwaitingOk ==> out.r == r && out.fx == [])
  {
    hide DespoolAll;
    if r.onOk == Despool { DespoolExits(cfg, r, ctx, DespoolAll(cfg, r, ctx)); }
    if r.onOk == TransitionToReady {
      var r1, ctx1 := r.(onOk := Despool), StateChanged(ctx, InReady(r));
      DespoolExits(cfg, r1, ctx1, DespoolAll(cfg, r1, ctx1));
    }
  }

  /** With a reached mark in it, an ok may find work for two turns; what the first left empty stays so. */
  lemma {:induction false} OkResponseExits(cfg: Config, r: Ready, ctx: Ctx, feedback: Option<Feedback>)
    requires ReceiveOkResponse(cfg, r, ctx, feedback).Some? && ReceiveOkResponse(cfg, r, ctx, feedback).value.err.None?
    ensures var out := ReceiveOkResponse(cfg, r, ctx, feedback).value; ExitsWhenDone(r, ctx.resetWhenIdle, out.r, out.fx)
  {
    if feedback.None? {
      OkExits(cfg, r, ctx);
    } else {
      hide ReceiveOk, DespoolAll;
      var first := ReceiveFeedback(cfg, r, ctx, feedback.value);
      FeedbackExits(cfg, r, ctx, feedback.value);
      OkExits(cfg, first.r, first.ctx);
      if feedback.value == Positions(true, true) && r.mark == Some(WaitingToReachMark) {
        DespoolStays(cfg, r.(mark := None), ctx, first);
        if first.r.onOk == Despool && first.r.tasks == [] {
          EmptyStays(cfg, first.r, first.ctx);
        }
      }
    }
  }

  lemma {:induction false} DespoolStays(cfg: Config, r: Ready, ctx: Ctx, out: Out)
    requires out == DespoolAll(cfg, r, ctx) && out.err.None?
    ensures (out.r.onOk == Despool || out.r.onOk == NotAwaitingOk) && out.ctx.resetWhenIdle == ctx.resetWhenIdle
  {
    DespoolEnds(cfg, r, ctx, out);
    hide DespoolTurn;
  }

  lemma {:induction false} EmptyStays(cfg: Config, r: Ready, ctx: Ctx)
    requires r.onOk == Despool && r.tasks == [] && ReceiveOk(cfg, r, ctx).Some?
    ensures ReceiveOk(cfg, r, ctx).value.r.tasks == []
  {
    assert DespoolTurn(cfg, r, ctx).Settled?;
  }

  lemma {:induction false} SerialExits(cfg: Config, r: Ready, ctx: Ctx, response: Response)
    requires ReadySerial(cfg, r, ctx, response).0.state.InReady?
    ensures var (m, fx) := ReadySerial(cfg, r, ctx, response); ExitsWhenDone(r, ctx.resetWhenIdle, m.state.ready, fx)
  {
    hide ReceiveFeedback, ReceiveOkResponse, PushAll;
    match response
    case OkResponse(feedback) => OkResponseExits(cfg, r, ctx, feedback);
    case FeedbackResponse(feedback) => FeedbackExits(cfg, r, ctx, feedback);
    case _ =>
  }

  lemma {:induction false} LoadExits(cfg: Config, r: Ready, ctx: Ctx, s: Submission)
    requires Load(cfg, r, ctx, s).0.state.InReady?
    ensures var (m, fx) := Load(cfg, r, ctx, s); ExitsWhenDone(r, ctx.resetWhenIdle, m.state.ready, fx)
  {
    hide DespoolTask, PushAll, Enqueue;
    if r.onOk == NotAwaitingOk {
      var r1, ctx1 := r.(tasks := Enqueue(r.tasks, Admit(ctx.nextKey, s))), ctx.(nextKey := ctx.nextKey + 1);
      DespoolExits(cfg, r1, ctx1, DespoolTask(cfg, r1, ctx1));
    }
  }

  /** A pause that takes the last task ends the process if that is being waited for. */
  lemma {:induction false} PauseExits(r: Ready, ctx: Ctx, id: string)
    ensures var (m, fx) := Pause(r, ctx, id);
            && m.state.InReady? && ExitsWhenDone(r, ctx.resetWhenIdle, m.state.ready, fx)
            && (ExitProcessAfterDelay in fx <==> ctx.resetWhenIdle && r.tasks != [] && m.state.ready.tasks == [])
            && m.ctx.pausedFlag == (ctx.pausedFlag || exists t :: t in r.tasks && t.id == id)
  {
    hide PushProgress;
    var i := FindTask(r.tasks, id);
    assert i < |r.tasks| ==> r.tasks[i] in r.tasks;
  }

  lemma {:induction false} ReadyExits(cfg: Config, r: Ready, ctx: Ctx, event: Event)
    requires ReadyConsume(cfg, r, ctx, event).0.state.InReady?
    ensures var (m, fx) := ReadyConsume(cfg, r, ctx, event); ExitsWhenDone(r, ctx.resetWhenIdle, m.state.ready, fx)
  {
    hide ReadySerial, Load, Pause, PushAll;
    match event
    case SerialRec(_, response) => SerialExits(cfg, r, ctx, response);
    case GCodeLoaded(s) => LoadExits(cfg, r, ctx, s);
    case ProtobufRec(Some(SpoolTask(id, client, startAt, Some(Inline(commands)), machineOverride))) =>
      LoadExits(cfg, r.(loadingGCode := true), ctx, Submission(id, client, commands, StartNumber(startAt), machineOverride));
    case ProtobufRec(Some(PauseTask(id))) => PauseExits(r, ctx, id);
    case _ =>
  }

  predicate IsPause(event: Event) {
    event.ProtobufRec? && event.payload.Some? && event.payload.value.PauseTask?
  }

  /**
   While Ready the process is only ended when there is nothing left to print and that was being waited for, and
   then always: when the last ok finds nothing to do, and when the last task is paused.
   */
  lemma {:induction false} ExitsWhenIdle(cfg: Config, m: Machine, event: Event)
    requires m.state.InReady? && Step(cfg, m, event).0.state.InReady?
    ensures var (m', fx) := Step(cfg, m, event);
            && (ExitProcessAfterDelay in fx ==> m.ctx.resetWhenIdle && m'.state.ready.tasks == [])
            && (m.ctx.resetWhenIdle && m.state.ready.onOk != NotAwaitingOk && NothingToDo(m'.state.ready) ==>
                  ExitProcessAfterDelay in fx)
            && (m.ctx.resetWhenIdle && IsPause(event) && m.state.ready.tasks != [] && m'.state.ready.tasks == [] ==>
                  ExitProcessAfterDelay in fx)
  {
    hide ReadyConsume, WithoutIds;
    var r, ctx := m.state.ready, m.ctx;
    if Common(cfg, m, event).None? {
      ReadyExits(cfg, r, ctx, event);
      if IsPause(event) {
        PauseStepIs(cfg, r, ctx, event.payload.value.pausedId);
        hide Pause;
        PauseExits(r, ctx, event.payload.value.pausedId);
      }
    }
  }

  lemma {:induction false} PauseStepIs(cfg: Config, r: Ready, ctx: Ctx, id: string)
    ensures ReadyConsume(cfg, r, ctx, ProtobufRec(Some(PauseTask(id)))) == Pause(r, ctx, id)
  {
    hide Pause;
  }

  lemma {:induction false} LeavingIsNotRare(cfg: Config, r: Ready, ctx: Ctx, event: Event)
    requires !ReadyConsume(cfg, r, ctx, event).0.state.InReady?
    ensures forall e :: e in ReadyConsume(cfg, r, ctx, event).1 ==> !Rare(e)
  {
    hide PushAll, ReceiveOkResponse, ReceiveFeedback, DespoolTask, Enqueue, PushProgress, FindTask;
  }

  lemma {:induction false} IdleIsNotRare(cfg: Config, m: Machine, event: Event)
    requires !m.state.InReady?
    ensures forall e :: e in IdleConsume(cfg, m, event).1 ==> !Rare(e)
  {
    hide ReadyConsume, PushAll;
    if m.state.Connecting? && event.SerialRec? && event.response.OkResponse? {
      var r, ctx := DefaultReady(m.ctx.lowKey), m.ctx.(lowKey := m.ctx.lowKey - 1);
      if ReadyConsume(cfg, r, ctx, event).0.state.InReady? { ReadyExits(cfg, r, ctx, event); }
      else { LeavingIsNotRare(cfg, r, ctx, event); }
    }
  }

  /**
   In every state: the process is ended at once exactly when that is asked for and nothing is queued, or asked
   for regardless; a request that has to wait is remembered; and exactly the clients that connect are greeted.
   */
  lemma {:induction false} ExitsOnRequest(cfg: Config, m: Machine, event: Event)
    requires !m.state.Panicked?
    ensures var (m', fx) := Step(cfg, m, event);
            && (ExitProcess in fx <==> AsksToExit(m, event))
            && (SendInitProtobuf in fx <==> event.ProtobufClientConnection?)
            && (event == ProtobufRec(Some(ResetWhenIdle)) && QueuedTasks(m.state) != [] ==> m'.ctx.resetWhenIdle)
  {
    hide ReadyConsume, IdleConsume, PushAll, WithoutIds;
    if Common(cfg, m, event).None? {
      if m.state.InReady? {
        if ReadyConsume(cfg, m.state.ready, m.ctx, event).0.state.InReady? { ReadyExits(cfg, m.state.ready, m.ctx, event); }
        else { LeavingIsNotRare(cfg, m.state.ready, m.ctx, event); }
      } else {
        IdleIsNotRare(cfg, m, event);
      }
    }
  }

  // ---------------------------------------------------------------- errors outside Ready

  /** The message of the error an event puts a driver in that is not Ready, if it does. */
  function WhyErroredOutside(state: State, event: Event): Option<string> {
    match event
    case GCodeLoadFailed(_) => Some("Failed to load GCode")
    case SerialPortError(message) => Some(message)
    case SerialRec(src, response) =>
      if state.Errored? then Some(state.message + "\n" + src)
      else if response.Error? then Some(response.message)
      else if response.ResendRequest? then Some("Invalid transition.")
      else None
    case ConnectionTimeout => if state.Connecting? then None else Some("Invalid transition.")
    case RetryResetLineNumber => if state.Connecting? then None else Some("Invalid transition.")
    case _ => None
  }

  /** The start-up with a port, or the discovery of a device by a disconnected driver. */
  predicate StartsConnecting(cfg: Config, state: State, event: Event) {
    match event
    case Init(available) => !state.Connecting? && (cfg.simulate || available)
    case _ => state.Disconnected? && event == DISCOVERED
  }

  lemma {:induction false} FirstOkIsSafe(cfg: Config, ctx: Ctx, src: string, feedback: Option<Feedback>)
    ensures FirstOk(cfg, ctx, SerialRec(src, OkResponse(feedback))).0.state.InReady?
  {
    hide PushAll;
    var r := DefaultReady(ctx.lowKey);
    assert DespoolTurn(cfg, r.(onOk := Despool), StateChanged(ctx.(lowKey := ctx.lowKey - 1), InReady(r))).Settled?;
  }

  /**
   A driver that is not Ready ends in error exactly for one of these causes, which takes the place of the
   message, or goes on in the error it was in; it becomes Ready exactly by an ok while connecting, and begins to
   connect exactly at start-up and, while disconnected, by a discovery; it stops connecting for want of rates or
   for a reason; it is stopped exactly by a stop, or stays so.
   */
  lemma {:induction false} OutsideReadyEndsExactly(cfg: Config, m: Machine, event: Event)
    requires !m.state.InReady? && !m.state.Panicked?
    ensures var state, why := Step(cfg, m, event).0.state, WhyErroredOutside(m.state, event);
            && (why.Some? ==> state == Errored(why.value))
            && (state.Errored? && why.None? ==> state == m.state)
            && (state.InReady? <==> m.state.Connecting? && event.SerialRec? && event.response.OkResponse?)
            && (event == ESTOP ==> state == EStopped) && (state.EStopped? ==> m.state.EStopped? || event == ESTOP)
            && (!m.state.Connecting? ==> (state.Connecting? <==> StartsConnecting(cfg, m.state, event)))
            && (m.state.Connecting? && !state.Connecting? ==>
                  why.Some? || state.InReady? || event == ESTOP || LosesPort(event)
                  || ((event.ConnectionTimeout? || event.Init?) && m.state.baudRates == []))
            && (LosesPort(event) ==> state == Disconnected)
            && (state.Disconnected? ==>
                  m.state.Disconnected? || LosesPort(event) || (m.state.Connecting? && m.state.baudRates == []))
            && !state.Panicked?
  {
    hide ReadyConsume, PushAll, WithoutIds, FirstOk;
    if m.state.Connecting? && event.SerialRec? && event.response.OkResponse? {
      FirstOkIsSafe(cfg, m.ctx, event.src, event.response.feedback);
    }
  }

  /** While connecting, the opened port, a greeting and a retry are answered with the handshake, and nothing else changes. */
  lemma {:induction false} HandshakeIsWritten(cfg: Config, m: Machine, event: Event)
    requires m.state.Connecting?
    requires event == SerialPortOpened || event == RetryResetLineNumber || (event.SerialRec? && event.response == Greeting)
    ensures var (m', fx) := Step(cfg, m, event);
            m' == m && fx != [] && fx[0] == SendSerial(GCodeLine("M110 N0", None, true), Handshake)
  {
  }

  /** The flag that tells of a pause is raised exactly by pausing a queued task. */
  lemma {:induction false} PausesRaiseTheFlag(cfg: Config, m: Machine, event: Event)
    requires m.state.InReady? && !m.ctx.pausedFlag
    ensures Step(cfg, m, event).0.ctx.pausedFlag <==>
            exists t :: t in m.state.ready.tasks && event == ProtobufRec(Some(PauseTask(t.id)))
  {
    hide ReadySerial, DespoolTask, PushAll, WithoutIds, Enqueue, Pause;
    if event.SerialRec? { Reactor.SerialKeepsFlag(cfg, m.state.ready, m.ctx, event.response); }
    if IsPause(event) {
      PauseExits(m.state.ready, m.ctx, event.payload.value.pausedId);
    }
  }

  // ---------------------------------------------------------------- an ok that does not count

  /**
   When the printer pauses for its user it sends an ok of its own: after such a report the next ok sends
   nothing, and the one after it counts again.
   */
  lemma {:induction false} UserPausesSkipAnOk(cfg: Config, m: Machine, src: string, ok: string)
    requires m.state.InReady?
    ensures var m1 := Step(cfg, m, SerialRec(src, FeedbackResponse(BusyPausedForUser))).0;
            var (m2, fx) := Step(cfg, m1, SerialRec(ok, OkResponse(None)));
            && m1.state.InReady? && fx == [] && m2 == Machine(InReady(m.state.ready.(onOk := Despool)), m.ctx)
  {
    hide DespoolAll;
  }
}
