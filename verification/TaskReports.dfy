/** No accepted task vanishes: what is no longer queued has been reported on, since it was accepted. */
module TaskReports {
  import opened Wrappers
  import opened DriverTypes
  import opened DriverSpec
  import opened DriverRuns

  // ---------------------------------------------------------------- the progress list

  /** What the clients are told about a task id. */
  function Lookup(progress: seq<Progress>, id: string): Option<Progress> {
    var i := FindProgress(progress, id);
    if i < |progress| then Some(progress[i]) else None
  }

  lemma {:induction false} FindIsFirst(progress: seq<Progress>, id: string, i: nat)
    requires i <= |progress| && (i < |progress| ==> progress[i].taskId == id)
    requires forall j :: 0 <= j < i ==> progress[j].taskId != id
    ensures FindProgress(progress, id) == i
  {
  }

  /** Recording a task's progress changes what is known of that task, and nothing else. */
  lemma {:induction false} PushLookup(ctx: Ctx, t: Task, status: TaskStatus, id: string)
    ensures Lookup(PushProgress(ctx, t, status).progress, id) ==
            if t.clientId != INTERNAL && t.id == id then Some(Progress(id, t.despooled.GetOr(0), status, t.key))
            else Lookup(ctx.progress, id)
  {
    if t.clientId != INTERNAL {
      var before, after := ctx.progress, PushProgress(ctx, t, status).progress;
      var i, j := FindProgress(before, t.id), FindProgress(before, id);
      if t.id == id {
        FindIsFirst(after, id, i);
      } else if j < |before| || i < |before| {
        FindIsFirst(after, id, j);
      } else {
        FindIsFirst(after, id, |after|);
      }
    }
  }

  /** This acceptance of the task has been reported paused, finished, cancelled or errored. */
  predicate Settled(ctx: Ctx, id: string, key: int) {
    var p := Lookup(ctx.progress, id);
    p.Some? && p.value.key == key && p.value.status != Started
  }

  /** The task is queued by a client under this identity. */
  predicate Waiting(tasks: seq<Task>, id: string, key: int) {
    exists i :: 0 <= i < |tasks| && tasks[i].id == id && tasks[i].clientId != INTERNAL && tasks[i].key == key
  }

  /** Whatever clients have queued under the id, they have queued under this identity. */
  predicate Alone(tasks: seq<Task>, id: string, key: int) {
    forall t :: t in tasks && t.id == id && t.clientId != INTERNAL ==> t.key == key
  }

  predicate Accounted(tasks: seq<Task>, ctx: Ctx, id: string, key: int) {
    Alone(tasks, id, key) && (Waiting(tasks, id, key) || Settled(ctx, id, key))
  }

  /** Every owed task is waiting in the queue, or has been reported on since it was accepted. */
  ghost predicate Kept(owed: map<string, int>, tasks: seq<Task>, ctx: Ctx) {
    forall id :: id in owed ==> Accounted(tasks, ctx, id, owed[id])
  }

  lemma {:induction false} WaitingTail(tasks: seq<Task>, id: string, key: int)
    requires tasks != []
    ensures Waiting(tasks, id, key) <==>
            (tasks[0].id == id && tasks[0].clientId != INTERNAL && tasks[0].key == key) || Waiting(tasks[1..], id, key)
    ensures Alone(tasks, id, key) <==>
            (tasks[0].id == id && tasks[0].clientId != INTERNAL ==> tasks[0].key == key) && Alone(tasks[1..], id, key)
  {
    if Waiting(tasks, id, key) {
      var i :| 0 <= i < |tasks| && tasks[i].id == id && tasks[i].clientId != INTERNAL && tasks[i].key == key;
      if i > 0 { assert tasks[1..][i - 1] == tasks[i]; }
    }
    if Waiting(tasks[1..], id, key) {
      var i :| 0 <= i < |tasks[1..]| && tasks[1..][i].id == id && tasks[1..][i].clientId != INTERNAL && tasks[1..][i].key == key;
      assert tasks[i + 1] == tasks[1..][i];
    }
    assert forall t :: t in tasks <==> t == tasks[0] || t in tasks[1..];
  }

  // ---------------------------------------------------------------- despooling

  /** The front task leaves with a report that settles it. */
  lemma {:induction false} DropFrontKeeps(owed: map<string, int>, tasks: seq<Task>, ctx: Ctx, status: TaskStatus)
    requires Kept(owed, tasks, ctx) && tasks != [] && status != Started
    ensures Kept(owed, tasks[1..], PushProgress(ctx, tasks[0], status))
  {
    forall id | id in owed ensures Accounted(tasks[1..], PushProgress(ctx, tasks[0], status), id, owed[id]) {
      hide PushProgress, Lookup;
      assert Accounted(tasks, ctx, id, owed[id]);
      WaitingTail(tasks, id, owed[id]);
      PushLookup(ctx, tasks[0], status, id);
    }
  }

  /** The front task is started or goes on. */
  lemma {:induction false} TakeFrontKeeps(owed: map<string, int>, tasks: seq<Task>, ctx: Ctx, t: Task)
    requires Kept(owed, tasks, ctx) && tasks != []
    requires t.id == tasks[0].id && t.clientId == tasks[0].clientId && t.key == tasks[0].key
    ensures Kept(owed, [t] + tasks[1..], PushProgress(ctx, t, Started))
  {
    forall id | id in owed ensures Accounted([t] + tasks[1..], PushProgress(ctx, t, Started), id, owed[id]) {
      hide PushProgress, Lookup;
      assert Accounted(tasks, ctx, id, owed[id]);
      WaitingTail(tasks, id, owed[id]);
      WaitingTail([t] + tasks[1..], id, owed[id]);
      PushLookup(ctx, t, Started, id);
    }
  }

  lemma {:induction false} FrontTurnKeeps(cfg: Config, owed: map<string, int>, r: Ready, ctx: Ctx)
    requires Kept(owed, r.tasks, ctx) && r.tasks != []
    ensures var turn := FrontTurn(cfg, r, ctx); Kept(owed, turn.r.tasks, turn.ctx)
  {
    hide Kept, TakeFront, PushProgress;
    var n := BlankPrefix(cfg, r.tasks[0].lines);
    if n == |r.tasks[0].lines| { DropFrontKeeps(owed, r.tasks, ctx, Finished); }
    else { TakeFrontKeeps(owed, r.tasks, ctx, AfterTaking(r.tasks[0], n)); }
  }

  lemma {:induction false} TurnKeeps(cfg: Config, owed: map<string, int>, r: Ready, ctx: Ctx, turn: Turn)
    requires Kept(owed, r.tasks, ctx) && IsTurn(cfg, r, ctx, turn)
    ensures Kept(owed, turn.r.tasks, turn.ctx)
  {
    hide Kept, FrontTurn;
    if r.tasks != [] { FrontTurnKeeps(cfg, owed, r.(awaitingPollingFeedback := false), ctx); }
  }

  /** Whether despooling succeeds or fails. */
  lemma {:induction false} FinishKeeps(cfg: Config, owed: map<string, int>, turn: Turn)
    requires Kept(owed, turn.r.tasks, turn.ctx)
    ensures var out := Finish(cfg, turn); Kept(owed, out.r.tasks, out.ctx)
    decreases if turn.Again? then Work(turn.r.tasks) + 1 else 0
  {
    hide Kept, DespoolTurn, IsTurn;
    if turn.Again? {
      var next := FinishAgain(cfg, turn);
      TurnKeeps(cfg, owed, turn.r, turn.ctx, next);
      FinishKeeps(cfg, owed, next);
    }
  }

  lemma {:induction false} DespoolKeeps(cfg: Config, owed: map<string, int>, r: Ready, ctx: Ctx, out: Out)
    requires out == DespoolAll(cfg, r, ctx) || out == DespoolTask(cfg, r, ctx)
    requires Kept(owed, r.tasks, ctx)
    ensures Kept(owed, out.r.tasks, out.ctx)
  {
    hide Kept, DespoolTurn, TaskTurn;
    var turn := if out == DespoolAll(cfg, r, ctx) then DespoolTurn(cfg, r, ctx) else TaskTurn(cfg, r, ctx);
    assert IsTurn(cfg, r, ctx, turn);
    TurnKeeps(cfg, owed, r, ctx, turn);
    FinishKeeps(cfg, owed, turn);
  }

  // ---------------------------------------------------------------- one event

  /** Leaving Ready settles every queued task. */
  lemma {:induction false} PushAllKeeps(owed: map<string, int>, tasks: seq<Task>, ctx: Ctx, status: TaskStatus)
    requires Kept(owed, tasks, ctx) && status != Started
    ensures Kept(owed, [], PushAll(ctx, tasks, status))
    decreases |tasks|
  {
    if tasks != [] {
      DropFrontKeeps(owed, tasks, ctx, status);
      PushAllKeeps(owed, tasks[1..], PushProgress(ctx, tasks[0], status), status);
    }
  }

  lemma {:induction false} SameProgressKeeps(owed: map<string, int>, tasks: seq<Task>, ctx: Ctx, ctx': Ctx)
    requires Kept(owed, tasks, ctx) && ctx'.progress == ctx.progress
    ensures Kept(owed, tasks, ctx')
  {
  }

  ghost predicate KeptBy(owed: map<string, int>, m: Machine) {
    !m.state.Panicked? ==> Kept(owed, QueuedTasks(m.state), m.ctx)
  }

  lemma {:induction false} ErroredKeeps(owed: map<string, int>, message: string, m: Machine)
    requires Kept(owed, QueuedTasks(m.state), m.ctx)
    ensures KeptBy(owed, ToErrored(message, m).0)
  {
    hide Kept;
    var ctx := PushAll(m.ctx, QueuedTasks(m.state), TaskErrored);
    PushAllKeeps(owed, QueuedTasks(m.state), m.ctx, TaskErrored);
    SameProgressKeeps(owed, [], ctx, StateChanged(ctx, Errored(message)));
  }

  lemma {:induction false} DisconnectKeeps(owed: map<string, int>, m: Machine)
    requires Kept(owed, QueuedTasks(m.state), m.ctx)
    ensures KeptBy(owed, Disconnect(m).0)
  {
    hide Kept;
    var ctx := PushAll(m.ctx, QueuedTasks(m.state), TaskErrored);
    PushAllKeeps(owed, QueuedTasks(m.state), m.ctx, TaskErrored);
    SameProgressKeeps(owed, [], ctx, StateChanged(ctx, Disconnected));
  }

  lemma {:induction false} CloseKeeps(owed: map<string, int>, out: Out)
    requires Kept(owed, out.r.tasks, out.ctx)
    ensures KeptBy(owed, Close(out).0)
  {
    hide Kept, ToErrored;
    if out.err.Some? { ErroredKeeps(owed, out.err.value, Machine(InReady(out.r), out.ctx)); }
  }

  lemma {:induction false} FeedbackKeeps(cfg: Config, owed: map<string, int>, r: Ready, ctx: Ctx, feedback: Feedback)
    requires Kept(owed, r.tasks, ctx)
    ensures var out := ReceiveFeedback(cfg, r, ctx, feedback); Kept(owed, out.r.tasks, out.ctx)
  {
    hide Kept, DespoolAll;
    DespoolKeeps(cfg, owed, r.(mark := None), ctx, DespoolAll(cfg, r.(mark := None), ctx));
  }

  lemma {:induction false} OkKeeps(cfg: Config, owed: map<string, int>, r: Ready, ctx: Ctx)
    requires Kept(owed, r.tasks, ctx) && ReceiveOk(cfg, r, ctx).Some?
    ensures var out := ReceiveOk(cfg, r, ctx).value; Kept(owed, out.r.tasks, out.ctx)
  {
    hide Kept, DespoolAll;
    var r1, ctx1 := r.(onOk := Despool), StateChanged(ctx, InReady(r));
    SameProgressKeeps(owed, r.tasks, ctx, ctx1);
    DespoolKeeps(cfg, owed, r1, ctx1, DespoolAll(cfg, r1, ctx1));
    DespoolKeeps(cfg, owed, r, ctx, DespoolAll(cfg, r, ctx));
  }

  lemma {:induction false} SerialKeeps(cfg: Config, owed: map<string, int>, r: Ready, ctx: Ctx, response: Response)
    requires Kept(owed, r.tasks, ctx)
    ensures KeptBy(owed, ReadySerial(cfg, r, ctx, response).0)
  {
    hide Kept, ReceiveFeedback, ReceiveOk, ToErrored, Close;
    match response
    case OkResponse(feedback) =>
      if feedback.Some? {
        FeedbackKeeps(cfg, owed, r, ctx, feedback.value);
        var first := ReceiveFeedback(cfg, r, ctx, feedback.value);
        if first.err.Some? { CloseKeeps(owed, first); }
        else if ReceiveOk(cfg, first.r, first.ctx).Some? {
          OkKeeps(cfg, owed, first.r, first.ctx);
          CloseKeeps(owed, ReceiveOkResponse(cfg, r, ctx, feedback).value);
        }
      } else if ReceiveOk(cfg, r, ctx).Some? {
        OkKeeps(cfg, owed, r, ctx);
        CloseKeeps(owed, ReceiveOkResponse(cfg, r, ctx, feedback).value);
      }
    case FeedbackResponse(feedback) =>
      var out := ReceiveFeedback(cfg, r, ctx, feedback);
      FeedbackKeeps(cfg, owed, r, ctx, feedback);
      CloseKeeps(owed, out.(fx := out.fx + [CancelDelay(TICKLE_DELAY), SendFeedbackProtobuf]));
    case Capability(name, enabled) => PushFrontKeeps(owed, r.tasks, ctx, DriverTask(ctx.lowKey, AUTOREPORT, "M155 S1"), ctx.(lowKey := ctx.lowKey - 1));
    case Error(message) => ErroredKeeps(owed, message, Machine(InReady(r), ctx));
    case Greeting => ErroredKeeps(owed, "Unexpected printer firmware restart.", Machine(InReady(r), ctx));
    case ResendRequest(_) => ErroredKeeps(owed, "resend line number does not match sent line number", Machine(InReady(r), ctx));
    case _ =>
  }

  lemma {:induction false} PushFrontKeeps(owed: map<string, int>, tasks: seq<Task>, ctx: Ctx, t: Task, ctx': Ctx)
    requires Kept(owed, tasks, ctx) && ctx'.progress == ctx.progress && t.clientId == INTERNAL
    ensures Kept(owed, [t] + tasks, ctx')
  {
    forall id | id in owed ensures Accounted([t] + tasks, ctx', id, owed[id]) {
      assert Accounted(tasks, ctx, id, owed[id]);
      assert ([t] + tasks)[1..] == tasks;
      WaitingTail([t] + tasks, id, owed[id]);
    }
  }

  /** A client has a task queued under the id. */
  predicate Taken(tasks: seq<Task>, id: string) {
    exists t :: t in tasks && t.id == id && t.clientId != INTERNAL
  }

  /**
   What accepting a submission makes the driver owe: a report on its id, made for this acceptance. Clients
   are to keep the ids of queued tasks distinct; under an id that is queued already nothing is owed.
   */
  function OwedBy(owed: map<string, int>, tasks: seq<Task>, s: Submission, key: int): map<string, int> {
    if s.clientId == INTERNAL then owed
    else if Taken(tasks, s.id) then owed - {s.id}
    else owed[s.id := key]
  }

  lemma {:induction false} EnqueueMembers(tasks: seq<Task>, t: Task)
    ensures forall u :: u in Enqueue(tasks, t) <==> u in tasks || u == t
  {
    var i := if t.machineOverride then FirstNonOverride(tasks) else |tasks|;
    assert tasks == tasks[..i] + tasks[i..];
    assert Enqueue(tasks, t) == tasks[..i] + [t] + tasks[i..];
  }

  lemma {:induction false} WaitingIsQueued(tasks: seq<Task>, id: string, key: int)
    ensures Waiting(tasks, id, key) <==> exists t :: t in tasks && t.id == id && t.clientId != INTERNAL && t.key == key
  {
    if t :| t in tasks && t.id == id && t.clientId != INTERNAL && t.key == key {
      var i :| 0 <= i < |tasks| && tasks[i] == t;
    }
  }

  lemma {:induction false} EnqueueKeeps(owed: map<string, int>, tasks: seq<Task>, ctx: Ctx, s: Submission, key: int,
      ctx': Ctx)
    requires Kept(owed, tasks, ctx) && ctx'.progress == ctx.progress
    ensures Kept(OwedBy(owed, tasks, s, key), Enqueue(tasks, Admit(key, s)), ctx')
  {
    var t, owed' := Admit(key, s), OwedBy(owed, tasks, s, key);
    EnqueueMembers(tasks, t);
    var after := Enqueue(tasks, t);
    forall id | id in owed' ensures Accounted(after, ctx', id, owed'[id]) {
      hide Enqueue, Waiting;
      WaitingIsQueued(tasks, id, owed'[id]);
      WaitingIsQueued(after, id, owed'[id]);
      if id == s.id && s.clientId != INTERNAL {
        assert t in after;
      } else {
        assert Accounted(tasks, ctx, id, owed[id]);
      }
    }
  }

  lemma {:induction false} LoadKeeps(cfg: Config, owed: map<string, int>, r: Ready, ctx: Ctx, s: Submission)
    requires Kept(owed, r.tasks, ctx)
    ensures KeptBy(OwedBy(owed, r.tasks, s, ctx.nextKey), Load(cfg, r, ctx, s).0)
  {
    hide Kept, DespoolTask, Enqueue, Close, OwedBy;
    var r1 := r.(tasks := Enqueue(r.tasks, Admit(ctx.nextKey, s)));
    var ctx1 := ctx.(nextKey := ctx.nextKey + 1);
    var owed' := OwedBy(owed, r.tasks, s, ctx.nextKey);
    EnqueueKeeps(owed, r.tasks, ctx, s, ctx.nextKey, ctx1);
    if r.onOk == NotAwaitingOk {
      DespoolKeeps(cfg, owed', r1, ctx1, DespoolTask(cfg, r1, ctx1));
      CloseKeeps(owed', DespoolTask(cfg, r1, ctx1));
    }
  }

  lemma {:induction false} PauseKeeps(owed: map<string, int>, r: Ready, ctx: Ctx, id: string)
    requires Kept(owed, r.tasks, ctx)
    ensures KeptBy(owed, Pause(r, ctx, id).0)
  {
    var i := FindTask(r.tasks, id);
    if i < |r.tasks| {
      var t, rest, flagged := r.tasks[i], r.tasks[..i] + r.tasks[i + 1..], ctx.(pausedFlag := true);
      assert forall u :: u in r.tasks <==> u in rest || u == t by {
        assert r.tasks == r.tasks[..i] + [t] + r.tasks[i + 1..];
      }
      forall other | other in owed ensures Accounted(rest, PushProgress(flagged, t, Paused), other, owed[other]) {
        hide PushProgress, Lookup, Waiting;
        assert Accounted(r.tasks, ctx, other, owed[other]);
        PushLookup(flagged, t, Paused, other);
        WaitingIsQueued(r.tasks, other, owed[other]);
        WaitingIsQueued(rest, other, owed[other]);
      }
    }
  }

  // ---------------------------------------------------------------- every run

  /** What the driver owes after an event: more for a task accepted while Ready, less for deleted history. */
  function OwedAfter(owed: map<string, int>, m: Machine, event: Event): map<string, int> {
    match event
    case ProtobufRec(Some(DeleteTaskHistory(ids))) => owed - (set id | id in ids)
    case GCodeLoaded(s) => if m.state.InReady? then OwedBy(owed, m.state.ready.tasks, s, m.ctx.nextKey) else owed
    case ProtobufRec(Some(SpoolTask(id, client, startAt, Some(Inline(commands)), machineOverride))) =>
      if m.state.InReady? then
        OwedBy(owed, m.state.ready.tasks, Submission(id, client, commands, StartNumber(startAt), machineOverride), m.ctx.nextKey)
      else owed
    case _ => owed
  }

  lemma {:induction false} ReadyKeeps(cfg: Config, owed: map<string, int>, r: Ready, ctx: Ctx, event: Event)
    requires Kept(owed, r.tasks, ctx) && (event.ProtobufRec? && event.payload.Some? ==> !event.payload.value.DeleteTaskHistory?)
    ensures KeptBy(OwedAfter(owed, Machine(InReady(r), ctx), event), ReadyConsume(cfg, r, ctx, event).0)
  {
    hide Kept, ReadySerial, Load, Pause, ToErrored, Disconnect;
    var m := Machine(InReady(r), ctx);
    ErroredKeeps(owed, "Invalid transition.", m);
    match event
    case SerialRec(_, response) => SerialKeeps(cfg, owed, r, ctx, response);
    case GCodeLoaded(s) => LoadKeeps(cfg, owed, r, ctx, s);
    case ProtobufRec(Some(PauseTask(id))) => PauseKeeps(owed, r, ctx, id);
    case ProtobufRec(Some(SpoolTask(id, client, startAt, Some(Inline(commands)), machineOverride))) =>
      LoadKeeps(cfg, owed, r.(loadingGCode := true), ctx, Submission(id, client, commands, StartNumber(startAt), machineOverride));
    case SerialPortDisconnected => DisconnectKeeps(owed, m);
    case TickleSerialPort => ErroredKeeps(owed, "Serial port communication timed out.", m);
    case _ =>
  }

  lemma {:induction false} LookupCons(p: Progress, rest: seq<Progress>, id: string)
    ensures Lookup([p] + rest, id) == if p.taskId == id then Some(p) else Lookup(rest, id)
  {
    assert ([p] + rest)[1..] == rest;
  }

  /** Deleting the history of some ids forgets exactly those. */
  lemma {:induction false} WithoutLookup(progress: seq<Progress>, ids: seq<string>, id: string)
    ensures Lookup(WithoutIds(progress, ids), id) == if id in ids then None else Lookup(progress, id)
  {
    assert Lookup([], id) == None;
    hide Lookup;
    if progress != [] {
      assert progress == [progress[0]] + progress[1..];
      LookupCons(progress[0], progress[1..], id);
      LookupCons(progress[0], WithoutIds(progress[1..], ids), id);
      WithoutLookup(progress[1..], ids, id);
      assert [] + WithoutIds(progress[1..], ids) == WithoutIds(progress[1..], ids);
    }
  }

  lemma {:induction false} DeleteKeeps(owed: map<string, int>, tasks: seq<Task>, ctx: Ctx, ids: seq<string>)
    requires Kept(owed, tasks, ctx)
    ensures Kept(owed - (set id | id in ids), tasks, ctx.(progress := WithoutIds(ctx.progress, ids)))
  {
    forall id | id in owed && id !in ids ensures Lookup(WithoutIds(ctx.progress, ids), id) == Lookup(ctx.progress, id) {
      WithoutLookup(ctx.progress, ids, id);
    }
  }

  lemma {:induction false} EstopKeeps(owed: map<string, int>, m: Machine)
    requires Kept(owed, QueuedTasks(m.state), m.ctx)
    ensures KeptBy(owed, EmergencyStop(m).0)
  {
    hide Kept;
    var ctx := PushAll(m.ctx, QueuedTasks(m.state), Cancelled);
    PushAllKeeps(owed, QueuedTasks(m.state), m.ctx, Cancelled);
    SameProgressKeeps(owed, [], ctx, StateChanged(ctx, EStopped));
  }

  lemma {:induction false} ReconnectKeeps(cfg: Config, owed: map<string, int>, m: Machine)
    requires Kept(owed, [], m.ctx) && !m.state.InReady?
    ensures KeptBy(owed, Reconnect(cfg, m).0)
  {
    hide Kept, Disconnect;
    DisconnectKeeps(owed, m);
    SameProgressKeeps(owed, [], m.ctx, Reconnect(cfg, m).0.ctx) by {
      assert m.ctx.progress == Reconnect(cfg, m).0.ctx.progress by { IdleProgress(cfg, m); }
    }
  }

  lemma {:induction false} IdleProgress(cfg: Config, m: Machine)
    requires !m.state.InReady?
    ensures Reconnect(cfg, m).0.ctx.progress == m.ctx.progress && Disconnect(m).0.ctx.progress == m.ctx.progress
  {
  }

  lemma {:induction false} CommonKeeps(cfg: Config, owed: map<string, int>, m: Machine, event: Event)
    requires Kept(owed, QueuedTasks(m.state), m.ctx) && Common(cfg, m, event).Some?
    ensures KeptBy(OwedAfter(owed, m, event), Common(cfg, m, event).value.0)
  {
    hide Kept, ToErrored, Disconnect, EmergencyStop, Reconnect, WithoutIds;
    match event
    case GCodeLoadFailed(_) => ErroredKeeps(owed, "Failed to load GCode", m);
    case ProtobufRec(Some(DeviceDiscovered)) => if m.state.Disconnected? { ReconnectKeeps(cfg, owed, m); }
    case ProtobufRec(Some(DeviceDisconnected)) => DisconnectKeeps(owed, m);
    case ProtobufRec(Some(DeleteTaskHistory(ids))) => DeleteKeeps(owed, QueuedTasks(m.state), m.ctx, ids);
    case ProtobufRec(Some(Estop)) => EstopKeeps(owed, m);
    case ProtobufRec(Some(ResetWhenIdle)) => SameProgressKeeps(owed, QueuedTasks(m.state), m.ctx, m.ctx.(resetWhenIdle := true));
    case _ =>
  }

  lemma {:induction false} IdleKeeps(cfg: Config, owed: map<string, int>, m: Machine, event: Event)
    requires !m.state.InReady? && Kept(owed, [], m.ctx) && Common(cfg, m, event).None?
    ensures KeptBy(OwedAfter(owed, m, event), IdleConsume(cfg, m, event).0)
  {
    hide Kept, ToErrored, Disconnect, Reconnect, ReadyConsume;
    ReconnectKeeps(cfg, owed, m);
    DisconnectKeeps(owed, m);
    ErroredKeeps(owed, "Invalid transition.", m);
    match event
    case SerialPortError(message) => ErroredKeeps(owed, message, m);
    case SerialRec(src, response) =>
      if m.state.Errored? {
        SameProgressKeeps(owed, [], m.ctx, IdleSerial(cfg, m, src, response).0.ctx);
      } else if response.Error? {
        ErroredKeeps(owed, response.message, m);
      } else if m.state.Connecting? && response.OkResponse? {
        var ctx := m.ctx.(lowKey := m.ctx.lowKey - 1);
        PushFrontKeeps(owed, [], m.ctx, DriverTask(m.ctx.lowKey, "FIRMWARE_INFO", "M115"), ctx);
        assert DefaultReady(m.ctx.lowKey).tasks == [DriverTask(m.ctx.lowKey, "FIRMWARE_INFO", "M115")] + [];
        ReadyKeeps(cfg, owed, DefaultReady(m.ctx.lowKey), ctx, event);
      }
    case _ =>
  }

  /** The ids the driver owes a report on after a run, each with the acceptance it owes it on. */
  function Owed(cfg: Config, events: seq<Event>): map<string, int> {
    if events == [] then map[]
    else
      var before := events[..|events| - 1];
      OwedAfter(Owed(cfg, before), After(cfg, before), events[|events| - 1])
  }

  lemma {:induction false} StepKeeps(cfg: Config, owed: map<string, int>, m: Machine, event: Event)
    requires KeptBy(owed, m)
    ensures KeptBy(OwedAfter(owed, m, event), Step(cfg, m, event).0)
  {
    hide Kept, Common, ReadyConsume, IdleConsume;
    if !m.state.Panicked? {
      if Common(cfg, m, event).Some? {
        CommonKeeps(cfg, owed, m, event);
      } else if m.state.InReady? {
        CommonDeletes(cfg, m, event);
        ReadyKeeps(cfg, owed, m.state.ready, m.ctx, event);
      } else {
        IdleKeeps(cfg, owed, m, event);
      }
    }
  }

  lemma {:induction false} CommonDeletes(cfg: Config, m: Machine, event: Event)
    requires Common(cfg, m, event).None?
    ensures event.ProtobufRec? && event.payload.Some? ==> !event.payload.value.DeleteTaskHistory?
  {
  }

  /**
   No accepted task vanishes: after every run, the last acceptance of every task id, by a client and while
   Ready, is still queued, or this acceptance, and not an earlier one of the same id, has been reported
   finished, paused, cancelled or errored, or the history of the id was deleted since; unless the driver has
   panicked or the id was given to a task while another of the same id was queued.
   */
  lemma {:induction false} NoAcceptedTaskVanishes(cfg: Config, events: seq<Event>)
    ensures KeptBy(Owed(cfg, events), After(cfg, events))
  {
    hide Step, Kept, OwedAfter;
    if events == [] {
      assert Kept(map[], [], Start().ctx) by { NothingOwed([], Start().ctx); }
    } else {
      var before := events[..|events| - 1];
      NoAcceptedTaskVanishes(cfg, before);
      StepKeeps(cfg, Owed(cfg, before), After(cfg, before), events[|events| - 1]);
    }
  }

  lemma {:induction false} NothingOwed(tasks: seq<Task>, ctx: Ctx)
    ensures Kept(map[], tasks, ctx)
  {
  }
}
