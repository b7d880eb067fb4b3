/**
 The driver as it is written: objects whose methods update their fields and append to a list of
 effects, with `Despool`, `DespoolTask` and `ExecuteHostGCode` calling one another. Each method is
 proved to compute the function of DriverSpec that the theorems are about.
 */
module Driver {
  import opened Wrappers
  import opened DriverTypes
  import opened DriverSpec
  import opened LineText
  import DriverRuns

  /**
   The iterator over a task's lines: what the first line that stands for a gcode stands for, and the lines
   left after it.
   */
  method NextGCode(cfg: Config, lines: seq<string>) returns (gcode: Option<string>, rest: seq<string>)
    ensures gcode == None ==> rest == [] && forall line :: line in lines ==> StandsForNothing(cfg, line)
    ensures gcode != None ==> exists n :: FoundAt(cfg, lines, n, gcode.value) && rest == lines[n + 1..]
    ensures var n := BlankPrefix(cfg, lines);
            if n == |lines| then gcode.None? && rest == [] else gcode == Clean(cfg, lines[n]) && rest == lines[n + 1..]
  {
    hide Clean, StandsFor, StandsForNothing;
    rest := lines;
    ghost var i := 0;
    while rest != []
      invariant i <= |lines| && rest == lines[i..]
      invariant forall j :: 0 <= j < i ==> Clean(cfg, lines[j]).None? && StandsForNothing(cfg, lines[j])
    {
      var line := rest[0];
      rest := rest[1..];
      gcode := Clean(cfg, line);
      CleanStands(cfg, line);
      if gcode.Some? {
        assert FoundAt(cfg, lines, i, gcode.value);
        BlankPrefixIs(cfg, lines, i);
        return gcode, rest;
      }
      i := i + 1;
    }
    BlankPrefixIs(cfg, lines, i);
    gcode := None;
  }

  /** The first line that stands for anything is line `n`, and it stands for the gcode. */
  ghost predicate FoundAt(cfg: Config, lines: seq<string>, n: int, gcode: string) {
    && 0 <= n < |lines| && StandsFor(cfg, lines[n], gcode)
    && forall i :: 0 <= i < n ==> StandsForNothing(cfg, lines[i])
  }

  lemma {:induction false} BlankPrefixIs(cfg: Config, lines: seq<string>, n: nat)
    requires n <= |lines| && (n < |lines| ==> Clean(cfg, lines[n]).Some?)
    requires forall j :: 0 <= j < n ==> Clean(cfg, lines[j]).None?
    ensures BlankPrefix(cfg, lines) == n
  {
    hide Clean;
    if n > 0 { BlankPrefixIs(cfg, lines[1..], n - 1); }
  }

  /** Skips the lines a resumed task has already printed. */
  method SkipLines(lines: seq<string>, n: nat) returns (rest: seq<string>)
    ensures rest == Skip(lines, n)
  {
    rest := lines;
    for i := 0 to n
      invariant rest == Skip(lines, i)
    {
      if rest != [] { rest := rest[1..]; }
    }
  }

  /** Writes a line and starts the timer that follows it up, or stops it for a line that may take its time. */
  method SendSerialLine(cfg: Config, effects: seq<Effect>, line: GCodeLine, origin: Origin) returns (after: seq<Effect>)
    ensures |after| == |effects| + 2 && after[..|effects|] == effects && after[|effects|] == SendSerial(line, origin)
    ensures cfg.isBlocking(line.gcode) ==> after[|effects| + 1] == CancelDelay("tickle_delay")
    ensures !cfg.isBlocking(line.gcode) ==>
              after[|effects| + 1] == Delay("tickle_delay", cfg.timeout(line.gcode), TickleSerialPort)
    ensures after == effects + SendLine(cfg, line, origin)
  {
    after := effects + [SendSerial(line, origin)];
    if cfg.isBlocking(line.gcode) {
      after := after + [CancelDelay(TICKLE_DELAY)];
    } else {
      after := after + [Delay(TICKLE_DELAY, cfg.timeout(line.gcode), TickleSerialPort)];
    }
  }

  class Context {
    var baudRate: nat
    var resetWhenIdle: bool
    var pausedFlag: bool
    var status: Status
    var error: Option<string>
    var progress: seq<Progress>
    // Hand out queue-entry identities; see DriverTypes.Ctx.
    var nextKey: nat
    var lowKey: int

    ghost function View(): Ctx
      reads this
    {
      Ctx(baudRate, resetWhenIdle, pausedFlag, status, error, progress, nextKey, lowKey)
    }

    constructor ()
      ensures View() == Start().ctx
    {
      baudRate, resetWhenIdle, pausedFlag := 115200, false, false;
      status, error, progress := StatusDisconnected, None, [];
      nextKey, lowKey := 0, -1;
    }

    /** Of the feedback the model has, only task progress survives the change. */
    method HandleStateChange(state: DriverState)
      modifies this
      ensures View() == StateChanged(old(View()), Abs(state))
    {
      match state {
        case Off => status := StatusDisconnected;
        case Searching(_) => status := StatusConnecting;
        case Running(_) => status := StatusReady;
        case Broken(_) => status := StatusErrored;
        case Stopped => status := StatusEStopped;
        case Crashed =>
      }
      error := if state.Broken? then Some(state.message) else None;
    }

    method PushTaskProgress(task: Task, taskStatus: TaskStatus)
      modifies this`progress
      ensures View() == PushProgress(old(View()), task, taskStatus)
    {
      if task.clientId == INTERNAL {
        return;
      }
      var i := 0;
      while i < |progress| && progress[i].taskId != task.id
        invariant i <= |progress| && unchanged(this)
        invariant forall j :: 0 <= j < i ==> progress[j].taskId != task.id
      {
        i := i + 1;
      }
      FindProgressIs(progress, task.id, i);
      var entry := Progress(task.id, task.despooled.GetOr(0), taskStatus, task.key);
      if i < |progress| {
        progress := progress[i := entry];
      } else {
        progress := progress + [entry];
      }
    }

    method PushAllProgress(tasks: seq<Task>, taskStatus: TaskStatus)
      modifies this`progress
      ensures View() == PushAll(old(View()), tasks, taskStatus)
    {
      var rest := tasks;
      while rest != []
        invariant PushAll(View(), rest, taskStatus) == PushAll(old(View()), tasks, taskStatus)
        decreases |rest|
      {
        PushTaskProgress(rest[0], taskStatus);
        rest := rest[1..];
      }
    }

    method DeleteTaskHistory(ids: seq<string>)
      modifies this`progress
      ensures View() == old(View()).(progress := WithoutIds(old(progress), ids))
    {
      var kept, rest := [], progress;
      while rest != []
        invariant unchanged(this)
        invariant kept + WithoutIds(rest, ids) == WithoutIds(progress, ids)
        decreases |rest|
      {
        if rest[0].taskId !in ids { kept := kept + [rest[0]]; }
        rest := rest[1..];
      }
      assert kept + WithoutIds([], ids) == kept;
      progress := kept;
    }
  }

  lemma {:induction false} FindProgressIs(progress: seq<Progress>, id: string, n: nat)
    requires n <= |progress| && (n < |progress| ==> progress[n].taskId == id)
    requires forall j :: 0 <= j < n ==> progress[j].taskId != id
    ensures FindProgress(progress, id) == n
  {
    if n > 0 { FindProgressIs(progress[1..], id, n - 1); }
  }

  // ---------------------------------------------------------------- refinement glue

  /** A method's result `r`, `ctx`, `after`, `err` is what the specification says. */
  ghost predicate Agrees(out: Out, r: Ready, ctx: Ctx, before: seq<Effect>, after: seq<Effect>, err: Option<string>) {
    r == out.r && ctx == out.ctx && err == out.err && (err.None? ==> after == before + out.fx)
  }

  /** The same for a method that starts its own list of effects. */
  ghost predicate Yields(out: Out, r: Ready, ctx: Ctx, fx: seq<Effect>, err: Option<string>) {
    r == out.r && ctx == out.ctx && err == out.err && (err.None? ==> fx == out.fx)
  }

  lemma {:induction false} AgreesFromEmpty(out: Out, r: Ready, ctx: Ctx, fx: seq<Effect>, err: Option<string>)
    requires Agrees(out, r, ctx, [], fx, err)
    ensures Yields(out, r, ctx, fx, err)
  {
    assert [] + out.fx == out.fx;
  }

  lemma {:induction false} RunHostPrefix(cfg: Config, r: Ready, ctx: Ctx, task: Task, gcode: string, fx: seq<Effect>)
    requires IsHostMacro(gcode)
    ensures var a, b := Finish(cfg, RunHost(cfg, r, ctx, task, gcode, fx)), Finish(cfg, RunHost(cfg, r, ctx, task, gcode, []));
            a.r == b.r && a.ctx == b.ctx && a.err == b.err && (a.err.None? ==> a.fx == fx + b.fx)
  {
    hide DespoolTurn;
    var macro := cfg.parseHost(gcode[1..]);
    if macro.Some? {
      var ran := RanHostMacro(task.key, task.machineOverride, gcode, macro.value);
      assert [] + [ran] == [ran];
      var turn := RunHost(cfg, r, ctx, task, gcode, []);
      if turn.Again? {
        var rest := Finish(cfg, DespoolTurn(cfg, turn.r, turn.ctx));
        assert (fx + [ran]) + rest.fx == fx + ([ran] + rest.fx);
      }
    }
  }

  /** The front task has nothing left: finish it and go round again. */
  lemma {:induction false} FrontFinishes(cfg: Config, r: Ready, ctx: Ctx)
    requires r.tasks != [] && BlankPrefix(cfg, r.tasks[0].lines) == |r.tasks[0].lines|
    ensures Finish(cfg, FrontTurn(cfg, r, ctx)) ==
            Prepend([SendFeedbackProtobuf], DespoolAll(cfg, r.(tasks := r.tasks[1..]), PushProgress(ctx, r.tasks[0], Finished)))
  {
    hide DespoolTurn, PushProgress, BlankPrefix;
  }

  function StartedFx(t: Task): seq<Effect> {
    if t.started then [] else [SendFeedbackProtobuf]
  }

  /** The front task has a line for the firmware: send it, and be done. */
  lemma {:induction false} FrontSends(cfg: Config, r: Ready, ctx: Ctx, n: nat, gcode: string, t: Task)
    requires r.tasks != [] && n == BlankPrefix(cfg, r.tasks[0].lines) < |r.tasks[0].lines|
    requires Clean(cfg, r.tasks[0].lines[n]) == Some(gcode) && !IsHostMacro(gcode) && t == AfterTaking(r.tasks[0], n)
    ensures var (r', fx) := SendNumbered(cfg, r.(tasks := [t] + r.tasks[1..]), gcode, FromTask(t.key, t.machineOverride));
            Finish(cfg, FrontTurn(cfg, r, ctx)) == Out(r', PushProgress(ctx, t, Started), StartedFx(r.tasks[0]) + fx, None)
  {
    hide DespoolTurn, PushProgress, BlankPrefix, Clean, RunHost;
  }

  /** The front task has a host macro: run it, and go on from there. */
  lemma {:induction false} FrontRuns(cfg: Config, r: Ready, ctx: Ctx, n: nat, gcode: string, t: Task)
    requires r.tasks != [] && n == BlankPrefix(cfg, r.tasks[0].lines) < |r.tasks[0].lines|
    requires Clean(cfg, r.tasks[0].lines[n]) == Some(gcode) && IsHostMacro(gcode) && t == AfterTaking(r.tasks[0], n)
    ensures var rest := Finish(cfg, RunHost(cfg, r.(tasks := [t] + r.tasks[1..]), PushProgress(ctx, t, Started), t, gcode, []));
            var out := Finish(cfg, FrontTurn(cfg, r, ctx));
            && out.r == rest.r && out.ctx == rest.ctx && out.err == rest.err
            && (out.err.None? ==> out.fx == StartedFx(r.tasks[0]) + rest.fx)
  {
    hide DespoolTurn, PushProgress, BlankPrefix, Clean, RunHost, Finish;
    RunHostPrefix(cfg, r.(tasks := [t] + r.tasks[1..]), PushProgress(ctx, t, Started), t, gcode, StartedFx(r.tasks[0]));
  }

  class ReadyState {
    var mark: Option<Mark>
    var pollFor: Option<Polling>
    var awaitingPollingDelay: bool
    var awaitingPollingFeedback: bool
    var ticklesAttempted: nat
    var lastGCodeSent: Option<string>
    var onOk: OnOK
    var nextLine: nat
    var loadingGCode: bool
    var tasks: seq<Task>
    var capabilities: set<string>

    ghost function View(): Ready
      reads this
    {
      Ready(mark, pollFor, awaitingPollingDelay, awaitingPollingFeedback, ticklesAttempted,
            lastGCodeSent, onOk, nextLine, loadingGCode, tasks, capabilities)
    }

    constructor Default(context: Context)
      modifies context`lowKey
      ensures View() == DefaultReady(old(context.lowKey))
      ensures context.View() == old(context.View()).(lowKey := old(context.lowKey) - 1)
    {
      mark, onOk, lastGCodeSent := None, TransitionToReady, None;
      pollFor, awaitingPollingDelay, awaitingPollingFeedback := Some(PollTemperature), false, false;
      ticklesAttempted, nextLine, loadingGCode := 0, 1, false;
      tasks, capabilities := [DriverTask(context.lowKey, "FIRMWARE_INFO", "M115")], {};
      new;
      context.lowKey := context.lowKey - 1;
    }

    /** Writes a line under the next number. */
    method SendNumberedLine(cfg: Config, effects: seq<Effect>, gcode: string,
        origin: Origin) returns (after: seq<Effect>)
      modifies this`onOk, this`nextLine
      ensures (View(), after) == (SendNumbered(cfg, old(View()), gcode, origin).0,
                                  effects + SendNumbered(cfg, old(View()), gcode, origin).1)
    {
      after := SendSerialLine(cfg, effects, GCodeLine(gcode, Some(nextLine), true), origin);
      onOk := Despool;
      nextLine := nextLine + 1;
    }

    method PollForFeedback(cfg: Config, effects: seq<Effect>, poll: Polling) returns (after: seq<Effect>)
      modifies this
      ensures (View(), after) == (DriverSpec.Poll(cfg, old(View()), poll).0, effects + DriverSpec.Poll(cfg, old(View()), poll).1)
      decreases if poll == PollTemperature then 1 else 0
    {
      if poll == PollTemperature && AUTOREPORT in capabilities {
        after := PollForFeedback(cfg, effects, PollPosition);
        return;
      }
      var gcode := match poll case PollTemperature => "M105" case PollPosition => "M114";
      awaitingPollingFeedback := true;
      pollFor := match poll case PollTemperature => Some(PollPosition) case PollPosition => None;
      after := SendNumberedLine(cfg, effects, gcode, Origin.Poll);
    }

    method DespoolNext(cfg: Config, effects: seq<Effect>, context: Context) returns (after: seq<Effect>,
        err: Option<string>)
      modifies this, context`progress
      ensures Agrees(DespoolAll(cfg, old(View()), old(context.View())), View(), context.View(), effects, after, err)
      decreases Work(tasks), 1
    {
      hide TaskTurn;
      err := None;
      if mark == Some(WaitingToSendFallbackGCode) {
        mark := None;
        after := SendNumberedLine(cfg, effects, "M400", Fallback);
      } else if pollFor.Some? {
        after := PollForFeedback(cfg, effects, pollFor.value);
      } else {
        after, err := DespoolFrontTask(cfg, effects, context);
      }
    }

    method DespoolFrontTask(cfg: Config, effects: seq<Effect>, context: Context) returns (after: seq<Effect>,
        err: Option<string>)
      modifies this, context`progress
      ensures Agrees(DespoolTask(cfg, old(View()), old(context.View())), View(), context.View(), effects, after, err)
      decreases Work(tasks), 0, 1
    {
      hide FrontTurn;
      after, err := effects, None;
      awaitingPollingFeedback := false;

      if mark == Some(WaitingToReachMark) {
        onOk := NotAwaitingOk;
      } else if tasks == [] {
        onOk := NotAwaitingOk;
        after := after + [CancelDelay(TICKLE_DELAY)];
        if context.resetWhenIdle { after := after + [ExitProcessAfterDelay]; }
      } else {
        after, err := DespoolFromFront(cfg, after, context);
      }
    }

    /** Moves the front task past a gcode: it is started, counted and reported. */
    method StartGCode(effects: seq<Effect>, context: Context, rest: seq<string>) returns (after: seq<Effect>,
        task: Task)
      requires tasks != []
      modifies this`tasks, context`progress
      ensures var before := old(tasks)[0];
              && task == before.(lines := rest, started := true,
                                 despooled := Some(match before.despooled case Some(d) => d + 1 case None => 0))
              && after == effects + StartedFx(before)
      ensures View() == old(View()).(tasks := [task] + old(tasks)[1..])
      ensures context.View() == PushProgress(old(context.View()), task, Started)
    {
      task, after := tasks[0], effects;
      if !task.started { after := after + [SendFeedbackProtobuf]; }
      var number := match task.despooled case Some(d) => d + 1 case None => 0;
      task := task.(lines := rest, started := true, despooled := Some(number));
      tasks := [task] + tasks[1..];
      context.PushTaskProgress(task, Started);
    }

    /** The part of `DespoolFrontTask` that has a front task to work on. */
    method DespoolFromFront(cfg: Config, effects: seq<Effect>, context: Context) returns (after: seq<Effect>,
        err: Option<string>)
      requires tasks != []
      modifies this, context`progress
      ensures Agrees(Finish(cfg, FrontTurn(cfg, old(View()), old(context.View()))), View(), context.View(), effects, after, err)
      decreases Work(tasks), 0, 0
    {
      hide FrontTurn, DespoolAll, RunHost, Finish, PushProgress, Clean, BlankPrefix, SendNumbered;
      after, err := effects, None;
      ghost var r0, ctx0 := View(), context.View();
      var task := tasks[0];
      var gcode, rest := NextGCode(cfg, task.lines);
      if gcode.None? {
        FrontFinishes(cfg, r0, ctx0);
        context.PushTaskProgress(task, Finished);
        after := after + [SendFeedbackProtobuf];
        tasks := tasks[1..];
        after, err := DespoolNext(cfg, after, context);
        return;
      }

      after, task := StartGCode(after, context, rest);
      WorkOfTail(r0.tasks, tasks);
      ghost var n := BlankPrefix(cfg, r0.tasks[0].lines);
      assert task == AfterTaking(r0.tasks[0], n);
      hide AfterTaking, StartedFx;
      if IsHostMacro(gcode.value) {
        FrontRuns(cfg, r0, ctx0, n, gcode.value, task);
        after, err := ExecuteHostGCode(cfg, after, context, task, gcode.value);
      } else {
        FrontSends(cfg, r0, ctx0, n, gcode.value, task);
        after := SendNumberedLine(cfg, after, gcode.value, FromTask(task.key, task.machineOverride));
      }
    }

    method ExecuteHostGCode(cfg: Config, effects: seq<Effect>, context: Context, task: Task, gcode: string)
      returns (after: seq<Effect>, err: Option<string>)
      requires IsHostMacro(gcode)
      modifies this, context`progress
      ensures Agrees(Finish(cfg, RunHost(cfg, old(View()), old(context.View()), task, gcode, [])),
                     View(), context.View(), effects, after, err)
      decreases Work(tasks), 2
    {
      hide DespoolTurn;
      err := None;
      var parsed := cfg.parseHost(gcode[1..]);
      if parsed.None? {
        after, err := effects, Some("invalid host macro");
        return;
      }
      after := effects + [RanHostMacro(task.key, task.machineOverride, gcode, parsed.value)];
      match parsed.value {
        case MarkTargetPosition =>
          mark := Some(MarkSet);
        case WaitToReachMark =>
          if mark != Some(MarkSet) {
            err := Some("Cannot wait to reach mark if mark is not set");
            return;
          }
          mark := Some(WaitingToReachMark);
          pollFor := Some(PollPosition);
      }
      ghost var turn := Again(View(), context.View(), [RanHostMacro(task.key, task.machineOverride, gcode, parsed.value)]);
      assert [] + turn.fx == turn.fx;
      after, err := DespoolNext(cfg, after, context);
      assert effects + turn.fx + DespoolAll(cfg, turn.r, turn.ctx).fx == effects + Finish(cfg, turn).fx;
    }

    // -------------------------------------------------------------- responses

    method ReceiveFeedbackReport(cfg: Config, feedback: Feedback, context: Context) returns (fx: seq<Effect>,
        err: Option<string>)
      modifies this, context`progress
      ensures Yields(ReceiveFeedback(cfg, old(View()), old(context.View()), feedback), View(), context.View(), fx, err)
    {
      hide DespoolAll;
      fx, err := [], None;
      match feedback {
        case BusyPausedForUser =>
          onOk := IgnoreOK;
        case ActualTemperatures =>
          awaitingPollingDelay := true;
          fx := [Delay("polling_delay", if mark.Some? then 50 else cfg.pollingInterval, PollFeedback), SendFeedbackProtobuf];
        case Positions(allAxesReceived, reachedMark) =>
          if mark == Some(WaitingToReachMark) {
            if !allAxesReceived {
              mark := Some(WaitingToSendFallbackGCode);
            } else if reachedMark {
              mark := None;
              fx, err := DespoolNext(cfg, [], context);
              AgreesFromEmpty(DespoolAll(cfg, old(View()).(mark := None), old(context.View())), View(), context.View(), fx, err);
            }
          }
        case OtherFeedback =>
      }
    }

    /** `panicked` is the failure to find a line to resend. */
    method ReceiveAnOk(cfg: Config, effects: seq<Effect>, context: Context)
      returns (after: seq<Effect>, err: Option<string>, panicked: bool)
      modifies this, context
      ensures panicked <==> ReceiveOk(cfg, old(View()), old(context.View())).None?
      ensures panicked ==> View() == old(View()) && context.View() == old(context.View())
      ensures !panicked ==> Agrees(ReceiveOk(cfg, old(View()), old(context.View())).value, View(), context.View(), effects, after, err)
      decreases if onOk == TransitionToReady then 1 else 0
    {
      hide DespoolAll;
      after, err, panicked := effects, None, false;
      match onOk {
        case NotAwaitingOk =>
        case Resend =>
          if lastGCodeSent.None? {
            panicked := true;
            return;
          }
          after := SendSerialLine(cfg, after,
                                  GCodeLine(lastGCodeSent.value, Some(if nextLine == 0 then 0 else nextLine - 1), true), Resent);
          onOk := IgnoreOK;
        case IgnoreOK =>
          onOk := Despool;
        case TransitionToReady =>
          context.HandleStateChange(Running(this));
          after := after + [SendFeedbackProtobuf];
          onOk := Despool;
          ghost var rest := DespoolAll(cfg, View(), context.View());
          assert effects + [SendFeedbackProtobuf] + rest.fx == effects + ([SendFeedbackProtobuf] + rest.fx);
          after, err, panicked := ReceiveAnOk(cfg, after, context);
        case Despool =>
          after, err := DespoolNext(cfg, after, context);
      }
    }

    method ReceiveOkWithFeedback(cfg: Config, feedback: Option<Feedback>, context: Context)
      returns (fx: seq<Effect>, err: Option<string>, panicked: bool)
      modifies this, context
      ensures panicked <==> ReceiveOkResponse(cfg, old(View()), old(context.View()), feedback).None?
      ensures !panicked ==>
                Yields(ReceiveOkResponse(cfg, old(View()), old(context.View()), feedback).value, View(), context.View(), fx, err)
      ensures panicked ==> context.View() == if feedback.Some? then ReceiveFeedback(cfg, old(View()), old(context.View()), feedback.value).ctx
                                             else old(context.View())
    {
      hide ReceiveFeedback, ReceiveOk;
      fx, err, panicked := [], None, false;
      if feedback.Some? {
        fx, err := ReceiveFeedbackReport(cfg, feedback.value, context);
        if err.Some? { return; }
      }
      ghost var r1, ctx1, first := View(), context.View(), fx;
      fx, err, panicked := ReceiveAnOk(cfg, fx, context);
      if !panicked && feedback.None? {
        AgreesFromEmpty(ReceiveOk(cfg, r1, ctx1).value, View(), context.View(), fx, err);
      }
    }

    // -------------------------------------------------------------- the queue

    /** Index at which an override is inserted. */
    method FindFirstNonOverride() returns (i: nat)
      ensures i == FirstNonOverride(tasks)
    {
      i := 0;
      while i < |tasks| && tasks[i].machineOverride
        invariant i <= |tasks| && forall j :: 0 <= j < i ==> tasks[j].machineOverride
      {
        i := i + 1;
      }
      FirstNonOverrideIs(tasks, i);
    }

    method FindTaskById(id: string) returns (i: nat)
      ensures i == FindTask(tasks, id) <= |tasks|
    {
      i := 0;
      while i < |tasks| && tasks[i].id != id
        invariant i <= |tasks| && forall j :: 0 <= j < i ==> tasks[j].id != id
      {
        i := i + 1;
      }
      FindTaskIs(tasks, id, i);
    }

    method LoadTask(cfg: Config, s: Submission, context: Context) returns (next: DriverState, fx: seq<Effect>)
      modifies this, context
      ensures (Machine(Abs(next), context.View()), fx) == Load(cfg, old(View()), old(context.View()), s)
      ensures next.Running? ==> next.ready == this
    {
      var lines := s.lines;
      if s.despooled.Some? {
        lines := SkipLines(lines, s.despooled.value);
      }
      var task := Task(context.nextKey, s.id, s.clientId, lines, s.despooled, s.machineOverride, false, s);
      context.nextKey := context.nextKey + 1;
      if task.machineOverride {
        var i := FindFirstNonOverride();
        tasks := tasks[..i] + [task] + tasks[i..];
      } else {
        tasks := tasks + [task];
      }
      assert tasks == Enqueue(old(tasks), Admit(old(context.nextKey), s));
      hide Enqueue, Admit, DespoolTask;
      if onOk == NotAwaitingOk {
        var err;
        ghost var r1, ctx1 := View(), context.View();
        fx, err := DespoolFrontTask(cfg, [], context);
        AgreesFromEmpty(DespoolTask(cfg, r1, ctx1), View(), context.View(), fx, err);
        next, fx := CloseWith(fx, err, context);
      } else {
        next, fx := Running(this), [];
      }
    }

    /** Stays Ready with the effects, or reports the error. */
    method CloseWith(fx: seq<Effect>, err: Option<string>, context: Context) returns (next: DriverState,
        after: seq<Effect>)
      modifies context
      ensures (Machine(Abs(next), context.View()), after) == Close(Out(View(), old(context.View()), fx, err))
      ensures next.Running? ==> next.ready == this
    {
      if err.None? {
        next, after := Running(this), fx;
      } else {
        next, after := EnterErrored(err.value, Running(this), context);
      }
    }

    method SpoolPayload(cfg: Config, p: Payload, context: Context) returns (next: DriverState, fx: seq<Effect>)
      requires p.SpoolTask?
      modifies this, context
      ensures (Machine(Abs(next), context.View()), fx) == Spool(cfg, old(View()), old(context.View()), p)
      ensures next.Running? ==> next.ready == this
    {
      hide Load;
      loadingGCode := true;
      match p.content {
        case Some(Inline(commands)) =>
          next, fx := LoadTask(cfg, Submission(p.taskId, p.clientId, commands, StartNumber(p.startAt), p.machineOverride), context);
        case Some(FilePath(path)) =>
          next, fx := Running(this), [LoadGCode(path, p.taskId, p.clientId, p.machineOverride, StartNumber(p.startAt))];
        case None =>
          next, fx := Running(this), [];
      }
    }

    method PauseById(id: string, context: Context) returns (next: DriverState, fx: seq<Effect>)
      modifies this, context
      ensures (Machine(Abs(next), context.View()), fx) == Pause(old(View()), old(context.View()), id)
      ensures next.Running? ==> next.ready == this
    {
      hide PushProgress, FindTask;
      next, fx := Running(this), [];
      var i := FindTaskById(id);
      if i < |tasks| {
        var task := tasks[i];
        tasks := tasks[..i] + tasks[i + 1..];
        context.pausedFlag := true;
        context.PushTaskProgress(task, Paused);
        fx := [SendFeedbackProtobuf];
        assert fx == [SendFeedbackProtobuf] + [];
        if context.resetWhenIdle && tasks == [] { fx := fx + [ExitProcessAfterDelay]; }
      }
    }

    // -------------------------------------------------------------- one event

    method ReceiveSerial(cfg: Config, response: Response, context: Context) returns (next: DriverState, fx: seq<Effect>)
      modifies this, context
      ensures (Machine(Abs(next), context.View()), fx) == ReadySerial(cfg, old(View()), old(context.View()), response)
      ensures next.Running? ==> next.ready == this
    {
      hide ReceiveFeedback, ReceiveOkResponse, ToErrored, LearnCapability, RequestResend;
      next, fx := Running(this), [];
      var err;
      match response {
        case Error(message) =>
          next, fx := EnterErrored(message, Running(this), context);
        case Greeting =>
          next, fx := EnterErrored("Unexpected printer firmware restart.", Running(this), context);
        case Capability(name, enabled) =>
          ReceiveCapability(name, enabled, context);
        case OkResponse(feedback) =>
          var panicked;
          fx, err, panicked := ReceiveOkWithFeedback(cfg, feedback, context);
          if panicked {
            next, fx := Crashed, [];
          } else {
            next, fx := CloseWith(fx, err, context);
          }
        case FeedbackResponse(feedback) =>
          fx, err := ReceiveFeedbackReport(cfg, feedback, context);
          next, fx := CloseWith(fx + [CancelDelay(TICKLE_DELAY), SendFeedbackProtobuf], err, context);
        case ResendRequest(lineNumber) =>
          next, fx := ReceiveResendRequest(lineNumber, context);
        case _ =>
      }
    }

    /** A firmware that can report temperatures by itself is told to, ahead of everything queued. */
    method ReceiveCapability(name: string, enabled: bool, context: Context)
      modifies this, context
      ensures (Machine(InReady(View()), context.View()), []) == LearnCapability(old(View()), old(context.View()), name, enabled)
    {
      if name == AUTOREPORT && enabled {
        tasks := [DriverTask(context.lowKey, AUTOREPORT, "M155 S1")] + tasks;
        context.lowKey := context.lowKey - 1;
      }
      if enabled { capabilities := capabilities + {name}; }
    }

    method ReceiveResendRequest(lineNumber: nat, context: Context) returns (next: DriverState, fx: seq<Effect>)
      modifies this, context
      ensures (Machine(Abs(next), context.View()), fx) == RequestResend(old(View()), old(context.View()), lineNumber)
      ensures next.Running? ==> next.ready == this
    {
      if lineNumber + 1 != nextLine {
        next, fx := EnterErrored("resend line number does not match sent line number", Running(this), context);
      } else {
        onOk := Resend;
        next, fx := Running(this), [];
      }
    }

    method TickleSerial(cfg: Config, context: Context) returns (next: DriverState, fx: seq<Effect>)
      modifies this, context
      ensures (Machine(Abs(next), context.View()), fx) == TickleLine(cfg, old(View()), old(context.View()))
      ensures next.Running? ==> next.ready == this
    {
      hide ToErrored;
      if ticklesAttempted >= cfg.maxTickles {
        next, fx := EnterErrored("Serial port communication timed out.", Running(this), context);
      } else {
        fx := SendSerialLine(cfg, [], GCodeLine("M105", None, cfg.checksumTickles), Tickle);
        assert [] + SendLine(cfg, GCodeLine("M105", None, cfg.checksumTickles), Tickle)
            == SendLine(cfg, GCodeLine("M105", None, cfg.checksumTickles), Tickle);
        ticklesAttempted := ticklesAttempted + 1;
        next := Running(this);
      }
    }

    method Consume(cfg: Config, event: Event, context: Context) returns (next: DriverState, fx: seq<Effect>)
      modifies this, context
      ensures (Machine(Abs(next), context.View()), fx) == ReadyConsume(cfg, old(View()), old(context.View()), event)
      ensures next.Running? ==> next.ready == this
    {
      hide Spool, Pause, Load, ReadySerial, TickleLine, ToErrored, Disconnect;
      match event {
        case ProtobufRec(Some(SpoolTask(id, client, startAt, content, machineOverride))) =>
          next, fx := SpoolPayload(cfg, SpoolTask(id, client, startAt, content, machineOverride), context);
        case ProtobufRec(Some(PauseTask(id))) =>
          next, fx := PauseById(id, context);
        case ProtobufRec(_) =>
          next, fx := Running(this), [];
        case SerialPortDisconnected =>
          next, fx := EnterDisconnected(Running(this), context);
        case GCodeLoaded(submission) =>
          next, fx := LoadTask(cfg, submission, context);
        case SerialRec(_, response) =>
          next, fx := ReceiveSerial(cfg, response, context);
        case PollFeedback =>
          pollFor := Some(PollTemperature);
          fx := [];
          if onOk == NotAwaitingOk {
            ghost var poll := DriverSpec.Poll(cfg, View(), PollTemperature).1;
            fx := PollForFeedback(cfg, [], PollTemperature);
            assert [] + poll == poll;
          }
          next := Running(this);
        case TickleSerialPort =>
          next, fx := TickleSerial(cfg, context);
        case _ =>
          next, fx := EnterErrored("Invalid transition.", Running(this), context);
      }
    }
  }

  lemma {:induction false} FirstNonOverrideIs(tasks: seq<Task>, n: nat)
    requires n <= |tasks| && (n < |tasks| ==> !tasks[n].machineOverride)
    requires forall j :: 0 <= j < n ==> tasks[j].machineOverride
    ensures FirstNonOverride(tasks) == n
  {
    if n > 0 { FirstNonOverrideIs(tasks[1..], n - 1); }
  }

  lemma {:induction false} FindTaskIs(tasks: seq<Task>, id: string, n: nat)
    requires n <= |tasks| && (n < |tasks| ==> tasks[n].id == id)
    requires forall j :: 0 <= j < n ==> tasks[j].id != id
    ensures FindTask(tasks, id) == n
  {
    if n > 0 { FindTaskIs(tasks[1..], id, n - 1); }
  }

  // ---------------------------------------------------------------- every state

  datatype DriverState =
    | Off
    | Searching(baudRates: seq<nat>)
    | Running(ready: ReadyState)
    | Broken(message: string)
    | Stopped
    | Crashed

  ghost function Abs(s: DriverState): State
    reads if s.Running? then {s.ready} else {}
  {
    match s
    case Off => Disconnected
    case Searching(baudRates) => Connecting(baudRates)
    case Running(ready) => InReady(ready.View())
    case Broken(message) => Errored(message)
    case Stopped => EStopped
    case Crashed => Panicked
  }

  method EnterErrored(message: string, s: DriverState, context: Context) returns (next: DriverState, fx: seq<Effect>)
    modifies context
    ensures (Machine(Abs(next), context.View()), fx) == ToErrored(message, Machine(old(Abs(s)), old(context.View())))
    ensures next == Broken(message)
  {
    if s.Running? { context.PushAllProgress(s.ready.tasks, TaskErrored); }
    context.HandleStateChange(Broken(message));
    next, fx := Broken(message), [CancelAllDelays, SendFeedbackProtobuf];
  }

  method EnterDisconnected(s: DriverState, context: Context) returns (next: DriverState, fx: seq<Effect>)
    modifies context
    ensures (Machine(Abs(next), context.View()), fx) == Disconnect(Machine(old(Abs(s)), old(context.View())))
    ensures next == Off
  {
    if s.Running? { context.PushAllProgress(s.ready.tasks, TaskErrored); }
    context.HandleStateChange(Off);
    next, fx := Off, [CancelAllDelays, CloseSerialPort, SendFeedbackProtobuf];
  }

  method TryNextBaudRate(cfg: Config, s: DriverState, context: Context) returns (next: DriverState, fx: seq<Effect>)
    modifies context
    ensures (Machine(Abs(next), context.View()), fx) == Reconnect(cfg, Machine(old(Abs(s)), old(context.View())))
    ensures !next.Running?
  {
    hide Disconnect;
    var candidates: seq<nat>;
    if s.Searching? {
      candidates := s.baudRates;
    } else {
      candidates := [cfg.baudRate];
      if cfg.autoBaud { candidates := candidates + DefaultBaudRates(); }
      assert [cfg.baudRate] + [] == [cfg.baudRate];
    }
    if candidates == [] {
      next, fx := EnterDisconnected(s, context);
      return;
    }
    var baud := candidates[|candidates| - 1];
    context.baudRate := baud;
    fx := [CancelAllDelays, OpenSerialPort(baud), Delay("connection_timeout", cfg.connectionTimeout, ConnectionTimeout)];
    next := Searching(candidates[..|candidates| - 1]);
    if !s.Searching? {
      context.HandleStateChange(next);
      fx := fx + [SendFeedbackProtobuf];
    }
  }

  method SendLineNumberReset(cfg: Config, s: DriverState, context: Context) returns (fx: seq<Effect>)
    ensures (Machine(Abs(s), context.View()), fx) == ResetLineNumber(cfg, Machine(Abs(s), context.View()))
  {
    fx := SendSerialLine(cfg, [], GCodeLine("M110 N0", None, true), Handshake);
    assert [] + SendLine(cfg, GCodeLine("M110 N0", None, true), Handshake) == SendLine(cfg, GCodeLine("M110 N0", None, true), Handshake);
  }

  /** The first ok while connecting. */
  method EnterReady(cfg: Config, event: Event, context: Context) returns (next: DriverState, fx: seq<Effect>)
    modifies context
    ensures (Machine(Abs(next), context.View()), fx) == FirstOk(cfg, old(context.View()), event)
    ensures next.Running? ==> fresh(next.ready)
  {
    hide ReadyConsume;
    var ready := new ReadyState.Default(context);
    next, fx := ready.Consume(cfg, event, context);
    fx := [CancelAllDelays] + fx;
  }

  method ReceiveWhileIdle(cfg: Config, s: DriverState, src: string, response: Response, context: Context)
    returns (next: DriverState, fx: seq<Effect>)
    requires !s.Running?
    modifies context
    ensures (Machine(Abs(next), context.View()), fx) == IdleSerial(cfg, Machine(Abs(s), old(context.View())), src, response)
    ensures next.Running? ==> fresh(next.ready)
  {
    hide ToErrored, FirstOk, ResetLineNumber;
    next, fx := s, [];
    if s.Broken? {
      var message := s.message + "\n" + src;
      context.HandleStateChange(Broken(message));
      next, fx := Broken(message), [CancelAllDelays, SendFeedbackProtobuf];
    } else if response.Error? {
      next, fx := EnterErrored(response.message, s, context);
    } else if s.Searching? && response.Greeting? {
      fx := SendLineNumberReset(cfg, s, context);
    } else if s.Searching? && response.OkResponse? {
      next, fx := EnterReady(cfg, SerialRec(src, response), context);
    } else if response.ResendRequest? {
      next, fx := EnterErrored("Invalid transition.", s, context);
    }
  }

  method ConsumeWhileIdle(cfg: Config, s: DriverState, event: Event, context: Context) returns (next: DriverState,
      fx: seq<Effect>)
    requires !s.Running?
    modifies context
    ensures (Machine(Abs(next), context.View()), fx) == IdleConsume(cfg, Machine(Abs(s), old(context.View())), event)
    ensures next.Running? ==> fresh(next.ready)
  {
    hide ToErrored, Reconnect, ResetLineNumber, Disconnect, IdleSerial;
    next, fx := s, [];
    match event {
      case Init(available) =>
        if cfg.simulate || available { next, fx := TryNextBaudRate(cfg, s, context); }
      case SerialPortOpened =>
        if s.Searching? { fx := SendLineNumberReset(cfg, s, context); }
      case SerialPortDisconnected =>
        next, fx := EnterDisconnected(s, context);
      case SerialPortError(message) =>
        next, fx := EnterErrored(message, s, context);
      case SerialRec(src, response) =>
        next, fx := ReceiveWhileIdle(cfg, s, src, response, context);
      case ConnectionTimeout =>
        if s.Searching? { next, fx := TryNextBaudRate(cfg, s, context); }
        else { next, fx := EnterErrored("Invalid transition.", s, context); }
      case RetryResetLineNumber =>
        if s.Searching? { fx := SendLineNumberReset(cfg, s, context); }
        else { next, fx := EnterErrored("Invalid transition.", s, context); }
      case _ =>
    }
  }

  method StopImmediately(s: DriverState, context: Context) returns (fx: seq<Effect>)
    modifies context, if s.Running? then {s.ready} else {}
    ensures (Machine(EStopped, context.View()), fx) == EmergencyStop(Machine(old(Abs(s)), old(context.View())))
  {
    if s.Running? {
      context.PushAllProgress(s.ready.tasks, Cancelled);
      s.ready.tasks := [];
    }
    context.HandleStateChange(Stopped);
    fx := [CloseSerialPort, OpenSerialPort(19200), CancelAllDelays, SendFeedbackProtobuf];
  }

  /** The messages every state handles the same way; `handled` when this was one. */
  method ConsumeCommon(cfg: Config, s: DriverState, event: Event, context: Context)
    returns (handled: bool, next: DriverState, fx: seq<Effect>)
    modifies context, if s.Running? then {s.ready} else {}
    ensures var common := Common(cfg, Machine(old(Abs(s)), old(context.View())), event);
            && (handled <==> common.Some?)
            && (handled ==> (Machine(Abs(next), context.View()), fx) == common.value)
            && (!handled ==> next == s && Abs(s) == old(Abs(s)) && context.View() == old(context.View()))
    ensures next.Running? ==> next == s
  {
    hide ToErrored, Reconnect, Disconnect, EmergencyStop, WithoutIds;
    handled, next, fx := true, s, [];
    match event {
      case ProtobufClientConnection =>
        fx := [SendInitProtobuf, SendFeedbackProtobuf];
      case GCodeLoadFailed(_) =>
        next, fx := EnterErrored("Failed to load GCode", s, context);
      case ProtobufRec(Some(DeviceDiscovered)) =>
        if s.Off? { next, fx := TryNextBaudRate(cfg, s, context); }
      case ProtobufRec(Some(DeviceDisconnected)) =>
        if !s.Off? { next, fx := EnterDisconnected(s, context); }
      case ProtobufRec(Some(DeleteTaskHistory(ids))) =>
        context.DeleteTaskHistory(ids);
      case ProtobufRec(Some(Estop)) =>
        fx := StopImmediately(s, context);
        next := Stopped;
      case ProtobufRec(Some(Reset)) =>
        fx := [ExitProcess];
      case ProtobufRec(Some(ResetWhenIdle)) =>
        if s.Running? && s.ready.tasks != [] { context.resetWhenIdle := true; }
        else { fx := [ExitProcess]; }
      case _ =>
        handled := false;
    }
  }

  /** One event, in any state. */
  method ConsumeEvent(cfg: Config, s: DriverState, event: Event, context: Context) returns (next: DriverState,
      fx: seq<Effect>)
    modifies context, if s.Running? then {s.ready} else {}
    ensures (Machine(Abs(next), context.View()), fx) == Step(cfg, Machine(old(Abs(s)), old(context.View())), event)
    ensures next.Running? ==> next == s || fresh(next.ready)
  {
    hide Common, ReadyConsume, IdleConsume;
    next, fx := s, [];
    if !s.Crashed? {
      var handled;
      handled, next, fx := ConsumeCommon(cfg, s, event, context);
      if !handled {
        if s.Running? {
          next, fx := s.ready.Consume(cfg, event, context);
        } else {
          next, fx := ConsumeWhileIdle(cfg, s, event, context);
        }
      }
    }
  }

  /** The driver's process: it feeds its events, one at a time, to the state it was left in. */
  method RunDriver(cfg: Config, events: seq<Event>) returns (s: DriverState, context: Context, trace: seq<Effect>)
    ensures Machine(Abs(s), context.View()) == DriverRuns.After(cfg, events)
    ensures trace == DriverRuns.RunTrace(cfg, events)
  {
    hide Step;
    context := new Context();
    s, trace := Off, [];
    for i := 0 to |events|
      invariant s.Running? ==> fresh(s.ready)
      invariant fresh(context)
      invariant Machine(Abs(s), context.View()) == DriverRuns.After(cfg, events[..i])
      invariant trace == DriverRuns.RunTrace(cfg, events[..i])
    {
      assert events[..i + 1][..i] == events[..i];
      var fx;
      s, fx := ConsumeEvent(cfg, s, events[i], context);
      trace := trace + fx;
    }
    assert events[..|events|] == events;
  }
}
