/**
 Every line a run writes to the serial port, and every host macro it carries out: what it says, and where it
 came from.
 */
module WrittenLines {
  import opened Wrappers
  import opened DriverTypes
  import opened DriverSpec
  import opened DriverRuns
  import opened SessionInvariant
  import opened SessionTheorems
  import opened LineText

  // ---------------------------------------------------------------- what was admitted to the queue

  /** Queue entries by identity, with what they were made from. */
  type Entries = map<int, Submission>

  function OwnTask(id: string, gcode: string): Submission {
    Submission(id, INTERNAL, [gcode], None, true)
  }

  /** The entries an event adds: a submission while Ready, or one of the driver's two own tasks. */
  function Adds(m: Machine, event: Event): Entries {
    match event
    case GCodeLoaded(s) => if m.state.InReady? then map[m.ctx.nextKey := s] else map[]
    case ProtobufRec(Some(SpoolTask(id, client, startAt, Some(Inline(commands)), machineOverride))) =>
      if m.state.InReady? then
        map[m.ctx.nextKey := Submission(id, client, commands, StartNumber(startAt), machineOverride)]
      else map[]
    case SerialRec(_, Capability(name, enabled)) =>
      if m.state.InReady? && name == "AUTOREPORT_TEMP" && enabled then
        map[m.ctx.lowKey := OwnTask("AUTOREPORT_TEMP", "M155 S1")]
      else map[]
    case SerialRec(_, OkResponse(_)) =>
      if m.state.Connecting? then map[m.ctx.lowKey := OwnTask("FIRMWARE_INFO", "M115")] else map[]
    case _ => map[]
  }

  /** Everything that was ever admitted in a run. */
  function Admitted(cfg: Config, events: seq<Event>): Entries {
    if events == [] then map[]
    else
      var before := events[..|events| - 1];
      Admitted(cfg, before) + Adds(After(cfg, before), events[|events| - 1])
  }

  /** Every queued task is an entry, and what is left of it are lines of its submission. */
  ghost predicate QueueKnown(entries: Entries, tasks: seq<Task>) {
    forall t :: t in tasks ==>
      t.key in entries && t.submitted == entries[t.key] && forall line :: line in t.lines ==> line in t.submitted.lines
  }

  /** Only identities that were handed out have entries. */
  ghost predicate KeysHandedOut(entries: Entries, ctx: Ctx) {
    ctx.lowKey < 0 && forall key :: key in entries ==> ctx.lowKey < key < ctx.nextKey
  }

  // ---------------------------------------------------------------- what is written

  /** What a serial line says, by why it was written. Nothing is ever resent. */
  ghost predicate SaysWhy(cfg: Config, entries: Entries, line: GCodeLine, origin: Origin) {
    match origin
    case FromTask(key, machineOverride) =>
      && line.lineNumber.Some? && line.checksum
      && key in entries && entries[key].machineOverride == machineOverride
      && exists raw :: raw in entries[key].lines && StandsFor(cfg, raw, line.gcode) && !BeginsWithBang(raw)
    case Poll => line.lineNumber.Some? && line.checksum && (line.gcode == "M105" || line.gcode == "M114")
    case Fallback => line.lineNumber.Some? && line.checksum && line.gcode == "M400"
    case Tickle => line == GCodeLine("M105", None, cfg.checksumTickles)
    case Handshake => line == GCodeLine("M110 N0", None, true)
    case Resent => false
  }

  ghost predicate Explained(cfg: Config, entries: Entries, e: Effect) {
    && (e.SendSerial? ==> SaysWhy(cfg, entries, e.line, e.origin))
    && (e.RanHostMacro? ==>
          && e.key in entries && entries[e.key].machineOverride == e.machineOverride
          && e.gcode in entries[e.key].lines && BeginsWithBang(e.gcode) && cfg.parseHost(e.gcode[1..]) == Some(e.macro))
  }

  ghost predicate AllExplained(cfg: Config, entries: Entries, fx: seq<Effect>) {
    forall e :: e in fx ==> Explained(cfg, entries, e)
  }

  /** Effects that are neither lines nor macros. */
  lemma {:induction false} Unwritten(cfg: Config, entries: Entries, fx: seq<Effect>)
    requires forall e :: e in fx ==> !e.SendSerial? && !e.RanHostMacro?
    ensures AllExplained(cfg, entries, fx)
  {
  }

  lemma {:induction false} ExplainedJoin(cfg: Config, entries: Entries, a: seq<Effect>, b: seq<Effect>)
    ensures AllExplained(cfg, entries, a + b) <==> AllExplained(cfg, entries, a) && AllExplained(cfg, entries, b)
  {
    assert forall e :: e in a + b <==> e in a || e in b;
  }

  /** A line followed by its timer. */
  lemma {:induction false} LineExplained(cfg: Config, entries: Entries, line: GCodeLine, origin: Origin)
    requires SaysWhy(cfg, entries, line, origin)
    ensures AllExplained(cfg, entries, SendLine(cfg, line, origin))
  {
  }

  // ---------------------------------------------------------------- despooling

  ghost predicate Kept(cfg: Config, entries: Entries, trace: seq<Effect>, tasks: seq<Task>) {
    QueueKnown(entries, tasks) && AllExplained(cfg, entries, trace) && (forall t :: t in tasks ==> Labelled(t))
  }

  lemma {:induction false} AfterTakingKnown(entries: Entries, tasks: seq<Task>, n: nat)
    requires tasks != [] && n < |tasks[0].lines| && QueueKnown(entries, tasks)
    requires forall t :: t in tasks ==> Labelled(t)
    ensures QueueKnown(entries, [AfterTaking(tasks[0], n)] + tasks[1..])
    ensures forall t :: t in [AfterTaking(tasks[0], n)] + tasks[1..] ==> Labelled(t)
    ensures tasks[0].lines[n] in tasks[0].submitted.lines && tasks[0].key in entries
            && entries[tasks[0].key].machineOverride == tasks[0].machineOverride
            && tasks[0].submitted == entries[tasks[0].key]
  {
    assert tasks[0] in tasks && tasks[0].lines[n] in tasks[0].lines;
    assert forall t :: t in tasks[1..] ==> t in tasks;
  }

  lemma {:induction false} TakeExplained(cfg: Config, entries: Entries, r: Ready, ctx: Ctx, n: nat)
    requires r.tasks != [] && n < |r.tasks[0].lines| && Clean(cfg, r.tasks[0].lines[n]).Some?
    requires Kept(cfg, entries, [], r.tasks) && !TakeFront(cfg, r, ctx, n).Failed?
    ensures var turn := TakeFront(cfg, r, ctx, n); Kept(cfg, entries, turn.fx, turn.r.tasks)
  {
    AfterTakingKnown(entries, r.tasks, n);
    var raw := r.tasks[0].lines[n];
    var gcode := Clean(cfg, raw).value;
    CleanStands(cfg, raw);
    var turn := TakeFront(cfg, r, ctx, n);
    hide QueueKnown, PushProgress, AfterTaking, Labelled, StandsFor, StandsForNothing, Clean, AllExplained;
    var t := AfterTaking(r.tasks[0], n);
    assert t.key == r.tasks[0].key && t.machineOverride == r.tasks[0].machineOverride by { TakingKeepsLabels(r.tasks[0], n); }
    var fx1: seq<Effect> := if r.tasks[0].started then [] else [SendFeedbackProtobuf];
    Unwritten(cfg, entries, fx1);
    assert IsHostMacro(gcode) <==> BeginsWithBang(raw) by { BangSurvives(cfg, raw, gcode); }
    if IsHostMacro(gcode) {
      assert gcode == raw by { BangSurvives(cfg, raw, gcode); }
      var ran := RanHostMacro(t.key, t.machineOverride, gcode, cfg.parseHost(gcode[1..]).value);
      assert turn.fx == fx1 + [ran];
      assert AllExplained(cfg, entries, [ran]) by { OneExplained(cfg, entries, ran); }
      ExplainedJoin(cfg, entries, fx1, [ran]);
    } else {
      var line := GCodeLine(gcode, Some(r.nextLine), true);
      var origin := FromTask(t.key, t.machineOverride);
      LineExplained(cfg, entries, line, origin);
      assert turn.fx == fx1 + SendLine(cfg, line, origin);
      ExplainedJoin(cfg, entries, fx1, SendLine(cfg, line, origin));
    }
  }

  lemma {:induction false} OneExplained(cfg: Config, entries: Entries, e: Effect)
    requires Explained(cfg, entries, e)
    ensures AllExplained(cfg, entries, [e])
  {
  }

  lemma {:induction false} TakingKeepsLabels(t: Task, n: nat)
    requires n < |t.lines|
    ensures AfterTaking(t, n).key == t.key && AfterTaking(t, n).machineOverride == t.machineOverride
  {
  }

  lemma {:induction false} BangSurvives(cfg: Config, raw: string, gcode: string)
    requires Clean(cfg, raw) == Some(gcode)
    ensures IsHostMacro(gcode) <==> BeginsWithBang(raw)
    ensures BeginsWithBang(raw) ==> gcode == raw
  {
    CleanStands(cfg, raw);
    assert StandsFor(cfg, raw, gcode);
  }

  lemma {:induction false} FinishedKnown(cfg: Config, entries: Entries, tasks: seq<Task>)
    requires tasks != [] && Kept(cfg, entries, [], tasks)
    ensures Kept(cfg, entries, [SendFeedbackProtobuf], tasks[1..])
  {
    assert forall t :: t in tasks[1..] ==> t in tasks;
  }

  lemma {:induction false} OwnLineExplained(cfg: Config, entries: Entries, r: Ready, gcode: string, origin: Origin)
    requires (origin == Origin.Poll && (gcode == "M105" || gcode == "M114")) || (origin == Fallback && gcode == "M400")
    ensures AllExplained(cfg, entries, SendNumbered(cfg, r, gcode, origin).1)
  {
    LineExplained(cfg, entries, GCodeLine(gcode, Some(r.nextLine), true), origin);
  }

  lemma {:induction false} FrontExplained(cfg: Config, entries: Entries, r: Ready, ctx: Ctx)
    requires r.tasks != [] && Kept(cfg, entries, [], r.tasks) && !FrontTurn(cfg, r, ctx).Failed?
    ensures var turn := FrontTurn(cfg, r, ctx); Kept(cfg, entries, turn.fx, turn.r.tasks)
  {
    hide Kept, TakeFront, PushProgress, BlankPrefix;
    var n := BlankPrefix(cfg, r.tasks[0].lines);
    if n == |r.tasks[0].lines| { FinishedKnown(cfg, entries, r.tasks); } else { TakeExplained(cfg, entries, r, ctx, n); }
  }

  lemma {:induction false} TurnExplained(cfg: Config, entries: Entries, r: Ready, ctx: Ctx, turn: Turn)
    requires Kept(cfg, entries, [], r.tasks) && IsTurn(cfg, r, ctx, turn) && !turn.Failed?
    ensures Kept(cfg, entries, turn.fx, turn.r.tasks)
  {
    hide QueueKnown, AllExplained, FrontTurn, SendNumbered, Labelled;
    var r1 := r.(awaitingPollingFeedback := false);
    if turn == TaskTurn(cfg, r, ctx) {
      if r.mark != Some(WaitingToReachMark) && r.tasks != [] { FrontExplained(cfg, entries, r1, ctx); }
      else { Unwritten(cfg, entries, turn.fx); }
    } else if r.mark == Some(WaitingToSendFallbackGCode) {
      OwnLineExplained(cfg, entries, r.(mark := None), "M400", Fallback);
      SendKeepsTasks(cfg, r.(mark := None), "M400", Fallback);
    } else {
      PollExplained(cfg, entries, r, r.pollFor.value);
    }
  }

  lemma {:induction false} SendKeepsTasks(cfg: Config, r: Ready, gcode: string, origin: Origin)
    ensures SendNumbered(cfg, r, gcode, origin).0.tasks == r.tasks
  {
  }

  lemma {:induction false} PollExplained(cfg: Config, entries: Entries, r: Ready, p: Polling)
    ensures var (r', fx) := DriverSpec.Poll(cfg, r, p); r'.tasks == r.tasks && AllExplained(cfg, entries, fx)
  {
    hide AllExplained;
    var q := EffectivePoll(r, p);
    var r1 := r.(awaitingPollingFeedback := true, pollFor := if q == PollTemperature then Some(PollPosition) else None);
    OwnLineExplained(cfg, entries, r1, if q == PollTemperature then "M105" else "M114", Origin.Poll);
  }

  lemma {:induction false} KeptJoin(cfg: Config, entries: Entries, trace: seq<Effect>, tasks: seq<Task>, fx: seq<Effect>,
      tasks': seq<Task>)
    requires Kept(cfg, entries, trace, tasks) && Kept(cfg, entries, fx, tasks')
    ensures Kept(cfg, entries, trace + fx, tasks') && Kept(cfg, entries, [], tasks)
  {
    hide QueueKnown, Explained, Labelled;
    ExplainedJoin(cfg, entries, trace, fx);
  }

  lemma {:induction false} DespoolExplained(cfg: Config, entries: Entries, r: Ready, ctx: Ctx, out: Out)
    requires (out == DespoolAll(cfg, r, ctx) || out == DespoolTask(cfg, r, ctx)) && out.err.None?
    requires Kept(cfg, entries, [], r.tasks)
    ensures Kept(cfg, entries, out.fx, out.r.tasks)
  {
    hide DespoolAll, DespoolTask, IsTurn, Kept;
    var inv := (trace: seq<Effect>, r: Ready, ctx: Ctx) => Kept(cfg, entries, trace, r.tasks);
    forall trace: seq<Effect>, r, ctx, turn | inv(trace, r, ctx) && IsTurn(cfg, r, ctx, turn) && !turn.Failed?
      ensures inv(trace + turn.fx, turn.r, turn.ctx)
    {
      KeptStarts(cfg, entries, trace, r.tasks);
      TurnExplained(cfg, entries, r, ctx, turn);
      KeptJoin(cfg, entries, trace, r.tasks, turn.fx, turn.r.tasks);
    }
    DespoolInduction(cfg, [], r, ctx, out, inv);
    assert [] + out.fx == out.fx;
  }

  lemma {:induction false} KeptStarts(cfg: Config, entries: Entries, trace: seq<Effect>, tasks: seq<Task>)
    requires Kept(cfg, entries, trace, tasks)
    ensures Kept(cfg, entries, [], tasks)
  {
    hide QueueKnown, Explained, Labelled;
  }

  // ---------------------------------------------------------------- one event

  lemma {:induction false} FeedbackExplained(cfg: Config, entries: Entries, r: Ready, ctx: Ctx, feedback: Feedback)
    requires Kept(cfg, entries, [], r.tasks) && ReceiveFeedback(cfg, r, ctx, feedback).err.None?
    ensures var out := ReceiveFeedback(cfg, r, ctx, feedback); Kept(cfg, entries, out.fx, out.r.tasks)
  {
    hide DespoolAll, QueueKnown, Labelled;
    if feedback == Positions(true, true) && r.mark == Some(WaitingToReachMark) {
      hide Kept;
      DespoolExplained(cfg, entries, r.(mark := None), ctx, DespoolAll(cfg, r.(mark := None), ctx));
    } else {
      Unwritten(cfg, entries, ReceiveFeedback(cfg, r, ctx, feedback).fx);
    }
  }

  lemma {:induction false} OkExplained(cfg: Config, entries: Entries, r: Ready, ctx: Ctx)
    requires Kept(cfg, entries, [], r.tasks) && r.lastGCodeSent.None?
    requires ReceiveOk(cfg, r, ctx).Some? && ReceiveOk(cfg, r, ctx).value.err.None?
    ensures var out := ReceiveOk(cfg, r, ctx).value; Kept(cfg, entries, out.fx, out.r.tasks)
  {
    hide DespoolAll, Kept;
    match r.onOk
    case Despool => DespoolExplained(cfg, entries, r, ctx, DespoolAll(cfg, r, ctx));
    case TransitionToReady =>
      var r1, ctx1 := r.(onOk := Despool), StateChanged(ctx, InReady(r));
      var out := DespoolAll(cfg, r1, ctx1);
      DespoolExplained(cfg, entries, r1, ctx1, out);
      FeedbackFirst(cfg, entries, out.fx, out.r.tasks);
    case _ =>
  }

  lemma {:induction false} FeedbackFirst(cfg: Config, entries: Entries, fx: seq<Effect>, tasks: seq<Task>)
    requires Kept(cfg, entries, fx, tasks)
    ensures Kept(cfg, entries, [SendFeedbackProtobuf] + fx, tasks)
  {
    hide QueueKnown, Labelled;
    Unwritten(cfg, entries, [SendFeedbackProtobuf]);
    ExplainedJoin(cfg, entries, [SendFeedbackProtobuf], fx);
  }

  /** Nothing remembers a line to resend. */
  lemma {:induction false} FeedbackForgets(cfg: Config, r: Ready, ctx: Ctx, feedback: Feedback)
    requires r.lastGCodeSent.None? && ReceiveFeedback(cfg, r, ctx, feedback).err.None?
    ensures ReceiveFeedback(cfg, r, ctx, feedback).r.lastGCodeSent.None?
  {
    hide DespoolAll;
    var r1 := r.(mark := None);
    if feedback == Positions(true, true) && r.mark == Some(WaitingToReachMark) {
      DespoolForgets(cfg, r1, ctx, DespoolAll(cfg, r1, ctx));
    }
  }

  lemma {:induction false} DespoolForgets(cfg: Config, r: Ready, ctx: Ctx, out: Out)
    requires out == DespoolAll(cfg, r, ctx) && out.err.None?
    ensures out.r.lastGCodeSent == r.lastGCodeSent
  {
    hide DespoolAll, IsTurn;
    var inv := (trace: seq<Effect>, now: Ready, ctx: Ctx) => now.lastGCodeSent == r.lastGCodeSent;
    forall trace: seq<Effect>, now, ctx, turn | inv(trace, now, ctx) && IsTurn(cfg, now, ctx, turn) && !turn.Failed?
      ensures inv(trace + turn.fx, turn.r, turn.ctx)
    {
      TurnForgets(cfg, now, ctx, turn);
    }
    DespoolInduction(cfg, [], r, ctx, out, inv);
  }

  lemma {:induction false} FrontForgets(cfg: Config, r: Ready, ctx: Ctx)
    requires r.tasks != [] && !FrontTurn(cfg, r, ctx).Failed?
    ensures FrontTurn(cfg, r, ctx).r.lastGCodeSent == r.lastGCodeSent
  {
    hide BlankPrefix, PushProgress, Clean, Work, AfterTaking, SendLine;
  }

  lemma {:induction false} TurnForgets(cfg: Config, r: Ready, ctx: Ctx, turn: Turn)
    requires IsTurn(cfg, r, ctx, turn) && !turn.Failed?
    ensures turn.r.lastGCodeSent == r.lastGCodeSent
  {
    hide FrontTurn, Work, SendLine;
    var r1 := r.(awaitingPollingFeedback := false);
    if r.tasks != [] && !FrontTurn(cfg, r1, ctx).Failed? { FrontForgets(cfg, r1, ctx); }
  }

  lemma {:induction false} OkResponseExplained(cfg: Config, entries: Entries, r: Ready, ctx: Ctx,
      feedback: Option<Feedback>)
    requires Kept(cfg, entries, [], r.tasks) && r.lastGCodeSent.None?
    requires ReceiveOkResponse(cfg, r, ctx, feedback).Some? && ReceiveOkResponse(cfg, r, ctx, feedback).value.err.None?
    ensures var out := ReceiveOkResponse(cfg, r, ctx, feedback).value; Kept(cfg, entries, out.fx, out.r.tasks)
  {
    hide ReceiveFeedback, ReceiveOk, Kept;
    if feedback.None? {
      OkExplained(cfg, entries, r, ctx);
    } else {
      var first := ReceiveFeedback(cfg, r, ctx, feedback.value);
      FeedbackExplained(cfg, entries, r, ctx, feedback.value);
      FeedbackForgets(cfg, r, ctx, feedback.value);
      KeptStarts(cfg, entries, first.fx, first.r.tasks);
      OkExplained(cfg, entries, first.r, first.ctx);
      var second := ReceiveOk(cfg, first.r, first.ctx).value;
      KeptJoin(cfg, entries, first.fx, first.r.tasks, second.fx, second.r.tasks);
    }
  }

  /** The driver's own task goes in front. */
  lemma {:induction false} OwnTaskKnown(cfg: Config, entries: Entries, tasks: seq<Task>, key: int, id: string, gcode: string)
    requires Kept(cfg, entries, [], tasks) && key in entries && entries[key] == OwnTask(id, gcode)
    ensures Kept(cfg, entries, [], [DriverTask(key, id, gcode)] + tasks)
  {
  }

  lemma {:induction false} SerialExplained(cfg: Config, entries: Entries, r: Ready, ctx: Ctx, src: string,
      response: Response)
    requires Kept(cfg, entries, [], r.tasks) && r.lastGCodeSent.None?
    requires forall key :: key in Adds(Machine(InReady(r), ctx), SerialRec(src, response)) ==>
               key in entries && entries[key] == Adds(Machine(InReady(r), ctx), SerialRec(src, response))[key]
    requires ReadySerial(cfg, r, ctx, response).0.state.InReady?
    ensures var (m, fx) := ReadySerial(cfg, r, ctx, response); Kept(cfg, entries, fx, m.state.ready.tasks)
  {
    hide ReceiveFeedback, ReceiveOkResponse, Kept;
    match response
    case OkResponse(feedback) => OkResponseExplained(cfg, entries, r, ctx, feedback);
    case FeedbackResponse(feedback) =>
      var out, tail := ReceiveFeedback(cfg, r, ctx, feedback), [CancelDelay(TICKLE_DELAY), SendFeedbackProtobuf];
      FeedbackExplained(cfg, entries, r, ctx, feedback);
      TailKept(cfg, entries, out.fx, out.r.tasks, tail);
    case Capability(name, enabled) =>
      if name == AUTOREPORT && enabled {
        assert ctx.lowKey in Adds(Machine(InReady(r), ctx), SerialRec(src, response));
        OwnTaskKnown(cfg, entries, r.tasks, ctx.lowKey, AUTOREPORT, "M155 S1");
      }
    case _ =>
  }

  lemma {:induction false} TailKept(cfg: Config, entries: Entries, fx: seq<Effect>, tasks: seq<Task>, tail: seq<Effect>)
    requires Kept(cfg, entries, fx, tasks) && forall e :: e in tail ==> !e.SendSerial? && !e.RanHostMacro?
    ensures Kept(cfg, entries, fx + tail, tasks)
  {
    hide QueueKnown, Labelled;
    Unwritten(cfg, entries, tail);
    ExplainedJoin(cfg, entries, fx, tail);
  }

  lemma {:induction false} AdmitKnown(cfg: Config, entries: Entries, tasks: seq<Task>, key: int, s: Submission)
    requires Kept(cfg, entries, [], tasks) && key in entries && entries[key] == s
    ensures Kept(cfg, entries, [], Enqueue(tasks, Admit(key, s)))
  {
    var t := Admit(key, s);
    var i := if t.machineOverride then FirstNonOverride(tasks) else |tasks|;
    assert tasks == tasks[..i] + tasks[i..];
    assert Enqueue(tasks, t) == tasks[..i] + [t] + tasks[i..];
    assert forall line :: line in t.lines ==> line in s.lines;
  }

  lemma {:induction false} LoadExplained(cfg: Config, entries: Entries, r: Ready, ctx: Ctx, s: Submission)
    requires Kept(cfg, entries, [], r.tasks) && ctx.nextKey in entries && entries[ctx.nextKey] == s
    requires Load(cfg, r, ctx, s).0.state.InReady?
    ensures var (m, fx) := Load(cfg, r, ctx, s); Kept(cfg, entries, fx, m.state.ready.tasks)
  {
    hide DespoolTask, Enqueue, Admit, Kept;
    AdmitKnown(cfg, entries, r.tasks, ctx.nextKey, s);
    if r.onOk == NotAwaitingOk {
      var r1, ctx1 := r.(tasks := Enqueue(r.tasks, Admit(ctx.nextKey, s))), ctx.(nextKey := ctx.nextKey + 1);
      DespoolExplained(cfg, entries, r1, ctx1, DespoolTask(cfg, r1, ctx1));
    }
  }

  lemma {:induction false} PauseExplained(cfg: Config, entries: Entries, r: Ready, ctx: Ctx, id: string)
    requires Kept(cfg, entries, [], r.tasks)
    ensures var (m, fx) := Pause(r, ctx, id); m.state.InReady? && Kept(cfg, entries, fx, m.state.ready.tasks)
  {
    hide FindTask, PushProgress;
    var i := FindTask(r.tasks, id);
    if i < |r.tasks| { DroppedMembers(r.tasks, i); }
  }

  lemma {:induction false} PollEventExplained(cfg: Config, entries: Entries, r: Ready, ctx: Ctx)
    requires Kept(cfg, entries, [], r.tasks)
    ensures var (m, fx) := ReadyPoll(cfg, r, ctx); m.state.InReady? && Kept(cfg, entries, fx, m.state.ready.tasks)
  {
    hide QueueKnown, AllExplained, Labelled, DriverSpec.Poll;
    PollExplained(cfg, entries, r.(pollFor := Some(PollTemperature)), PollTemperature);
  }

  lemma {:induction false} TickleExplained(cfg: Config, entries: Entries, r: Ready, ctx: Ctx)
    requires Kept(cfg, entries, [], r.tasks) && TickleLine(cfg, r, ctx).0.state.InReady?
    ensures var (m, fx) := TickleLine(cfg, r, ctx); Kept(cfg, entries, fx, m.state.ready.tasks)
  {
    hide QueueKnown, Labelled, PushAll;
    LineExplained(cfg, entries, GCodeLine("M105", None, cfg.checksumTickles), Tickle);
  }

  predicate Covers(entries: Entries, more: Entries) {
    forall key :: key in more ==> key in entries && entries[key] == more[key]
  }

  lemma {:induction false} ReadyExplained(cfg: Config, entries: Entries, r: Ready, ctx: Ctx, event: Event)
    requires Kept(cfg, entries, [], r.tasks) && r.lastGCodeSent.None?
    requires Covers(entries, Adds(Machine(InReady(r), ctx), event))
    requires ReadyConsume(cfg, r, ctx, event).0.state.InReady?
    ensures var (m, fx) := ReadyConsume(cfg, r, ctx, event); Kept(cfg, entries, fx, m.state.ready.tasks)
  {
    hide Kept, ReadySerial, Load, Pause, ReadyPoll, TickleLine;
    match event
    case SerialRec(src, response) => SerialExplained(cfg, entries, r, ctx, src, response);
    case GCodeLoaded(s) => LoadExplained(cfg, entries, r, ctx, s);
    case ProtobufRec(Some(PauseTask(id))) => PauseExplained(cfg, entries, r, ctx, id);
    case ProtobufRec(Some(SpoolTask(id, client, startAt, content, machineOverride))) =>
      if content.Some? && content.value.Inline? {
        LoadExplained(cfg, entries, r.(loadingGCode := true), ctx,
                      Submission(id, client, content.value.commands, StartNumber(startAt), machineOverride));
      } else {
        TailKept(cfg, entries, [], r.tasks, ReadyConsume(cfg, r, ctx, event).1);
        assert [] + ReadyConsume(cfg, r, ctx, event).1 == ReadyConsume(cfg, r, ctx, event).1;
      }
    case PollFeedback => PollEventExplained(cfg, entries, r, ctx);
    case TickleSerialPort => TickleExplained(cfg, entries, r, ctx);
    case _ =>
  }

  // ---------------------------------------------------------------- every step and every run

  lemma {:induction false} OutsideReadyExplained(cfg: Config, entries: Entries, m: Machine, event: Event)
    requires !Step(cfg, m, event).0.state.InReady?
    ensures AllExplained(cfg, entries, Step(cfg, m, event).1)
  {
    hide PushAll, WithoutIds, ReadyConsume, AllExplained;
    var (m', fx) := Step(cfg, m, event);
    if !m.state.Panicked? && Common(cfg, m, event).None? && m.state.InReady? {
      LeavingWritesNothing(cfg, m.state.ready, m.ctx, event);
      Unwritten(cfg, entries, fx);
    } else if !m.state.InReady? && m.state.Connecting? && event.SerialRec? && event.response.OkResponse? {
      LeavingWritesNothing(cfg, DefaultReady(m.ctx.lowKey), m.ctx.(lowKey := m.ctx.lowKey - 1), event);
      Unwritten(cfg, entries, fx);
    } else if exists e :: e in fx && e.SendSerial? {
      LineExplained(cfg, entries, GCodeLine("M110 N0", None, true), Handshake);
    } else {
      Unwritten(cfg, entries, fx);
    }
  }

  lemma {:induction false} LeavingWritesNothing(cfg: Config, r: Ready, ctx: Ctx, event: Event)
    requires !ReadyConsume(cfg, r, ctx, event).0.state.InReady?
    ensures forall e :: e in ReadyConsume(cfg, r, ctx, event).1 ==> !e.SendSerial? && !e.RanHostMacro?
  {
    hide PushAll, ReceiveOkResponse, ReceiveFeedback, DespoolTask, Enqueue, PushProgress, FindTask;
  }

  lemma {:induction false} CommonExplained(cfg: Config, entries: Entries, m: Machine, event: Event)
    requires m.state.InReady? && Common(cfg, m, event).Some? && Common(cfg, m, event).value.0.state.InReady?
    ensures Common(cfg, m, event).value.0.state == m.state
    ensures AllExplained(cfg, entries, Common(cfg, m, event).value.1)
  {
    hide PushAll, WithoutIds, AllExplained;
    Unwritten(cfg, entries, Common(cfg, m, event).value.1);
  }

  lemma {:induction false} EnteringExplained(cfg: Config, entries: Entries, m: Machine, event: Event)
    requires !m.state.InReady? && Step(cfg, m, event).0.state.InReady? && Covers(entries, Adds(m, event))
    ensures var (m', fx) := Step(cfg, m, event); Kept(cfg, entries, fx, m'.state.ready.tasks)
  {
    hide PushAll, WithoutIds, ReadyConsume, Kept;
    var r, ctx := DefaultReady(m.ctx.lowKey), m.ctx.(lowKey := m.ctx.lowKey - 1);
    assert m.state.Connecting? && event.SerialRec? && event.response.OkResponse?;
    assert m.ctx.lowKey in Adds(m, event);
    NothingKept(cfg, entries);
    OwnTaskKnown(cfg, entries, [], m.ctx.lowKey, "FIRMWARE_INFO", "M115");
    assert r.tasks == [DriverTask(m.ctx.lowKey, "FIRMWARE_INFO", "M115")] + [];
    ReadyExplained(cfg, entries, r, ctx, event);
    var (m', fx) := ReadyConsume(cfg, r, ctx, event);
    CancelFirst(cfg, entries, fx, m'.state.ready.tasks);
  }

  lemma {:induction false} NothingKept(cfg: Config, entries: Entries)
    ensures Kept(cfg, entries, [], [])
  {
  }

  lemma {:induction false} CancelFirst(cfg: Config, entries: Entries, fx: seq<Effect>, tasks: seq<Task>)
    requires Kept(cfg, entries, fx, tasks)
    ensures Kept(cfg, entries, [CancelAllDelays] + fx, tasks)
  {
    hide QueueKnown, Labelled;
    Unwritten(cfg, entries, [CancelAllDelays]);
    ExplainedJoin(cfg, entries, [CancelAllDelays], fx);
  }

  ghost predicate MachineKept(cfg: Config, entries: Entries, m: Machine) {
    m.state.InReady? ==> Kept(cfg, entries, [], m.state.ready.tasks) && m.state.ready.lastGCodeSent.None?
  }

  lemma {:induction false} StepExplained(cfg: Config, entries: Entries, m: Machine, event: Event)
    requires MachineKept(cfg, entries, m) && Covers(entries, Adds(m, event))
    requires var m' := Step(cfg, m, event).0; m'.state.InReady? ==> m'.state.ready.lastGCodeSent.None?
    ensures var (m', fx) := Step(cfg, m, event); MachineKept(cfg, entries, m') && AllExplained(cfg, entries, fx)
  {
    hide Kept, AllExplained, Common, ReadyConsume, IdleConsume, Covers;
    var (m', fx) := Step(cfg, m, event);
    if !m'.state.InReady? {
      OutsideReadyExplained(cfg, entries, m, event);
    } else {
      if !m.state.InReady? {
        EnteringExplained(cfg, entries, m, event);
      } else if Common(cfg, m, event).Some? {
        CommonExplained(cfg, entries, m, event);
        KeptWith(cfg, entries, m'.state.ready.tasks, fx);
      } else {
        ReadyExplained(cfg, entries, m.state.ready, m.ctx, event);
      }
      KeptStarts(cfg, entries, fx, m'.state.ready.tasks);
      KeptExplains(cfg, entries, fx, m'.state.ready.tasks);
    }
  }

  lemma {:induction false} KeptWith(cfg: Config, entries: Entries, tasks: seq<Task>, fx: seq<Effect>)
    requires Kept(cfg, entries, [], tasks) && AllExplained(cfg, entries, fx)
    ensures Kept(cfg, entries, fx, tasks)
  {
  }

  lemma {:induction false} KeptExplains(cfg: Config, entries: Entries, fx: seq<Effect>, tasks: seq<Task>)
    requires Kept(cfg, entries, fx, tasks)
    ensures AllExplained(cfg, entries, fx)
  {
  }

  /** Identities of new entries are new. */
  lemma {:induction false} AddsAreNew(cfg: Config, m: Machine, event: Event)
    requires m.ctx.lowKey < 0
    ensures var ctx' := Step(cfg, m, event).0.ctx;
            && CountersOnlyMove(m.ctx, ctx')
            && forall key :: key in Adds(m, event) ==>
                 (key == m.ctx.nextKey && key < ctx'.nextKey) || (key == m.ctx.lowKey && ctx'.lowKey < key)
  {
    StepCounters(cfg, m, event);
    hide ReadySerial, DespoolTask, PushAll, PushProgress, Enqueue, WithoutIds, FindTask;
    if event.SerialRec? && !m.state.Panicked? {
      hide IdleConsume, ReadyConsume;
      if m.state.InReady? {
        assert Step(cfg, m, event) == ReadyConsume(cfg, m.state.ready, m.ctx, event);
        if event.response == Capability(AUTOREPORT, true) { LowKeyMoves(cfg, m.state.ready, m.ctx, event); }
      } else if m.state.Connecting? && event.response.OkResponse? {
        FirstOkMoves(cfg, m, event);
      }
    }
  }

  lemma {:induction false} LowKeyMoves(cfg: Config, r: Ready, ctx: Ctx, event: Event)
    requires event.SerialRec? && event.response == Capability(AUTOREPORT, true)
    ensures ReadyConsume(cfg, r, ctx, event).0.ctx.lowKey < ctx.lowKey
  {
  }

  lemma {:induction false} FirstOkMoves(cfg: Config, m: Machine, event: Event)
    requires m.state.Connecting? && event.SerialRec? && event.response.OkResponse?
    ensures Step(cfg, m, event).0.ctx.lowKey < m.ctx.lowKey
  {
    hide ReadyConsume;
    ReadyCounters(cfg, DefaultReady(m.ctx.lowKey), m.ctx.(lowKey := m.ctx.lowKey - 1), event);
  }

  // What is explained by some entries is explained by more.

  lemma {:induction false} StillSays(cfg: Config, entries: Entries, more: Entries, e: Effect)
    requires Explained(cfg, entries, e) && Covers(more, entries)
    ensures Explained(cfg, more, e)
  {
  }

  lemma {:induction false} StillExplained(cfg: Config, entries: Entries, more: Entries, fx: seq<Effect>)
    requires AllExplained(cfg, entries, fx) && Covers(more, entries)
    ensures AllExplained(cfg, more, fx)
  {
    hide Explained, Covers;
    forall e | e in fx ensures Explained(cfg, more, e) { StillSays(cfg, entries, more, e); }
  }

  lemma {:induction false} StillKept(cfg: Config, entries: Entries, more: Entries, m: Machine)
    requires MachineKept(cfg, entries, m) && Covers(more, entries)
    ensures MachineKept(cfg, more, m)
  {
    hide Labelled;
  }

  lemma {:induction false} Join(entries: Entries, adds: Entries, ctx: Ctx, ctx': Ctx)
    requires KeysHandedOut(entries, ctx) && CountersOnlyMove(ctx, ctx')
    requires forall key :: key in adds ==>
               (key == ctx.nextKey && key < ctx'.nextKey) || (key == ctx.lowKey && ctx'.lowKey < key)
    ensures Covers(entries + adds, entries) && Covers(entries + adds, adds) && KeysHandedOut(entries + adds, ctx')
  {
  }

  lemma {:induction false} EveryRunIsExplained(cfg: Config, events: seq<Event>)
    ensures var entries, m := Admitted(cfg, events), After(cfg, events);
            && KeysHandedOut(entries, m.ctx) && MachineKept(cfg, entries, m)
            && AllExplained(cfg, entries, RunTrace(cfg, events))
  {
    if events != [] {
      hide Step, Kept, AllExplained, Adds, Covers, KeysHandedOut, MachineKept;
      var before, event := events[..|events| - 1], events[|events| - 1];
      var entries, adds, m := Admitted(cfg, before), Adds(After(cfg, before), event), After(cfg, before);
      EveryRunIsExplained(cfg, before);
      KeysBelowZero(entries, m.ctx);
      AddsAreNew(cfg, m, event);
      Join(entries, adds, m.ctx, After(cfg, events).ctx);
      StillKept(cfg, entries, entries + adds, m);
      StillExplained(cfg, entries, entries + adds, RunTrace(cfg, before));
      NothingRemembered(cfg, events);
      StepExplained(cfg, entries + adds, m, event);
      ExplainedJoin(cfg, entries + adds, RunTrace(cfg, before), LastStep(cfg, events).fx);
    } else {
      assert AllExplained(cfg, map[], []);
    }
  }

  lemma {:induction false} KeysBelowZero(entries: Entries, ctx: Ctx)
    requires KeysHandedOut(entries, ctx)
    ensures ctx.lowKey < 0
  {
  }

  lemma {:induction false} NothingRemembered(cfg: Config, events: seq<Event>)
    ensures var m := After(cfg, events); m.state.InReady? ==> m.state.ready.lastGCodeSent.None?
  {
    hide Step, GoodQueue;
    EverySession(cfg, events);
  }

  /**
   Everything a run writes to the serial port, in every state and all sessions: a task's line is what a line
   of its own submission stands for, with a number and a checksum; a poll is M105 or M114 and the fallback is
   M400, both numbered; a tickle is an unnumbered M105, the handshake M110 N0; and nothing else is written.
   */
  lemma {:induction false} EveryLineSaysWhy(cfg: Config, events: seq<Event>, line: GCodeLine, origin: Origin)
    requires SendSerial(line, origin) in RunTrace(cfg, events)
    ensures SaysWhy(cfg, Admitted(cfg, events), line, origin)
  {
    EveryRunIsExplained(cfg, events);
    assert Explained(cfg, Admitted(cfg, events), SendSerial(line, origin));
  }

  /** Every host macro carried out is a line of its task's submission that begins with '!'. */
  lemma {:induction false} EveryMacroIsALine(cfg: Config, events: seq<Event>, key: int, machineOverride: bool,
      gcode: string, macro: HostGCode)
    requires RanHostMacro(key, machineOverride, gcode, macro) in RunTrace(cfg, events)
    ensures var entries := Admitted(cfg, events);
            && key in entries && entries[key].machineOverride == machineOverride && gcode in entries[key].lines
            && BeginsWithBang(gcode) && cfg.parseHost(gcode[1..]) == Some(macro)
  {
    EveryRunIsExplained(cfg, events);
    assert Explained(cfg, Admitted(cfg, events), RanHostMacro(key, machineOverride, gcode, macro));
  }

  lemma {:induction false} RecordGrowsByOne(cfg: Config, events: seq<Event>)
    requires events != []
    ensures Covers(Admitted(cfg, events), Admitted(cfg, events[..|events| - 1]))
  {
    hide Step, Adds, KeysHandedOut, AllExplained, MachineKept, Covers;
    var before, event := events[..|events| - 1], events[|events| - 1];
    var entries, m := Admitted(cfg, before), After(cfg, before);
    EveryRunIsExplained(cfg, before);
    KeysBelowZero(entries, m.ctx);
    AddsAreNew(cfg, m, event);
    Join(entries, Adds(m, event), m.ctx, After(cfg, events).ctx);
  }

  lemma {:induction false} CoversMore(a: Entries, b: Entries, c: Entries)
    requires Covers(a, b) && Covers(b, c)
    ensures Covers(a, c)
  {
  }

  lemma {:induction false} CoversItself(a: Entries)
    ensures Covers(a, a)
  {
  }

  /** What was admitted stays on record. */
  lemma {:induction false} RecordGrows(cfg: Config, events: seq<Event>, later: seq<Event>)
    ensures Covers(Admitted(cfg, events + later), Admitted(cfg, events))
  {
    hide Admitted, Covers;
    if later == [] {
      assert events + later == events;
      CoversItself(Admitted(cfg, events));
    } else {
      var all, fewer := events + later, later[..|later| - 1];
      assert all[..|all| - 1] == events + fewer;
      RecordGrows(cfg, events, fewer);
      RecordGrowsByOne(cfg, all);
      CoversMore(Admitted(cfg, all), Admitted(cfg, events + fewer), Admitted(cfg, events));
    }
  }

  /** A queued task is what was admitted under its identity. */
  lemma {:induction false} QueuedAsAdmitted(cfg: Config, events: seq<Event>, t: Task)
    requires After(cfg, events).state.InReady? && t in After(cfg, events).state.ready.tasks
    ensures t.key in Admitted(cfg, events) && t.submitted == Admitted(cfg, events)[t.key]
  {
    hide Step, After, AllExplained;
    EveryRunIsExplained(cfg, events);
  }
}
