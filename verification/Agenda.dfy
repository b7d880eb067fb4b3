/**
 What the driver does next, with no tasks, counters or reports in it: a list of gcodes, a poll and a mark.
 Despooling is proved to do exactly this.
 */
module Agenda {
  import opened Wrappers
  import opened DriverTypes
  import opened DriverSpec
  import opened DriverRuns
  import opened SessionInvariant
  import opened LinesDue

  /** Everything that decides which line is sent next. */
  datatype Agenda = Agenda(mark: Option<Mark>, pollFor: Option<Polling>, autoReport: bool, gcodes: seq<string>)

  /** One line is sent, nothing is, or a host macro cannot be carried out. */
  datatype Next = Sends(gcode: string, rest: Agenda) | Rests(rest: Agenda) | Fails(message: string)

  const BAD_MACRO := "invalid host macro"
  const NO_MARK := "Cannot wait to reach mark if mark is not set"

  /** The fallback comes first, then polls, position after temperature, then gcodes. */
  function NextOf(cfg: Config, a: Agenda): Next
    decreases |a.gcodes|, 1
  {
    if a.mark == Some(WaitingToSendFallbackGCode) then Sends("M400", a.(mark := None))
    else if a.pollFor == Some(PollTemperature) && !a.autoReport then Sends("M105", a.(pollFor := Some(PollPosition)))
    else if a.pollFor != None then Sends("M114", a.(pollFor := None))
    else NextGcode(cfg, a)
  }

  /** Gcodes are sent unless a mark is awaited; marks are set on the way, and a wait asks for a position. */
  function NextGcode(cfg: Config, a: Agenda): Next
    decreases |a.gcodes|, 0
  {
    if a.mark == Some(WaitingToReachMark) || a.gcodes == [] then Rests(a)
    else
      var gcode, later := a.gcodes[0], a.(gcodes := a.gcodes[1..]);
      if gcode == "" || gcode[0] != '!' then Sends(gcode, later)
      else match cfg.parseHost(gcode[1..])
        case None => Fails(BAD_MACRO)
        case Some(MarkTargetPosition) => NextOf(cfg, later.(mark := Some(MarkSet)))
        case Some(WaitToReachMark) =>
          if a.mark != Some(MarkSet) then Fails(NO_MARK)
          else NextOf(cfg, later.(mark := Some(WaitingToReachMark), pollFor := Some(PollPosition)))
  }

  function AgendaOf(cfg: Config, r: Ready): Agenda {
    Agenda(r.mark, r.pollFor, "AUTOREPORT_TEMP" in r.capabilities, QueuedGcodes(cfg, r.tasks))
  }

  // ---------------------------------------------------------------- despooling follows the agenda

  function NumberedLine(e: Effect): seq<GCodeLine> {
    if e.SendSerial? && e.line.lineNumber.Some? then [e.line] else []
  }

  /** The numbered lines of some effects. */
  function NumberedLines(fx: seq<Effect>): seq<GCodeLine> { FlatMap(fx, NumberedLine) }

  /** The outcome of despooling is what the agenda says. */
  predicate Follows(cfg: Config, next: Next, before: Ready, out: Out) {
    match next
    case Fails(message) => out.err == Some(message)
    case Rests(rest) =>
      && out.err == None && AgendaOf(cfg, out.r) == rest && NumberedLines(out.fx) == []
      && out.r.onOk == NotAwaitingOk && out.r.nextLine == before.nextLine
    case Sends(gcode, rest) =>
      && out.err == None && AgendaOf(cfg, out.r) == rest
      && NumberedLines(out.fx) == [GCodeLine(gcode, Some(before.nextLine), true)]
      && out.r.onOk == Despool && out.r.nextLine == before.nextLine + 1
  }

  /** The same of one turn, where `next` is what the agenda says before it. */
  predicate TurnFollows(cfg: Config, next: Next, before: Ready, turn: Turn) {
    match turn
    case Settled(r, ctx, fx) => Follows(cfg, next, before, Out(r, ctx, fx, None))
    case Failed(_, _, message) => next == Fails(message)
    case Again(r, _, fx) =>
      NextOf(cfg, AgendaOf(cfg, r)) == next && r.nextLine == before.nextLine && NumberedLines(fx) == []
  }

  lemma {:induction false} SentLine(cfg: Config, fx: seq<Effect>, line: GCodeLine, origin: Origin)
    requires NumberedLines(fx) == [] && line.lineNumber.Some?
    ensures NumberedLines(fx + SendLine(cfg, line, origin)) == [line]
  {
    var sent := SendLine(cfg, line, origin);
    FlatMapSplit(fx, sent, NumberedLine);
    FlatMapSplit([sent[0]], [sent[1]], NumberedLine);
    FlatMapOne(sent[0], NumberedLine);
    FlatMapOne(sent[1], NumberedLine);
    assert sent == [sent[0]] + [sent[1]];
  }

  lemma {:induction false} NoLines(fx: seq<Effect>)
    requires forall e :: e in fx ==> !e.SendSerial?
    ensures NumberedLines(fx) == []
  {
    SilentFlatMap(fx, NumberedLine);
  }

  lemma {:induction false} PollFollows(cfg: Config, r: Ready, ctx: Ctx, p: Polling)
    requires r.pollFor == Some(p) && r.mark != Some(WaitingToSendFallbackGCode)
    ensures var (r', fx) := DriverSpec.Poll(cfg, r, p);
            Follows(cfg, NextOf(cfg, AgendaOf(cfg, r)), r, Out(r', ctx, fx, None))
  {
    hide QueuedGcodes, NumberedLines;
    var q := EffectivePoll(r, p);
    NoLines([]);
    var line := GCodeLine(if q == PollTemperature then "M105" else "M114", Some(r.nextLine), true);
    SentLine(cfg, [], line, Origin.Poll);
    assert [] + SendLine(cfg, line, Origin.Poll) == SendLine(cfg, line, Origin.Poll);
  }

  lemma {:induction false} FallbackFollows(cfg: Config, r: Ready, ctx: Ctx)
    requires r.mark == Some(WaitingToSendFallbackGCode)
    ensures var (r', fx) := SendNumbered(cfg, r.(mark := None), "M400", Fallback);
            Follows(cfg, NextOf(cfg, AgendaOf(cfg, r)), r, Out(r', ctx, fx, None))
  {
    hide QueuedGcodes, NumberedLines;
    NoLines([]);
    var line := GCodeLine("M400", Some(r.nextLine), true);
    SentLine(cfg, [], line, Fallback);
    assert [] + SendLine(cfg, line, Fallback) == SendLine(cfg, line, Fallback);
  }

  /** A gcode for the firmware is sent, whatever was done before. */
  lemma {:induction false} LineFollows(cfg: Config, a: Agenda, r1: Ready, ctx: Ctx, fx1: seq<Effect>, origin: Origin)
    requires a.mark != Some(WaitingToReachMark) && a.gcodes != [] && !IsHostMacro(a.gcodes[0])
    requires AgendaOf(cfg, r1) == a.(gcodes := a.gcodes[1..]) && NumberedLines(fx1) == []
    ensures var (r2, fx2) := SendNumbered(cfg, r1, a.gcodes[0], origin);
            Follows(cfg, NextGcode(cfg, a), r1, Out(r2, ctx, fx1 + fx2, None))
  {
    hide QueuedGcodes, NumberedLines, SendLine, NextOf;
    SentLine(cfg, fx1, GCodeLine(a.gcodes[0], Some(r1.nextLine), true), origin);
  }

  /** A host macro is carried out, or fails. */
  lemma {:induction false} MacroFollows(cfg: Config, a: Agenda, r1: Ready, ctx: Ctx, t: Task, fx1: seq<Effect>)
    requires a.mark != Some(WaitingToReachMark) && a.gcodes != [] && IsHostMacro(a.gcodes[0])
    requires AgendaOf(cfg, r1) == a.(gcodes := a.gcodes[1..]) && forall e :: e in fx1 ==> !e.SendSerial?
    ensures TurnFollows(cfg, NextGcode(cfg, a), r1, RunHost(cfg, r1, ctx, t, a.gcodes[0], fx1))
  {
    hide QueuedGcodes, NumberedLines, NextOf, Follows;
    var macro := cfg.parseHost(a.gcodes[0][1..]);
    if macro.Some? { NoLines(fx1 + [RanHostMacro(t.key, t.machineOverride, a.gcodes[0], macro.value)]); }
  }

  lemma {:induction false} TakeFollows(cfg: Config, r: Ready, ctx: Ctx, n: nat)
    requires r.tasks != [] && n == BlankPrefix(cfg, r.tasks[0].lines) < |r.tasks[0].lines|
    requires r.mark != Some(WaitingToReachMark)
    ensures TurnFollows(cfg, NextGcode(cfg, AgendaOf(cfg, r)), r, TakeFront(cfg, r, ctx, n))
  {
    FrontGcodes(cfg, r.tasks);
    var t := AfterTaking(r.tasks[0], n);
    var rest := QueuedGcodes(cfg, [t] + r.tasks[1..]);
    var gcode := Clean(cfg, r.tasks[0].lines[n]).value;
    assert ([gcode] + rest)[1..] == rest;
    var r1, ctx1 := r.(tasks := [t] + r.tasks[1..]), PushProgress(ctx, t, Started);
    var fx1: seq<Effect> := if r.tasks[0].started then [] else [SendFeedbackProtobuf];
    hide QueuedGcodes, NumberedLines, PushProgress, BlankPrefix, Clean, AfterTaking, SendNumbered, RunHost, NextGcode;
    if IsHostMacro(gcode) {
      MacroFollows(cfg, AgendaOf(cfg, r), r1, ctx1, t, fx1);
    } else {
      assert NumberedLines(fx1) == [] by { NoLines(fx1); }
      LineFollows(cfg, AgendaOf(cfg, r), r1, ctx1, fx1, FromTask(t.key, t.machineOverride));
    }
  }

  /** The front task has a gcode left. */
  predicate FrontHasGcode(cfg: Config, tasks: seq<Task>) {
    tasks != [] && Gcodes(cfg, tasks[0].lines) != []
  }

  /** What the agenda says when despooling is entered past the fallback and the polls, at the front task. */
  function NextOfTask(cfg: Config, r: Ready): Next {
    if r.mark == Some(WaitingToReachMark) || r.tasks == [] || FrontHasGcode(cfg, r.tasks)
    then NextGcode(cfg, AgendaOf(cfg, r))
    else NextOf(cfg, AgendaOf(cfg, r))
  }

  lemma {:induction false} FrontFollows(cfg: Config, r: Ready, ctx: Ctx)
    requires r.tasks != [] && r.mark != Some(WaitingToReachMark)
    ensures TurnFollows(cfg, NextOfTask(cfg, r), r, FrontTurn(cfg, r, ctx))
  {
    BlankPrefixGcodes(cfg, r.tasks[0].lines);
    var n := BlankPrefix(cfg, r.tasks[0].lines);
    hide Gcodes, Clean, BlankPrefix, PushProgress, NextOf, NextGcode, QueuedGcodes;
    if n == |r.tasks[0].lines| {
      hide NumberedLines;
      FrontGcodes(cfg, r.tasks);
      NoLines([SendFeedbackProtobuf]);
    } else {
      hide TakeFront;
      TakeFollows(cfg, r, ctx, n);
    }
  }

  lemma {:induction false} TaskTurnFollows(cfg: Config, r: Ready, ctx: Ctx)
    ensures TurnFollows(cfg, NextOfTask(cfg, r), r, TaskTurn(cfg, r, ctx))
  {
    hide FrontTurn, Gcodes, NumberedLines, NextOf;
    var r1 := r.(awaitingPollingFeedback := false);
    if r.mark == Some(WaitingToReachMark) || r.tasks == [] {
      NoLines(TaskTurn(cfg, r, ctx).fx);
    } else {
      FrontFollows(cfg, r1, ctx);
    }
  }

  lemma {:induction false} DespoolTurnFollows(cfg: Config, r: Ready, ctx: Ctx)
    ensures TurnFollows(cfg, NextOf(cfg, AgendaOf(cfg, r)), r, DespoolTurn(cfg, r, ctx))
  {
    hide TaskTurn, TurnFollows, DriverSpec.Poll, SendNumbered;
    if r.mark == Some(WaitingToSendFallbackGCode) {
      FallbackFollows(cfg, r, ctx);
      SettledFollows(cfg, NextOf(cfg, AgendaOf(cfg, r)), r, DespoolTurn(cfg, r, ctx));
    } else if r.pollFor.Some? {
      PollFollows(cfg, r, ctx, r.pollFor.value);
      SettledFollows(cfg, NextOf(cfg, AgendaOf(cfg, r)), r, DespoolTurn(cfg, r, ctx));
    } else {
      TaskTurnFollows(cfg, r, ctx);
      assert NextOfTask(cfg, r) == NextOf(cfg, AgendaOf(cfg, r));
    }
  }

  lemma {:induction false} SettledFollows(cfg: Config, next: Next, before: Ready, turn: Turn)
    requires turn.Settled? && Follows(cfg, next, before, Out(turn.r, turn.ctx, turn.fx, None))
    ensures TurnFollows(cfg, next, before, turn)
  {
  }

  lemma {:induction false} FinishFollows(cfg: Config, next: Next, before: Ready, turn: Turn)
    requires TurnFollows(cfg, next, before, turn)
    ensures Follows(cfg, next, before, Finish(cfg, turn))
    decreases if turn.Again? then Work(turn.r.tasks) + 1 else 0
  {
    hide DespoolTurn, NextOf, AgendaOf, NumberedLines;
    if turn.Again? {
      var again := DespoolTurn(cfg, turn.r, turn.ctx);
      DespoolTurnFollows(cfg, turn.r, turn.ctx);
      FinishFollows(cfg, next, turn.r, again);
      FlatMapSplitLines(turn.fx, Finish(cfg, again).fx);
    }
  }

  lemma {:induction false} FlatMapSplitLines(a: seq<Effect>, b: seq<Effect>)
    ensures NumberedLines(a + b) == NumberedLines(a) + NumberedLines(b)
  {
    FlatMapSplit(a, b, NumberedLine);
  }

  /** Despooling sends the line that the agenda says comes next, and leaves what the agenda says is left. */
  lemma {:induction false} DespoolFollowsAgenda(cfg: Config, r: Ready, ctx: Ctx)
    ensures Follows(cfg, NextOf(cfg, AgendaOf(cfg, r)), r, DespoolAll(cfg, r, ctx))
    ensures Follows(cfg, NextOfTask(cfg, r), r, DespoolTask(cfg, r, ctx))
  {
    hide TaskTurn, DespoolTurn, NextOf, NextOfTask, AgendaOf, TurnFollows, Follows;
    DespoolTurnFollows(cfg, r, ctx);
    TaskTurnFollows(cfg, r, ctx);
    FinishFollows(cfg, NextOf(cfg, AgendaOf(cfg, r)), r, DespoolTurn(cfg, r, ctx));
    FinishFollows(cfg, NextOfTask(cfg, r), r, TaskTurn(cfg, r, ctx));
  }

  /**
   In every run, an ok that is awaited, with no report in it, makes the driver send the line that the agenda
   says comes next, under the next number, or nothing if there is none; unless a host macro fails.
   */
  lemma {:induction false} OksFollowTheAgenda(cfg: Config, events: seq<Event>, ok: Event)
    requires After(cfg, events).state.InReady? && After(cfg, events).state.ready.onOk == Despool && IsOk(ok)
    ensures var r, m := After(cfg, events).state.ready, After(cfg, events + [ok]);
            var lines := NumberedLines(LastStep(cfg, events + [ok]).fx);
            match NextOf(cfg, AgendaOf(cfg, r))
            case Sends(gcode, rest) =>
              && m.state.InReady? && AgendaOf(cfg, m.state.ready) == rest && m.state.ready.onOk == Despool
              && lines == [GCodeLine(gcode, Some(r.nextLine), true)]
            case Rests(rest) =>
              m.state.InReady? && AgendaOf(cfg, m.state.ready) == rest && m.state.ready.onOk == NotAwaitingOk && lines == []
            case Fails(message) => m.state == Errored(message) && lines == []
  {
    hide After, Step, NextOf, AgendaOf, NumberedLines;
    var m := After(cfg, events);
    OneMore(cfg, events, ok);
    assert (events + [ok])[..|events + [ok]| - 1] == events;
    DespoolFollowsAgenda(cfg, m.state.ready, m.ctx);
    OkIsDespooling(cfg, m, ok);
    NoLines([CancelAllDelays, SendFeedbackProtobuf]);
  }

  lemma {:induction false} OkIsDespooling(cfg: Config, m: Machine, ok: Event)
    requires m.state.InReady? && m.state.ready.onOk == Despool && IsOk(ok)
    ensures Step(cfg, m, ok) == Close(DespoolAll(cfg, m.state.ready, m.ctx))
    ensures var out := DespoolAll(cfg, m.state.ready, m.ctx);
            out.err.Some? ==>
              Close(out).0.state == Errored(out.err.value) && Close(out).1 == [CancelAllDelays, SendFeedbackProtobuf]
  {
    hide DespoolAll, PushAll;
  }
}
