/** Short runs of the driver, each the input on which a natural claim about it fails. */
module ExampleRuns {
  import opened Wrappers
  import opened DriverTypes
  import opened DriverSpec
  import opened DriverRuns
  import opened SessionInvariant
  import opened SessionTheorems
  import opened TaskReports
  import opened FlowControl
  import opened LinesDue
  import opened Spooling
  import opened PauseResume
  import opened Watching

  /** An empty line is blank, and "m" and "w" are the texts of the two host macros. */
  function ExampleConfig(cfg: Config): Config {
    cfg.(isBlank := (line: string) => line == [],
         parseHost := (text: string) =>
           if text == "m" then Some(MarkTargetPosition) else if text == "w" then Some(WaitToReachMark) else None)
  }

  const OK := SerialRec("ok", OkResponse(None))
  const JOB := "job"

  function Job(lines: seq<string>, start: Option<nat>): Submission {
    Submission(JOB, "client", lines, start, false)
  }

  function Ask(startAt: nat): Request {
    Request(JOB, "client", startAt, false)
  }

  // ---------------------------------------------------------------- where a run has got to

  /** What matters of a Ready driver that awaits an ok, and the oks received since the transition. */
  datatype Point = Point(mark: Option<Mark>, pollFor: Option<Polling>, nextLine: nat, tasks: seq<Task>,
                         nextKey: nat, oks: nat)

  predicate At(cfg: Config, events: seq<Event>, p: Point) {
    var m := After(cfg, events);
    && m.state.InReady? && m.state.ready.onOk == Despool
    && m.state.ready.mark == p.mark && m.state.ready.pollFor == p.pollFor
    && m.state.ready.nextLine == p.nextLine && m.state.ready.tasks == p.tasks
    && m.ctx.nextKey == p.nextKey && Oks(Session(cfg, events)) == p.oks
  }

  function Firmware(key: int): Task {
    DriverTask(key, "FIRMWARE_INFO", "M115")
  }

  /** One more event that the driver survives in Ready. */
  lemma {:induction false} Counts(cfg: Config, events: seq<Event>, event: Event)
    requires After(cfg, events).state.InReady? && Step(cfg, After(cfg, events), event).0.state.InReady?
    ensures After(cfg, events + [event]) == Step(cfg, After(cfg, events), event).0
    ensures Oks(Session(cfg, events + [event])) == Oks(Session(cfg, events)) + OkOf(event)
  {
    hide Step, After, Session, Oks, SessionTrace;
    OneMore(cfg, events, event);
    SessionGrows(cfg, events + [event]);
    assert (events + [event])[..|events + [event]| - 1] == events;
    CountsGrow(Session(cfg, events), LastStep(cfg, events + [event]));
  }

  lemma {:induction false} Begins(cfg: Config)
    ensures At(cfg, [Init(true), OK], Point(None, Some(PollPosition), 2, [Firmware(-1)], 0, 0))
  {
    hide After, Session, Oks;
    ReadyIsReachable(cfg);
    assert [Init(true), OK][..|[Init(true), OK]| - 1] == [Init(true), OK][..1];
    FirstStepCountsNothing(cfg, [Init(true), OK]);
  }

  lemma {:induction false} FirstStepCountsNothing(cfg: Config, events: seq<Event>)
    requires events != [] && !After(cfg, events[..|events| - 1]).state.InReady?
    ensures Oks(Session(cfg, events)) == 0
  {
    hide Step;
  }

  // ---------------------------------------------------------------- despooling, step by step

  lemma {:induction false} OkIsDespool(cfg: Config, events: seq<Event>)
    requires After(cfg, events).state.InReady? && After(cfg, events).state.ready.onOk == Despool
    requires DespoolAll(cfg, After(cfg, events).state.ready, After(cfg, events).ctx).err.None?
    ensures var m := After(cfg, events);
            var out := DespoolAll(cfg, m.state.ready, m.ctx);
            && After(cfg, events + [OK]).state == InReady(out.r) && After(cfg, events + [OK]).ctx == out.ctx
            && Oks(Session(cfg, events + [OK])) == Oks(Session(cfg, events)) + 1
  {
    var m := After(cfg, events);
    hide After, DespoolAll, Oks, Session;
    OkIsNotCommon(cfg, m, OK);
    assert ReadyConsume(cfg, m.state.ready, m.ctx, OK).0.state.InReady?;
    Counts(cfg, events, OK);
  }

  /** The front task's first gcode goes to the firmware. */
  lemma {:induction false} DespoolTakes(cfg: Config, r: Ready, ctx: Ctx, n: nat)
    requires Serves(r) && r.tasks != [] && n == BlankPrefix(cfg, r.tasks[0].lines) < |r.tasks[0].lines|
    requires !IsHostMacro(Clean(cfg, r.tasks[0].lines[n]).value)
    ensures var out := DespoolAll(cfg, r, ctx);
            && out.err.None? && out.ctx.nextKey == ctx.nextKey
            && out.r.onOk == Despool && out.r.mark == r.mark && out.r.pollFor == None && out.r.nextLine == r.nextLine + 1
            && out.r.tasks == [AfterTaking(r.tasks[0], n)] + r.tasks[1..]
  {
    hide BlankPrefix, PushProgress, Clean;
  }

  /** A front task with nothing left makes way for the next one. */
  lemma {:induction false} DespoolPasses(cfg: Config, r: Ready, ctx: Ctx)
    requires Serves(r) && r.tasks != [] && BlankPrefix(cfg, r.tasks[0].lines) == |r.tasks[0].lines|
    ensures var r1, ctx1 := r.(tasks := r.tasks[1..], awaitingPollingFeedback := false), PushProgress(ctx, r.tasks[0], Finished);
            && DespoolAll(cfg, r, ctx).r == DespoolAll(cfg, r1, ctx1).r && DespoolAll(cfg, r, ctx).ctx == DespoolAll(cfg, r1, ctx1).ctx
            && DespoolAll(cfg, r, ctx).err == DespoolAll(cfg, r1, ctx1).err && ctx1.nextKey == ctx.nextKey
  {
    hide BlankPrefix, PushProgress, DespoolTurn;
    assert DespoolTurn(cfg, r, ctx) == FinishFront(r.(awaitingPollingFeedback := false), ctx) by { PassTurn(cfg, r, ctx); }
    PushKeepsKeys(ctx, r.tasks[0], Finished);
  }

  lemma {:induction false} PassTurn(cfg: Config, r: Ready, ctx: Ctx)
    requires Serves(r) && r.tasks != [] && BlankPrefix(cfg, r.tasks[0].lines) == |r.tasks[0].lines|
    ensures DespoolTurn(cfg, r, ctx) == FinishFront(r.(awaitingPollingFeedback := false), ctx)
  {
    hide BlankPrefix, PushProgress, Work;
  }

  lemma {:induction false} PushKeepsKeys(ctx: Ctx, t: Task, status: TaskStatus)
    ensures PushProgress(ctx, t, status).nextKey == ctx.nextKey
  {
    hide FindProgress;
  }

  // ---------------------------------------------------------------- steps of the runs

  lemma {:induction false} Polls(cfg: Config, events: seq<Event>, p: Point)
    requires At(cfg, events, p) && p.pollFor == Some(PollPosition) && p.mark == None
    ensures At(cfg, events + [OK], p.(pollFor := None, nextLine := p.nextLine + 1, oks := p.oks + 1))
  {
    var m := After(cfg, events);
    hide After, Oks, Session, DespoolAll;
    DespoolPolls(cfg, m.state.ready, m.ctx);
    OkIsDespool(cfg, events);
  }

  lemma {:induction false} Takes(cfg: Config, events: seq<Event>, p: Point, n: nat)
    requires At(cfg, events, p) && p.pollFor == None && p.mark == None && p.tasks != []
    requires n == BlankPrefix(cfg, p.tasks[0].lines) < |p.tasks[0].lines|
    requires !IsHostMacro(Clean(cfg, p.tasks[0].lines[n]).value)
    ensures At(cfg, events + [OK], p.(nextLine := p.nextLine + 1, oks := p.oks + 1,
                                      tasks := [AfterTaking(p.tasks[0], n)] + p.tasks[1..]))
  {
    var m := After(cfg, events);
    hide After, Oks, Session, DespoolAll, BlankPrefix, Clean;
    DespoolTakes(cfg, m.state.ready, m.ctx, n);
    OkIsDespool(cfg, events);
  }

  /** The firmware query ends, and the job behind it is begun. */
  lemma {:induction false} PassesAndTakes(cfg: Config, events: seq<Event>, p: Point, n: nat)
    requires At(cfg, events, p) && p.pollFor == None && p.mark == None && |p.tasks| > 1 && p.tasks[0].lines == []
    requires n == BlankPrefix(cfg, p.tasks[1].lines) < |p.tasks[1].lines|
    requires !IsHostMacro(Clean(cfg, p.tasks[1].lines[n]).value)
    ensures At(cfg, events + [OK], p.(nextLine := p.nextLine + 1, oks := p.oks + 1,
                                      tasks := [AfterTaking(p.tasks[1], n)] + p.tasks[2..]))
  {
    var m := After(cfg, events);
    hide After, Oks, Session, DespoolAll, PushProgress, Clean;
    var r1 := m.state.ready.(tasks := m.state.ready.tasks[1..], awaitingPollingFeedback := false);
    var ctx1 := PushProgress(m.ctx, m.state.ready.tasks[0], Finished);
    DespoolPasses(cfg, m.state.ready, m.ctx);
    DespoolTakes(cfg, r1, ctx1, n);
    OkIsDespool(cfg, events);
  }

  lemma {:induction false} Loads(cfg: Config, events: seq<Event>, p: Point, event: Event, s: Submission)
    requires At(cfg, events, p) && Submits(event) == Some(s) && !s.machineOverride
    ensures At(cfg, events + [event], p.(tasks := p.tasks + [Admit(p.nextKey, s)], nextKey := p.nextKey + 1))
  {
    var m := After(cfg, events);
    hide After, Oks, Session, DespoolTask;
    Counts(cfg, events, event);
  }

  /** The driver asks for the file of a request. */
  lemma {:induction false} AsksForFile(cfg: Config, events: seq<Event>, p: Point, q: Request, path: string)
    requires At(cfg, events, p)
    ensures At(cfg, events + [WithFile(q, path)], p)
  {
    var m := After(cfg, events);
    hide After, Oks, Session, DespoolTask;
    Counts(cfg, events, WithFile(q, path));
  }

  lemma {:induction false} Pauses(cfg: Config, events: seq<Event>, p: Point)
    requires At(cfg, events, p) && |p.tasks| == 1 && p.tasks[0].id == JOB
    ensures At(cfg, events + [ProtobufRec(Some(PauseTask(JOB)))], p.(tasks := []))
  {
    var m := After(cfg, events);
    hide After, Oks, Session, PushProgress;
    PushKeepsKeys(m.ctx.(pausedFlag := true), p.tasks[0], Paused);
    assert FindTask(p.tasks, JOB) == 0 && p.tasks[..0] + p.tasks[1..] == [];
    PauseStep(cfg, m, JOB);
    Counts(cfg, events, ProtobufRec(Some(PauseTask(JOB))));
  }

  /** The connection, a submission, and the oks that take the driver to the end of its firmware query. */
  function Beginning(lines: seq<string>): seq<Event> {
    [Init(true), OK, WithLines(Ask(0), lines), OK, OK]
  }

  /** Where that leads. */
  function Opened(s: Submission): Point {
    Point(None, None, 4, [AfterTaking(Firmware(-1), 0), Admit(0, s)], 1, 2)
  }

  lemma {:induction false} Opens(cfg: Config, lines: seq<string>)
    ensures At(ExampleConfig(cfg), Beginning(lines), Opened(Job(lines, None)))
  {
    hide At;
    var ex, all, s, event := ExampleConfig(cfg), Beginning(lines), Job(lines, None), WithLines(Ask(0), lines);
    var p0 := Point(None, Some(PollPosition), 2, [Firmware(-1)], 0, 0);
    Begins(ex);
    assert all[..2] == [Init(true), OK];
    Loads(ex, all[..2], p0, event, s);
    var p1 := p0.(tasks := p0.tasks + [Admit(0, s)], nextKey := 1);
    assert all[..2] + [event] == all[..3];
    Polls(ex, all[..3], p1);
    var p2 := p1.(pollFor := None, nextLine := 3, oks := 1);
    assert all[..3] + [OK] == all[..4];
    PlainLines(ex);
    assert p2.tasks[0].lines == ["M115"] && BlankPrefix(ex, ["M115"]) == 0;
    Takes(ex, all[..4], p2, 0);
    var p3 := p2.(nextLine := 4, oks := 2, tasks := [AfterTaking(p2.tasks[0], 0)] + p2.tasks[1..]);
    assert all[..4] + [OK] == all;
    assert p3.tasks == Opened(s).tasks;
  }

  /** The lines of the examples, cleaned. */
  lemma {:induction false} PlainLines(ex: Config)
    requires ex.isBlank == ((line: string) => line == [])
    ensures Clean(ex, "M115") == Some("M115") && Clean(ex, "A") == Some("A") && Clean(ex, "B") == Some("B")
    ensures Clean(ex, ";") == None
  {
    assert "M115"[1..] == "115" && "115"[1..] == "15" && "15"[1..] == "5" && "5"[1..] == [];
    assert BeforeSemicolon("115") == "115" && BeforeSemicolon("M115") == "M115";
    assert "A"[1..] == [] && "B"[1..] == [];
    assert BeforeSemicolon("A") == "A" && BeforeSemicolon("B") == "B" && BeforeSemicolon(";") == [];
  }

  // ---------------------------------------------------------------- comments and resuming

  const COMMENTED := [";", "A", "B"]

  /** The file is printed to its end, but not finished ... */
  function FirstPrint(): seq<Event> {
    Beginning(COMMENTED) + [OK] + [OK]
  }

  function FirstStay(): Stay {
    Stay(Opening([Init(true), OK], Ask(0), None, []), [OK, OK, OK, OK])
  }

  const PAUSE := ProtobufRec(Some(PauseTask(JOB)))
  const PATH := "file"

  /** ... paused, asked for by its path with the recorded number plus one, and printed to its end again. */
  function SecondPrint(): seq<Event> {
    Resubmitted(Job(COMMENTED, StartNumber(StartAt(1)))) + [OK] + [OK]
  }

  function SecondStay(): Stay {
    Stay(Opening(FirstPrint() + [PAUSE], Ask(StartAt(1)), Some(PATH), []), [OK, OK])
  }

  function Printed(key: int, start: Option<nat>): Task {
    Task(key, JOB, "client", [], Some(1 + start.GetOr(0)), false, true, Job(COMMENTED, start))
  }

  lemma {:induction false} CommentedLines(ex: Config)
    requires ex.isBlank == ((line: string) => line == [])
    ensures COMMENTED[1..] == ["A", "B"] && COMMENTED[2..] == ["B"]
    ensures BlankPrefix(ex, COMMENTED) == 1 && BlankPrefix(ex, ["A", "B"]) == 0 && BlankPrefix(ex, ["B"]) == 0
    ensures Clean(ex, "A") == Some("A") && Clean(ex, "B") == Some("B")
  {
    PlainLines(ex);
    hide Clean;
    assert COMMENTED[1..] == ["A", "B"];
  }

  lemma {:induction false} FirstPrintEnds(cfg: Config)
    ensures At(ExampleConfig(cfg), FirstPrint(), Point(None, None, 6, [Printed(0, None)], 1, 4))
  {
    var ex, s := ExampleConfig(cfg), Job(COMMENTED, None);
    Opens(cfg, COMMENTED);
    CommentedLines(ex);
    hide At, Clean, BlankPrefix, Beginning, ExampleConfig;
    var p, job := Opened(s), Admit(0, s);
    assert job.lines == COMMENTED;
    PassesAndTakes(ex, Beginning(COMMENTED), p, 1);
    var p1 := Point(None, None, 5, [AfterTaking(job, 1)], 1, 3);
    assert p1.tasks == [AfterTaking(job, 1)] + p.tasks[2..];
    Takes(ex, Beginning(COMMENTED) + [OK], p1, 0);
    assert [Printed(0, None)] == [AfterTaking(p1.tasks[0], 0)] + p1.tasks[1..];
  }

  /** A single task with two gcodes left gives both. */
  lemma {:induction false} TakesBoth(ex: Config, events: seq<Event>, p: Point)
    requires ex.isBlank == ((line: string) => line == [])
    requires At(ex, events, p) && p.pollFor == None && p.mark == None
    requires |p.tasks| == 1 && p.tasks[0].lines == ["A", "B"]
    ensures At(ex, events + [OK] + [OK], p.(nextLine := p.nextLine + 2, oks := p.oks + 2,
                                             tasks := [AfterTaking(AfterTaking(p.tasks[0], 0), 0)]))
  {
    CommentedLines(ex);
    hide At, Clean, BlankPrefix;
    Takes(ex, events, p, 0);
    var p1 := p.(nextLine := p.nextLine + 1, oks := p.oks + 1, tasks := [AfterTaking(p.tasks[0], 0)]);
    assert p1.tasks == [AfterTaking(p.tasks[0], 0)] + p.tasks[1..];
    assert ["A", "B"][1..] == ["B"] && p1.tasks[0].lines == ["B"];
    Takes(ex, events + [OK], p1, 0);
    assert [AfterTaking(p1.tasks[0], 0)] == [AfterTaking(p1.tasks[0], 0)] + p1.tasks[1..];
  }

  /** The first print, paused and resubmitted. */
  function Resubmitted(s: Submission): seq<Event> {
    FirstPrint() + [PAUSE] + [WithFile(Ask(StartAt(1)), PATH)] + [GCodeLoaded(s)]
  }

  lemma {:induction false} Resubmits(cfg: Config, s: Submission)
    requires !s.machineOverride
    ensures At(ExampleConfig(cfg), Resubmitted(s), Point(None, None, 6, [Admit(1, s)], 2, 4))
    ensures At(ExampleConfig(cfg), FirstPrint() + [PAUSE], Point(None, None, 6, [], 1, 4))
    ensures At(ExampleConfig(cfg), FirstPrint() + [PAUSE] + [WithFile(Ask(StartAt(1)), PATH)], Point(None, None, 6, [], 1, 4))
  {
    hide At, FirstPrint, ExampleConfig, Admit;
    FirstPrintEnds(cfg);
    var p := Point(None, None, 6, [], 1, 4);
    Pauses(ExampleConfig(cfg), FirstPrint(), p.(tasks := [Printed(0, None)]));
    AsksForFile(ExampleConfig(cfg), FirstPrint() + [PAUSE], p, Ask(StartAt(1)), PATH);
    Loads(ExampleConfig(cfg), FirstPrint() + [PAUSE] + [WithFile(Ask(StartAt(1)), PATH)], p, GCodeLoaded(s), s);
    assert [] + [Admit(1, s)] == [Admit(1, s)];
  }

  lemma {:induction false} SecondJob()
    ensures var job := Admit(1, Job(COMMENTED, StartNumber(StartAt(1))));
            && job.lines == ["A", "B"]
            && AfterTaking(AfterTaking(job, 0), 0) == Printed(1, Some(1)).(despooled := Some(3))
  {
    assert StartNumber(StartAt(1)) == Some(1);
    assert COMMENTED[1..] == ["A", "B"] && ["A", "B"][1..] == ["B"] && ["B"][1..] == [];
    var job := Admit(1, Job(COMMENTED, Some(1)));
    assert job == Task(1, JOB, "client", ["A", "B"], Some(1), false, false, Job(COMMENTED, Some(1)));
    var begun := AfterTaking(job, 0);
    assert begun == job.(lines := ["B"], started := true, despooled := Some(2));
  }

  lemma {:induction false} SecondPrintEnds(cfg: Config)
    ensures At(ExampleConfig(cfg), SecondPrint(), Point(None, None, 8, [Printed(1, Some(1)).(despooled := Some(3))], 2, 6))
  {
    var s := Job(COMMENTED, StartNumber(StartAt(1)));
    SecondJob();
    hide At, FirstPrint, Admit, AfterTaking, Printed;
    Resubmits(cfg, s);
    TakesBoth(ExampleConfig(cfg), Resubmitted(s), Point(None, None, 6, [Admit(1, s)], 2, 4));
  }

  /** The first print as a stay. */
  lemma {:induction false} FirstStayEvents(cfg: Config)
    ensures Events(ExampleConfig(cfg), COMMENTED, FirstStay()) == FirstPrint()
    ensures Received(ExampleConfig(cfg), FirstStay().opening)
    ensures After(ExampleConfig(cfg), Before(FirstStay().opening)).ctx.nextKey == 0
  {
    Begins(ExampleConfig(cfg));
    hide ExampleConfig, After, Oks, Session;
  }

  /** The second: its file is what the driver asked for, with the recorded number. */
  lemma {:induction false} SecondStayEvents(cfg: Config)
    ensures Events(ExampleConfig(cfg), COMMENTED, SecondStay()) == SecondPrint()
    ensures Received(ExampleConfig(cfg), SecondStay().opening)
    ensures After(ExampleConfig(cfg), Before(SecondStay().opening)).ctx.nextKey == 1
  {
    var ex, o := ExampleConfig(cfg), SecondStay().opening;
    var s := Job(COMMENTED, StartNumber(StartAt(1)));
    Resubmits(cfg, s);
    hide ExampleConfig, After, Oks, Session, FirstPrint;
    var asked := FirstPrint() + [PAUSE] + [WithFile(Ask(StartAt(1)), PATH)];
    assert Before(o) == asked by { assert asked + [] == asked; }
    hide Submitting, Received, Before;
    BothReady(ex, o, asked);
    SubmitsAsked(ex, o, COMMENTED);
    IsAnswer(ex, o, COMMENTED, PATH);
    assert [OK, OK] == [OK] + [OK];
  }

  lemma {:induction false} BothReady(ex: Config, o: Opening, before: seq<Event>)
    requires After(ex, o.before).state.InReady? && Before(o) == before && After(ex, before).state.InReady?
    ensures Received(ex, o)
  {
  }

  /** What answers the request for a file is a loaded file, or nothing at all. */
  lemma {:induction false} IsAnswer(cfg: Config, o: Opening, lines: seq<string>, path: string)
    requires o.path == Some(path)
    ensures var event := Submitting(cfg, o, lines); event.GCodeLoaded? || event == ProtobufRec(None)
  {
    hide LastStep, AsksFor;
  }

  /** What a stay sends, and what pausing it records. */
  predicate Prints(ex: Config, stay: Stay, key: int, sent: seq<string>, number: nat) {
    && Holds(ex, JOB, COMMENTED, stay)
    && Despooled(SessionTrace(ex, Events(ex, COMMENTED, stay)), key) == sent == CycleAt(ex, JOB, COMMENTED, stay).sent
    && NumberRecorded(ex, JOB, COMMENTED, stay) == number
  }

  lemma {:induction false} FirstPrints(cfg: Config)
    ensures Prints(ExampleConfig(cfg), FirstStay(), 0, ["A", "B"], 1)
  {
    var ex := ExampleConfig(cfg);
    FirstPrintEnds(cfg);
    FirstStayEvents(cfg);
    assert Gcodes(ex, COMMENTED[0..3]) == ["A", "B"] by { PlainLines(ex); CommentedGcodes(ex); }
    hide After, Step, Session, Oks, Despooled, SessionTrace, Lookup, Events, Received, Before, FirstPrint, Clean, Gcodes;
    hide ExampleConfig, CycleAt, Holds, NumberRecorded;
    StayPrints(ex, FirstStay(), Printed(0, None));
  }

  lemma {:induction false} SecondTask()
    ensures var t := Printed(1, Some(1)).(despooled := Some(3));
            && t.submitted == Asked(SecondStay().opening.request, COMMENTED) && t.submitted.despooled == Some(1)
            && t.id == JOB && t.clientId != INTERNAL && t.lines == [] && t.key == 1
            && SecondStay().opening.request.clientId != INTERNAL
  {
    hide FirstPrint;
  }

  lemma {:induction false} SecondPrints(cfg: Config)
    ensures Prints(ExampleConfig(cfg), SecondStay(), 1, ["A", "B"], 3)
  {
    var ex := ExampleConfig(cfg);
    SecondPrintEnds(cfg);
    SecondStayEvents(cfg);
    assert Gcodes(ex, COMMENTED[1..3]) == ["A", "B"] by { PlainLines(ex); CommentedGcodes(ex); }
    hide After, Step, Session, Oks, Despooled, SessionTrace, Lookup, Events, Received, Before, SecondPrint, Clean, Gcodes;
    hide ExampleConfig, CycleAt, Holds, NumberRecorded, FirstPrint;
    SecondTask();
    var t := Printed(1, Some(1)).(despooled := Some(3));
    assert After(ex, Events(ex, COMMENTED, SecondStay())).state.ready.tasks == [t];
    hide Printed, SecondStay, Asked, At;
    StayPrints(ex, SecondStay(), t);
  }

  /**
   With a comment in the file two gcodes are sent twice by one pause: the driver counted two gcodes, so that
   the file is taken up again after one line, which was the comment.
   */
  lemma {:induction false} CommentsMakeLinesRepeat(cfg: Config)
    ensures var ex, stays := ExampleConfig(cfg), [FirstStay(), SecondStay()];
            && Resumed(ex, JOB, COMMENTED, stays)
            && Despooled(SessionTrace(ex, Events(ex, COMMENTED, FirstStay())), 0) == ["A", "B"]
            && Despooled(SessionTrace(ex, Events(ex, COMMENTED, SecondStay())), 1) == ["A", "B"]
            && TotalSent(CyclesOf(ex, JOB, COMMENTED, stays)) == |Gcodes(ex, COMMENTED)| + 2
  {
    var ex := ExampleConfig(cfg);
    FirstPrints(cfg);
    SecondPrints(cfg);
    assert |Gcodes(ex, COMMENTED)| == 2 by { PlainLines(ex); CommentedGcodes(ex); }
    hide ExampleConfig, Holds, NumberRecorded, CycleAt, Despooled, SessionTrace, Events, Clean, Gcodes;
    PrintsRepeat(ex, FirstStay(), SecondStay());
  }

  lemma {:induction false} PrintsRepeat(ex: Config, first: Stay, second: Stay)
    requires Prints(ex, first, 0, ["A", "B"], 1) && Prints(ex, second, 1, ["A", "B"], 3)
    requires first.opening.request.startAt == 0 && second.opening.request.startAt == StartAt(1)
    ensures Resumed(ex, JOB, COMMENTED, [first, second])
    ensures TotalSent(CyclesOf(ex, JOB, COMMENTED, [first, second])) == 4
  {
    hide Holds, NumberRecorded, CycleAt, Despooled, SessionTrace, Events;
    TwoCycles(CyclesOf(ex, JOB, COMMENTED, [first, second]));
  }

  lemma {:induction false} TwoCycles(cycles: seq<Cycle>)
    requires |cycles| == 2
    ensures TotalSent(cycles) == |cycles[0].sent| + |cycles[1].sent|
  {
    assert cycles[..1][..0] == [];
    assert TotalSent(cycles[..1]) == TotalSent([]) + |cycles[0].sent|;
  }

  lemma {:induction false} CommentedGcodes(ex: Config)
    requires Clean(ex, ";") == None && Clean(ex, "A") == Some("A") && Clean(ex, "B") == Some("B")
    ensures Gcodes(ex, COMMENTED) == ["A", "B"] == Gcodes(ex, COMMENTED[0..3]) == Gcodes(ex, COMMENTED[1..3])
  {
    hide Clean;
    assert COMMENTED[0..3] == COMMENTED && COMMENTED[1..] == COMMENTED[1..3] == ["A", "B"];
    assert ["A", "B"][1..] == ["B"] && ["B"][1..] == [];
    assert Gcodes(ex, ["B"]) == ["B"] + Gcodes(ex, []);
    assert Gcodes(ex, ["A", "B"]) == ["A"] + Gcodes(ex, ["B"]);
  }

  /** A run that ends with the one task printed. */
  lemma {:induction false} StayPrints(ex: Config, stay: Stay, t: Task)
    requires var m := After(ex, Events(ex, COMMENTED, stay)); m.state.InReady? && m.state.ready.tasks == [t]
    requires Received(ex, stay.opening) && After(ex, Before(stay.opening)).ctx.nextKey == t.key
    requires stay.opening.request.clientId != INTERNAL && t.submitted == Asked(stay.opening.request, COMMENTED)
    requires t.id == JOB && t.clientId != INTERNAL && t.lines == [] && t.submitted.despooled.GetOr(0) <= 3
    ensures Holds(ex, JOB, COMMENTED, stay) && TaskAt(ex, JOB, COMMENTED, stay) == t
    ensures Despooled(SessionTrace(ex, Events(ex, COMMENTED, stay)), t.key) ==
            Gcodes(ex, COMMENTED[t.submitted.despooled.GetOr(0)..3])
    ensures CycleAt(ex, JOB, COMMENTED, stay).sent == Despooled(SessionTrace(ex, Events(ex, COMMENTED, stay)), t.key)
    ensures NumberRecorded(ex, JOB, COMMENTED, stay) == t.despooled.GetOr(0)
  {
    hide After, Step, Gcodes, Despooled, SessionTrace, Lookup, Events, Received, Before;
    assert FindTask([t], JOB) == 0;
    var events := Events(ex, COMMENTED, stay);
    QueuedTaskIsInACycle(ex, events, t);
    StayIsACycle(ex, JOB, COMMENTED, stay);
    PauseStep(ex, After(ex, events), JOB);
    PauseRecords(After(ex, events).state.ready, After(ex, events).ctx, JOB);
  }

  // ---------------------------------------------------------------- marks and flow control

  /** A print that waits for a mark before its other lines. */
  function Marked(after: seq<string>): seq<string> {
    ["!m", "!w"] + after
  }

  const MARKED := Marked(["A", "B"])

  /** The ok of the poll that a wait made the driver send, and the report that the mark is reached. */
  const REACHED := SerialRec("ok", OkResponse(Some(Positions(true, true))))

  function MarkedPrint(): seq<Event> {
    Beginning(MARKED) + [OK] + [REACHED]
  }

  /** A front task's host macro is carried out, and despooling goes on. */
  lemma {:induction false} DespoolRuns(ex: Config, r: Ready, ctx: Ctx, macro: HostGCode)
    requires Serves(r) && r.tasks != [] && r.tasks[0].lines != [] && IsHostMacro(r.tasks[0].lines[0])
    requires ex.parseHost(r.tasks[0].lines[0][1..]) == Some(macro) && (macro == WaitToReachMark ==> r.mark == Some(MarkSet))
    ensures var t := AfterTaking(r.tasks[0], 0);
            var served := r.(tasks := [t] + r.tasks[1..], awaitingPollingFeedback := false);
            var r1 := if macro == MarkTargetPosition then served.(mark := Some(MarkSet))
                      else served.(mark := Some(WaitingToReachMark), pollFor := Some(PollPosition));
            var ctx1 := PushProgress(ctx, t, Started);
            var out, rest := DespoolAll(ex, r, ctx), DespoolAll(ex, r1, ctx1);
            out.r == rest.r && out.ctx == rest.ctx && out.err == rest.err && ctx1.nextKey == ctx.nextKey
  {
    PushKeepsKeys(ctx, AfterTaking(r.tasks[0], 0), Started);
    hide PushProgress, Work;
    assert Clean(ex, r.tasks[0].lines[0]) == Some(r.tasks[0].lines[0]) && BlankPrefix(ex, r.tasks[0].lines) == 0;
    hide BlankPrefix, Clean;
    var turn := DespoolTurn(ex, r, ctx);
    assert turn.Again?;
    hide DespoolTurn;
  }

  /** A mark is set and waited for: the poll goes out, and nothing else. */
  lemma {:induction false} DespoolMarks(ex: Config, r: Ready, ctx: Ctx, after: seq<string>)
    requires Serves(r) && |r.tasks| == 1 && r.tasks[0].lines == Marked(after)
    requires ex.parseHost("m") == Some(MarkTargetPosition) && ex.parseHost("w") == Some(WaitToReachMark)
    ensures var out := DespoolAll(ex, r, ctx);
            && out.err.None? && out.ctx.nextKey == ctx.nextKey
            && out.r.onOk == Despool && out.r.mark == Some(WaitingToReachMark) && out.r.pollFor == None
            && out.r.nextLine == r.nextLine + 1
            && out.r.tasks == [AfterTaking(AfterTaking(r.tasks[0], 0), 0)]
  {
    assert Marked(after)[1..] == ["!w"] + after && (["!w"] + after)[1..] == after && "!m"[1..] == "m" && "!w"[1..] == "w";
    hide PushProgress, DespoolAll;
    var t := AfterTaking(r.tasks[0], 0);
    var r1 := r.(tasks := [t] + r.tasks[1..], awaitingPollingFeedback := false, mark := Some(MarkSet));
    var ctx1 := PushProgress(ctx, t, Started);
    DespoolRuns(ex, r, ctx, MarkTargetPosition);
    assert r1.tasks == [t];
    var t2 := AfterTaking(t, 0);
    var r2 := r1.(tasks := [t2] + r1.tasks[1..], mark := Some(WaitingToReachMark), pollFor := Some(PollPosition));
    DespoolRuns(ex, r1, ctx1, WaitToReachMark);
    assert r2.tasks == [t2];
    DespoolPolls(ex, r2, PushProgress(ctx1, t2, Started));
  }

  lemma {:induction false} DespoolPolls(ex: Config, r: Ready, ctx: Ctx)
    requires r.pollFor == Some(PollPosition) && r.mark != Some(WaitingToSendFallbackGCode)
    ensures var out := DespoolAll(ex, r, ctx);
            && out.err.None? && out.ctx == ctx
            && out.r.onOk == Despool && out.r.mark == r.mark && out.r.pollFor == None
            && out.r.nextLine == r.nextLine + 1 && out.r.tasks == r.tasks
  {
    assert DespoolTurn(ex, r, ctx).Settled?;
  }

  /** What is left of the job when the mark is awaited. */
  function Waiting(after: seq<string>): Task {
    Task(0, JOB, "client", after, Some(1), false, true, Job(Marked(after), None))
  }

  lemma {:induction false} WaitingIsLeft(after: seq<string>)
    ensures var job := Admit(0, Job(Marked(after), None));
            job.lines == Marked(after) && AfterTaking(AfterTaking(job, 0), 0) == Waiting(after)
  {
    var lines := Marked(after);
    assert lines[0..] == lines && lines[1..] == ["!w"] + after && (["!w"] + after)[1..] == after;
  }

  /** The firmware query ends, and the job behind it sets its mark and waits. */
  lemma {:induction false} PassesAndMarks(ex: Config, r: Ready, ctx: Ctx, after: seq<string>)
    requires ex.parseHost("m") == Some(MarkTargetPosition) && ex.parseHost("w") == Some(WaitToReachMark)
    requires Serves(r) && |r.tasks| == 2 && r.tasks[0].lines == [] && r.tasks[1].lines == Marked(after)
    ensures var out := DespoolAll(ex, r, ctx);
            && out.err.None? && out.ctx.nextKey == ctx.nextKey
            && out.r.onOk == Despool && out.r.mark == Some(WaitingToReachMark) && out.r.pollFor == None
            && out.r.nextLine == r.nextLine + 1
            && out.r.tasks == [AfterTaking(AfterTaking(r.tasks[1], 0), 0)]
  {
    assert BlankPrefix(ex, []) == 0;
    hide BlankPrefix, DespoolAll, PushProgress, AfterTaking, Marked;
    DespoolPasses(ex, r, ctx);
    DespoolMarks(ex, r.(tasks := r.tasks[1..], awaitingPollingFeedback := false),
                 PushProgress(ctx, r.tasks[0], Finished), after);
  }

  lemma {:induction false} WaitsForMark(cfg: Config, after: seq<string>)
    ensures At(ExampleConfig(cfg), Beginning(Marked(after)) + [OK],
               Point(Some(WaitingToReachMark), None, 5, [Waiting(after)], 1, 3))
  {
    var ex, lines := ExampleConfig(cfg), Marked(after);
    Opens(cfg, lines);
    WaitingIsLeft(after);
    var m := After(ex, Beginning(lines));
    hide After, Oks, Session, DespoolAll, Beginning, Marked, Admit, Waiting;
    assert AfterTaking(Firmware(-1), 0).lines == [];
    hide AfterTaking;
    PassesAndMarks(ex, m.state.ready, m.ctx, after);
    OkIsDespool(ex, Beginning(lines));
  }

  /**
   Because a reached mark despools before the ok that came with it is handled, the driver is two lines ahead
   of the oks: six numbered lines have been sent, and four oks received since the transition.
   */
  lemma {:induction false} MarksRunAhead(cfg: Config)
    ensures var ex := ExampleConfig(cfg);
            && After(ex, MarkedPrint()).state.InReady?
            && |Numbers(SessionTrace(ex, MarkedPrint()))| == Oks(Session(ex, MarkedPrint())) + 2 == 6
  {
    var ex := ExampleConfig(cfg);
    var events := Beginning(MARKED) + [OK];
    WaitsForMark(cfg, ["A", "B"]);
    var m := After(ex, events);
    hide After, Oks, Session, Beginning, Numbers, SessionTrace;
    TwoLinesLeft(ex, m.state.ready, m.ctx);
    Counts(ex, events, REACHED);
    LineNumbersHaveNoGaps(ex, MarkedPrint());
  }

  lemma {:induction false} TwoLinesLeft(ex: Config, r: Ready, ctx: Ctx)
    requires ex.isBlank == ((line: string) => line == [])
    requires r.mark == Some(WaitingToReachMark) && r.pollFor == None && r.onOk == Despool
    requires |r.tasks| == 1 && r.tasks[0].lines == ["A", "B"]
    ensures var m := Machine(InReady(r), ctx);
            Step(ex, m, REACHED).0.state.InReady? && Step(ex, m, REACHED).0.state.ready.nextLine == r.nextLine + 2
  {
    CommentedLines(ex);
    hide Clean, BlankPrefix, PushProgress, DespoolAll;
    var r1 := r.(mark := None);
    DespoolTakes(ex, r1, ctx, 0);
    var first := DespoolAll(ex, r1, ctx);
    assert ["A", "B"][1..] == ["B"] && first.r.tasks[0].lines == ["B"];
    DespoolTakes(ex, first.r, first.ctx, 0);
  }

  // ---------------------------------------------------------------- a line that nobody follows up

  /** One line is left when the mark is reached. */
  function OvertakenPrint(): seq<Event> {
    Beginning(Marked(["A"])) + [OK] + [REACHED]
  }

  /** The ok and the report, when both are handled without an error. */
  lemma {:induction false} ReachedTwice(ex: Config, r: Ready, ctx: Ctx)
    requires r.mark == Some(WaitingToReachMark) && DespoolAll(ex, r.(mark := None), ctx).err.None?
    requires var first := DespoolAll(ex, r.(mark := None), ctx);
             first.r.onOk == Despool && DespoolAll(ex, first.r, first.ctx).err.None?
    ensures var first := DespoolAll(ex, r.(mark := None), ctx);
            var second := DespoolAll(ex, first.r, first.ctx);
            Step(ex, Machine(InReady(r), ctx), REACHED) == (Machine(InReady(second.r), second.ctx), first.fx + second.fx)
  {
    hide DespoolAll;
  }

  lemma {:induction false} OneLineLeft(ex: Config, r: Ready, ctx: Ctx)
    requires ex.isBlank == ((line: string) => line == [])
    requires r.mark == Some(WaitingToReachMark) && r.pollFor == None && r.onOk == Despool
    requires |r.tasks| == 1 && r.tasks[0].lines == ["A"]
    ensures var (m', fx) := Step(ex, Machine(InReady(r), ctx), REACHED);
            m'.state.InReady? && Overtaken(m', REACHED) && LastLine(fx).Some?
  {
    PlainLines(ex);
    var r1 := r.(mark := None);
    assert BlankPrefix(ex, ["A"]) == 0 && ["A"][1..] == [] && BlankPrefix(ex, []) == 0;
    hide Clean, BlankPrefix, PushProgress, DespoolAll, Step, LastLine, LastTouch;
    DespoolTakes(ex, r1, ctx, 0);
    var first := DespoolAll(ex, r1, ctx);
    assert first.r.tasks[0].lines == [];
    DespoolHasOutcome(ex, r1, ctx, first);
    OutcomeWatches(ex, first.r, first.fx);
    DespoolPasses(ex, first.r, first.ctx);
    var r2 := first.r.(tasks := first.r.tasks[1..], awaitingPollingFeedback := false);
    NothingToSend(ex, r2, PushProgress(first.ctx, first.r.tasks[0], Finished));
    ReachedTwice(ex, r, ctx);
    LastOfBoth(first.fx, DespoolAll(ex, first.r, first.ctx).fx);
  }

  lemma {:induction false} NothingToSend(ex: Config, r: Ready, ctx: Ctx)
    requires Serves(r) && r.tasks == []
    ensures var out := DespoolAll(ex, r, ctx); out.err.None? && out.r.onOk == NotAwaitingOk && out.r.mark == r.mark
  {
    assert DespoolTurn(ex, r, ctx).Settled?;
  }

  /**
   The mark lets the last line out, and the ok that the report came with, which was the poll's, finds nothing
   more to do and stops the timer: the line was written and is not awaited, and if its ok is lost nothing
   happens.
   */
  lemma {:induction false} LastLineIsNotFollowedUp(cfg: Config)
    requires forall gcode :: !cfg.isBlocking(gcode)
    ensures var ex, events := ExampleConfig(cfg), OvertakenPrint();
            var last := LastStep(ex, events);
            && LastLine(last.fx).Some? && !ex.isBlocking(LastLine(last.fx).value.gcode)
            && last.post.state.InReady? && last.post.state.ready.onOk == NotAwaitingOk
            && TickleTimer(ex, events) == None
  {
    var ex := ExampleConfig(cfg);
    var events := Beginning(Marked(["A"])) + [OK];
    WaitsForMark(cfg, ["A"]);
    var m := After(ex, events);
    assert ex.isBlank == ((line: string) => line == []);
    hide After, Oks, Session, Beginning, LastLine, ExampleConfig;
    OneLineLeft(ex, m.state.ready, m.ctx);
    OneMore(ex, events, REACHED);
    FxOfLast(ex, events, REACHED);
    EveryLineIsFollowedUp(ex, events + [REACHED]);
    assert !ex.isBlocking(LastLine(LastStep(ex, events + [REACHED]).fx).value.gcode) by { SameBlocking(cfg); }
  }

  lemma {:induction false} SameBlocking(cfg: Config)
    ensures ExampleConfig(cfg).isBlocking == cfg.isBlocking
  {
  }
}
