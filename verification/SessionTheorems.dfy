/**
 The theorems about every run of the driver that follow from the session invariant: line numbers,
 conservation of gcodes, queue discipline, the polling bound and the order of the main tasks.
 */
module SessionTheorems {
  import opened Wrappers
  import opened DriverTypes
  import opened DriverSpec
  import opened DriverRuns
  import opened SessionInvariant
  import opened LineText

  // ---------------------------------------------------------------- one event while Ready

  lemma {:induction false} OkResponseMove(cfg: Config, book: Book, trace: seq<Effect>, polls: nat, r: Ready, ctx: Ctx,
                       feedback: Option<Feedback>, out: Out)
    requires Good(cfg, book, trace, polls, r, ctx)
    requires ReceiveOkResponse(cfg, r, ctx, feedback) == Some(out) && out.err.None?
    ensures Good(cfg, book, trace + out.fx, polls, out.r, out.ctx)
  {
    hide Good, ReceiveFeedback, ReceiveOk;
    if feedback.None? {
      OkMove(cfg, book, trace, polls, r, ctx, out);
    } else {
      var first := ReceiveFeedback(cfg, r, ctx, feedback.value);
      FeedbackMove(cfg, book, trace, polls, r, ctx, feedback.value);
      var second := ReceiveOk(cfg, first.r, first.ctx).value;
      OkMove(cfg, book, trace + first.fx, polls, first.r, first.ctx, second);
      assert trace + first.fx + second.fx == trace + out.fx;
    }
  }

  lemma {:induction false} SerialMove(cfg: Config, book: Book, trace: seq<Effect>, polls: nat, r: Ready, ctx: Ctx,
      response: Response)
    requires Good(cfg, book, trace, polls, r, ctx) && ReadySerial(cfg, r, ctx, response).0.state.InReady?
    ensures var (m, fx) := ReadySerial(cfg, r, ctx, response); Good(cfg, book, trace + fx, polls, m.state.ready, m.ctx)
  {
    hide Good, ReceiveFeedback, ReceiveOkResponse;
    var (m, fx) := ReadySerial(cfg, r, ctx, response);
    match response
    case OkResponse(feedback) =>
      OkResponseMove(cfg, book, trace, polls, r, ctx, feedback, ReceiveOkResponse(cfg, r, ctx, feedback).value);
    case FeedbackResponse(feedback) =>
      var out := ReceiveFeedback(cfg, r, ctx, feedback);
      var tail := [CancelDelay(TICKLE_DELAY), SendFeedbackProtobuf];
      FeedbackMove(cfg, book, trace, polls, r, ctx, feedback);
      QuietMove(cfg, book, trace + out.fx, polls, out.r, out.ctx, tail, polls, out.r, out.ctx);
      assert trace + out.fx + tail == trace + fx;
    case Capability(name, enabled) =>
      assert fx == [] && trace + [] == trace;
      if name == AUTOREPORT && enabled {
        PushFrontMove(cfg, book, trace, polls, r, ctx, AUTOREPORT, "M155 S1", m.state.ready, m.ctx);
      } else {
        QuietMove(cfg, book, trace, polls, r, ctx, [], polls, m.state.ready, m.ctx);
      }
    case ResendRequest(_) => QuietMove(cfg, book, trace, polls, r, ctx, [], polls, r.(onOk := Resend), ctx);
    case Error(_) =>
    case Greeting =>
    case _ => QuietMove(cfg, book, trace, polls, r, ctx, [], polls, r, ctx);
  }

  /** What the observer writes down about an event handled while Ready. */
  function BookAfter(book: Book, r: Ready, ctx: Ctx, event: Event): Book {
    match event
    case GCodeLoaded(s) => Accept(book, ctx.nextKey, s)
    case ProtobufRec(Some(SpoolTask(id, client, startAt, Some(Inline(commands)), machineOverride))) =>
      Accept(book, ctx.nextKey, Submission(id, client, commands, StartNumber(startAt), machineOverride))
    case ProtobufRec(Some(PauseTask(id))) =>
      var i := FindTask(r.tasks, id);
      if i == |r.tasks| then book else book.(accepted := book.accepted - {r.tasks[i].key})
    case _ => book
  }

  lemma {:induction false} LoadMove(cfg: Config, book: Book, trace: seq<Effect>, polls: nat, r: Ready, ctx: Ctx,
      s: Submission)
    requires Good(cfg, book, trace, polls, r, ctx) && Load(cfg, r, ctx, s).0.state.InReady?
    ensures var (m, fx) := Load(cfg, r, ctx, s); Good(cfg, Accept(book, ctx.nextKey, s), trace + fx, polls, m.state.ready, m.ctx)
  {
    hide Good, DespoolTask;
    var r1 := r.(tasks := Enqueue(r.tasks, Admit(ctx.nextKey, s)));
    var ctx1 := ctx.(nextKey := ctx.nextKey + 1);
    var book1 := Accept(book, ctx.nextKey, s);
    AdmitMove(cfg, book, trace, polls, r, ctx, s, book1, r1, ctx1);
    if r.onOk == NotAwaitingOk {
      DespoolMove(cfg, book1, trace, polls, r1, ctx1, DespoolTask(cfg, r1, ctx1));
    } else {
      assert trace + [] == trace;
    }
  }

  lemma {:induction false} SpoolMove(cfg: Config, book: Book, trace: seq<Effect>, polls: nat, r: Ready, ctx: Ctx,
      p: Payload)
    requires p.SpoolTask? && Good(cfg, book, trace, polls, r, ctx) && Spool(cfg, r, ctx, p).0.state.InReady?
    ensures var (m, fx) := Spool(cfg, r, ctx, p);
            Good(cfg, BookAfter(book, r, ctx, ProtobufRec(Some(p))), trace + fx, polls, m.state.ready, m.ctx)
  {
    hide Good, Load;
    var r1 := r.(loadingGCode := true);
    var (m, fx) := Spool(cfg, r, ctx, p);
    if p.content.Some? && p.content.value.Inline? {
      QuietMove(cfg, book, trace, polls, r, ctx, [], polls, r1, ctx);
      assert trace + [] == trace;
      LoadMove(cfg, book, trace, polls, r1, ctx,
               Submission(p.taskId, p.clientId, p.content.value.commands, StartNumber(p.startAt), p.machineOverride));
    } else {
      QuietMove(cfg, book, trace, polls, r, ctx, fx, polls, r1, ctx);
    }
  }

  lemma {:induction false} PauseMove(cfg: Config, book: Book, trace: seq<Effect>, polls: nat, r: Ready, ctx: Ctx,
      id: string)
    requires Good(cfg, book, trace, polls, r, ctx)
    ensures var (m, fx) := Pause(r, ctx, id);
            m.state.InReady? && Good(cfg, BookAfter(book, r, ctx, ProtobufRec(Some(PauseTask(id)))), trace + fx, polls, m.state.ready, m.ctx)
  {
    hide Good, PushProgress;
    var (m, fx) := Pause(r, ctx, id);
    var i := FindTask(r.tasks, id);
    if i == |r.tasks| {
      QuietMove(cfg, book, trace, polls, r, ctx, fx, polls, r, ctx);
    } else {
      DropMove(cfg, book, trace, polls, r, ctx, fx, i, book.(accepted := book.accepted - {r.tasks[i].key}), m.state.ready, m.ctx);
    }
  }

  lemma {:induction false} PollEventMove(cfg: Config, book: Book, trace: seq<Effect>, polls: nat, r: Ready, ctx: Ctx)
    requires Good(cfg, book, trace, polls, r, ctx)
    ensures var (m, fx) := ReadyPoll(cfg, r, ctx); m.state.InReady? && Good(cfg, book, trace + fx, polls + 1, m.state.ready, m.ctx)
  {
    hide Good;
    var r1 := r.(pollFor := Some(PollTemperature));
    QuietMove(cfg, book, trace, polls, r, ctx, [], polls + 1, r1, ctx);
    assert trace + [] == trace;
    PollMove(cfg, book, trace, polls + 1, r1, ctx, PollTemperature, polls + 1);
  }

  /** An event handled while Ready keeps the invariant, unless it makes the driver leave Ready. */
  lemma {:induction false} ReadyMove(cfg: Config, book: Book, trace: seq<Effect>, polls: nat, r: Ready, ctx: Ctx,
      event: Event)
    requires Good(cfg, book, trace, polls, r, ctx) && ReadyConsume(cfg, r, ctx, event).0.state.InReady?
    ensures var (m, fx) := ReadyConsume(cfg, r, ctx, event);
            Good(cfg, BookAfter(book, r, ctx, event), trace + fx, polls + PollEvent(event), m.state.ready, m.ctx)
  {
    hide Good, Spool, Pause, ReadyPoll, Load, ReadySerial;
    var (m, fx) := ReadyConsume(cfg, r, ctx, event);
    match event
    case ProtobufRec(Some(SpoolTask(id, client, startAt, content, machineOverride))) =>
      SpoolMove(cfg, book, trace, polls, r, ctx, SpoolTask(id, client, startAt, content, machineOverride));
    case ProtobufRec(Some(PauseTask(id))) => PauseMove(cfg, book, trace, polls, r, ctx, id);
    case GCodeLoaded(submission) => LoadMove(cfg, book, trace, polls, r, ctx, submission);
    case SerialRec(_, response) => SerialMove(cfg, book, trace, polls, r, ctx, response);
    case PollFeedback => PollEventMove(cfg, book, trace, polls, r, ctx);
    case TickleSerialPort =>
      QuietMove(cfg, book, trace, polls, r, ctx, fx, polls, r.(ticklesAttempted := r.ticklesAttempted + 1), ctx);
    case ProtobufRec(_) => QuietMove(cfg, book, trace, polls, r, ctx, [], polls, r, ctx);
    case _ =>
  }

  // ---------------------------------------------------------------- entering Ready

  lemma {:induction false} FreshTask(cfg: Config, trace: seq<Effect>, t: Task)
    requires AllSilent(trace) && JustAdmitted(t)
    ensures Conserved(cfg, trace, t)
  {
    SilentReads(trace);
    NothingDespooledYet(cfg, trace, t);
  }

  /** A queue of one task nothing was despooled from. */
  lemma {:induction false} FreshQueue(cfg: Config, book: Book, trace: seq<Effect>, t: Task, ctx: Ctx)
    requires AllSilent(trace) && Conserved(cfg, trace, t) && t.key == book.lo && t.machineOverride
    requires book.accepted == map[] && book.lo < 0 && book.hi == ctx.nextKey && ctx.lowKey == book.lo - 1
    ensures GoodQueue(cfg, book, trace, [t], ctx)
  {
    SilentReads(trace);
  }

  /** A fresh Ready state, before it has handled the ok that brought it about. */
  lemma {:induction false} FreshSession(cfg: Config, ctx: Ctx)
    requires ctx.lowKey < 0
    ensures Good(cfg, Book(ctx.nextKey, ctx.lowKey, map[]), [CancelAllDelays], 0, DefaultReady(ctx.lowKey), ctx.(lowKey := ctx.lowKey - 1))
  {
    hide GoodQueue, Conserved;
    var t := DriverTask(ctx.lowKey, "FIRMWARE_INFO", "M115");
    SilentReads([CancelAllDelays]);
    FreshTask(cfg, [CancelAllDelays], t);
    FreshQueue(cfg, Book(ctx.nextKey, ctx.lowKey, map[]), [CancelAllDelays], t, ctx.(lowKey := ctx.lowKey - 1));
  }

  /** The step that enters Ready establishes the invariant for its own effects. */
  lemma {:induction false} EnterReady(cfg: Config, m: Machine, event: Event)
    requires !m.state.InReady? && m.ctx.lowKey < 0 && Step(cfg, m, event).0.state.InReady?
    ensures var (m', fx) := Step(cfg, m, event);
            Good(cfg, Book(m.ctx.nextKey, m.ctx.lowKey, map[]), fx, 0, m'.state.ready, m'.ctx)
  {
    hide Good, ReadyConsume;
    var (m', fx) := Step(cfg, m, event);
    FreshSession(cfg, m.ctx);
    ReadyMove(cfg, Book(m.ctx.nextKey, m.ctx.lowKey, map[]), [CancelAllDelays], 0,
              DefaultReady(m.ctx.lowKey), m.ctx.(lowKey := m.ctx.lowKey - 1), event);
  }

  // ---------------------------------------------------------------- every run

  /** The book of the current session. */
  function SessionBook(cfg: Config, events: seq<Event>): Book {
    if events == [] then Book(0, -1, map[])
    else
      var pre := After(cfg, events[..|events| - 1]);
      if pre.state.InReady? then BookAfter(SessionBook(cfg, events[..|events| - 1]), pre.state.ready, pre.ctx, events[|events| - 1])
      else Book(pre.ctx.nextKey, pre.ctx.lowKey, map[])
  }

  /** PollFeedback events among some steps, the first step (which entered Ready) apart. */
  function PollRequests(steps: seq<StepRecord>): nat {
    if |steps| <= 1 then 0
    else PollRequests(steps[..|steps| - 1]) + PollEvent(steps[|steps| - 1].event)
  }

  /** While Ready, an event that leaves the driver Ready either changes only reports or is handled by Ready. */
  lemma {:induction false} StayReady(cfg: Config, book: Book, trace: seq<Effect>, polls: nat, m: Machine, event: Event)
    requires m.state.InReady? && Good(cfg, book, trace, polls, m.state.ready, m.ctx)
    requires Step(cfg, m, event).0.state.InReady?
    ensures var (m', fx) := Step(cfg, m, event);
            Good(cfg, BookAfter(book, m.state.ready, m.ctx, event), trace + fx, polls + PollEvent(event), m'.state.ready, m'.ctx)
  {
    hide Good, ReadyConsume;
    var (m', fx) := Step(cfg, m, event);
    if Common(cfg, m, event).Some? {
      assert m'.state == m.state;
      QuietMove(cfg, book, trace, polls, m.state.ready, m.ctx, fx, polls, m'.state.ready, m'.ctx);
    } else {
      ReadyMove(cfg, book, trace, polls, m.state.ready, m.ctx, event);
    }
  }

  /** Identities are handed out once. */
  predicate CountersOnlyMove(before: Ctx, after: Ctx) {
    before.nextKey <= after.nextKey && after.lowKey <= before.lowKey
  }

  lemma {:induction false} SerialCounters(cfg: Config, r: Ready, ctx: Ctx, response: Response)
    ensures CountersOnlyMove(ctx, ReadySerial(cfg, r, ctx, response).0.ctx)
  {
    hide ReceiveOkResponse, ReceiveFeedback, PushAll;
  }

  lemma {:induction false} ReadyCounters(cfg: Config, r: Ready, ctx: Ctx, event: Event)
    ensures CountersOnlyMove(ctx, ReadyConsume(cfg, r, ctx, event).0.ctx)
  {
    hide DespoolTask, PushProgress, PushAll, Enqueue, FindTask, ReadySerial;
    if event.SerialRec? { SerialCounters(cfg, r, ctx, event.response); }
  }

  lemma {:induction false} StepCounters(cfg: Config, m: Machine, event: Event)
    ensures CountersOnlyMove(m.ctx, Step(cfg, m, event).0.ctx)
  {
    hide PushAll, ReadyConsume, WithoutIds;
    if m.state.InReady? { ReadyCounters(cfg, m.state.ready, m.ctx, event); }
    else if event.SerialRec? {
      ReadyCounters(cfg, DefaultReady(m.ctx.lowKey), m.ctx.(lowKey := m.ctx.lowKey - 1), event);
    }
  }

  /** A step that does not end in Ready writes no numbered line and no line of any task. */
  lemma {:induction false} SilentOutsideReady(cfg: Config, m: Machine, event: Event)
    requires !Step(cfg, m, event).0.state.InReady?
    ensures AllSilent(Step(cfg, m, event).1)
  {
    hide Common, ReadyConsume, IdleConsume, AllSilent;
    if m.state.Panicked? {
      assert AllSilent([]) by { SilentNothing(); }
    } else if Common(cfg, m, event).Some? {
      SilentCommon(cfg, m, event);
    } else if m.state.InReady? {
      SilentLeaving(cfg, m.state.ready, m.ctx, event);
    } else {
      SilentIdle(cfg, m, event);
    }
  }

  lemma {:induction false} SilentNothing()
    ensures AllSilent([])
  {
  }

  lemma {:induction false} SilentCommon(cfg: Config, m: Machine, event: Event)
    requires Common(cfg, m, event).Some?
    ensures AllSilent(Common(cfg, m, event).value.1)
  {
    hide PushAll, WithoutIds;
  }

  lemma {:induction false} SilentLeaving(cfg: Config, r: Ready, ctx: Ctx, event: Event)
    requires !ReadyConsume(cfg, r, ctx, event).0.state.InReady?
    ensures AllSilent(ReadyConsume(cfg, r, ctx, event).1)
  {
    hide PushAll, ReceiveOkResponse, ReceiveFeedback, DespoolTask, Enqueue, PushProgress, FindTask;
  }

  lemma {:induction false} SilentIdle(cfg: Config, m: Machine, event: Event)
    requires !m.state.InReady? && !IdleConsume(cfg, m, event).0.state.InReady?
    ensures AllSilent(IdleConsume(cfg, m, event).1)
  {
    hide PushAll, ReadyConsume;
    if m.state.Connecting? && event.SerialRec? && event.response.OkResponse? && !m.state.Errored? {
      var ctx := m.ctx.(lowKey := m.ctx.lowKey - 1);
      if !ReadyConsume(cfg, DefaultReady(m.ctx.lowKey), ctx, event).0.state.InReady? {
        SilentLeaving(cfg, DefaultReady(m.ctx.lowKey), ctx, event);
      }
    }
  }

  /** How a session and its readings grow with the run. */
  lemma {:induction false} SessionGrows(cfg: Config, events: seq<Event>)
    requires events != [] && After(cfg, events).state.InReady?
    ensures var before, last := events[..|events| - 1], LastStep(cfg, events);
            if last.pre.state.InReady? then
              && Session(cfg, before) != []
              && Session(cfg, events) == Session(cfg, before) + [last]
              && SessionTrace(cfg, events) == SessionTrace(cfg, before) + last.fx
              && PollRequests(Session(cfg, events)) == PollRequests(Session(cfg, before)) + PollEvent(last.event)
            else
              && Session(cfg, events) == [last] && SessionTrace(cfg, events) == last.fx
              && PollRequests(Session(cfg, events)) == 0
  {
    hide Step;
    var before, last := events[..|events| - 1], LastStep(cfg, events);
    var steps, earlier := Session(cfg, events), Session(cfg, before);
    if last.pre.state.InReady? {
      assert before != [];
      assert steps[..|steps| - 1] == earlier;
    } else {
      assert steps[..|steps| - 1] == [];
      assert TraceOf(steps) == TraceOf([]) + last.fx;
    }
  }

  lemma {:induction false} BookSteps(cfg: Config, events: seq<Event>)
    requires events != []
    ensures var before, last := events[..|events| - 1], LastStep(cfg, events);
            && last.pre == After(cfg, before) && last.event == events[|events| - 1]
            && Step(cfg, last.pre, last.event) == (After(cfg, events), last.fx)
            && SessionBook(cfg, events) ==
               if last.pre.state.InReady? then BookAfter(SessionBook(cfg, before), last.pre.state.ready, last.pre.ctx, last.event)
               else Book(last.pre.ctx.nextKey, last.pre.ctx.lowKey, map[])
  {
    hide Step, BookAfter;
  }

  /** In every run, a Ready driver and its session's effects satisfy the invariant. */
  lemma {:induction false} EverySession(cfg: Config, events: seq<Event>)
    ensures var m := After(cfg, events);
            && m.ctx.lowKey < 0
            && (m.state.InReady? ==>
                  Good(cfg, SessionBook(cfg, events), SessionTrace(cfg, events),
                       PollRequests(Session(cfg, events)), m.state.ready, m.ctx))
  {
    if events == [] {
      hide Good;
    } else {
      var before, event := events[..|events| - 1], events[|events| - 1];
      var pre := After(cfg, before);
      hide Good, Step, BookAfter, SessionBook, Session, SessionTrace, PollRequests, After, LastStep;
      EverySession(cfg, before);
      BookSteps(cfg, events);
      StepCounters(cfg, pre, event);
      if After(cfg, events).state.InReady? {
        SessionGrows(cfg, events);
        if pre.state.InReady? {
          StayReady(cfg, SessionBook(cfg, before), SessionTrace(cfg, before), PollRequests(Session(cfg, before)), pre, event);
        } else {
          EnterReady(cfg, pre, event);
        }
      }
    }
  }

  /**
   Sessions exist: finding a port and hearing an ok makes the driver Ready. It then has its firmware query
   queued, and has sent one line: the temperature poll, under number 1.
   */
  lemma {:induction false} ReadyIsReachable(cfg: Config)
    ensures var events := [Init(true), SerialRec("ok", OkResponse(None))];
            var m, trace := After(cfg, events), SessionTrace(cfg, events);
            && m.state.InReady? && m.ctx.status == StatusReady && m.ctx.nextKey == 0
            && m.state.ready.onOk == Despool && m.state.ready.mark == None && m.state.ready.pollFor == Some(PollPosition)
            && m.state.ready.nextLine == 2 && m.state.ready.tasks == [DriverTask(-1, "FIRMWARE_INFO", "M115")]
            && Numbers(trace) == [1] && PollLines(trace) == ["M105"]
            && !After(cfg, events[..1]).state.InReady?
  {
    var first, ok := Init(true), SerialRec("ok", OkResponse(None));
    var events := [first, ok];
    assert events[..1] == [first] && [first][..0] == [];
    var connecting := After(cfg, [first]);
    assert connecting == Step(cfg, Start(), first).0 by {
      hide Step;
      assert After(cfg, [first][..|[first]| - 1]) == Start();
    }
    assert connecting.state.Connecting? && connecting.ctx.lowKey == -1 && connecting.ctx.nextKey == 0;
    var last := LastStep(cfg, events);
    assert last.pre == connecting && last.event == ok by { hide Step; }
    assert SessionTrace(cfg, events) == last.fx by { hide Step; SessionGrows(cfg, events); FirstOkIsReady(cfg, connecting); }
    FirstOkIsReady(cfg, connecting);
    hide Step, Numbers, PollLines, MainKeys, HostMacros, MarkWaits, Despooled;
    FirstTrace(cfg, last.fx);
  }

  /** The first ok while connecting. */
  lemma {:induction false} FirstOkIsReady(cfg: Config, m: Machine)
    requires m.state.Connecting?
    ensures var (m', fx) := Step(cfg, m, SerialRec("ok", OkResponse(None)));
            && m'.state.InReady? && m'.ctx.status == StatusReady && m'.ctx.nextKey == m.ctx.nextKey
            && m'.state.ready.onOk == Despool && m'.state.ready.mark == None && m'.state.ready.pollFor == Some(PollPosition)
            && m'.state.ready.nextLine == 2
            && m'.state.ready.tasks == [DriverTask(m.ctx.lowKey, "FIRMWARE_INFO", "M115")]
            && fx == [CancelAllDelays] + ([SendFeedbackProtobuf] + SendLine(cfg, GCodeLine("M105", Some(1), true), Poll))
  {
    hide PushAll, SendLine;
    var r, ctx := DefaultReady(m.ctx.lowKey), m.ctx.(lowKey := m.ctx.lowKey - 1);
    assert DespoolTurn(cfg, r.(onOk := Despool), StateChanged(ctx, InReady(r))).Settled?;
  }

  lemma {:induction false} FirstTrace(cfg: Config, fx: seq<Effect>)
    requires fx == [CancelAllDelays] + ([SendFeedbackProtobuf] + SendLine(cfg, GCodeLine("M105", Some(1), true), Poll))
    ensures Numbers(fx) == [1] && PollLines(fx) == ["M105"]
  {
    OneLoud(fx, 2);
  }

  // ---------------------------------------------------------------- what it means

  /**
   Line numbers: the numbered lines of every session are exactly 1, 2, 3, ..., each with a checksum,
   and the next number is one more than the count sent.
   */
  lemma {:induction false} LineNumbersHaveNoGaps(cfg: Config, events: seq<Event>)
    requires After(cfg, events).state.InReady?
    ensures var trace := SessionTrace(cfg, events);
            && Numbers(trace) == UpTo(|Numbers(trace)|) && Checksummed(trace)
            && After(cfg, events).state.ready.nextLine == |Numbers(trace)| + 1
  {
    EverySession(cfg, events);
  }

  /**
   Line conservation: for every queued task of every reachable Ready state, the gcodes despooled so
   far followed by those it will still yield are the gcodes of the lines it was admitted with, which are
   what those lines stand for, in order; its line number counts exactly the despooled ones.
   */
  lemma {:induction false} NoLineLostOrRepeated(cfg: Config, events: seq<Event>, t: Task)
    requires After(cfg, events).state.InReady? && t in After(cfg, events).state.ready.tasks
    ensures var sent := Despooled(SessionTrace(cfg, events), t.key);
            && sent + Gcodes(cfg, t.lines) == Gcodes(cfg, AdmittedLines(t.submitted))
            && (exists at :: Picks(cfg, AdmittedLines(t.submitted), sent + Gcodes(cfg, t.lines), at))
            && t.despooled == NumberAfter(t.submitted.despooled, |sent|)
            && (t.started <==> sent != [])
  {
    EverySession(cfg, events);
    assert Conserved(cfg, SessionTrace(cfg, events), t);
    hide Picks, Gcodes;
    var at := GcodesArePicked(cfg, AdmittedLines(t.submitted));
  }

  /**
   No accepted task loses a gcode: a submission accepted in this session and not paused is queued, or
   every gcode of its lines has been despooled.
   */
  lemma {:induction false} AcceptedTasksRunToTheEnd(cfg: Config, events: seq<Event>, key: int)
    requires After(cfg, events).state.InReady? && key in SessionBook(cfg, events).accepted
    ensures var s := SessionBook(cfg, events).accepted[key];
            || (exists t :: t in After(cfg, events).state.ready.tasks && t.key == key && t.submitted == s)
            || (var sent := Despooled(SessionTrace(cfg, events), key);
                sent == Gcodes(cfg, AdmittedLines(s)) && exists at :: Picks(cfg, AdmittedLines(s), sent, at))
  {
    hide Step, Picks;
    var at := GcodesArePicked(cfg, AdmittedLines(SessionBook(cfg, events).accepted[key]));
    EverySession(cfg, events);
    var tasks := After(cfg, events).state.ready.tasks;
    if Queued(tasks, key) {
      var i :| 0 <= i < |tasks| && tasks[i].key == key;
      assert tasks[i] in tasks;
    }
  }

  /** Queue discipline, in every reachable Ready state. */
  lemma {:induction false} QueueStaysDisciplined(cfg: Config, events: seq<Event>)
    requires After(cfg, events).state.InReady?
    ensures Disciplined(After(cfg, events).state.ready.tasks)
  {
    EverySession(cfg, events);
  }

  /** Polling cannot starve printing. */
  lemma {:induction false} PollingIsBounded(cfg: Config, events: seq<Event>)
    requires After(cfg, events).state.InReady?
    ensures var trace := SessionTrace(cfg, events);
            |PollLines(trace)| <= 2 + 2 * PollRequests(Session(cfg, events)) + |MarkWaits(trace)|
  {
    EverySession(cfg, events);
  }
}
