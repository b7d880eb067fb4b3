/**
 Pausing a print and resuming it. The driver reports how far a task got by counting gcodes; the server
 resubmits the whole file with that count plus one; the driver skips that many raw lines. This module
 follows one file through any number of such cycles, first as cycles and then as runs of the driver.
 */
module PauseResume {
  import opened Wrappers
  import opened DriverTypes
  import opened DriverSpec
  import opened DriverRuns
  import opened SessionInvariant
  import opened SessionTheorems
  import opened TaskReports
  import opened Spooling

  /** A file's stay in the driver: where it started, the gcodes it gave, where its cursor stopped. */
  datatype Cycle = Cycle(start: Option<nat>, sent: seq<string>, cursor: nat)

  /** What was sent is what the raw lines from the start up to the cursor stand for. */
  predicate IsCycle(cfg: Config, file: seq<string>, c: Cycle) {
    c.start.GetOr(0) <= c.cursor <= |file| && c.sent == Gcodes(cfg, file[c.start.GetOr(0)..c.cursor])
  }

  /** The despooled line number reported for the task. */
  function ReportedNumber(c: Cycle): nat {
    NumberAfter(c.start, |c.sent|).GetOr(0)
  }

  /** What the server asks for when it resumes a task that was last reported at `reported`. */
  function StartAt(reported: nat): nat {
    reported + 1
  }

  // ---------------------------------------------------------------- lines and gcodes

  lemma {:induction false} GcodesSplit(cfg: Config, a: seq<string>, b: seq<string>)
    ensures Gcodes(cfg, a + b) == Gcodes(cfg, a) + Gcodes(cfg, b)
  {
    if a == [] {
      assert a + b == b;
    } else {
      assert (a + b)[1..] == a[1..] + b;
      GcodesSplit(cfg, a[1..], b);
    }
  }

  /** There are as many gcodes as lines exactly when every line is one. */
  lemma {:induction false} GcodesBound(cfg: Config, lines: seq<string>)
    ensures |Gcodes(cfg, lines)| <= |lines|
    ensures |Gcodes(cfg, lines)| == |lines| <==> forall l :: l in lines ==> Clean(cfg, l).Some?
  {
    if lines != [] {
      GcodesBound(cfg, lines[1..]);
      assert forall l :: l in lines <==> l == lines[0] || l in lines[1..];
    }
  }

  /** A stretch of the file from `from` to `to`, cut at `mid`. */
  lemma {:induction false} Cut(cfg: Config, file: seq<string>, from: nat, mid: nat, to: nat)
    requires from <= mid <= to <= |file|
    ensures Gcodes(cfg, file[from..to]) == Gcodes(cfg, file[from..mid]) + Gcodes(cfg, file[mid..to])
  {
    hide Gcodes;
    assert file[from..mid] + file[mid..to] == file[from..to];
    GcodesSplit(cfg, file[from..mid], file[mid..to]);
  }

  /** Of two sequences followed by the same one, equal wholes have equal fronts. */
  lemma {:induction false} SameFront(a: seq<string>, b: seq<string>, tail: seq<string>)
    requires a + tail == b + tail
    ensures a == b
  {
    assert |a| == |b|;
    assert a == (a + tail)[..|a|] && b == (b + tail)[..|b|];
  }

  // ---------------------------------------------------------------- the driver's part

  lemma {:induction false} CursorCycle(cfg: Config, file: seq<string>, start: Option<nat>, rest: seq<string>,
      sent: seq<string>)
    requires start.GetOr(0) <= |file| && |rest| <= |file| - start.GetOr(0)
    requires rest == file[|file| - |rest|..] && sent + Gcodes(cfg, rest) == Gcodes(cfg, file[start.GetOr(0)..])
    ensures IsCycle(cfg, file, Cycle(start, sent, |file| - |rest|))
  {
    hide Gcodes;
    var from, cursor := start.GetOr(0), |file| - |rest|;
    Cut(cfg, file, from, cursor, |file|);
    assert file[from..|file|] == file[from..] && file[cursor..|file|] == rest;
    SameFront(sent, Gcodes(cfg, file[from..cursor]), Gcodes(cfg, rest));
  }

  /** The cycle a queued task is in, read off its cursor and the trace. */
  function CycleOf(trace: seq<Effect>, t: Task): Cycle {
    Cycle(t.submitted.despooled, Despooled(trace, t.key),
          if |t.lines| <= |t.submitted.lines| then |t.submitted.lines| - |t.lines| else 0)
  }

  lemma {:induction false} ConservedIsACycle(cfg: Config, trace: seq<Effect>, t: Task)
    requires Conserved(cfg, trace, t) && t.submitted.despooled.GetOr(0) <= |t.submitted.lines|
    ensures IsCycle(cfg, t.submitted.lines, CycleOf(trace, t)) && t.despooled.GetOr(0) == ReportedNumber(CycleOf(trace, t))
  {
    hide IsCycle, Gcodes, Despooled;
    var file, from := t.submitted.lines, t.submitted.despooled.GetOr(0);
    assert AdmittedLines(t.submitted) == file[from..];
    assert t.lines == file[|file| - |t.lines|..];
    CursorCycle(cfg, file, t.submitted.despooled, t.lines, Despooled(trace, t.key));
  }

  /**
   A queued task of any reachable Ready state is in the middle of a cycle of its file: what was despooled of
   it are the gcodes of the raw lines between its start and its cursor, and its number counts them.
   */
  lemma {:induction false} QueuedTaskIsInACycle(cfg: Config, events: seq<Event>, t: Task)
    requires After(cfg, events).state.InReady? && t in After(cfg, events).state.ready.tasks
    requires t.submitted.despooled.GetOr(0) <= |t.submitted.lines|
    ensures var c, file := CycleOf(SessionTrace(cfg, events), t), t.submitted.lines;
            && c.start == t.submitted.despooled && c.start.GetOr(0) <= c.cursor <= |file|
            && t.lines == file[c.cursor..]
            && Despooled(SessionTrace(cfg, events), t.key) == c.sent == Gcodes(cfg, file[c.start.GetOr(0)..c.cursor])
            && t.despooled.GetOr(0) == ReportedNumber(c)
  {
    hide Step, ReportedNumber, Conserved, Gcodes, Despooled;
    EverySession(cfg, events);
    ConservedIsACycle(cfg, SessionTrace(cfg, events), t);
    CursorIsSuffix(cfg, SessionTrace(cfg, events), t);
  }

  lemma {:induction false} CursorIsSuffix(cfg: Config, trace: seq<Effect>, t: Task)
    requires Conserved(cfg, trace, t) && t.submitted.despooled.GetOr(0) <= |t.submitted.lines|
    ensures |t.lines| <= |t.submitted.lines| && t.lines == t.submitted.lines[|t.submitted.lines| - |t.lines|..]
  {
    hide Gcodes, Despooled;
    assert AdmittedLines(t.submitted) == t.submitted.lines[t.submitted.despooled.GetOr(0)..];
  }

  /** A start number at or beyond the end of the file leaves nothing to send, and is reported as it is. */
  lemma {:induction false} StartsBeyondTheEnd(cfg: Config, events: seq<Event>, t: Task)
    requires After(cfg, events).state.InReady? && t in After(cfg, events).state.ready.tasks
    requires t.submitted.despooled.GetOr(0) >= |t.submitted.lines|
    ensures t.lines == [] && Despooled(SessionTrace(cfg, events), t.key) == [] && t.despooled == t.submitted.despooled
  {
    hide Step, After, SessionTrace, Despooled, Gcodes;
    EverySession(cfg, events);
    assert Conserved(cfg, SessionTrace(cfg, events), t);
    assert AdmittedLines(t.submitted) == [];
  }

  lemma {:induction false} PauseStep(cfg: Config, m: Machine, id: string)
    requires m.state.InReady?
    ensures Step(cfg, m, ProtobufRec(Some(PauseTask(id)))) == Pause(m.state.ready, m.ctx, id)
  {
    hide Pause;
  }

  lemma {:induction false} PauseRecords(r: Ready, ctx: Ctx, id: string)
    requires var i := FindTask(r.tasks, id); i < |r.tasks| && r.tasks[i].clientId != INTERNAL
    ensures var t, m := r.tasks[FindTask(r.tasks, id)], Pause(r, ctx, id).0;
            && Lookup(m.ctx.progress, id) == Some(Progress(id, t.despooled.GetOr(0), Paused, t.key))
            && m.state == InReady(r.(tasks := Dropped(r.tasks, FindTask(r.tasks, id))))
  {
    hide Lookup, PushProgress;
    PushLookup(ctx.(pausedFlag := true), r.tasks[FindTask(r.tasks, id)], Paused, id);
  }

  /** Pausing takes the task off the queue and reports exactly how far its cycle got. */
  lemma {:induction false} PauseReportsTheCycle(cfg: Config, events: seq<Event>, id: string, i: nat)
    requires After(cfg, events).state.InReady?
    requires i == FindTask(After(cfg, events).state.ready.tasks, id) < |After(cfg, events).state.ready.tasks|
    requires var t := After(cfg, events).state.ready.tasks[i];
             t.clientId != INTERNAL && t.submitted.despooled.GetOr(0) <= |t.submitted.lines|
    ensures var r, m := After(cfg, events).state.ready, Step(cfg, After(cfg, events), ProtobufRec(Some(PauseTask(id)))).0;
            var c := CycleOf(SessionTrace(cfg, events), r.tasks[i]);
            && IsCycle(cfg, r.tasks[i].submitted.lines, c)
            && Lookup(m.ctx.progress, id) == Some(Progress(id, ReportedNumber(c), Paused, r.tasks[i].key))
            && m.state == InReady(r.(tasks := Dropped(r.tasks, i)))
  {
    hide Step, Lookup, Pause, ReportedNumber, Dropped, Gcodes, Despooled;
    var m := After(cfg, events);
    QueuedTaskIsInACycle(cfg, events, m.state.ready.tasks[i]);
    PauseStep(cfg, m, id);
    PauseRecords(m.state.ready, m.ctx, id);
  }

  // ---------------------------------------------------------------- any number of cycles

  /** Each cycle starts where the previous one's report tells the server to. */
  predicate Chained(cycles: seq<Cycle>) {
    && (cycles != [] ==> cycles[0].start == None)
    && forall i :: 0 < i < |cycles| ==> cycles[i].start == StartNumber(StartAt(ReportedNumber(cycles[i - 1])))
  }

  predicate AllCycles(cfg: Config, file: seq<string>, cycles: seq<Cycle>) {
    |file| < 0x1_0000_0000 && Chained(cycles) && forall i :: 0 <= i < |cycles| ==> IsCycle(cfg, file, cycles[i])
  }

  /** The number reported never exceeds the raw lines consumed, and never falls behind the start. */
  lemma {:induction false} ReportStaysBehindCursor(cfg: Config, file: seq<string>, c: Cycle)
    requires IsCycle(cfg, file, c)
    ensures c.start.GetOr(0) <= ReportedNumber(c) <= c.cursor <= |file|
  {
    hide Gcodes;
    GcodesBound(cfg, file[c.start.GetOr(0)..c.cursor]);
  }

  /**
   Short of 2^32 lines, the driver starts from the number it reported; beyond, it starts too early. Asking
   for number 0 is asking for the beginning.
   */
  lemma {:induction false} StartRoundTrips(reported: nat)
    ensures StartNumber(StartAt(reported)).Some? && StartNumber(0) == None
    ensures StartNumber(StartAt(reported)).value == reported <==> reported < 0x1_0000_0000
    ensures StartNumber(StartAt(reported)).value <= reported
  {
  }

  /** A resumed cycle starts at or before the previous cursor, and not before the previous start. */
  lemma {:induction false} ResumesAtOrBefore(cfg: Config, file: seq<string>, cycles: seq<Cycle>, i: nat)
    requires AllCycles(cfg, file, cycles) && 0 < i < |cycles|
    ensures cycles[i].start == Some(ReportedNumber(cycles[i - 1]))
    ensures cycles[i - 1].start.GetOr(0) <= cycles[i].start.value <= cycles[i - 1].cursor
  {
    hide IsCycle, ReportedNumber, StartNumber, StartAt;
    ReportStaysBehindCursor(cfg, file, cycles[i - 1]);
    StartRoundTrips(ReportedNumber(cycles[i - 1]));
  }

  /** The cycles without the last one. */
  lemma {:induction false} AllButLast(cfg: Config, file: seq<string>, cycles: seq<Cycle>)
    requires AllCycles(cfg, file, cycles) && cycles != []
    ensures var n := |cycles| - 1;
            && AllCycles(cfg, file, cycles[..n]) && IsCycle(cfg, file, cycles[n])
            && (n == 0 ==> cycles[n].start == None)
            && (n > 0 ==> cycles[..n][n - 1] == cycles[n - 1] && IsCycle(cfg, file, cycles[n - 1])
                          && cycles[..n][0] == cycles[0])
  {
    hide IsCycle;
  }

  // ---------------------------------------------------------------- nothing is skipped

  /** The raw line lies in the cycle, and its gcode, if it is one, is where it belongs in what was sent. */
  predicate Sends(cfg: Config, file: seq<string>, c: Cycle, line: nat) {
    var from := c.start.GetOr(0);
    && from <= line < c.cursor <= |file|
    && c.sent == Gcodes(cfg, file[from..line]) + Gcodes(cfg, [file[line]]) + Gcodes(cfg, file[line + 1..c.cursor])
  }

  lemma {:induction false} CycleSends(cfg: Config, file: seq<string>, c: Cycle, line: nat)
    requires IsCycle(cfg, file, c) && c.start.GetOr(0) <= line < c.cursor
    ensures Sends(cfg, file, c, line)
  {
    hide Gcodes;
    var from := c.start.GetOr(0);
    Cut(cfg, file, from, line, c.cursor);
    Cut(cfg, file, line, line + 1, c.cursor);
    assert file[line..line + 1] == [file[line]];
  }

  /**
   Nothing is skipped: over any number of pauses and resumes, every raw line before the last cursor was
   passed in one of the cycles, and its gcode was sent in that cycle.
   */
  lemma {:induction false} NothingIsSkipped(cfg: Config, file: seq<string>, cycles: seq<Cycle>, line: nat)
    requires AllCycles(cfg, file, cycles) && cycles != [] && line < cycles[|cycles| - 1].cursor
    ensures exists i :: 0 <= i < |cycles| && Sends(cfg, file, cycles[i], line)
  {
    var n := |cycles| - 1;
    AllButLast(cfg, file, cycles);
    hide IsCycle, AllCycles, Sends;
    if cycles[n].start.GetOr(0) <= line {
      CycleSends(cfg, file, cycles[n], line);
    } else {
      ResumesAtOrBefore(cfg, file, cycles, n);
      NothingIsSkipped(cfg, file, cycles[..n], line);
      var i :| 0 <= i < n && Sends(cfg, file, cycles[..n][i], line);
      assert Sends(cfg, file, cycles[i], line);
    }
  }

  // ---------------------------------------------------------------- what is sent again

  /** The gcodes between where cycle `i` resumed and where the one before it had got to. */
  function Overlap(cfg: Config, file: seq<string>, cycles: seq<Cycle>, i: nat): seq<string>
    requires AllCycles(cfg, file, cycles) && 0 < i < |cycles|
  {
    ResumesAtOrBefore(cfg, file, cycles, i);
    assert IsCycle(cfg, file, cycles[i - 1]);
    Gcodes(cfg, file[cycles[i].start.value..cycles[i - 1].cursor])
  }

  /**
   What a resumed cycle sends again, on any file: the cycle before it ended with the overlap, and this one
   begins with it, as far as it gets. Leaving the overlap out once, the two make up the gcodes of the file
   between the first start and the last cursor.
   */
  lemma {:induction false} RepeatsAreTheOverlaps(cfg: Config, file: seq<string>, cycles: seq<Cycle>, i: nat)
    requires AllCycles(cfg, file, cycles) && 0 < i < |cycles|
    ensures var a, b, again := cycles[i - 1], cycles[i], Overlap(cfg, file, cycles, i);
            && a.start.GetOr(0) <= b.start.GetOr(0) <= b.cursor <= |file|
            && (again <= b.sent || b.sent <= again)
            && exists kept ::
                 && a.sent == kept + again
                 && Gcodes(cfg, file[a.start.GetOr(0)..b.cursor]) == kept + b.sent
  {
    var a, b, again := cycles[i - 1], cycles[i], Overlap(cfg, file, cycles, i);
    ResumesAtOrBefore(cfg, file, cycles, i);
    assert IsCycle(cfg, file, a) && IsCycle(cfg, file, b);
    hide AllCycles, Gcodes;
    var from, resume := a.start.GetOr(0), b.start.value;
    Cut(cfg, file, from, resume, a.cursor);
    Cut(cfg, file, from, resume, b.cursor);
    if a.cursor <= b.cursor { Cut(cfg, file, resume, a.cursor, b.cursor); }
    else { Cut(cfg, file, resume, b.cursor, a.cursor); }
    var kept := Gcodes(cfg, file[from..resume]);
    assert a.sent == kept + again && Gcodes(cfg, file[from..b.cursor]) == kept + b.sent;
  }

  /** Gcodes sent over all cycles, repeats included. */
  function TotalSent(cycles: seq<Cycle>): nat {
    if cycles == [] then 0 else TotalSent(cycles[..|cycles| - 1]) + |cycles[|cycles| - 1].sent|
  }

  /** Gcodes in all overlaps. */
  function Overlaps(cfg: Config, file: seq<string>, cycles: seq<Cycle>): nat
    requires AllCycles(cfg, file, cycles)
  {
    if |cycles| <= 1 then 0
    else Overlaps(cfg, file, cycles[..|cycles| - 1]) + |Overlap(cfg, file, cycles, |cycles| - 1)|
  }

  /** Counted, on any file: all that is sent is the file up to the last cursor and the overlaps. */
  lemma {:induction false} TotalIsFileAndOverlaps(cfg: Config, file: seq<string>, cycles: seq<Cycle>)
    requires AllCycles(cfg, file, cycles) && cycles != []
    ensures cycles[|cycles| - 1].cursor <= |file|
    ensures TotalSent(cycles) == |Gcodes(cfg, file[..cycles[|cycles| - 1].cursor])| + Overlaps(cfg, file, cycles)
  {
    var n := |cycles| - 1;
    var c := cycles[n];
    AllButLast(cfg, file, cycles);
    hide AllCycles, Gcodes;
    assert file[..c.cursor] == file[0..c.cursor];
    if n > 0 {
      ResumesAtOrBefore(cfg, file, cycles, n);
      TotalIsFileAndOverlaps(cfg, file, cycles[..n]);
      Cut(cfg, file, 0, c.start.value, c.cursor);
      Cut(cfg, file, 0, c.start.value, cycles[n - 1].cursor);
      assert file[..cycles[n - 1].cursor] == file[0..cycles[n - 1].cursor];
    } else {
      assert TotalSent(cycles[..0]) == 0;
    }
  }

  /** The lines of the file before `n` that are no gcodes. */
  function Blanks(cfg: Config, file: seq<string>, n: nat): nat
    requires n <= |file|
  {
    GcodesBound(cfg, file[..n]);
    n - |Gcodes(cfg, file[..n])|
  }

  /** A first cycle that sent something is resumed at the last gcode it sent. */
  function Once(cycles: seq<Cycle>): nat
    requires cycles != []
  {
    if |cycles[0].sent| > 0 then 1 else 0
  }

  /** Where a later cycle starts counts all that was sent before it, but for the line resumed at first. */
  lemma {:induction false} StartCountsTheSent(cfg: Config, file: seq<string>, cycles: seq<Cycle>)
    requires AllCycles(cfg, file, cycles) && |cycles| > 1
    ensures var n := |cycles| - 1;
            && cycles[n].start.Some? && cycles[n].start.value <= |file|
            && TotalSent(cycles[..n]) == cycles[n].start.value + Once(cycles)
  {
    var n := |cycles| - 1;
    AllButLast(cfg, file, cycles);
    AllButLast(cfg, file, cycles[..n]);
    ResumesAtOrBefore(cfg, file, cycles, n);
    ReportStaysBehindCursor(cfg, file, cycles[n - 1]);
    hide AllCycles, IsCycle;
    assert TotalSent(cycles[..n]) == TotalSent(cycles[..n][..n - 1]) + |cycles[n - 1].sent|;
    if n > 1 {
      StartCountsTheSent(cfg, file, cycles[..n]);
    } else {
      assert cycles[..n][..0] == [];
    }
  }

  /**
   How much is sent again, exactly: one gcode if the first cycle sent any, and one for every line before the
   last resume point that is no gcode. Whoever resumes knows all of that before resubmitting the file.
   */
  lemma {:induction false} OverlapsAreBlanks(cfg: Config, file: seq<string>, cycles: seq<Cycle>)
    requires AllCycles(cfg, file, cycles) && |cycles| > 1
    ensures var s := cycles[|cycles| - 1].start;
            && s.Some? && s.value <= |file|
            && Overlaps(cfg, file, cycles) == Once(cycles) + Blanks(cfg, file, s.value)
  {
    var n := |cycles| - 1;
    var c := cycles[n];
    StartCountsTheSent(cfg, file, cycles);
    TotalIsFileAndOverlaps(cfg, file, cycles);
    AllButLast(cfg, file, cycles);
    hide AllCycles, Gcodes, Overlaps;
    Cut(cfg, file, 0, c.start.value, c.cursor);
    assert file[..c.cursor] == file[0..c.cursor] && file[..c.start.value] == file[0..c.start.value];
  }

  /**
   At most one gcode is sent again if and only if the lines before the last resume point are all gcodes, or,
   when the first cycle had sent nothing, all but at most one.
   */
  lemma {:induction false} AtMostOneLineTwice(cfg: Config, file: seq<string>, cycles: seq<Cycle>)
    requires AllCycles(cfg, file, cycles) && |cycles| > 1
    ensures var s := cycles[|cycles| - 1].start;
            && s.Some? && s.value <= |file|
            && (cycles[0].sent != [] ==>
                  (Overlaps(cfg, file, cycles) <= 1 <==> forall l :: l in file[..s.value] ==> Clean(cfg, l).Some?))
            && (cycles[0].sent == [] ==>
                  (Overlaps(cfg, file, cycles) <= 1 <==> Blanks(cfg, file, s.value) <= 1))
  {
    OverlapsAreBlanks(cfg, file, cycles);
    hide AllCycles, Gcodes, Overlaps, Clean;
    GcodesBound(cfg, file[..cycles[|cycles| - 1].start.value]);
  }

  /**
   A print that was paused, resumed and finished has sent its gcodes and at most one more if and only if the
   same holds of its lines.
   */
  lemma {:induction false} FinishedPrintsRepeat(cfg: Config, file: seq<string>, cycles: seq<Cycle>)
    requires AllCycles(cfg, file, cycles) && |cycles| > 1 && cycles[0].sent != []
    requires cycles[|cycles| - 1].cursor == |file|
    ensures var s := cycles[|cycles| - 1].start;
            && s.Some? && s.value <= |file|
            && TotalSent(cycles) == |Gcodes(cfg, file)| + 1 + Blanks(cfg, file, s.value)
            && (TotalSent(cycles) <= |Gcodes(cfg, file)| + 1 <==> forall l :: l in file[..s.value] ==> Clean(cfg, l).Some?)
  {
    OverlapsAreBlanks(cfg, file, cycles);
    TotalIsFileAndOverlaps(cfg, file, cycles);
    hide AllCycles, Gcodes, Overlaps, Clean;
    assert file[..|file|] == file;
    GcodesBound(cfg, file[..cycles[|cycles| - 1].start.value]);
  }

  // ---------------------------------------------------------------- cycles as runs of the driver

  /** A run in which the file is submitted, inline or by its path, and goes on until it is about to be paused. */
  datatype Stay = Stay(opening: Opening, later: seq<Event>)

  function Events(cfg: Config, file: seq<string>, stay: Stay): seq<Event> {
    Before(stay.opening) + [Submitting(cfg, stay.opening, file)] + stay.later
  }

  /** The driver is Ready in the end, and the first queued task of the id is the one submitted in this run. */
  predicate Holds(cfg: Config, id: string, file: seq<string>, stay: Stay) {
    var m := After(cfg, Events(cfg, file, stay));
    && Received(cfg, stay.opening) && stay.opening.request.clientId != INTERNAL && m.state.InReady?
    && var i := FindTask(m.state.ready.tasks, id);
       i < |m.state.ready.tasks| && m.state.ready.tasks[i].key == After(cfg, Before(stay.opening)).ctx.nextKey
  }

  function TaskAt(cfg: Config, id: string, file: seq<string>, stay: Stay): Task
    requires Holds(cfg, id, file, stay)
  {
    var tasks := After(cfg, Events(cfg, file, stay)).state.ready.tasks;
    tasks[FindTask(tasks, id)]
  }

  /** The number that pausing the task at the end of the stay records. */
  function NumberRecorded(cfg: Config, id: string, file: seq<string>, stay: Stay): nat {
    var m := Step(cfg, After(cfg, Events(cfg, file, stay)), ProtobufRec(Some(PauseTask(id)))).0;
    match Lookup(m.ctx.progress, id)
    case Some(p) => p.despooledLineNumber
    case None => 0
  }

  /**
   The file was requested from its beginning, and from then on requested again with the number that the pause
   before recorded, plus one.
   */
  predicate Resumed(cfg: Config, id: string, file: seq<string>, stays: seq<Stay>) {
    && |file| < 0x1_0000_0000
    && (forall i :: 0 <= i < |stays| ==> Holds(cfg, id, file, stays[i]))
    && (stays != [] ==> stays[0].opening.request.startAt == 0)
    && (forall i :: 0 < i < |stays| ==>
          stays[i].opening.request.startAt == StartAt(NumberRecorded(cfg, id, file, stays[i - 1])))
  }

  /** The queued task is what was asked for. */
  lemma {:induction false} TaskIsAsked(cfg: Config, id: string, file: seq<string>, stay: Stay)
    requires Holds(cfg, id, file, stay)
    ensures var t := TaskAt(cfg, id, file, stay);
            && t.submitted == Asked(stay.opening.request, file)
            && t.clientId == t.submitted.clientId
  {
    hide After, Submitting, Before, Asked;
    var t, events := TaskAt(cfg, id, file, stay), Events(cfg, file, stay);
    QueuedAsAsked(cfg, stay.opening, file, stay.later, t);
    QueuedIsLabelled(cfg, events, t);
  }

  lemma {:induction false} QueuedIsLabelled(cfg: Config, events: seq<Event>, t: Task)
    requires After(cfg, events).state.InReady? && t in After(cfg, events).state.ready.tasks
    ensures Labelled(t)
  {
    hide Step, After, SessionTrace;
    EverySession(cfg, events);
    assert Conserved(cfg, SessionTrace(cfg, events), t);
  }

  /** What the driver despooled of the file in a stay, as a cycle. */
  function CycleAt(cfg: Config, id: string, file: seq<string>, stay: Stay): Cycle
    requires Holds(cfg, id, file, stay)
  {
    CycleOf(SessionTrace(cfg, Events(cfg, file, stay)), TaskAt(cfg, id, file, stay))
  }

  function CyclesOf(cfg: Config, id: string, file: seq<string>, stays: seq<Stay>): (cycles: seq<Cycle>)
    requires forall i :: 0 <= i < |stays| ==> Holds(cfg, id, file, stays[i])
    ensures |cycles| == |stays| && forall i :: 0 <= i < |stays| ==> cycles[i] == CycleAt(cfg, id, file, stays[i])
  {
    seq(|stays|, i requires 0 <= i < |stays| => CycleAt(cfg, id, file, stays[i]))
  }

  lemma {:induction false} StayIsACycle(cfg: Config, id: string, file: seq<string>, stay: Stay)
    requires Holds(cfg, id, file, stay) && StartNumber(stay.opening.request.startAt).GetOr(0) <= |file|
    ensures var c := CycleAt(cfg, id, file, stay);
            && IsCycle(cfg, file, c) && c.start == StartNumber(stay.opening.request.startAt)
            && NumberRecorded(cfg, id, file, stay) == ReportedNumber(c)
  {
    hide Step, After, SessionTrace, Lookup, ReportedNumber, Gcodes, Despooled, Dropped, Before, Submitting, StartNumber;
    var tasks := After(cfg, Events(cfg, file, stay)).state.ready.tasks;
    TaskIsAsked(cfg, id, file, stay);
    hide Events;
    PauseReportsTheCycle(cfg, Events(cfg, file, stay), id, FindTask(tasks, id));
  }

  /** Runs in which a file is paused and resumed make a chain of cycles. */
  lemma {:induction false} StaysAreCycles(cfg: Config, id: string, file: seq<string>, stays: seq<Stay>)
    requires Resumed(cfg, id, file, stays)
    ensures AllCycles(cfg, file, CyclesOf(cfg, id, file, stays))
  {
    hide Holds, CycleAt, TaskAt, NumberRecorded, IsCycle, ReportedNumber, StartNumber, StartAt, Events;
    if stays != [] {
      var n := |stays| - 1;
      var before, cycles := stays[..n], CyclesOf(cfg, id, file, stays);
      StaysAreCycles(cfg, id, file, before);
      assert forall i :: 0 <= i < n ==> before[i] == stays[i];
      assert cycles[..n] == CyclesOf(cfg, id, file, before);
      assert forall i :: 0 <= i < n ==> IsCycle(cfg, file, cycles[i]) by {
        assert forall i :: 0 <= i < n ==> cycles[i] == cycles[..n][i];
      }
      if n > 0 {
        ReportStaysBehindCursor(cfg, file, cycles[n - 1]);
        StayIsNext(cfg, id, file, stays);
      } else {
        NoneIsZero();
        StayIsACycle(cfg, id, file, stays[n]);
      }
      assert Chained(cycles) by {
        assert forall i :: 0 <= i < n ==> cycles[i] == cycles[..n][i];
      }
    }
  }

  lemma {:induction false} NoneIsZero()
    ensures StartNumber(0) == None && StartNumber(0).GetOr(0) == 0
  {
  }

  lemma {:induction false} StartIsAsked(cfg: Config, id: string, file: seq<string>, stay: Stay)
    requires Holds(cfg, id, file, stay)
    ensures CycleAt(cfg, id, file, stay).start == StartNumber(stay.opening.request.startAt)
  {
    hide Holds, SessionTrace, Despooled, StartNumber, TaskAt, Events;
    TaskIsAsked(cfg, id, file, stay);
  }

  /** The last stay, given that the one before it is a cycle. */
  lemma {:induction false} StayIsNext(cfg: Config, id: string, file: seq<string>, stays: seq<Stay>)
    requires Resumed(cfg, id, file, stays) && |stays| > 1
    requires IsCycle(cfg, file, CycleAt(cfg, id, file, stays[|stays| - 2]))
    ensures var last, before := CycleAt(cfg, id, file, stays[|stays| - 1]), CycleAt(cfg, id, file, stays[|stays| - 2]);
            IsCycle(cfg, file, last) && last.start == StartNumber(StartAt(ReportedNumber(before)))
  {
    hide Step, After, SessionTrace, Lookup, Gcodes, Despooled, NumberRecorded, Holds, Events, CycleAt;
    var n := |stays| - 1;
    var before := CycleAt(cfg, id, file, stays[n - 1]);
    StartIsAsked(cfg, id, file, stays[n - 1]);
    ReportStaysBehindCursor(cfg, file, before);
    StayIsACycle(cfg, id, file, stays[n - 1]);
    StartRoundTrips(ReportedNumber(before));
    StayIsACycle(cfg, id, file, stays[n]);
  }

  /**
   Over any runs in which a file is paused and resumed, no line before the last cursor is skipped: its gcode
   was despooled in one of the runs.
   */
  lemma {:induction false} ResumedPrintsSkipNothing(cfg: Config, id: string, file: seq<string>, stays: seq<Stay>,
      line: nat)
    requires Resumed(cfg, id, file, stays) && stays != []
    requires line < CycleAt(cfg, id, file, stays[|stays| - 1]).cursor
    ensures exists i :: 0 <= i < |stays| && Sends(cfg, file, CycleAt(cfg, id, file, stays[i]), line)
  {
    hide Holds, CycleAt, TaskAt, AllCycles, Sends, Resumed, Gcodes;
    StaysHold(cfg, id, file, stays);
    StaysAreCycles(cfg, id, file, stays);
    NothingIsSkipped(cfg, file, CyclesOf(cfg, id, file, stays), line);
  }

  /**
   And all that was despooled of it in these runs are the gcodes of the file up to the last cursor, once
   more the gcode at which it was first resumed, and one more for every line before the last start number
   that is no gcode.
   */
  lemma {:induction false} ResumedPrintsRepeat(cfg: Config, id: string, file: seq<string>, stays: seq<Stay>)
    requires Resumed(cfg, id, file, stays) && |stays| > 1
    ensures var cycles := CyclesOf(cfg, id, file, stays);
            var last := cycles[|stays| - 1];
            && last.start.Some? && last.start.value <= |file| && last.cursor <= |file|
            && TotalSent(cycles) ==
               |Gcodes(cfg, file[..last.cursor])| + Once(cycles) + Blanks(cfg, file, last.start.value)
  {
    hide Holds, CycleAt, TaskAt, AllCycles, Resumed, Gcodes;
    StaysHold(cfg, id, file, stays);
    StaysAreCycles(cfg, id, file, stays);
    var cycles := CyclesOf(cfg, id, file, stays);
    OverlapsAreBlanks(cfg, file, cycles);
    TotalIsFileAndOverlaps(cfg, file, cycles);
  }

  lemma {:induction false} StaysHold(cfg: Config, id: string, file: seq<string>, stays: seq<Stay>)
    requires Resumed(cfg, id, file, stays)
    ensures forall i :: 0 <= i < |stays| ==> Holds(cfg, id, file, stays[i])
  {
  }
}
