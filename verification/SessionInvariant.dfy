/**
 What holds of a Ready driver and of everything it has emitted since it became Ready. `trace` is
 the session's effects so far, `polls` the number of PollFeedback events it has handled, `book`
 what an observer of the session's events has written down.
 */
module SessionInvariant {
  import opened Wrappers
  import opened DriverTypes
  import opened DriverSpec
  import opened DriverRuns

  /**
   An observer's book: the queue-entry identities already used up when the session began, and the
   submissions accepted since then and not paused, each under its identity.
   */
  datatype Book = Book(hi: nat, lo: int, accepted: map<int, Submission>)

  /** 1, 2, ..., n. */
  function UpTo(n: nat): seq<nat> {
    seq(n, i => i + 1)
  }

  /** The numbered lines are 1, 2, 3, ..., and each carries a checksum. */
  predicate Numbered(trace: seq<Effect>, r: Ready) {
    r.nextLine >= 1 && Numbers(trace) == UpTo(r.nextLine - 1) && Checksummed(trace)
  }

  predicate InUse(book: Book, ctx: Ctx, key: int) {
    book.hi <= key < ctx.nextKey || ctx.lowKey < key <= book.lo
  }

  /** Only identities handed out in this session are queued or have emitted anything. */
  ghost predicate KeysInUse(book: Book, trace: seq<Effect>, tasks: seq<Task>, ctx: Ctx) {
    && ctx.lowKey <= book.lo < 0 && book.hi <= ctx.nextKey
    && (forall t :: t in tasks ==> InUse(book, ctx, t.key) && (t.machineOverride || book.hi <= t.key))
    && (forall key :: !InUse(book, ctx, key) ==> Despooled(trace, key) == [])
  }

  /**
   Overrides come first, each class is in order of arrival, and among non-overrides only the first
   may have been started.
   */
  predicate Disciplined(tasks: seq<Task>) {
    forall i, j :: 0 <= i < j < |tasks| ==>
      && tasks[i].key != tasks[j].key
      && (tasks[j].machineOverride ==> tasks[i].machineOverride)
      && (tasks[i].machineOverride == tasks[j].machineOverride ==> tasks[i].key < tasks[j].key)
      && (!tasks[i].machineOverride ==> !tasks[j].started)
  }

  /** The raw lines a submission puts in the queue. */
  function AdmittedLines(s: Submission): seq<string> {
    Skip(s.lines, s.despooled.GetOr(0))
  }

  /** The despooled line number after `n` gcodes. */
  function NumberAfter(initial: Option<nat>, n: nat): Option<nat> {
    if n == 0 then initial else Some(match initial case None => n - 1 case Some(d) => d + n)
  }

  /** What was despooled and what is left make up what was admitted: none lost, none repeated. */
  predicate NothingLost(cfg: Config, trace: seq<Effect>, t: Task) {
    Despooled(trace, t.key) + Gcodes(cfg, t.lines) == Gcodes(cfg, AdmittedLines(t.submitted))
  }

  /** The task's line number and started flag tell how many gcodes were despooled. */
  predicate Counted(trace: seq<Effect>, t: Task) {
    var n := |Despooled(trace, t.key)|;
    t.despooled == NumberAfter(t.submitted.despooled, n) && (t.started <==> n != 0)
  }

  /** The lines left are a suffix of those admitted, at least one shorter for each gcode despooled. */
  predicate Advanced(trace: seq<Effect>, t: Task) {
    var admitted := AdmittedLines(t.submitted);
    |Despooled(trace, t.key)| + |t.lines| <= |admitted| && t.lines == admitted[|admitted| - |t.lines|..]
  }

  predicate Labelled(t: Task) {
    t.id == t.submitted.id && t.clientId == t.submitted.clientId && t.machineOverride == t.submitted.machineOverride
  }

  predicate Conserved(cfg: Config, trace: seq<Effect>, t: Task) {
    NothingLost(cfg, trace, t) && Counted(trace, t) && Advanced(trace, t) && Labelled(t)
  }

  predicate AllConserved(cfg: Config, trace: seq<Effect>, tasks: seq<Task>) {
    forall t :: t in tasks ==> Conserved(cfg, trace, t)
  }

  /** Non-override gcodes were emitted in order of arrival of their tasks, and that can go on. */
  ghost predicate MainInOrder(book: Book, trace: seq<Effect>, tasks: seq<Task>, ctx: Ctx) {
    var keys := MainKeys(trace);
    && (forall i, j :: 0 <= i < j < |keys| ==> keys[i] <= keys[j])
    && (forall k :: k in keys ==> book.hi <= k < ctx.nextKey)
    && (forall k, t :: k in keys && t in tasks && !t.machineOverride ==> k <= t.key)
  }

  /** Polling lines still owed without a further request. */
  function Owing(p: Option<Polling>): nat {
    match p
    case None => 0
    case Some(PollPosition) => 1
    case Some(PollTemperature) => 2
  }

  predicate PollsBounded(trace: seq<Effect>, polls: nat, r: Ready) {
    |PollLines(trace)| + Owing(r.pollFor) <= 2 + 2 * polls + |MarkWaits(trace)|
  }

  predicate MarksNeedMacros(trace: seq<Effect>, r: Ready) {
    HostMacros(trace) == [] ==> r.mark.None?
  }

  /** Every gcode of the submission has been despooled. */
  predicate Complete(cfg: Config, trace: seq<Effect>, key: int, s: Submission) {
    Despooled(trace, key) == Gcodes(cfg, AdmittedLines(s))
  }

  predicate Queued(tasks: seq<Task>, key: int) {
    exists i :: 0 <= i < |tasks| && tasks[i].key == key
  }

  /** Every accepted submission is queued as it was submitted, or complete. */
  ghost predicate AllAccounted(cfg: Config, book: Book, trace: seq<Effect>, tasks: seq<Task>, ctx: Ctx) {
    && (forall key :: key in book.accepted ==> InUse(book, ctx, key))
    && (forall key :: key in book.accepted && !Queued(tasks, key) ==> Complete(cfg, trace, key, book.accepted[key]))
    && (forall t :: t in tasks && t.key in book.accepted ==> t.submitted == book.accepted[t.key])
  }

  /** The part of the invariant about the queue. */
  ghost predicate GoodQueue(cfg: Config, book: Book, trace: seq<Effect>, tasks: seq<Task>, ctx: Ctx) {
    && KeysInUse(book, trace, tasks, ctx)
    && Disciplined(tasks)
    && AllConserved(cfg, trace, tasks)
    && MainInOrder(book, trace, tasks, ctx)
    && AllAccounted(cfg, book, trace, tasks, ctx)
  }

  /** The part of the invariant about the serial line. */
  predicate GoodLine(trace: seq<Effect>, polls: nat, r: Ready) {
    Numbered(trace, r) && PollsBounded(trace, polls, r) && MarksNeedMacros(trace, r) && r.lastGCodeSent.None?
  }

  ghost predicate Good(cfg: Config, book: Book, trace: seq<Effect>, polls: nat, r: Ready, ctx: Ctx) {
    GoodQueue(cfg, book, trace, r.tasks, ctx) && GoodLine(trace, polls, r)
  }

  // ---------------------------------------------------------------- moves that despool nothing

  /** The queue part looks only at what was despooled, and survives the loss of a task. */
  lemma {:induction false} SameQueue(cfg: Config, book: Book, trace: seq<Effect>, trace': seq<Effect>,
      tasks: seq<Task>, ctx: Ctx, ctx': Ctx)
    requires GoodQueue(cfg, book, trace, tasks, ctx)
    requires ctx'.nextKey == ctx.nextKey && ctx'.lowKey == ctx.lowKey
    requires MainKeys(trace') == MainKeys(trace)
    requires forall key :: Despooled(trace', key) == Despooled(trace, key)
    ensures GoodQueue(cfg, book, trace', tasks, ctx')
  {
    hide Disciplined, Conserved, Despooled, MainKeys, Queued, Gcodes;
    forall t | t in tasks ensures Conserved(cfg, trace', t) {
      assert Conserved(cfg, trace, t);
      SameConserved(cfg, trace, trace', t);
    }
  }

  lemma {:induction false} SameConserved(cfg: Config, trace: seq<Effect>, trace': seq<Effect>, t: Task)
    requires Conserved(cfg, trace, t) && Despooled(trace', t.key) == Despooled(trace, t.key)
    ensures Conserved(cfg, trace', t)
  {
    hide Despooled, Gcodes;
  }

  /** The book after task `t` left the queue: closed, or complete. */
  predicate LeftBook(cfg: Config, trace: seq<Effect>, book: Book, book': Book, t: Task) {
    || (book' == book && Complete(cfg, trace, t.key, t.submitted))
    || book' == book.(accepted := book.accepted - {t.key})
  }

  function Dropped(tasks: seq<Task>, i: nat): seq<Task>
    requires i < |tasks|
  {
    tasks[..i] + tasks[i + 1..]
  }

  lemma {:induction false} DroppedMembers(tasks: seq<Task>, i: nat)
    requires i < |tasks|
    ensures forall t :: t in Dropped(tasks, i) ==> t in tasks
    ensures forall key :: Queued(tasks, key) && key != tasks[i].key ==> Queued(Dropped(tasks, i), key)
  {
    var rest := Dropped(tasks, i);
    assert forall j :: 0 <= j < |rest| ==> rest[j] == tasks[if j < i then j else j + 1];
    forall key | Queued(tasks, key) && key != tasks[i].key ensures Queued(rest, key) {
      var j :| 0 <= j < |tasks| && tasks[j].key == key;
      assert rest[if j < i then j else j - 1].key == key;
    }
  }

  lemma {:induction false} DroppedDisciplined(tasks: seq<Task>, i: nat)
    requires Disciplined(tasks) && i < |tasks|
    ensures Disciplined(Dropped(tasks, i))
  {
    var rest := Dropped(tasks, i);
    assert forall j :: 0 <= j < |rest| ==> rest[j] == tasks[if j < i then j else j + 1];
  }

  lemma {:induction false} DropTask(cfg: Config, book: Book, book': Book, trace: seq<Effect>, tasks: seq<Task>,
      ctx: Ctx, i: nat)
    requires GoodQueue(cfg, book, trace, tasks, ctx) && i < |tasks| && LeftBook(cfg, trace, book, book', tasks[i])
    ensures GoodQueue(cfg, book', trace, Dropped(tasks, i), ctx)
  {
    DroppedMembers(tasks, i);
    DroppedDisciplined(tasks, i);
    assert tasks[i] in tasks;
    assert forall key :: InUse(book, ctx, key) <==> InUse(book', ctx, key);
    hide Dropped, Disciplined, Conserved, Complete, Queued, InUse;
  }

  /** Moves that emit nothing an observer reads and leave the queue and the line counter alone. */
  lemma {:induction false} QuietMove(cfg: Config, book: Book, trace: seq<Effect>, polls: nat, r: Ready, ctx: Ctx,
                  fx: seq<Effect>, polls': nat, r': Ready, ctx': Ctx)
    requires Good(cfg, book, trace, polls, r, ctx) && AllSilent(fx)
    requires r'.tasks == r.tasks && r'.nextLine == r.nextLine && r'.lastGCodeSent == r.lastGCodeSent
    requires ctx'.nextKey == ctx.nextKey && ctx'.lowKey == ctx.lowKey
    requires polls' >= polls && Owing(r'.pollFor) <= Owing(r.pollFor) + 2 * (polls' - polls)
    requires r'.mark.None? || r.mark.Some?
    ensures Good(cfg, book, trace + fx, polls', r', ctx')
  {
    SilentKeeps(trace, fx);
    SameQueue(cfg, book, trace, trace + fx, r.tasks, ctx, ctx');
  }

  /** Dropping one task, with silent effects. */
  lemma {:induction false} DropMove(cfg: Config, book: Book, trace: seq<Effect>, polls: nat, r: Ready, ctx: Ctx,
                 fx: seq<Effect>, i: nat, book': Book, r': Ready, ctx': Ctx)
    requires Good(cfg, book, trace, polls, r, ctx) && AllSilent(fx) && i < |r.tasks|
    requires LeftBook(cfg, trace, book, book', r.tasks[i])
    requires r'.tasks == Dropped(r.tasks, i) && r'.nextLine == r.nextLine
    requires r'.pollFor == r.pollFor && r'.mark == r.mark && r'.lastGCodeSent == r.lastGCodeSent
    requires ctx'.nextKey == ctx.nextKey && ctx'.lowKey == ctx.lowKey
    ensures Good(cfg, book', trace + fx, polls, r', ctx')
  {
    hide GoodQueue;
    SilentKeeps(trace, fx);
    SameQueue(cfg, book, trace, trace + fx, r.tasks, ctx, ctx');
    DropTask(cfg, book, book', trace + fx, r.tasks, ctx', i);
  }

  lemma {:induction false} SendLineShape(cfg: Config, line: GCodeLine, origin: Origin)
    ensures var fx := SendLine(cfg, line, origin);
            fx[0] == SendSerial(line, origin) && AllSilent(fx[..0]) && AllSilent(fx[1..])
  {
  }

  /** One more number. */
  lemma {:induction false} NextNumber(trace: seq<Effect>, fx: seq<Effect>, n: nat)
    requires n >= 1 && Numbers(trace) == UpTo(n - 1) && Numbers(fx) == [n]
    ensures Numbers(trace + fx) == UpTo(n)
  {
    TraceSplit(trace, fx);
  }

  /** Polls and the fallback line: one numbered line that comes from no task. */
  lemma {:induction false} OwnLineMove(cfg: Config, book: Book, trace: seq<Effect>, polls: nat, r: Ready, ctx: Ctx,
                    gcode: string, origin: Origin, polls': nat, r1: Ready)
    requires Good(cfg, book, trace, polls, r, ctx) && (origin == Origin.Poll || origin == Fallback)
    requires r1.tasks == r.tasks && r1.nextLine == r.nextLine && (r1.mark.None? || r.mark.Some?)
    requires r1.lastGCodeSent == r.lastGCodeSent
    requires polls' >= polls
    requires Owing(r1.pollFor) + (if origin == Origin.Poll then 1 else 0) <= Owing(r.pollFor) + 2 * (polls' - polls)
    ensures var (r', fx) := SendNumbered(cfg, r1, gcode, origin);
            Good(cfg, book, trace + fx, polls', r', ctx)
  {
    var (r', fx) := SendNumbered(cfg, r1, gcode, origin);
    SendLineShape(cfg, GCodeLine(gcode, Some(r.nextLine), true), origin);
    OneLoud(fx, 0);
    TraceSplit(trace, fx);
    SameQueue(cfg, book, trace, trace + fx, r.tasks, ctx, ctx);
    NextNumber(trace, fx, r.nextLine);
  }

  lemma {:induction false} PollMove(cfg: Config, book: Book, trace: seq<Effect>, polls: nat, r: Ready, ctx: Ctx,
      p: Polling, polls': nat)
    requires Good(cfg, book, trace, polls, r, ctx) && polls' >= polls
    requires Owing(Some(p)) <= Owing(r.pollFor) + 2 * (polls' - polls)
    ensures var (r', fx) := DriverSpec.Poll(cfg, r, p); Good(cfg, book, trace + fx, polls', r', ctx)
  {
    var q := EffectivePoll(r, p);
    var r1 := r.(awaitingPollingFeedback := true, pollFor := if q == PollTemperature then Some(PollPosition) else None);
    OwnLineMove(cfg, book, trace, polls, r, ctx, if q == PollTemperature then "M105" else "M114", Origin.Poll, polls', r1);
  }

  // ---------------------------------------------------------------- moves that despool a gcode

  /** Skipping the blank prefix finds the next gcode and loses none. */
  lemma {:induction false} BlankPrefixGcodes(cfg: Config, lines: seq<string>)
    ensures var n := BlankPrefix(cfg, lines);
            Gcodes(cfg, lines) == if n == |lines| then [] else [Clean(cfg, lines[n]).value] + Gcodes(cfg, lines[n + 1..])
  {
    if lines != [] && Clean(cfg, lines[0]).None? {
      BlankPrefixGcodes(cfg, lines[1..]);
      var n := BlankPrefix(cfg, lines[1..]);
      if n < |lines[1..]| { assert lines[1..][n + 1..] == lines[1 + n + 1..]; }
    }
  }

  lemma {:induction false} TakenLosesNothing(cfg: Config, trace: seq<Effect>, trace': seq<Effect>, t: Task, n: nat)
    requires NothingLost(cfg, trace, t)
    requires n == BlankPrefix(cfg, t.lines) && n < |t.lines|
    requires Despooled(trace', t.key) == Despooled(trace, t.key) + [Clean(cfg, t.lines[n]).value]
    ensures NothingLost(cfg, trace', AfterTaking(t, n))
  {
    BlankPrefixGcodes(cfg, t.lines);
    hide Gcodes, BlankPrefix, Clean, Despooled;
    var g := Clean(cfg, t.lines[n]).value;
    var sent := Despooled(trace, t.key);
    var rest := Gcodes(cfg, t.lines[n + 1..]);
    assert (sent + [g]) + rest == sent + ([g] + rest);
  }

  lemma {:induction false} TakenAdvances(trace: seq<Effect>, trace': seq<Effect>, t: Task, n: nat)
    requires Advanced(trace, t) && Counted(trace, t) && n < |t.lines|
    requires |Despooled(trace', t.key)| == |Despooled(trace, t.key)| + 1
    ensures Advanced(trace', AfterTaking(t, n)) && Counted(trace', AfterTaking(t, n))
  {
    var admitted := AdmittedLines(t.submitted);
    var skipped := |admitted| - |t.lines|;
    assert admitted[skipped..][n + 1..] == admitted[skipped + n + 1..];
  }

  /** The queue after its front task was taken from. */
  function Taken(tasks: seq<Task>, n: nat): seq<Task>
    requires tasks != [] && n < |tasks[0].lines|
  {
    [AfterTaking(tasks[0], n)] + tasks[1..]
  }

  lemma {:induction false} TakenMembers(tasks: seq<Task>, n: nat, t: Task)
    requires tasks != [] && n < |tasks[0].lines| && t in Taken(tasks, n)
    ensures t == AfterTaking(tasks[0], n) || t in tasks[1..]
  {
  }

  lemma {:induction false} TakenDisciplined(tasks: seq<Task>, n: nat)
    requires Disciplined(tasks) && tasks != [] && n < |tasks[0].lines|
    ensures Disciplined(Taken(tasks, n))
  {
    assert forall i :: 0 < i < |tasks| ==> Taken(tasks, n)[i] == tasks[i];
  }

  lemma {:induction false} TakenConserved(cfg: Config, trace: seq<Effect>, trace': seq<Effect>, tasks: seq<Task>,
      n: nat)
    requires AllConserved(cfg, trace, tasks) && Disciplined(tasks) && tasks != []
    requires n == BlankPrefix(cfg, tasks[0].lines) && n < |tasks[0].lines|
    requires Despooled(trace', tasks[0].key) == Despooled(trace, tasks[0].key) + [Clean(cfg, tasks[0].lines[n]).value]
    requires forall key :: key != tasks[0].key ==> Despooled(trace', key) == Despooled(trace, key)
    ensures AllConserved(cfg, trace', Taken(tasks, n))
  {
    assert Conserved(cfg, trace, tasks[0]);
    TakenLosesNothing(cfg, trace, trace', tasks[0], n);
    TakenAdvances(trace, trace', tasks[0], n);
    forall t | t in Taken(tasks, n) ensures Conserved(cfg, trace', t) {
      TakenMembers(tasks, n, t);
      if t in tasks[1..] {
        var i :| 0 < i < |tasks| && tasks[i] == t;
        assert t.key != tasks[0].key && Conserved(cfg, trace, t);
      }
    }
  }

  lemma {:induction false} TakenInOrder(book: Book, trace: seq<Effect>, trace': seq<Effect>, tasks: seq<Task>,
      ctx: Ctx, ctx': Ctx, n: nat)
    requires MainInOrder(book, trace, tasks, ctx) && Disciplined(tasks) && tasks != [] && n < |tasks[0].lines|
    requires ctx'.nextKey == ctx.nextKey && tasks[0].key < ctx.nextKey
    requires tasks[0].machineOverride || book.hi <= tasks[0].key
    requires MainKeys(trace') == MainKeys(trace) + if tasks[0].machineOverride then [] else [tasks[0].key]
    ensures MainInOrder(book, trace', Taken(tasks, n), ctx')
  {
    assert tasks[0] in tasks;
    var keys, keys' := MainKeys(trace), MainKeys(trace');
    forall i, j | 0 <= i < j < |keys'| ensures keys'[i] <= keys'[j] {
      assert keys'[i] == keys[i] && keys[i] in keys;
    }
    forall k, t | k in MainKeys(trace') && t in Taken(tasks, n) && !t.machineOverride ensures k <= t.key {
      TakenMembers(tasks, n, t);
      assert k in MainKeys(trace) || k == tasks[0].key;
      if t in tasks[1..] {
        var i :| 0 < i < |tasks| && tasks[i] == t;
      }
    }
  }

  lemma {:induction false} TakenAccounted(cfg: Config, book: Book, trace: seq<Effect>, trace': seq<Effect>,
      tasks: seq<Task>,
                       ctx: Ctx, ctx': Ctx, n: nat)
    requires AllAccounted(cfg, book, trace, tasks, ctx) && tasks != [] && n < |tasks[0].lines|
    requires ctx'.nextKey == ctx.nextKey && ctx'.lowKey == ctx.lowKey
    requires forall key :: key != tasks[0].key ==> Despooled(trace', key) == Despooled(trace, key)
    ensures AllAccounted(cfg, book, trace', Taken(tasks, n), ctx')
  {
    var tasks' := Taken(tasks, n);
    assert Queued(tasks', tasks[0].key) by { assert tasks'[0].key == tasks[0].key; }
    forall key | Queued(tasks, key) ensures Queued(tasks', key) {
      var i :| 0 <= i < |tasks| && tasks[i].key == key;
      assert tasks'[i].key == key;
    }
    forall t | t in tasks' && t.key in book.accepted ensures t.submitted == book.accepted[t.key] {
      TakenMembers(tasks, n, t);
      assert tasks[0] in tasks;
    }
  }

  lemma {:induction false} TakenQueue(cfg: Config, book: Book, trace: seq<Effect>, trace': seq<Effect>,
      tasks: seq<Task>,
                   ctx: Ctx, ctx': Ctx, n: nat)
    requires GoodQueue(cfg, book, trace, tasks, ctx) && tasks != []
    requires ctx'.nextKey == ctx.nextKey && ctx'.lowKey == ctx.lowKey
    requires n == BlankPrefix(cfg, tasks[0].lines) && n < |tasks[0].lines|
    requires Despooled(trace', tasks[0].key) == Despooled(trace, tasks[0].key) + [Clean(cfg, tasks[0].lines[n]).value]
    requires forall key :: key != tasks[0].key ==> Despooled(trace', key) == Despooled(trace, key)
    requires MainKeys(trace') == MainKeys(trace) + if tasks[0].machineOverride then [] else [tasks[0].key]
    ensures GoodQueue(cfg, book, trace', Taken(tasks, n), ctx')
  {
    assert tasks[0] in tasks;
    TakenDisciplined(tasks, n);
    TakenConserved(cfg, trace, trace', tasks, n);
    TakenInOrder(book, trace, trace', tasks, ctx, ctx', n);
    TakenAccounted(cfg, book, trace, trace', tasks, ctx, ctx', n);
    forall t | t in Taken(tasks, n) ensures InUse(book, ctx', t.key) && (t.machineOverride || book.hi <= t.key) { TakenMembers(tasks, n, t); }
  }

  /** What a task's gcode adds to the readings of a trace, sent or run as a macro. */
  lemma {:induction false} TakenReads(trace: seq<Effect>, fx: seq<Effect>, i: nat, t: Task, gcode: string)
    requires i < |fx| && AllSilent(fx[..i]) && AllSilent(fx[i + 1..])
    requires (fx[i].SendSerial? && fx[i].origin == FromTask(t.key, t.machineOverride) && fx[i].line.gcode == gcode)
             || (fx[i].RanHostMacro? && fx[i].key == t.key && fx[i].machineOverride == t.machineOverride && fx[i].gcode == gcode)
    ensures Despooled(trace + fx, t.key) == Despooled(trace, t.key) + [gcode]
    ensures forall key :: key != t.key ==> Despooled(trace + fx, key) == Despooled(trace, key)
    ensures MainKeys(trace + fx) == MainKeys(trace) + if t.machineOverride then [] else [t.key]
  {
    OneLoud(fx, i);
    TraceSplit(trace, fx);
  }

  /** The gcode a turn takes from the front task: what is emitted, and at which position. */
  ghost predicate Takes(turn: Turn, i: nat, t: Task, gcode: string) {
    && !turn.Failed? && i < |turn.fx| && AllSilent(turn.fx[..i]) && AllSilent(turn.fx[i + 1..])
    && ((turn.fx[i].SendSerial? && turn.fx[i].line.gcode == gcode
         && turn.fx[i].origin == FromTask(t.key, t.machineOverride))
        || (turn.fx[i].RanHostMacro? && turn.fx[i].gcode == gcode
            && turn.fx[i].key == t.key && turn.fx[i].machineOverride == t.machineOverride))
  }

  lemma {:induction false} TakeSends(cfg: Config, r: Ready, ctx: Ctx, n: nat) returns (i: nat)
    requires r.tasks != [] && n < |r.tasks[0].lines| && Clean(cfg, r.tasks[0].lines[n]).Some?
    requires !IsHostMacro(Clean(cfg, r.tasks[0].lines[n]).value)
    ensures var turn, t := TakeFront(cfg, r, ctx, n), r.tasks[0];
            var gcode := Clean(cfg, t.lines[n]).value;
            && turn.Settled? && Takes(turn, i, t, gcode)
            && turn.fx[i].SendSerial? && turn.fx[i].line == GCodeLine(gcode, Some(r.nextLine), true)
            && turn.r.nextLine == r.nextLine + 1 && turn.r.pollFor == r.pollFor && turn.r.mark == r.mark
            && turn.r.lastGCodeSent == r.lastGCodeSent
  {
    hide PushProgress, Clean, BlankPrefix;
    i := if r.tasks[0].started then 0 else 1;
  }

  lemma {:induction false} TakeRuns(cfg: Config, r: Ready, ctx: Ctx, n: nat) returns (i: nat)
    requires r.tasks != [] && n < |r.tasks[0].lines| && Clean(cfg, r.tasks[0].lines[n]).Some?
    requires IsHostMacro(Clean(cfg, r.tasks[0].lines[n]).value) && !TakeFront(cfg, r, ctx, n).Failed?
    ensures var turn, t := TakeFront(cfg, r, ctx, n), r.tasks[0];
            && Takes(turn, i, t, Clean(cfg, t.lines[n]).value) && turn.fx[i].RanHostMacro?
            && turn.r.nextLine == r.nextLine && turn.r.lastGCodeSent == r.lastGCodeSent
            && Owing(turn.r.pollFor) <= Owing(r.pollFor) + |WaitOf(turn.fx[i])|
  {
    hide PushProgress, Clean, BlankPrefix;
    i := if r.tasks[0].started then 0 else 1;
  }

  lemma {:induction false} TakeShape(cfg: Config, r: Ready, ctx: Ctx, n: nat) returns (i: nat)
    requires r.tasks != [] && n < |r.tasks[0].lines| && Clean(cfg, r.tasks[0].lines[n]).Some?
    requires !TakeFront(cfg, r, ctx, n).Failed?
    ensures Takes(TakeFront(cfg, r, ctx, n), i, r.tasks[0], Clean(cfg, r.tasks[0].lines[n]).value)
  {
    hide TakeFront, Clean;
    if IsHostMacro(Clean(cfg, r.tasks[0].lines[n]).value) { i := TakeRuns(cfg, r, ctx, n); }
    else { i := TakeSends(cfg, r, ctx, n); }
  }

  lemma {:induction false} ChecksummedSplit(trace: seq<Effect>, fx: seq<Effect>, i: nat)
    requires Checksummed(trace) && i < |fx| && AllSilent(fx[..i]) && AllSilent(fx[i + 1..])
    requires fx[i].SendSerial? ==> fx[i].line.checksum
    ensures Checksummed(trace + fx)
  {
    assert fx == fx[..i] + [fx[i]] + fx[i + 1..];
  }

  lemma {:induction false} TakeLine(cfg: Config, trace: seq<Effect>, polls: nat, r: Ready, ctx: Ctx, n: nat)
    requires GoodLine(trace, polls, r) && r.tasks != []
    requires n < |r.tasks[0].lines| && Clean(cfg, r.tasks[0].lines[n]).Some?
    requires !TakeFront(cfg, r, ctx, n).Failed?
    ensures var turn := TakeFront(cfg, r, ctx, n); GoodLine(trace + turn.fx, polls, turn.r)
  {
    hide TakeFront, Clean, BlankPrefix;
    var turn := TakeFront(cfg, r, ctx, n);
    if IsHostMacro(Clean(cfg, r.tasks[0].lines[n]).value) {
      var i := TakeRuns(cfg, r, ctx, n);
      OneLoud(turn.fx, i);
      TraceSplit(trace, turn.fx);
      ChecksummedSplit(trace, turn.fx, i);
    } else {
      var i := TakeSends(cfg, r, ctx, n);
      OneLoud(turn.fx, i);
      TraceSplit(trace, turn.fx);
      ChecksummedSplit(trace, turn.fx, i);
      NextNumber(trace, turn.fx, r.nextLine);
    }
  }

  lemma {:induction false} TakeMove(cfg: Config, book: Book, trace: seq<Effect>, polls: nat, r: Ready, ctx: Ctx, n: nat)
    requires Good(cfg, book, trace, polls, r, ctx) && r.tasks != []
    requires n == BlankPrefix(cfg, r.tasks[0].lines) && n < |r.tasks[0].lines|
    requires !TakeFront(cfg, r, ctx, n).Failed?
    ensures var turn := TakeFront(cfg, r, ctx, n); Good(cfg, book, trace + turn.fx, polls, turn.r, turn.ctx)
  {
    var turn := TakeFront(cfg, r, ctx, n);
    var i := TakeShape(cfg, r, ctx, n);
    hide TakeFront, Clean, BlankPrefix;
    assert turn.r.tasks == Taken(r.tasks, n);
    TakenReads(trace, turn.fx, i, r.tasks[0], Clean(cfg, r.tasks[0].lines[n]).value);
    TakenQueue(cfg, book, trace, trace + turn.fx, r.tasks, ctx, turn.ctx, n);
    TakeLine(cfg, trace, polls, r, ctx, n);
  }

  lemma {:induction false} ExhaustedIsComplete(cfg: Config, book: Book, trace: seq<Effect>, r: Ready, ctx: Ctx)
    requires GoodQueue(cfg, book, trace, r.tasks, ctx) && r.tasks != []
    requires BlankPrefix(cfg, r.tasks[0].lines) == |r.tasks[0].lines|
    ensures Complete(cfg, trace, r.tasks[0].key, r.tasks[0].submitted)
  {
    assert Conserved(cfg, trace, r.tasks[0]);
    BlankPrefixGcodes(cfg, r.tasks[0].lines);
    assert Despooled(trace, r.tasks[0].key) + [] == Despooled(trace, r.tasks[0].key);
  }

  /**
   The turn of a front task either reports it finished and takes it off the queue, and then everything it was
   admitted with has been despooled, or reports it started and keeps it, and then something was left.
   */
  lemma {:induction false} FinishedIsComplete(cfg: Config, book: Book, trace: seq<Effect>, r: Ready, ctx: Ctx)
    requires GoodQueue(cfg, book, trace, r.tasks, ctx) && r.tasks != []
    ensures var t, turn := r.tasks[0], FrontTurn(cfg, r, ctx);
            if Complete(cfg, trace, t.key, t.submitted) then
              turn.ctx == PushProgress(ctx, t, Finished) && turn.r.tasks == r.tasks[1..]
            else
              exists u: Task :: && u.key == t.key && turn.ctx == PushProgress(ctx, u, Started)
                          && turn.r.tasks == [u] + r.tasks[1..]
  {
    hide TakeFront, Gcodes, Despooled;
    var t, n := r.tasks[0], BlankPrefix(cfg, r.tasks[0].lines);
    if n == |t.lines| {
      ExhaustedIsComplete(cfg, book, trace, r, ctx);
    } else {
      assert Conserved(cfg, trace, t);
      BlankPrefixGcodes(cfg, t.lines);
      assert AfterTaking(t, n).key == t.key;
    }
  }

  lemma {:induction false} FrontMove(cfg: Config, book: Book, trace: seq<Effect>, polls: nat, r: Ready, ctx: Ctx)
    requires Good(cfg, book, trace, polls, r, ctx) && r.tasks != [] && !FrontTurn(cfg, r, ctx).Failed?
    ensures var turn := FrontTurn(cfg, r, ctx); Good(cfg, book, trace + turn.fx, polls, turn.r, turn.ctx)
  {
    hide GoodQueue, GoodLine, TakeFront;
    var n := BlankPrefix(cfg, r.tasks[0].lines);
    var turn := FrontTurn(cfg, r, ctx);
    if n == |r.tasks[0].lines| {
      assert Dropped(r.tasks, 0) == r.tasks[1..];
      ExhaustedIsComplete(cfg, book, trace, r, ctx);
      DropMove(cfg, book, trace, polls, r, ctx, turn.fx, 0, book, turn.r, turn.ctx);
    } else {
      TakeMove(cfg, book, trace, polls, r, ctx, n);
    }
  }

  lemma {:induction false} TaskTurnMove(cfg: Config, book: Book, trace: seq<Effect>, polls: nat, r: Ready, ctx: Ctx)
    requires Good(cfg, book, trace, polls, r, ctx) && !TaskTurn(cfg, r, ctx).Failed?
    ensures var turn := TaskTurn(cfg, r, ctx); Good(cfg, book, trace + turn.fx, polls, turn.r, turn.ctx)
  {
    hide Good, FrontTurn;
    var turn := TaskTurn(cfg, r, ctx);
    var r1 := r.(awaitingPollingFeedback := false);
    if r.mark == Some(WaitingToReachMark) || r.tasks == [] {
      QuietMove(cfg, book, trace, polls, r, ctx, turn.fx, polls, turn.r, turn.ctx);
    } else {
      QuietMove(cfg, book, trace, polls, r, ctx, [], polls, r1, ctx);
      assert trace + [] == trace;
      FrontMove(cfg, book, trace, polls, r1, ctx);
    }
  }

  lemma {:induction false} TurnMove(cfg: Config, book: Book, trace: seq<Effect>, polls: nat, r: Ready, ctx: Ctx,
      turn: Turn)
    requires Good(cfg, book, trace, polls, r, ctx) && !turn.Failed?
    requires IsTurn(cfg, r, ctx, turn)
    ensures Good(cfg, book, trace + turn.fx, polls, turn.r, turn.ctx)
  {
    hide Good, TaskTurn;
    if turn == TaskTurn(cfg, r, ctx) {
      TaskTurnMove(cfg, book, trace, polls, r, ctx);
    } else if r.mark == Some(WaitingToSendFallbackGCode) {
      OwnLineMove(cfg, book, trace, polls, r, ctx, "M400", Fallback, polls, r.(mark := None));
    } else {
      PollMove(cfg, book, trace, polls, r, ctx, r.pollFor.value, polls);
    }
  }

  lemma {:induction false} DespoolMove(cfg: Config, book: Book, trace: seq<Effect>, polls: nat, r: Ready, ctx: Ctx,
      out: Out)
    requires Good(cfg, book, trace, polls, r, ctx) && out.err.None?
    requires out == DespoolAll(cfg, r, ctx) || out == DespoolTask(cfg, r, ctx)
    ensures Good(cfg, book, trace + out.fx, polls, out.r, out.ctx)
  {
    var inv := (tr: seq<Effect>, r1: Ready, ctx1: Ctx) => Good(cfg, book, tr, polls, r1, ctx1);
    forall tr, r1, ctx1, turn {:trigger inv(tr, r1, ctx1), IsTurn(cfg, r1, ctx1, turn)} | inv(tr, r1, ctx1) && IsTurn(cfg, r1, ctx1, turn) && !turn.Failed?
      ensures inv(tr + turn.fx, turn.r, turn.ctx)
    {
      TurnMove(cfg, book, tr, polls, r1, ctx1, turn);
    }
    DespoolInduction(cfg, trace, r, ctx, out, inv);
  }

  // ---------------------------------------------------------------- new tasks

  function Inserted(tasks: seq<Task>, i: nat, t: Task): seq<Task>
    requires i <= |tasks|
  {
    tasks[..i] + [t] + tasks[i..]
  }

  lemma {:induction false} InsertedMembers(tasks: seq<Task>, i: nat, t: Task)
    requires i <= |tasks|
    ensures forall u :: u in Inserted(tasks, i, t) <==> u in tasks || u == t
  {
    assert tasks == tasks[..i] + tasks[i..];
  }

  lemma {:induction false} InsertedDisciplined(tasks: seq<Task>, i: nat, t: Task)
    requires Disciplined(tasks) && i <= |tasks| && !t.started
    requires forall u :: u in tasks ==> u.key != t.key
    requires forall j :: 0 <= j < i ==> (t.machineOverride ==> tasks[j].machineOverride)
                                        && (tasks[j].machineOverride == t.machineOverride ==> tasks[j].key < t.key)
    requires forall j :: i <= j < |tasks| ==> (tasks[j].machineOverride ==> t.machineOverride)
                                              && (tasks[j].machineOverride == t.machineOverride ==> t.key < tasks[j].key)
    requires !t.machineOverride ==> i == |tasks|
    ensures Disciplined(Inserted(tasks, i, t))
  {
    var after := Inserted(tasks, i, t);
    forall a, b | 0 <= a < b < |after|
      ensures && after[a].key != after[b].key
              && (after[b].machineOverride ==> after[a].machineOverride)
              && (after[a].machineOverride == after[b].machineOverride ==> after[a].key < after[b].key)
              && (!after[a].machineOverride ==> !after[b].started)
    {
      var a', b' := if a < i then a else a - 1, if b < i then b else b - 1;
      if a != i { assert after[a] == tasks[a'] && tasks[a'] in tasks; }
      if b != i { assert after[b] == tasks[b'] && tasks[b'] in tasks; }
    }
  }

  predicate JustAdmitted(t: Task) {
    && t.lines == AdmittedLines(t.submitted) && t.despooled == t.submitted.despooled && !t.started && Labelled(t)
  }

  lemma {:induction false} NothingDespooledYet(cfg: Config, trace: seq<Effect>, t: Task)
    requires JustAdmitted(t) && Despooled(trace, t.key) == []
    ensures Conserved(cfg, trace, t)
  {
    assert Despooled(trace, t.key) + Gcodes(cfg, t.lines) == Gcodes(cfg, t.lines);
  }

  /** Accepting a submission, or queueing a task of the driver's own, which no one submitted. */
  predicate EnteredBook(book: Book, book': Book, t: Task) {
    book' == book || book' == book.(accepted := book.accepted[t.key := t.submitted])
  }

  lemma {:induction false} InsertAccounted(cfg: Config, book: Book, book': Book, trace: seq<Effect>, tasks: seq<Task>,
      ctx: Ctx, ctx': Ctx, i: nat, t: Task)
    requires AllAccounted(cfg, book, trace, tasks, ctx) && i <= |tasks| && EnteredBook(book, book', t)
    requires ctx'.nextKey >= ctx.nextKey && ctx'.lowKey <= ctx.lowKey
    requires !InUse(book, ctx, t.key) && InUse(book, ctx', t.key)
    requires forall u :: u in tasks ==> u.key != t.key
    ensures AllAccounted(cfg, book', trace, Inserted(tasks, i, t), ctx')
  {
    InsertedMembers(tasks, i, t);
    var after := Inserted(tasks, i, t);
    assert Queued(after, t.key) by { assert after[i].key == t.key; }
    forall key | Queued(tasks, key) ensures Queued(after, key) {
      var j :| 0 <= j < |tasks| && tasks[j].key == key;
      assert after[if j < i then j else j + 1].key == key;
    }
  }

  /** A new entry under a new identity, put where its class and its identity belong. */
  lemma {:induction false} InsertQueue(cfg: Config, book: Book, book': Book, trace: seq<Effect>, tasks: seq<Task>,
      ctx: Ctx, ctx': Ctx, i: nat, t: Task)
    requires GoodQueue(cfg, book, trace, tasks, ctx) && i <= |tasks| && JustAdmitted(t)
    requires ctx'.nextKey >= ctx.nextKey && ctx'.lowKey <= ctx.lowKey
    requires !InUse(book, ctx, t.key) && InUse(book, ctx', t.key)
    requires t.machineOverride || t.key >= ctx.nextKey
    requires Disciplined(Inserted(tasks, i, t)) && EnteredBook(book, book', t)
    ensures GoodQueue(cfg, book', trace, Inserted(tasks, i, t), ctx')
  {
    InsertedMembers(tasks, i, t);
    InsertAccounted(cfg, book, book', trace, tasks, ctx, ctx', i, t);
    assert forall key :: InUse(book, ctx', key) <==> InUse(book', ctx', key);
    hide Inserted, Disciplined;
    var after := Inserted(tasks, i, t);
    assert KeysInUse(book', trace, after, ctx') by {
      forall key | !InUse(book', ctx', key) ensures Despooled(trace, key) == [] {
        assert !InUse(book, ctx, key);
      }
    }
    assert AllConserved(cfg, trace, after) by {
      forall u | u in after ensures Conserved(cfg, trace, u) {
        if u !in tasks { NothingDespooledYet(cfg, trace, t); }
      }
    }
    assert MainInOrder(book', trace, after, ctx');
  }

  function Accept(book: Book, key: int, s: Submission): Book {
    book.(accepted := book.accepted[key := s])
  }

  lemma {:induction false} AdmitMove(cfg: Config, book: Book, trace: seq<Effect>, polls: nat, r: Ready, ctx: Ctx,
      s: Submission, book': Book, r': Ready, ctx': Ctx)
    requires book' == Accept(book, ctx.nextKey, s)
    requires Good(cfg, book, trace, polls, r, ctx)
    requires ctx'.nextKey == ctx.nextKey + 1 && ctx'.lowKey == ctx.lowKey
    requires r'.tasks == Enqueue(r.tasks, Admit(ctx.nextKey, s))
    requires r'.nextLine == r.nextLine && r'.pollFor == r.pollFor && r'.mark == r.mark
    requires r'.lastGCodeSent == r.lastGCodeSent
    ensures Good(cfg, book', trace, polls, r', ctx')
  {
    var t := Admit(ctx.nextKey, s);
    var i := if s.machineOverride then FirstNonOverride(r.tasks) else |r.tasks|;
    assert forall j :: 0 <= j < |r.tasks| ==> r.tasks[j].key < t.key by { KeysBelow(cfg, book, trace, r.tasks, ctx); }
    hide GoodLine, AllConserved, AllAccounted, MainInOrder;
    EnqueueIsDisciplined(r.tasks, t, i);
    assert r'.tasks == Inserted(r.tasks, i, t);
    hide Enqueue, Inserted, Disciplined;
    InsertQueue(cfg, book, book', trace, r.tasks, ctx, ctx', i, t);
    assert GoodLine(trace, polls, r') by { SameLine(trace, polls, r, r'); }
  }

  lemma {:induction false} KeysBelow(cfg: Config, book: Book, trace: seq<Effect>, tasks: seq<Task>, ctx: Ctx)
    requires GoodQueue(cfg, book, trace, tasks, ctx)
    ensures forall j :: 0 <= j < |tasks| ==> tasks[j].key < ctx.nextKey
  {
    hide AllConserved, AllAccounted, MainInOrder, Disciplined;
    forall j | 0 <= j < |tasks| ensures tasks[j].key < ctx.nextKey {
      assert InUse(book, ctx, tasks[j].key);
    }
  }

  lemma {:induction false} EnqueueIsDisciplined(tasks: seq<Task>, t: Task, i: nat)
    requires Disciplined(tasks) && i == (if t.machineOverride then FirstNonOverride(tasks) else |tasks|) <= |tasks|
    requires !t.started && forall j :: 0 <= j < |tasks| ==> tasks[j].key < t.key
    ensures Enqueue(tasks, t) == Inserted(tasks, i, t) && Disciplined(Inserted(tasks, i, t))
  {
    assert forall j :: i <= j < |tasks| ==> !tasks[j].machineOverride by { OverridesFirst(tasks, i, t.machineOverride); }
    InsertedDisciplined(tasks, i, t);
  }

  lemma {:induction false} OverridesFirst(tasks: seq<Task>, i: nat, machineOverride: bool)
    requires Disciplined(tasks) && i == if machineOverride then FirstNonOverride(tasks) else |tasks|
    ensures forall j :: i <= j < |tasks| ==> !tasks[j].machineOverride
  {
  }

  lemma {:induction false} SameLine(trace: seq<Effect>, polls: nat, r: Ready, r': Ready)
    requires GoodLine(trace, polls, r)
    requires r'.nextLine == r.nextLine && r'.pollFor == r.pollFor && r'.mark == r.mark
    requires r'.lastGCodeSent == r.lastGCodeSent
    ensures GoodLine(trace, polls, r')
  {
  }

  lemma {:induction false} PushFrontMove(cfg: Config, book: Book, trace: seq<Effect>, polls: nat, r: Ready, ctx: Ctx,
      id: string, gcode: string,
                      r': Ready, ctx': Ctx)
    requires Good(cfg, book, trace, polls, r, ctx)
    requires ctx'.nextKey == ctx.nextKey && ctx'.lowKey == ctx.lowKey - 1
    requires r'.tasks == [DriverTask(ctx.lowKey, id, gcode)] + r.tasks
    requires r'.nextLine == r.nextLine && r'.pollFor == r.pollFor && r'.mark == r.mark
    requires r'.lastGCodeSent == r.lastGCodeSent
    ensures Good(cfg, book, trace, polls, r', ctx')
  {
    var t := DriverTask(ctx.lowKey, id, gcode);
    assert r'.tasks == Inserted(r.tasks, 0, t);
    forall j | 0 <= j < |r.tasks| ensures t.key < r.tasks[j].key {
      assert InUse(book, ctx, r.tasks[j].key);
    }
    InsertedDisciplined(r.tasks, 0, t);
    InsertQueue(cfg, book, book, trace, r.tasks, ctx, ctx', 0, t);
  }

  // ---------------------------------------------------------------- one event while Ready

  function PollEvent(event: Event): nat {
    if event.PollFeedback? then 1 else 0
  }

  lemma {:induction false} FeedbackMove(cfg: Config, book: Book, trace: seq<Effect>, polls: nat, r: Ready, ctx: Ctx,
      feedback: Feedback)
    requires Good(cfg, book, trace, polls, r, ctx) && ReceiveFeedback(cfg, r, ctx, feedback).err.None?
    ensures var out := ReceiveFeedback(cfg, r, ctx, feedback); Good(cfg, book, trace + out.fx, polls, out.r, out.ctx)
  {
    hide Good, DespoolAll;
    var out := ReceiveFeedback(cfg, r, ctx, feedback);
    if feedback.Positions? && r.mark == Some(WaitingToReachMark) && feedback.allAxesReceived && feedback.reachedMark {
      QuietMove(cfg, book, trace, polls, r, ctx, [], polls, r.(mark := None), ctx);
      assert trace + [] == trace;
      DespoolMove(cfg, book, trace, polls, r.(mark := None), ctx, out);
    } else {
      QuietMove(cfg, book, trace, polls, r, ctx, out.fx, polls, out.r, out.ctx);
    }
  }

  lemma {:induction false} OkMove(cfg: Config, book: Book, trace: seq<Effect>, polls: nat, r: Ready, ctx: Ctx, out: Out)
    requires Good(cfg, book, trace, polls, r, ctx)
    requires ReceiveOk(cfg, r, ctx) == Some(out) && out.err.None?
    ensures Good(cfg, book, trace + out.fx, polls, out.r, out.ctx)
  {
    hide GoodQueue, Numbered, PollsBounded, MarksNeedMacros, DespoolAll;
    match r.onOk
    case Despool => DespoolMove(cfg, book, trace, polls, r, ctx, out);
    case TransitionToReady =>
      var r1, ctx1 := r.(onOk := Despool), StateChanged(ctx, InReady(r));
      var rest := DespoolAll(cfg, r1, ctx1);
      QuietMove(cfg, book, trace, polls, r, ctx, [SendFeedbackProtobuf], polls, r1, ctx1);
      DespoolMove(cfg, book, trace + [SendFeedbackProtobuf], polls, r1, ctx1, rest);
      assert trace + [SendFeedbackProtobuf] + rest.fx == trace + out.fx;
    case _ => QuietMove(cfg, book, trace, polls, r, ctx, out.fx, polls, out.r, out.ctx);
  }
}
