/**
 Submitting a print: with its lines in the message, or with the path of a file, which the driver asks its
 reactor to load. Both come to the same.
 */
module Spooling {
  import opened Wrappers
  import opened DriverTypes
  import opened DriverSpec
  import opened DriverRuns
  import opened WrittenLines
  import opened LinesDue

  /** What a submission says apart from its lines. The start number counts from one; 0 asks for the beginning. */
  datatype Request = Request(id: string, clientId: string, startAt: nat, machineOverride: bool)

  function WithLines(q: Request, lines: seq<string>): Event {
    ProtobufRec(Some(SpoolTask(q.id, q.clientId, q.startAt, Some(Inline(lines)), q.machineOverride)))
  }

  function WithFile(q: Request, path: string): Event {
    ProtobufRec(Some(SpoolTask(q.id, q.clientId, q.startAt, Some(FilePath(path)), q.machineOverride)))
  }

  /** What the reactor answers when it has read the file an effect asks for: a task of the effect's own fields. */
  function Answer(e: Effect, lines: seq<string>): Event
    requires e.LoadGCode?
  {
    GCodeLoaded(Submission(e.taskId, e.clientId, lines, e.despooled, e.machineOverride))
  }

  /** What a Ready driver is to queue for a request. */
  function Asked(q: Request, lines: seq<string>): Submission {
    Submission(q.id, q.clientId, lines, StartNumber(q.startAt), q.machineOverride)
  }

  /** What an event submits to a Ready driver. */
  function Submits(event: Event): Option<Submission> {
    match event
    case GCodeLoaded(s) => Some(s)
    case ProtobufRec(Some(SpoolTask(id, client, startAt, Some(Inline(commands)), machineOverride))) =>
      Some(Asked(Request(id, client, startAt, machineOverride), commands))
    case _ => None
  }

  /**
   A Ready driver asks for the file of a request, and only for that; when the answer comes at once the driver
   does what it would have done for the same request with the file's lines in it.
   */
  lemma {:induction false} FilesAreInline(cfg: Config, m: Machine, q: Request, path: string, lines: seq<string>)
    requires m.state.InReady?
    ensures var (m1, fx) := Step(cfg, m, WithFile(q, path));
            && m1.state.InReady? && |fx| == 1 && fx[0].LoadGCode? && fx[0].path == path
            && Submits(Answer(fx[0], lines)) == Submits(WithLines(q, lines))
            && Step(cfg, m1, Answer(fx[0], lines)) == Step(cfg, m, WithLines(q, lines))
  {
    hide Load;
  }

  /** A submission to a Ready driver is entered under the next identity, as it was asked for. */
  lemma {:induction false} SubmittedIsEntered(cfg: Config, events: seq<Event>, event: Event)
    requires After(cfg, events).state.InReady? && Submits(event).Some?
    ensures var key, entries := After(cfg, events).ctx.nextKey, Admitted(cfg, events + [event]);
            key in entries && entries[key] == Submits(event).value
  {
    hide Step;
    assert (events + [event])[..|events + [event]| - 1] == events;
  }

  // ---------------------------------------------------------------- requests in a run

  /** A run up to a request, the request, and what happens until it is answered, if it names a file. */
  datatype Opening = Opening(before: seq<Event>, request: Request, path: Option<string>, waiting: seq<Event>)

  /** The first file that some effects ask for. */
  function AsksFor(fx: seq<Effect>): Option<Effect> {
    if fx == [] then None else if fx[0].LoadGCode? then Some(fx[0]) else AsksFor(fx[1..])
  }

  /** The events before the one that submits the lines. */
  function Before(o: Opening): seq<Event> {
    match o.path
    case None => o.before
    case Some(path) => o.before + [WithFile(o.request, path)] + o.waiting
  }

  /** The event that submits the lines: the request itself, or the answer to what the driver asked for. */
  function Submitting(cfg: Config, o: Opening, lines: seq<string>): Event {
    match o.path
    case None => WithLines(o.request, lines)
    case Some(path) =>
      match AsksFor(LastStep(cfg, o.before + [WithFile(o.request, path)]).fx)
      case Some(e) => if e.LoadGCode? then Answer(e, lines) else ProtobufRec(None)
      case None => ProtobufRec(None)
  }

  /** The driver is Ready when the request comes and when its lines come. */
  predicate Received(cfg: Config, o: Opening) {
    After(cfg, o.before).state.InReady? && After(cfg, Before(o)).state.InReady?
  }

  /** The driver has answered the request with what was asked for. */
  lemma {:induction false} SubmitsAsked(cfg: Config, o: Opening, lines: seq<string>)
    requires Received(cfg, o)
    ensures Submits(Submitting(cfg, o, lines)) == Some(Asked(o.request, lines))
  {
    hide After;
    if o.path.Some? {
      var event := WithFile(o.request, o.path.value);
      OneMore(cfg, o.before, event);
      FilesAreInline(cfg, After(cfg, o.before), o.request, o.path.value, lines);
      hide Step;
      FxOfLast(cfg, o.before, event);
    }
  }

  lemma {:induction false} FxOfLast(cfg: Config, events: seq<Event>, event: Event)
    ensures LastStep(cfg, events + [event]).fx == Step(cfg, After(cfg, events), event).1
  {
    hide Step;
    assert (events + [event])[..|events + [event]| - 1] == events;
  }

  /** From then on, whatever is queued under the identity handed out for it is what was asked for. */
  lemma {:induction false} QueuedAsAsked(cfg: Config, o: Opening, lines: seq<string>, later: seq<Event>, t: Task)
    requires Received(cfg, o)
    requires var events := Before(o) + [Submitting(cfg, o, lines)] + later;
             After(cfg, events).state.InReady? && t in After(cfg, events).state.ready.tasks
    requires t.key == After(cfg, Before(o)).ctx.nextKey
    ensures t.submitted == Asked(o.request, lines)
  {
    hide After, Admitted, Submitting;
    var submitted := Before(o) + [Submitting(cfg, o, lines)];
    SubmitsAsked(cfg, o, lines);
    SubmittedIsEntered(cfg, Before(o), Submitting(cfg, o, lines));
    RecordGrows(cfg, submitted, later);
    QueuedAsAdmitted(cfg, submitted + later, t);
  }
}
