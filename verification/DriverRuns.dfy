/** Runs of the driver, and what an observer can read off the effects of a run. */
module DriverRuns {
  import opened Wrappers
  import opened DriverTypes
  import opened DriverSpec

  // ---------------------------------------------------------------- runs

  datatype StepRecord = StepRecord(pre: Machine, event: Event, post: Machine, fx: seq<Effect>)

  /** The driver after a list of events. */
  function After(cfg: Config, events: seq<Event>): Machine {
    if events == [] then Start()
    else Step(cfg, After(cfg, events[..|events| - 1]), events[|events| - 1]).0
  }

  /** The last event of a non-empty run, with what surrounds it. */
  function LastStep(cfg: Config, events: seq<Event>): StepRecord
    requires events != []
  {
    var pre := After(cfg, events[..|events| - 1]);
    var event := events[|events| - 1];
    var (post, fx) := Step(cfg, pre, event);
    StepRecord(pre, event, post, fx)
  }

  /** The steps since the driver last became Ready, the step that entered Ready included. */
  function Session(cfg: Config, events: seq<Event>): seq<StepRecord> {
    if events == [] || !After(cfg, events).state.InReady? then []
    else
      var last := LastStep(cfg, events);
      if last.pre.state.InReady? then Session(cfg, events[..|events| - 1]) + [last] else [last]
  }

  /** All effects of some steps, in order. */
  function TraceOf(steps: seq<StepRecord>): seq<Effect> {
    if steps == [] then [] else TraceOf(steps[..|steps| - 1]) + steps[|steps| - 1].fx
  }

  function SessionTrace(cfg: Config, events: seq<Event>): seq<Effect> {
    TraceOf(Session(cfg, events))
  }

  /** All effects of a run. */
  function RunTrace(cfg: Config, events: seq<Event>): seq<Effect> {
    if events == [] then [] else RunTrace(cfg, events[..|events| - 1]) + LastStep(cfg, events).fx
  }

  // ---------------------------------------------------------------- reading a trace

  function FlatMap<T>(trace: seq<Effect>, f: Effect -> seq<T>): seq<T> {
    if trace == [] then [] else f(trace[0]) + FlatMap(trace[1..], f)
  }

  lemma {:induction false} FlatMapSplit<T>(a: seq<Effect>, b: seq<Effect>, f: Effect -> seq<T>)
    ensures FlatMap(a + b, f) == FlatMap(a, f) + FlatMap(b, f)
  {
    if a == [] {
      assert a + b == b;
    } else {
      assert (a + b)[1..] == a[1..] + b;
      FlatMapSplit(a[1..], b, f);
    }
  }

  function NumberOf(e: Effect): seq<nat> {
    if e.SendSerial? && e.line.lineNumber.Some? then [e.line.lineNumber.value] else []
  }

  /** The gcode an effect despools from the queue entry `key`. */
  function GcodeOf(key: int, e: Effect): seq<string> {
    if e.SendSerial? && e.origin.FromTask? && e.origin.key == key then [e.line.gcode]
    else if e.RanHostMacro? && e.key == key then [e.gcode]
    else []
  }

  /** The queue entry an effect despools from, unless that entry is an override. */
  function MainKeyOf(e: Effect): seq<int> {
    if e.SendSerial? && e.origin.FromTask? && !e.origin.machineOverride then [e.origin.key]
    else if e.RanHostMacro? && !e.machineOverride then [e.key]
    else []
  }

  function PollOf(e: Effect): seq<string> {
    if e.SendSerial? && e.origin == Poll then [e.line.gcode] else []
  }

  function MacroOf(e: Effect): seq<HostGCode> {
    if e.RanHostMacro? then [e.macro] else []
  }

  function WaitOf(e: Effect): seq<HostGCode> {
    if e.RanHostMacro? && e.macro == WaitToReachMark then [e.macro] else []
  }

  /** The numbers of the numbered serial lines. */
  function Numbers(trace: seq<Effect>): seq<nat> { FlatMap(trace, NumberOf) }

  /** The gcodes despooled from one queue entry. */
  function Despooled(trace: seq<Effect>, key: int): seq<string> { FlatMap(trace, e => GcodeOf(key, e)) }

  /** The non-override queue entries gcodes were despooled from, one per gcode. */
  function MainKeys(trace: seq<Effect>): seq<int> { FlatMap(trace, MainKeyOf) }

  function PollLines(trace: seq<Effect>): seq<string> { FlatMap(trace, PollOf) }

  function HostMacros(trace: seq<Effect>): seq<HostGCode> { FlatMap(trace, MacroOf) }

  function MarkWaits(trace: seq<Effect>): seq<HostGCode> { FlatMap(trace, WaitOf) }

  predicate Checksummed(trace: seq<Effect>) {
    forall e :: e in trace && e.SendSerial? && e.line.lineNumber.Some? ==> e.line.checksum
  }

  /** An effect no observer above reacts to. */
  predicate Silent(e: Effect) {
    !e.RanHostMacro? && (e.SendSerial? ==> e.line.lineNumber.None? && !e.origin.FromTask? && e.origin != Poll)
  }

  predicate AllSilent(fx: seq<Effect>) {
    forall e :: e in fx ==> Silent(e)
  }

  lemma {:induction false} TraceSplit(a: seq<Effect>, b: seq<Effect>)
    ensures Numbers(a + b) == Numbers(a) + Numbers(b)
    ensures MainKeys(a + b) == MainKeys(a) + MainKeys(b)
    ensures PollLines(a + b) == PollLines(a) + PollLines(b)
    ensures HostMacros(a + b) == HostMacros(a) + HostMacros(b)
    ensures MarkWaits(a + b) == MarkWaits(a) + MarkWaits(b)
    ensures forall key :: Despooled(a + b, key) == Despooled(a, key) + Despooled(b, key)
  {
    FlatMapSplit(a, b, NumberOf);
    FlatMapSplit(a, b, MainKeyOf);
    FlatMapSplit(a, b, PollOf);
    FlatMapSplit(a, b, MacroOf);
    FlatMapSplit(a, b, WaitOf);
    forall key ensures Despooled(a + b, key) == Despooled(a, key) + Despooled(b, key) {
      FlatMapSplit(a, b, e => GcodeOf(key, e));
    }
  }

  lemma {:induction false} SilentFlatMap<T>(fx: seq<Effect>, f: Effect -> seq<T>)
    requires forall e :: e in fx ==> f(e) == []
    ensures FlatMap(fx, f) == []
  {
    if fx != [] { SilentFlatMap(fx[1..], f); }
  }

  /** Silent effects read as nothing. */
  lemma {:induction false} SilentReads(fx: seq<Effect>)
    requires AllSilent(fx)
    ensures Numbers(fx) == [] && MainKeys(fx) == [] && PollLines(fx) == [] && HostMacros(fx) == [] && MarkWaits(fx) == []
    ensures forall key :: Despooled(fx, key) == []
    ensures Checksummed(fx)
  {
    SilentFlatMap(fx, NumberOf);
    SilentFlatMap(fx, MainKeyOf);
    SilentFlatMap(fx, PollOf);
    SilentFlatMap(fx, MacroOf);
    SilentFlatMap(fx, WaitOf);
    forall key ensures Despooled(fx, key) == [] { SilentFlatMap(fx, e => GcodeOf(key, e)); }
  }

  /** Silent effects leave every reading of a trace as it was. */
  lemma {:induction false} SilentKeeps(trace: seq<Effect>, fx: seq<Effect>)
    requires AllSilent(fx)
    ensures Numbers(trace + fx) == Numbers(trace)
    ensures MainKeys(trace + fx) == MainKeys(trace)
    ensures PollLines(trace + fx) == PollLines(trace)
    ensures HostMacros(trace + fx) == HostMacros(trace)
    ensures MarkWaits(trace + fx) == MarkWaits(trace)
    ensures forall key :: Despooled(trace + fx, key) == Despooled(trace, key)
    ensures Checksummed(trace + fx) <==> Checksummed(trace)
  {
    TraceSplit(trace, fx);
    SilentReads(fx);
  }

  lemma {:induction false} FlatMapOne<T>(e: Effect, f: Effect -> seq<T>)
    ensures FlatMap([e], f) == f(e)
  {
    assert FlatMap([e], f) == f(e) + FlatMap([], f);
  }

  /** Exactly one effect of `fx`, at position `i`, is not silent. */
  lemma {:induction false} OneLoud(fx: seq<Effect>, i: nat)
    requires i < |fx| && AllSilent(fx[..i]) && AllSilent(fx[i + 1..])
    ensures Numbers(fx) == NumberOf(fx[i])
    ensures MainKeys(fx) == MainKeyOf(fx[i])
    ensures PollLines(fx) == PollOf(fx[i])
    ensures HostMacros(fx) == MacroOf(fx[i])
    ensures MarkWaits(fx) == WaitOf(fx[i])
    ensures forall key :: Despooled(fx, key) == GcodeOf(key, fx[i])
  {
    SilentReads(fx[..i]);
    FlatMapOne(fx[i], NumberOf);
    FlatMapOne(fx[i], MainKeyOf);
    FlatMapOne(fx[i], PollOf);
    FlatMapOne(fx[i], MacroOf);
    FlatMapOne(fx[i], WaitOf);
    forall key ensures Despooled([fx[i]], key) == GcodeOf(key, fx[i]) { FlatMapOne(fx[i], e => GcodeOf(key, e)); }
    TraceSplit(fx[..i], [fx[i]]);
    SilentKeeps(fx[..i] + [fx[i]], fx[i + 1..]);
    assert fx[..i] + [fx[i]] + fx[i + 1..] == fx;
  }

  // ---------------------------------------------------------------- induction over despooling

  predicate IsTurn(cfg: Config, r: Ready, ctx: Ctx, turn: Turn) {
    turn == TaskTurn(cfg, r, ctx) || turn == DespoolTurn(cfg, r, ctx)
  }

  /** One round of the loop. */
  lemma {:induction false} FinishAgain(cfg: Config, turn: Turn) returns (next: Turn)
    requires turn.Again?
    ensures IsTurn(cfg, turn.r, turn.ctx, next)
    ensures Finish(cfg, turn) == Prepend(turn.fx, Finish(cfg, next))
    ensures next.Again? ==> Work(next.r.tasks) < Work(turn.r.tasks)
  {
    next := DespoolTurn(cfg, turn.r, turn.ctx);
  }

  /** `inv` is kept by every turn that does not fail. */
  ghost predicate KeptByTurns(cfg: Config, inv: (seq<Effect>, Ready, Ctx) -> bool) {
    forall trace, r, ctx, turn {:trigger inv(trace, r, ctx), IsTurn(cfg, r, ctx, turn)} ::
      inv(trace, r, ctx) && IsTurn(cfg, r, ctx, turn) && !turn.Failed? ==> inv(trace + turn.fx, turn.r, turn.ctx)
  }

  lemma {:induction false} KeptByTurn(cfg: Config, trace: seq<Effect>, r: Ready, ctx: Ctx, turn: Turn,
      inv: (seq<Effect>, Ready, Ctx) -> bool)
    requires KeptByTurns(cfg, inv) && inv(trace, r, ctx) && IsTurn(cfg, r, ctx, turn) && !turn.Failed?
    ensures inv(trace + turn.fx, turn.r, turn.ctx)
  {
  }

  /** What every successful turn keeps, going round until a turn settles keeps. */
  lemma {:induction false} FinishInduction(cfg: Config, trace: seq<Effect>, turn: Turn, out: Out,
      inv: (seq<Effect>, Ready, Ctx) -> bool)
    requires KeptByTurns(cfg, inv) && out == Finish(cfg, turn) && out.err.None?
    requires !turn.Failed? && inv(trace + turn.fx, turn.r, turn.ctx)
    ensures inv(trace + out.fx, out.r, out.ctx)
    decreases if turn.Again? then Work(turn.r.tasks) + 1 else 0
  {
    hide DespoolTurn, TaskTurn, IsTurn;
    if turn.Again? {
      var next := FinishAgain(cfg, turn);
      var rest := Finish(cfg, next);
      KeptByTurn(cfg, trace + turn.fx, turn.r, turn.ctx, next, inv);
      FinishInduction(cfg, trace + turn.fx, next, rest, inv);
      assert trace + turn.fx + rest.fx == trace + out.fx;
    }
  }

  lemma {:induction false} DespoolInduction(cfg: Config, trace: seq<Effect>, r: Ready, ctx: Ctx, out: Out,
      inv: (seq<Effect>, Ready, Ctx) -> bool)
    requires KeptByTurns(cfg, inv)
    requires inv(trace, r, ctx) && out.err.None?
    requires out == DespoolAll(cfg, r, ctx) || out == DespoolTask(cfg, r, ctx)
    ensures inv(trace + out.fx, out.r, out.ctx)
  {
    var turn := if out == DespoolAll(cfg, r, ctx) then DespoolTurn(cfg, r, ctx) else TaskTurn(cfg, r, ctx);
    assert IsTurn(cfg, r, ctx, turn);
    KeptByTurn(cfg, trace, r, ctx, turn, inv);
    FinishInduction(cfg, trace, turn, out, inv);
  }
}
