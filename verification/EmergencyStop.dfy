/** What an emergency stop, and every other way of leaving Ready, guarantees about the rest of the run. */
module EmergencyStop {
  import opened Wrappers
  import opened DriverTypes
  import opened DriverSpec
  import opened DriverRuns
  import opened SessionInvariant
  import opened SessionTheorems

  const ESTOP := ProtobufRec(Some(Estop))
  const DISCOVERED := ProtobufRec(Some(DeviceDiscovered))

  /** States in which nothing is written to the serial port. */
  predicate Silenced(state: State) {
    state.EStopped? || state.Errored? || state.Disconnected? || state.Panicked?
  }

  predicate WritesSerial(fx: seq<Effect>) {
    exists e :: e in fx && e.SendSerial?
  }

  /** What the last events of a run emit. */
  function SuffixTrace(cfg: Config, prefix: seq<Event>, suffix: seq<Event>): seq<Effect> {
    if suffix == [] then []
    else SuffixTrace(cfg, prefix, suffix[..|suffix| - 1]) + LastStep(cfg, prefix + suffix).fx
  }

  lemma {:induction false} AfterOneMore(cfg: Config, prefix: seq<Event>, suffix: seq<Event>)
    requires suffix != []
    ensures (prefix + suffix)[..|prefix + suffix| - 1] == prefix + suffix[..|suffix| - 1]
    ensures var last := LastStep(cfg, prefix + suffix);
            && last.pre == After(cfg, prefix + suffix[..|suffix| - 1])
            && last.event == suffix[|suffix| - 1] && last.post == After(cfg, prefix + suffix)
  {
    hide Step;
    assert (prefix + suffix)[..|prefix + suffix| - 1] == prefix + suffix[..|suffix| - 1];
  }

  /** At some point of the suffix the driver was Disconnected and discovered a device. */
  ghost predicate Released(cfg: Config, prefix: seq<Event>, suffix: seq<Event>) {
    exists i :: 0 <= i < |suffix| && suffix[i] == DISCOVERED && After(cfg, prefix + suffix[..i]).state.Disconnected?
  }

  /** A silenced driver writes nothing and stays silenced, unless released. */
  lemma {:induction false} SilencedStep(cfg: Config, m: Machine, event: Event)
    requires Silenced(m.state) && !event.Init? && !(m.state.Disconnected? && event == DISCOVERED)
    ensures var (m', fx) := Step(cfg, m, event); Silenced(m'.state) && !WritesSerial(fx)
  {
    hide PushAll, WithoutIds, ReadyConsume;
  }

  lemma {:induction false} EstopStep(cfg: Config, m: Machine)
    ensures var (m', fx) := Step(cfg, m, ESTOP);
            Silenced(m'.state) && !WritesSerial(fx) && m'.ctx.nextKey == m.ctx.nextKey && m'.ctx.lowKey == m.ctx.lowKey
  {
    hide PushAll;
  }

  lemma {:induction false} ReleasedStays(cfg: Config, prefix: seq<Event>, suffix: seq<Event>)
    requires suffix != []
    ensures Released(cfg, prefix, suffix[..|suffix| - 1]) ==> Released(cfg, prefix, suffix)
  {
    hide After;
    var shorter := suffix[..|suffix| - 1];
    if i :| 0 <= i < |shorter| && shorter[i] == DISCOVERED && After(cfg, prefix + shorter[..i]).state.Disconnected? {
      assert suffix[i] == DISCOVERED && shorter[..i] == suffix[..i];
    }
  }

  lemma {:induction false} StaysSilenced(cfg: Config, prefix: seq<Event>, suffix: seq<Event>)
    requires Silenced(After(cfg, prefix).state)
    requires (forall e :: e in suffix ==> !e.Init?) && !Released(cfg, prefix, suffix)
    ensures Silenced(After(cfg, prefix + suffix).state) && !WritesSerial(SuffixTrace(cfg, prefix, suffix))
  {
    hide Step, Silenced;
    if suffix == [] {
      assert prefix + suffix == prefix;
    } else {
      var shorter := suffix[..|suffix| - 1];
      ReleasedStays(cfg, prefix, suffix);
      StaysSilenced(cfg, prefix, shorter);
      AfterOneMore(cfg, prefix, suffix);
      var last := LastStep(cfg, prefix + suffix);
      assert !(last.pre.state.Disconnected? && last.event == DISCOVERED) by {
        var i := |suffix| - 1;
        assert suffix[..i] == shorter;
      }
      SilencedStep(cfg, last.pre, last.event);
    }
  }

  /**
   After an emergency stop in any reachable state, nothing is written to the serial port until the
   driver has been Disconnected and then discovered a device (Init is only sent at start-up).
   */
  lemma {:induction false} EstopSilencesTheSerialPort(cfg: Config, events: seq<Event>, later: seq<Event>)
    requires (forall e :: e in later ==> !e.Init?) && !Released(cfg, events + [ESTOP], later)
    ensures !WritesSerial(LastStep(cfg, events + [ESTOP]).fx)
    ensures !WritesSerial(SuffixTrace(cfg, events + [ESTOP], later))
  {
    hide Step, Released, Silenced;
    AfterOneMore(cfg, events, [ESTOP]);
    assert events + [ESTOP][..0] == events;
    EstopStep(cfg, After(cfg, events));
    StaysSilenced(cfg, events + [ESTOP], later);
  }

  // ---------------------------------------------------------------- tasks of an ended session

  /** Sessions begun after `prefix` use only identities that were not yet handed out then. */
  lemma {:induction false} LaterSessionsAreFresh(cfg: Config, prefix: seq<Event>, suffix: seq<Event>)
    requires !After(cfg, prefix).state.InReady?
    ensures var then0, now := After(cfg, prefix).ctx, After(cfg, prefix + suffix);
            && CountersOnlyMove(then0, now.ctx)
            && (now.state.InReady? ==> SessionBook(cfg, prefix + suffix).hi >= then0.nextKey
                                       && SessionBook(cfg, prefix + suffix).lo <= then0.lowKey)
  {
    hide Step, Good, BookAfter, SessionBook;
    if suffix == [] {
      assert prefix + suffix == prefix;
    } else {
      LaterSessionsAreFresh(cfg, prefix, suffix[..|suffix| - 1]);
      AfterOneMore(cfg, prefix, suffix);
      var last := LastStep(cfg, prefix + suffix);
      StepCounters(cfg, last.pre, last.event);
      BookKeepsBounds(cfg, prefix + suffix);
    }
  }

  /** So identities handed out before them send nothing any more. */
  lemma {:induction false} EndedKeysAreSilent(cfg: Config, prefix: seq<Event>, suffix: seq<Event>, key: int)
    requires !After(cfg, prefix).state.InReady?
    requires After(cfg, prefix).ctx.lowKey < key < After(cfg, prefix).ctx.nextKey
    ensures Despooled(SuffixTrace(cfg, prefix, suffix), key) == []
  {
    hide Step, Good, BookAfter, SessionBook;
    if suffix == [] {
      SilentReads([]);
    } else {
      hide Despooled;
      var shorter := suffix[..|suffix| - 1];
      EndedKeysAreSilent(cfg, prefix, shorter, key);
      AfterOneMore(cfg, prefix, suffix);
      LaterSessionsAreFresh(cfg, prefix, suffix);
      TraceSplit(SuffixTrace(cfg, prefix, shorter), LastStep(cfg, prefix + suffix).fx);
      LastStepUsesBook(cfg, prefix + suffix, key);
    }
  }

  /** While a session lasts its book keeps the bounds it began with. */
  lemma {:induction false} BookKeepsBounds(cfg: Config, events: seq<Event>)
    requires events != []
    ensures var pre, before := LastStep(cfg, events).pre, events[..|events| - 1];
            if pre.state.InReady? then
              SessionBook(cfg, events).hi == SessionBook(cfg, before).hi && SessionBook(cfg, events).lo == SessionBook(cfg, before).lo
            else SessionBook(cfg, events).hi == pre.ctx.nextKey && SessionBook(cfg, events).lo == pre.ctx.lowKey
  {
    hide Step;
  }

  lemma {:induction false} LastStepUsesBook(cfg: Config, events: seq<Event>, key: int)
    requires events != []
    requires After(cfg, events).state.InReady? ==> SessionBook(cfg, events).lo < key < SessionBook(cfg, events).hi
    ensures Despooled(LastStep(cfg, events).fx, key) == []
  {
    hide Step, GoodLine, Disciplined, AllConserved, MainInOrder, AllAccounted;
    var last := LastStep(cfg, events);
    if last.post.state.InReady? {
      EverySession(cfg, events);
      SessionGrows(cfg, events);
      assert !InUse(SessionBook(cfg, events), last.post.ctx, key);
      if last.pre.state.InReady? { TraceSplit(SessionTrace(cfg, events[..|events| - 1]), last.fx); }
    } else {
      SilentOutsideReady(cfg, last.pre, last.event);
      SilentReads(last.fx);
    }
  }

  /**
   No gcode of a task that was queued when the driver left Ready, by an emergency stop or otherwise,
   is ever sent afterwards.
   */
  lemma {:induction false} EndedSessionsSendNoMore(cfg: Config, events: seq<Event>, leaving: Event, later: seq<Event>,
      t: Task)
    requires After(cfg, events).state.InReady? && t in After(cfg, events).state.ready.tasks
    requires !After(cfg, events + [leaving]).state.InReady?
    ensures Despooled(SuffixTrace(cfg, events + [leaving], later), t.key) == []
  {
    hide Step, GoodLine, Disciplined, AllConserved, MainInOrder, AllAccounted;
    EverySession(cfg, events);
    assert InUse(SessionBook(cfg, events), After(cfg, events).ctx, t.key);
    AfterOneMore(cfg, events, [leaving]);
    assert events + [leaving][..0] == events;
    StepCounters(cfg, After(cfg, events), leaving);
    BookBelowCounters(cfg, events);
    EndedKeysAreSilent(cfg, events + [leaving], later, t.key);
  }

  lemma {:induction false} BookBelowCounters(cfg: Config, events: seq<Event>)
    ensures SessionBook(cfg, events).hi >= 0 && SessionBook(cfg, events).lo < 0
  {
    hide Step;
    if events != [] {
      BookBelowCounters(cfg, events[..|events| - 1]);
      EverySession(cfg, events[..|events| - 1]);
      BookKeepsBounds(cfg, events);
    }
  }
}
