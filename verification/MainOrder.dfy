/** Over a whole run, reconnects included, gcodes of non-override tasks never interleave. */
module MainOrder {
  import opened Wrappers
  import opened DriverTypes
  import opened DriverSpec
  import opened DriverRuns
  import opened SessionInvariant
  import opened SessionTheorems

  predicate Sorted(keys: seq<int>) {
    forall i, j :: 0 <= i < j < |keys| ==> keys[i] <= keys[j]
  }

  predicate AllBelow(keys: seq<int>, bound: int) {
    forall k :: k in keys ==> k < bound
  }

  lemma {:induction false} SortedConcat(a: seq<int>, b: seq<int>, bound: int)
    requires Sorted(a) && Sorted(b) && AllBelow(a, bound) && forall k :: k in b ==> bound <= k
    ensures Sorted(a + b)
  {
    forall i, j | 0 <= i < j < |a + b| ensures (a + b)[i] <= (a + b)[j] {
      assert i < |a| ==> a[i] in a;
      assert j >= |a| ==> b[j - |a|] in b;
    }
  }

  /** What was emitted before the current session. */
  function Earlier(cfg: Config, events: seq<Event>): seq<Effect> {
    if events == [] then []
    else
      var before := events[..|events| - 1];
      if !After(cfg, events).state.InReady? then RunTrace(cfg, events)
      else if After(cfg, before).state.InReady? then Earlier(cfg, before)
      else RunTrace(cfg, before)
  }

  lemma {:induction false} RunSplits(cfg: Config, events: seq<Event>)
    ensures RunTrace(cfg, events)
         == Earlier(cfg, events) + if After(cfg, events).state.InReady? then SessionTrace(cfg, events) else []
  {
    hide Step;
    if events != [] {
      var before := events[..|events| - 1];
      RunSplits(cfg, before);
      if After(cfg, events).state.InReady? { SessionGrows(cfg, events); }
    }
  }

  /** Everything emitted before the session came from entries admitted before it. */
  lemma {:induction false} EarlierInOrder(cfg: Config, events: seq<Event>)
    ensures var m, earlier := After(cfg, events), MainKeys(Earlier(cfg, events));
            && Sorted(earlier)
            && (if m.state.InReady?
                then AllBelow(earlier, SessionBook(cfg, events).hi) && SessionBook(cfg, events).hi <= m.ctx.nextKey
                else AllBelow(earlier, m.ctx.nextKey))
  {
    hide Step;
    if events != [] {
      var before, last := events[..|events| - 1], LastStep(cfg, events);
      var pre := last.pre;
      EarlierInOrder(cfg, before);
      StepCounters(cfg, pre, last.event);
      RunSplits(cfg, before);
      RunInOrder(cfg, before);
      if !After(cfg, events).state.InReady? {
        SilentOutsideReady(cfg, pre, last.event);
        SilentKeeps(RunTrace(cfg, before), last.fx);
      }
    }
  }

  lemma {:induction false} SessionInOrder(cfg: Config, events: seq<Event>)
    requires After(cfg, events).state.InReady?
    ensures var keys, hi, next := MainKeys(SessionTrace(cfg, events)), SessionBook(cfg, events).hi, After(cfg, events).ctx.nextKey;
            && Sorted(keys) && hi <= next && forall k :: k in keys ==> hi <= k < next
  {
    hide Step, After, Session, SessionTrace, SessionBook, MainKeys, AllConserved, AllAccounted, Disciplined, GoodLine;
    EverySession(cfg, events);
  }

  lemma {:induction false} RunInOrder(cfg: Config, events: seq<Event>)
    requires var m, earlier := After(cfg, events), MainKeys(Earlier(cfg, events));
             && Sorted(earlier)
             && (m.state.InReady? ==> AllBelow(earlier, SessionBook(cfg, events).hi))
             && (!m.state.InReady? ==> AllBelow(earlier, m.ctx.nextKey))
    ensures Sorted(MainKeys(RunTrace(cfg, events)))
    ensures After(cfg, events).state.InReady? ==>
              SessionBook(cfg, events).hi <= After(cfg, events).ctx.nextKey
    ensures AllBelow(MainKeys(RunTrace(cfg, events)), After(cfg, events).ctx.nextKey)
  {
    hide Step, After, Session, SessionTrace, SessionBook, MainKeys, RunTrace, Earlier;
    RunSplits(cfg, events);
    if After(cfg, events).state.InReady? {
      SessionInOrder(cfg, events);
      TraceSplit(Earlier(cfg, events), SessionTrace(cfg, events));
      SortedConcat(MainKeys(Earlier(cfg, events)), MainKeys(SessionTrace(cfg, events)), SessionBook(cfg, events).hi);
    } else {
      assert Earlier(cfg, events) + [] == Earlier(cfg, events);
    }
  }

  /**
   The queue entries non-override gcodes came from, in the order the gcodes were emitted, never go
   back to an earlier entry: non-override tasks run one after the other, in order of arrival.
   */
  lemma {:induction false} MainTasksNeverInterleave(cfg: Config, events: seq<Event>)
    ensures Sorted(MainKeys(RunTrace(cfg, events)))
  {
    hide Step;
    EarlierInOrder(cfg, events);
    RunInOrder(cfg, events);
  }
}
