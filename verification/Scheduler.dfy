/**
 The browser's outgoing queue: one list of chunks per message, served round robin by a single loop, while
 further messages are queued whenever the loop waits for a chunk to be built.
 */
module Scheduler {

  /** The chunks of a message that have still to go out. The id only names the message. */
  datatype Outbound<T> = Outbound(id: nat, chunks: seq<T>)

  datatype Sent<T> = Sent(id: nat, chunk: T)

  datatype Queue<T> = Queue(lists: seq<Outbound<T>>, roundRobinIndex: nat, sent: seq<Sent<T>>)

  /** The messages queued during each wait of the loop; what follows the loop's end starts it anew. */
  type Script<T> = seq<seq<Outbound<T>>>

  /** Which of `n` lists is served. */
  function Index(n: nat, roundRobinIndex: nat): (i: nat)
    requires n >= 1
    ensures i < n && (n >= 2 ==> i < n - 1)
  {
    if n == 1 then 0 else roundRobinIndex % (n - 1)
  }

  function Served<T>(q: Queue<T>): (i: nat)
    requires |q.lists| > 0
    ensures i < |q.lists|
  {
    Index(|q.lists|, q.roundRobinIndex + 1)
  }

  predicate Sends<T>(q: Queue<T>)
    requires |q.lists| > 0
  {
    |q.lists[Served(q)].chunks| > 0
  }

  /** One turn of the loop; only a turn that sends waits, so only it sees messages being queued. */
  function Turn<T>(q: Queue<T>, pushed: seq<Outbound<T>>): Queue<T>
    requires |q.lists| > 0
  {
    var i := Served(q);
    var list := q.lists[i];
    if Sends(q) then
      Queue(q.lists[i := list.(chunks := list.chunks[1..])] + pushed, q.roundRobinIndex + 1,
            q.sent + [Sent(list.id, list.chunks[0])])
    else
      Queue(q.lists[..i] + q.lists[i + 1..], q.roundRobinIndex + 1, q.sent)
  }

  // ---------------------------------------------------------------- the measure

  function Work<T>(lists: seq<Outbound<T>>, each: nat): nat {
    if |lists| == 0 then 0 else each + |lists[0].chunks| + Work(lists[1..], each)
  }

  function ScriptWork<T>(script: Script<T>): nat {
    if |script| == 0 then 0 else 1 + Work(script[0], 2) + ScriptWork(script[1..])
  }

  lemma {:induction false} WorkConcat<T>(a: seq<Outbound<T>>, b: seq<Outbound<T>>, each: nat)
    ensures Work(a + b, each) == Work(a, each) + Work(b, each)
  {
    if |a| == 0 {
      assert a + b == b;
    } else {
      assert (a + b)[1..] == a[1..] + b;
      WorkConcat(a[1..], b, each);
    }
  }

  lemma {:induction false} WorkEach<T>(lists: seq<Outbound<T>>)
    ensures Work(lists, 1) <= Work(lists, 2)
  {
    if |lists| > 0 { WorkEach(lists[1..]); }
  }

  /** A list in the middle. */
  lemma {:induction false} WorkAt<T>(lists: seq<Outbound<T>>, i: nat)
    requires i < |lists|
    ensures Work(lists, 1) == Work(lists[..i], 1) + 1 + |lists[i].chunks| + Work(lists[i + 1..], 1)
  {
    assert lists == lists[..i] + ([lists[i]] + lists[i + 1..]);
    WorkConcat(lists[..i], [lists[i]] + lists[i + 1..], 1);
    assert ([lists[i]] + lists[i + 1..])[1..] == lists[i + 1..];
  }

  lemma {:induction false} TurnWorks<T>(q: Queue<T>, pushed: seq<Outbound<T>>)
    requires |q.lists| > 0
    ensures Work(Turn(q, pushed).lists, 1) == Work(q.lists, 1) - 1 + if Sends(q) then Work(pushed, 1) else 0
  {
    var i := Served(q);
    var lists, list := q.lists, q.lists[i];
    WorkAt(lists, i);
    if Sends(q) {
      var lists' := lists[i := list.(chunks := list.chunks[1..])];
      WorkAt(lists', i);
      assert lists'[..i] == lists[..i] && lists'[i + 1..] == lists[i + 1..];
      WorkConcat(lists', pushed, 1);
    } else {
      WorkConcat(lists[..i], lists[i + 1..], 1);
    }
  }

  // ---------------------------------------------------------------- the loop

  function First<T>(script: Script<T>): seq<Outbound<T>> {
    if |script| == 0 then [] else script[0]
  }

  function Rest<T>(script: Script<T>): Script<T> {
    if |script| == 0 then [] else script[1..]
  }

  lemma {:induction false} PushWorks<T>(script: Script<T>)
    ensures Work(First(script), 1) + ScriptWork(Rest(script)) <= ScriptWork(script)
  {
    WorkEach(First(script));
  }

  /** What is left to do. */
  function Remaining<T>(q: Queue<T>, script: Script<T>): nat {
    Work(q.lists, 1) + ScriptWork(script)
  }

  /** One turn, with what is queued during it. */
  function Next<T>(q: Queue<T>, script: Script<T>): (Queue<T>, Script<T>)
    requires |q.lists| > 0
  {
    if Sends(q) then (Turn(q, First(script)), Rest(script)) else (Turn(q, []), script)
  }

  lemma {:induction false} NextWorks<T>(q: Queue<T>, script: Script<T>)
    requires |q.lists| > 0
    ensures Remaining(Next(q, script).0, Next(q, script).1) < Remaining(q, script)
  {
    TurnWorks(q, if Sends(q) then First(script) else []);
    PushWorks(script);
  }

  /** The loop, until nothing is queued. */
  function Drain<T>(q: Queue<T>, script: Script<T>): (end: (Queue<T>, Script<T>))
    ensures end.0.lists == [] && ScriptWork(end.1) <= Remaining(q, script)
    decreases Remaining(q, script)
  {
    if |q.lists| == 0 then (q, script)
    else
      NextWorks(q, script);
      Drain(Next(q, script).0, Next(q, script).1)
  }

  /** The whole life of the queue: a message queued while nothing is queued starts the loop. */
  function Run<T>(q: Queue<T>, script: Script<T>): Queue<T>
    decreases Remaining(q, script), |script|
  {
    var (idle, rest) := Drain(q, script);
    if |rest| == 0 then idle
    else if |rest[0]| == 0 then Run(idle, rest[1..])
    else
      RestartWorks(rest);
      Run(idle.(lists := [rest[0][0]]), [rest[0][1..]] + rest[1..])
  }

  lemma {:induction false} RestartWorks<T>(script: Script<T>)
    requires |script| > 0 && |script[0]| > 0
    ensures Work([script[0][0]], 1) + ScriptWork([script[0][1..]] + script[1..]) < ScriptWork(script)
  {
    assert ([script[0][1..]] + script[1..])[1..] == script[1..];
  }

  // ---------------------------------------------------------------- nothing lost, repeated or reordered

  /** What was sent of a message, in order. */
  function SentOf<T>(sent: seq<Sent<T>>, id: nat): seq<T> {
    if |sent| == 0 then []
    else SentOf(sent[..|sent| - 1], id) + if sent[|sent| - 1].id == id then [sent[|sent| - 1].chunk] else []
  }

  /** What is queued of a message. */
  function QueuedOf<T>(lists: seq<Outbound<T>>, id: nat): seq<T> {
    if |lists| == 0 then [] else (if lists[0].id == id then lists[0].chunks else []) + QueuedOf(lists[1..], id)
  }

  /** How many lists a message has. */
  function Lists<T>(lists: seq<Outbound<T>>, id: nat): nat {
    if |lists| == 0 then 0 else (if lists[0].id == id then 1 else 0) + Lists(lists[1..], id)
  }

  function Messages<T>(script: Script<T>): seq<Outbound<T>> {
    if |script| == 0 then [] else script[0] + Messages(script[1..])
  }

  lemma {:induction false} Split<T>(a: seq<Outbound<T>>, b: seq<Outbound<T>>, id: nat)
    ensures QueuedOf(a + b, id) == QueuedOf(a, id) + QueuedOf(b, id)
    ensures Lists(a + b, id) == Lists(a, id) + Lists(b, id)
  {
    if |a| == 0 {
      assert a + b == b;
    } else {
      assert (a + b)[1..] == a[1..] + b;
      Split(a[1..], b, id);
    }
  }

  lemma {:induction false} NoLists<T>(lists: seq<Outbound<T>>, id: nat)
    requires Lists(lists, id) == 0
    ensures QueuedOf(lists, id) == []
  {
    if |lists| > 0 { NoLists(lists[1..], id); }
  }

  lemma {:induction false} At<T>(lists: seq<Outbound<T>>, i: nat, id: nat)
    requires i < |lists|
    ensures Lists(lists, id) == Lists(lists[..i], id) + (if lists[i].id == id then 1 else 0) + Lists(lists[i + 1..], id)
    ensures QueuedOf(lists, id) ==
            QueuedOf(lists[..i], id) + (if lists[i].id == id then lists[i].chunks else []) + QueuedOf(lists[i + 1..], id)
  {
    var tail := [lists[i]] + lists[i + 1..];
    assert lists == lists[..i] + tail;
    Split(lists[..i], tail, id);
    assert tail[1..] == lists[i + 1..];
  }

  lemma {:induction false} SentAppend<T>(sent: seq<Sent<T>>, one: Sent<T>, id: nat)
    ensures SentOf(sent + [one], id) == SentOf(sent, id) + if one.id == id then [one.chunk] else []
  {
    assert (sent + [one])[..|sent|] == sent;
  }

  /** Taking the first chunk of a list takes the message's first queued chunk. */
  lemma {:induction false} TakeConserves<T>(lists: seq<Outbound<T>>, i: nat, id: nat)
    requires i < |lists| && |lists[i].chunks| > 0 && Lists(lists, id) <= 1
    ensures var list := lists[i];
            var lists' := lists[i := list.(chunks := list.chunks[1..])];
            && Lists(lists', id) == Lists(lists, id)
            && (if list.id == id then [list.chunks[0]] else []) + QueuedOf(lists', id) == QueuedOf(lists, id)
  {
    var list := lists[i];
    var lists' := lists[i := list.(chunks := list.chunks[1..])];
    At(lists, i, id);
    At(lists', i, id);
    assert lists'[..i] == lists[..i] && lists'[i + 1..] == lists[i + 1..];
    if list.id == id {
      NoLists(lists[..i], id);
      NoLists(lists[i + 1..], id);
      assert list.chunks == [list.chunks[0]] + list.chunks[1..];
    }
  }

  /** A turn moves the first queued chunk of one message, or drops an empty list. */
  lemma {:induction false} TurnConserves<T>(q: Queue<T>, pushed: seq<Outbound<T>>, id: nat)
    requires |q.lists| > 0 && Lists(q.lists, id) + Lists(pushed, id) <= 1
    ensures var q' := Turn(q, pushed);
            && Lists(q'.lists, id) <= Lists(q.lists, id) + (if Sends(q) then Lists(pushed, id) else 0)
            && SentOf(q'.sent, id) + QueuedOf(q'.lists, id) ==
               SentOf(q.sent, id) + QueuedOf(q.lists, id) + (if Sends(q) then QueuedOf(pushed, id) else [])
  {
    hide SentOf, QueuedOf, Lists;
    var i := Served(q);
    var lists, list := q.lists, q.lists[i];
    if Sends(q) {
      var lists' := lists[i := list.(chunks := list.chunks[1..])];
      TakeConserves(lists, i, id);
      Split(lists', pushed, id);
      SentAppend(q.sent, Sent(list.id, list.chunks[0]), id);
      hide Index;
    } else {
      At(lists, i, id);
      Split(lists[..i], lists[i + 1..], id);
    }
  }

  /** Everything a message has: sent, queued and still to be queued. */
  function AllOf<T>(q: Queue<T>, script: Script<T>, id: nat): seq<T> {
    SentOf(q.sent, id) + QueuedOf(q.lists, id) + QueuedOf(Messages(script), id)
  }

  function AllLists<T>(q: Queue<T>, script: Script<T>, id: nat): nat {
    Lists(q.lists, id) + Lists(Messages(script), id)
  }

  lemma {:induction false} NextConserves<T>(q: Queue<T>, script: Script<T>, id: nat)
    requires |q.lists| > 0 && AllLists(q, script, id) <= 1
    ensures var (q', script') := Next(q, script);
            AllOf(q', script', id) == AllOf(q, script, id) && AllLists(q', script', id) <= AllLists(q, script, id)
  {
    if Sends(q) {
      var pushed, rest := First(script), Rest(script);
      assert Messages(script) == pushed + Messages(rest);
      hide SentOf, QueuedOf, Lists, Messages, Turn, Sends, First, Rest;
      Split(pushed, Messages(rest), id);
      TurnConserves(q, pushed, id);
      Regroup(SentOf(q.sent, id) + QueuedOf(q.lists, id), QueuedOf(pushed, id), QueuedOf(Messages(rest), id));
    } else {
      hide SentOf, QueuedOf, Lists, Messages, Turn, Sends;
      TurnConserves(q, [], id);
    }
  }

  lemma {:induction false} Regroup<T>(a: seq<T>, b: seq<T>, c: seq<T>)
    ensures (a + b) + c == a + (b + c)
  {
  }

  lemma {:induction false} DrainConserves<T>(q: Queue<T>, script: Script<T>, id: nat)
    requires AllLists(q, script, id) <= 1
    ensures var (idle, rest) := Drain(q, script);
            AllOf(idle, rest, id) == AllOf(q, script, id) && AllLists(idle, rest, id) <= AllLists(q, script, id)
    decreases Remaining(q, script)
  {
    hide AllOf, AllLists, Next, Remaining;
    if |q.lists| > 0 {
      NextWorks(q, script);
      NextConserves(q, script, id);
      DrainConserves(Next(q, script).0, Next(q, script).1, id);
    }
  }

  /** Starting the loop again with the next message changes nothing but where that message is. */
  lemma {:induction false} RestartConserves<T>(idle: Queue<T>, script: Script<T>, id: nat)
    requires idle.lists == [] && |script| > 0
    ensures |script[0]| == 0 ==>
              AllOf(idle, script[1..], id) == AllOf(idle, script, id) && AllLists(idle, script[1..], id) == AllLists(idle, script, id)
    ensures |script[0]| > 0 ==>
              var restarted, script' := idle.(lists := [script[0][0]]), [script[0][1..]] + script[1..];
              AllOf(restarted, script', id) == AllOf(idle, script, id) && AllLists(restarted, script', id) == AllLists(idle, script, id)
  {
    if |script[0]| == 0 {
      assert Messages(script) == Messages(script[1..]);
    } else {
      var script' := [script[0][1..]] + script[1..];
      assert script'[1..] == script[1..];
      assert Messages(script) == [script[0][0]] + Messages(script');
      hide Messages;
      Split([script[0][0]], Messages(script'), id);
    }
  }

  /**
   However messages are queued, before the loop, during its waits and after it has ended: it ends, and what
   has been sent of every message is its chunks, each once and in order, and of any other id nothing.
   */
  lemma {:induction false} EveryChunkOnceInOrder<T>(q: Queue<T>, script: Script<T>, id: nat)
    requires AllLists(q, script, id) <= 1
    ensures Run(q, script).lists == []
    ensures SentOf(Run(q, script).sent, id) == AllOf(q, script, id)
    decreases Remaining(q, script), |script|
  {
    DrainConserves(q, script, id);
    var (idle, rest) := Drain(q, script);
    if |rest| > 0 {
      RestartConserves(idle, rest, id);
      if |rest[0]| > 0 { RestartWorks(rest); }
      hide AllOf, AllLists, Drain;
      if |rest[0]| == 0 {
        EveryChunkOnceInOrder(idle, rest[1..], id);
      } else {
        EveryChunkOnceInOrder(idle.(lists := [rest[0][0]]), [rest[0][1..]] + rest[1..], id);
      }
    }
  }

  // ---------------------------------------------------------------- the newest list waits

  function Tagged<T>(list: Outbound<T>): (sent: seq<Sent<T>>)
    ensures |sent| == |list.chunks|
  {
    seq(|list.chunks|, i requires 0 <= i < |list.chunks| => Sent(list.id, list.chunks[i]))
  }

  predicate EndsWith<T(==)>(sent: seq<Sent<T>>, tail: seq<Sent<T>>) {
    |tail| <= |sent| && sent[|sent| - |tail|..] == tail
  }

  /** A turn leaves the newest of several lists as it is; a list alone is sent on. */
  lemma {:induction false} NewestWaits<T>(q: Queue<T>)
    requires |q.lists| >= 2
    ensures var lists' := Next(q, []).0.lists;
            |lists'| > 0 && lists'[|lists'| - 1] == q.lists[|q.lists| - 1]
  {
    var i := Served(q);
    assert i < |q.lists| - 1;
  }

  /**
   The round robin starves the newest message: when nothing more is queued, the chunks of the list that was
   queued last go out after all the chunks of all the others.
   */
  lemma {:induction false} NewestGoesLast<T>(q: Queue<T>)
    requires |q.lists| > 0
    ensures EndsWith(Drain(q, []).0.sent, Tagged(q.lists[|q.lists| - 1]))
    decreases Remaining(q, [])
  {
    NextWorks(q, []);
    var (q', script) := Next(q, []);
    if |q.lists| >= 2 {
      NewestWaits(q);
      NewestGoesLast(q');
    } else if Sends(q) {
      AloneIsSent(q);
    }
  }

  lemma {:induction false} AloneIsSent<T>(q: Queue<T>)
    requires |q.lists| == 1
    ensures Drain(q, []).0.sent == q.sent + Tagged(q.lists[0])
    decreases Remaining(q, [])
  {
    NextWorks(q, []);
    var list := q.lists[0];
    if Sends(q) {
      var q' := Next(q, []).0;
      assert q'.lists == [list.(chunks := list.chunks[1..])];
      AloneIsSent(q');
      assert Tagged(list) == [Sent(list.id, list.chunks[0])] + Tagged(list.(chunks := list.chunks[1..]));
      hide Drain;
      assert q'.sent + Tagged(q'.lists[0]) == q.sent + Tagged(list);
    } else {
      assert Next(q, []).0.lists == [];
      assert Tagged(list) == [];
    }
  }

  /**
   A message queued while the loop waits goes behind all that are queued: if it is the last to be queued, its
   chunks go out after all the others.
   */
  lemma {:induction false} NewcomersGoLast<T>(q: Queue<T>, pushed: seq<Outbound<T>>)
    requires |q.lists| > 0 && Sends(q) && |pushed| > 0
    ensures EndsWith(Drain(Turn(q, pushed), []).0.sent, Tagged(pushed[|pushed| - 1]))
  {
    var q' := Turn(q, pushed);
    assert q'.lists[|q'.lists| - 1] == pushed[|pushed| - 1];
    NewestGoesLast(q');
  }

  // ---------------------------------------------------------------- the others take turns

  /** Some turns of the loop, with nothing queued meanwhile. */
  function Turns<T>(q: Queue<T>, k: nat): Queue<T>
    requires k > 0 ==> |q.lists| > 0
  {
    if k == 0 then q
    else
      var before := Turns(q, k - 1);
      if |before.lists| == 0 then before else Turn(before, [])
  }

  /** The list that the `j`th of the coming turns serves, when `m` lists take turns. */
  function Slot(roundRobinIndex: nat, j: nat, m: nat): (i: nat)
    requires m >= 1
    ensures i < m
  {
    (roundRobinIndex + 1 + j) % m
  }

  lemma {:induction false} Remainder(n: int, m: int, q: int, r: int)
    requires m >= 1 && n == q * m + r && 0 <= r < m
    ensures n % m == r
  {
    var d, rest := n / m - q, n % m;
    assert d * m == r - rest;
    assert d >= 1 ==> d * m >= m;
    assert d <= -1 ==> d * m <= -m;
  }

  /** Of `m` turns in a row no two serve the same list. */
  lemma {:induction false} SlotsDiffer(roundRobinIndex: nat, j: nat, k: nat, m: nat)
    requires j < k < m
    ensures Slot(roundRobinIndex, j, m) != Slot(roundRobinIndex, k, m)
  {
    var a, b := roundRobinIndex + 1 + j, roundRobinIndex + 1 + k;
    var d := b / m - a / m;
    assert (k - j) - (b % m - a % m) == d * m;
    assert d >= 1 ==> d * m >= m;
    assert d <= 0 ==> d * m <= 0;
  }

  /** And each list has a turn. */
  lemma {:induction false} SlotOf(roundRobinIndex: nat, i: nat, m: nat) returns (j: nat)
    requires i < m
    ensures j < m && Slot(roundRobinIndex, j, m) == i
  {
    var a := roundRobinIndex + 1;
    var c := a % m;
    j := if i >= c then i - c else i + m - c;
    Remainder(a + j, m, if i >= c then a / m else a / m + 1, i);
  }

  /** None of the first `k` turns serves list `i`. */
  predicate StillWaits(roundRobinIndex: nat, k: nat, i: nat, m: nat)
    requires m >= 1
  {
    forall j :: 0 <= j < k ==> Slot(roundRobinIndex, j, m) != i
  }

  function WithoutFirst<T>(list: Outbound<T>): Outbound<T>
    requires |list.chunks| > 0
  {
    list.(chunks := list.chunks[1..])
  }

  /** What a list has to send first. */
  function FirstOf<T>(q: Queue<T>, i: nat): Sent<T>
    requires i < |q.lists| && |q.lists[i].chunks| > 0
  {
    Sent(q.lists[i].id, q.lists[i].chunks[0])
  }

  /** All lists but the newest have something to send. */
  predicate OthersSend<T>(q: Queue<T>) {
    |q.lists| >= 2 && forall i :: 0 <= i < |q.lists| - 1 ==> |q.lists[i].chunks| > 0
  }

  /** After `k` turns: who has been served, with what, and who has not. */
  ghost predicate Rotated<T>(q: Queue<T>, k: nat, q': Queue<T>)
    requires OthersSend(q)
  {
    var m := |q.lists| - 1;
    && |q'.lists| == |q.lists| && q'.roundRobinIndex == q.roundRobinIndex + k && q'.lists[m] == q.lists[m]
    && (forall j :: 0 <= j < k ==> q'.lists[Slot(q.roundRobinIndex, j, m)] == WithoutFirst(q.lists[Slot(q.roundRobinIndex, j, m)]))
    && (forall i :: 0 <= i < m && StillWaits(q.roundRobinIndex, k, i, m) ==> q'.lists[i] == q.lists[i])
    && |q'.sent| == |q.sent| + k && q'.sent[..|q.sent|] == q.sent
    && (forall j :: 0 <= j < k ==>
          var list := q.lists[Slot(q.roundRobinIndex, j, m)]; q'.sent[|q.sent| + j] == Sent(list.id, list.chunks[0]))
  }

  /** One turn more, of a list that was not served yet. */
  lemma {:induction false} RotatesOn<T>(q: Queue<T>, k: nat, before: Queue<T>, i: nat)
    requires OthersSend(q) && k > 0 && Rotated(q, k - 1, before) && i == Slot(q.roundRobinIndex, k - 1, |q.lists| - 1)
    requires StillWaits(q.roundRobinIndex, k - 1, i, |q.lists| - 1)
    ensures before.lists[i] == q.lists[i]
    ensures Rotated(q, k, Queue(before.lists[i := WithoutFirst(q.lists[i])], before.roundRobinIndex + 1,
                                before.sent + [Sent(q.lists[i].id, q.lists[i].chunks[0])]))
  {
    hide Slot;
  }

  lemma {:induction false} TurnOfFull<T>(q: Queue<T>, i: nat)
    requires |q.lists| >= 2 && i == Served(q) && |q.lists[i].chunks| > 0
    ensures Turn(q, []) == Queue(q.lists[i := WithoutFirst(q.lists[i])], q.roundRobinIndex + 1,
                                 q.sent + [Sent(q.lists[i].id, q.lists[i].chunks[0])])
  {
    assert q.lists[i := WithoutFirst(q.lists[i])] + [] == q.lists[i := WithoutFirst(q.lists[i])];
  }

  lemma {:induction false} Rotates<T>(q: Queue<T>, k: nat)
    requires OthersSend(q) && k < |q.lists|
    ensures Rotated(q, k, Turns(q, k))
  {
    if k > 0 {
      Rotates(q, k - 1);
      RotatesByOne(q, k, Turns(q, k - 1));
      NextSlot(q, k, Turns(q, k - 1));
      hide Rotated, Turn;
    }
  }

  lemma {:induction false} RotatesByOne<T>(q: Queue<T>, k: nat, before: Queue<T>)
    requires OthersSend(q) && 0 < k < |q.lists| && Rotated(q, k - 1, before)
    ensures |before.lists| > 0 && Rotated(q, k, Turn(before, []))
  {
    var m := |q.lists| - 1;
    var i := Slot(q.roundRobinIndex, k - 1, m);
    NewSlot(q.roundRobinIndex, k, m);
    RotatesOn(q, k, before, i);
    NextSlot(q, k, before);
    hide Slot, Rotated, Turn, Served, StillWaits;
    TurnOfFull(before, i);
  }

  lemma {:induction false} NewSlot(roundRobinIndex: nat, k: nat, m: nat)
    requires 0 < k <= m
    ensures StillWaits(roundRobinIndex, k - 1, Slot(roundRobinIndex, k - 1, m), m)
  {
    forall j | 0 <= j < k - 1 ensures Slot(roundRobinIndex, j, m) != Slot(roundRobinIndex, k - 1, m) {
      SlotsDiffer(roundRobinIndex, j, k - 1, m);
    }
  }

  lemma {:induction false} NextSlot<T>(q: Queue<T>, k: nat, before: Queue<T>)
    requires OthersSend(q) && k > 0 && Rotated(q, k - 1, before)
    ensures |before.lists| == |q.lists| && Served(before) == Slot(q.roundRobinIndex, k - 1, |q.lists| - 1)
  {
    var m := |q.lists| - 1;
    assert before.roundRobinIndex + 1 == q.roundRobinIndex + 1 + (k - 1);
    assert m == 1 ==> Slot(q.roundRobinIndex, k - 1, m) == 0;
  }

  /**
   The older lists take turns: when nothing is queued and all lists but the newest have something to send, as
   many turns as there are older lists send the first chunk of each of them, once, and nothing else.
   */
  lemma {:induction false} OlderListsTakeTurns<T>(q: Queue<T>)
    requires OthersSend(q)
    ensures var m := |q.lists| - 1;
            var q' := Turns(q, m);
            && |q'.lists| == |q.lists| && q'.lists[m] == q.lists[m]
            && (forall i :: 0 <= i < m ==> q'.lists[i] == WithoutFirst(q.lists[i]))
            && |q'.sent| == |q.sent| + m && q'.sent[..|q.sent|] == q.sent
            && (forall i :: 0 <= i < m ==> FirstOf(q, i) in q'.sent[|q.sent|..])
  {
    var m := |q.lists| - 1;
    var q' := Turns(q, m);
    Rotates(q, m);
    hide Turns, FirstOf;
    forall i | 0 <= i < m ensures q'.lists[i] == WithoutFirst(q.lists[i]) && FirstOf(q, i) in q'.sent[|q.sent|..] {
      ServedOnce(q, q', i);
    }
  }

  lemma {:induction false} ServedOnce<T>(q: Queue<T>, q': Queue<T>, i: nat)
    requires OthersSend(q) && Rotated(q, |q.lists| - 1, q') && i < |q.lists| - 1
    ensures q'.lists[i] == WithoutFirst(q.lists[i]) && FirstOf(q, i) in q'.sent[|q.sent|..]
  {
    var j := SlotOf(q.roundRobinIndex, i, |q.lists| - 1);
    hide Slot;
    assert q'.sent[|q.sent|..][j] == q'.sent[|q.sent| + j];
  }

  // ---------------------------------------------------------------- the closure that holds the queue

  class Outgoing<T> {
    var chunks: seq<Outbound<T>>
    var roundRobinIndex: nat
    var sent: seq<Sent<T>>

    function State(): Queue<T>
      reads this
    {
      Queue(chunks, roundRobinIndex, sent)
    }

    constructor ()
      ensures State() == Queue([], 0, [])
    {
      chunks, roundRobinIndex, sent := [], 0, [];
    }

    /** The sending loop; `rest` is what had not been queued when it ended. */
    method SendNextChunks(script: Script<T>) returns (rest: Script<T>)
      modifies this
      ensures (State(), rest) == Drain(old(State()), script)
    {
      hide Next, Remaining;
      rest := script;
      while |chunks| > 0
        invariant Drain(State(), rest) == Drain(old(State()), script)
        decreases Remaining(State(), rest)
      {
        NextWorks(State(), rest);
        rest := SendNext(rest);
      }
    }

    /** The loop's body. */
    method SendNext(script: Script<T>) returns (rest: Script<T>)
      requires |chunks| > 0
      modifies this
      ensures (State(), rest) == Next(old(State()), script)
    {
      rest := script;
      roundRobinIndex := roundRobinIndex + 1;
      var index := if |chunks| == 1 then 0 else roundRobinIndex % (|chunks| - 1);
      var msgChunks := chunks[index];
      if |msgChunks.chunks| == 0 {
        chunks := chunks[..index] + chunks[index + 1..];
      } else {
        var chunk := msgChunks.chunks[0];
        chunks := chunks[index := msgChunks.(chunks := msgChunks.chunks[1..])];
        chunks, rest := chunks + First(rest), Rest(rest);
        sent := sent + [Sent(msgChunks.id, chunk)];
      }
    }

    /** Queues a message, and starts the loop when nothing was queued. */
    method Send(message: Outbound<T>, script: Script<T>) returns (rest: Script<T>)
      modifies this
      ensures (State(), rest) ==
              if old(|chunks|) == 0 then Drain(old(State()).(lists := [message]), script)
              else (old(State()).(lists := old(chunks) + [message]), script)
    {
      var previouslyEmptyChunks := |chunks| == 0;
      chunks := chunks + [message];
      if previouslyEmptyChunks {
        rest := SendNextChunks(script);
      } else {
        rest := script;
      }
    }
  }
}
