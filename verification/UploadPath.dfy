/**
 The upload path end to end: messages queued at any time, sent by the round robin, received by the server's
 decoder over a channel that keeps order. Every message that can arrive does, once.
 */
module UploadPath {
  import opened Wrappers
  import opened ChunkFormat
  import opened ChunkSender
  import opened UploadRoundTrip
  import Assembly
  import ChunkDecoder
  import Scheduler

  type Arrival = Assembly.Arrival

  /** What the sender's queue holds for a chunk, before it is built: its serial. */
  type Queue = Scheduler.Queue<nat>
  type Script = Scheduler.Script<nat>

  /** 0, 1, ..., n - 1. */
  function UpTo(n: nat): (serials: seq<nat>)
    ensures |serials| == n && forall i :: 0 <= i < n ==> serials[i] == i
  {
    if n == 0 then [] else UpTo(n - 1) + [n - 1]
  }

  /** Nothing queued, nothing sent, and the round robin anywhere. */
  function Idle(roundRobinIndex: nat): Queue {
    Scheduler.Queue([], roundRobinIndex, [])
  }

  function Total(uploads: Uploads, maxPayload: nat, id: nat): nat
    requires maxPayload >= 6 && id in uploads
  {
    |Chunks(uploads[id], maxPayload)|
  }

  /** The script queues exactly these messages: each once, with all its chunks in order. */
  predicate Queues(script: Script, uploads: Uploads, maxPayload: nat)
    requires maxPayload >= 6
  {
    && (forall message :: message in Scheduler.Messages(script) ==> message.id in uploads)
    && (forall id :: id in uploads ==>
          && Scheduler.Lists(Scheduler.Messages(script), id) == 1
          && Scheduler.QueuedOf(Scheduler.Messages(script), id) == UpTo(Total(uploads, maxPayload, id)))
  }

  /** What goes over the channel. */
  function Arrivals(sent: seq<Scheduler.Sent<nat>>): (arrivals: seq<Arrival>)
    ensures |arrivals| == |sent|
  {
    seq(|sent|, i requires 0 <= i < |sent| => Assembly.Arrival(sent[i].id, sent[i].chunk))
  }

  // ---------------------------------------------------------------- what has been sent by when

  /** The first chunks sent are the first chunks sent of each message. */
  lemma {:induction false} SentPrefix(sent: seq<Scheduler.Sent<nat>>, n: nat, id: nat)
    requires n <= |sent|
    ensures Scheduler.SentOf(sent[..n], id) <= Scheduler.SentOf(sent, id)
    decreases |sent| - n
  {
    if n < |sent| {
      SentPrefix(sent, n + 1, id);
      assert sent[..n + 1][..n] == sent[..n];
    } else {
      assert sent[..n] == sent;
    }
  }

  /** The serials seen are the ones sent. */
  lemma {:induction false} SeenIsSent(sent: seq<Scheduler.Sent<nat>>, id: nat, k: nat)
    requires Scheduler.SentOf(sent, id) == UpTo(k)
    ensures Assembly.Seen(Arrivals(sent), id) == Assembly.Serials(k)
  {
    var arrivals := Arrivals(sent);
    if sent != [] {
      var before, last := sent[..|sent| - 1], sent[|sent| - 1];
      assert Arrivals(before) == arrivals[..|arrivals| - 1];
      Assembly.SeenGrows(arrivals, id);
      if last.id == id {
        assert UpTo(k)[..k - 1] == UpTo(k - 1);
        SeenIsSent(before, id, k - 1);
      } else {
        SeenIsSent(before, id, k);
      }
    }
  }

  /** The chunk sent next of a message is the one after those sent. */
  lemma {:induction false} NextSent(sent: seq<Scheduler.Sent<nat>>, i: nat, total: nat)
    requires i < |sent| && Scheduler.SentOf(sent, sent[i].id) == UpTo(total)
    ensures var id, serial := sent[i].id, sent[i].chunk;
            && serial < total
            && Scheduler.SentOf(sent[..i], id) == UpTo(serial) && Scheduler.SentOf(sent[..i + 1], id) == UpTo(serial + 1)
  {
    var id, serial := sent[i].id, sent[i].chunk;
    SentPrefix(sent, i, id);
    SentPrefix(sent, i + 1, id);
    assert sent[..i + 1][..i] == sent[..i];
    var before, after := Scheduler.SentOf(sent[..i], id), Scheduler.SentOf(sent[..i + 1], id);
    assert after == before + [serial];
    PrefixOfUpTo(before, total);
    PrefixOfUpTo(after, total);
    assert after[|before|] == serial;
  }

  lemma {:induction false} PrefixOfUpTo(s: seq<nat>, n: nat)
    requires s <= UpTo(n)
    ensures s == UpTo(|s|) && |s| <= n
  {
  }

  // ---------------------------------------------------------------- end to end

  lemma {:induction false} EverythingIsSent(uploads: Uploads, maxPayload: nat, roundRobinIndex: nat, script: Script,
      id: nat)
    requires maxPayload >= 6 && Queues(script, uploads, maxPayload)
    ensures var sent := Scheduler.Run(Idle(roundRobinIndex), script).sent;
            Scheduler.SentOf(sent, id) == if id in uploads then UpTo(Total(uploads, maxPayload, id)) else []
  {
    if id !in uploads { NotQueued(Scheduler.Messages(script), id); }
    hide Chunks, UpTo;
    assert Scheduler.SentOf(Idle(roundRobinIndex).sent, id) == [] && Scheduler.QueuedOf(Idle(roundRobinIndex).lists, id) == [];
    Scheduler.EveryChunkOnceInOrder(Idle(roundRobinIndex), script, id);
  }

  lemma {:induction false} NotQueued(messages: seq<Scheduler.Outbound<nat>>, id: nat)
    requires forall message :: message in messages ==> message.id != id
    ensures Scheduler.Lists(messages, id) == 0 && Scheduler.QueuedOf(messages, id) == []
  {
    if messages != [] { NotQueued(messages[1..], id); }
  }

  /** Nothing is sent of what was not queued. */
  lemma {:induction false} SentIsKnown(uploads: Uploads, maxPayload: nat, sent: seq<Scheduler.Sent<nat>>)
    requires maxPayload >= 6
    requires forall id :: Scheduler.SentOf(sent, id) == if id in uploads then UpTo(Total(uploads, maxPayload, id)) else []
    ensures Assembly.Known(Shapes(uploads, maxPayload), Arrivals(sent))
  {
    hide Chunks, UpTo;
    forall i | 0 <= i < |sent|
      ensures sent[i].id in uploads && sent[i].chunk < Total(uploads, maxPayload, sent[i].id)
    {
      SomethingSent(sent, i);
      NextSent(sent, i, Total(uploads, maxPayload, sent[i].id));
    }
    assert forall a :: a in Arrivals(sent) ==> exists i :: 0 <= i < |sent| && a == Assembly.Arrival(sent[i].id, sent[i].chunk);
  }

  lemma {:induction false} SomethingSent(sent: seq<Scheduler.Sent<nat>>, i: nat)
    requires i < |sent|
    ensures Scheduler.SentOf(sent, sent[i].id) != []
  {
    SentPrefix(sent, i + 1, sent[i].id);
    assert sent[..i + 1][i] == sent[i];
  }

  /** What the decoder returns for the `i`th chunk to arrive. */
  function ResultAt(uploads: Uploads, maxPayload: nat, arrivals: seq<Arrival>,
      i: nat): Result<Option<ChunkDecoder.Message>>
    requires maxPayload >= 6 && Assembly.Known(Shapes(uploads, maxPayload), arrivals) && i < |arrivals|
  {
    LastStep(uploads, maxPayload, arrivals[..i + 1]).1
  }

  /**
   Whenever the messages are queued and wherever the round robin stands: every chunk of a message that can
   arrive intact is sent, once, and the decoder returns nothing for any of them but the last, and for that
   exactly the message and its files.
   */
  lemma {:induction false} EveryMessageArrivesOnce(uploads: Uploads, maxPayload: nat, roundRobinIndex: nat,
      script: Script, id: nat)
    requires maxPayload >= 6 && InFlight(uploads, maxPayload) && Queues(script, uploads, maxPayload)
    requires id in uploads && Sound(uploads[id], maxPayload)
    ensures var arrivals := Arrivals(Scheduler.Run(Idle(roundRobinIndex), script).sent);
            var last := Total(uploads, maxPayload, id) - 1;
            && Assembly.Known(Shapes(uploads, maxPayload), arrivals)
            && (forall s: nat :: s <= last ==> Assembly.Arrival(id, s) in arrivals)
            && (forall i, j :: 0 <= i < j < |arrivals| && arrivals[i].id == id ==> arrivals[i] != arrivals[j])
            && (forall i :: 0 <= i < |arrivals| && arrivals[i].id == id ==>
                  ResultAt(uploads, maxPayload, arrivals, i) == if arrivals[i].serial == last then Whole(uploads[id]) else Ok(None))
  {
    hide Chunks, Sound, InFlight, Shapes, ResultAt, Queues, Arrivals, UpTo;
    var sent := Scheduler.Run(Idle(roundRobinIndex), script).sent;
    forall other
      ensures Scheduler.SentOf(sent, other) == if other in uploads then UpTo(Total(uploads, maxPayload, other)) else []
    {
      EverythingIsSent(uploads, maxPayload, roundRobinIndex, script, other);
    }
    SentIsKnown(uploads, maxPayload, sent);
    SentArrives(uploads, maxPayload, sent, id);
  }

  /** The same for any way of sending every chunk once and in order. */
  lemma {:induction false} SentArrives(uploads: Uploads, maxPayload: nat, sent: seq<Scheduler.Sent<nat>>, id: nat)
    requires maxPayload >= 6 && InFlight(uploads, maxPayload)
    requires Assembly.Known(Shapes(uploads, maxPayload), Arrivals(sent))
    requires id in uploads && Sound(uploads[id], maxPayload)
    requires Scheduler.SentOf(sent, id) == UpTo(Total(uploads, maxPayload, id))
    ensures var arrivals, last := Arrivals(sent), Total(uploads, maxPayload, id) - 1;
            && (forall s: nat :: s <= last ==> Assembly.Arrival(id, s) in arrivals)
            && (forall i, j :: 0 <= i < j < |arrivals| && arrivals[i].id == id ==> arrivals[i] != arrivals[j])
            && (forall i :: 0 <= i < |arrivals| && arrivals[i].id == id ==>
                  ResultAt(uploads, maxPayload, arrivals, i) == if arrivals[i].serial == last then Whole(uploads[id]) else Ok(None))
  {
    hide Chunks, Sound, InFlight, Shapes, ResultAt, UpTo;
    HasChunks(uploads[id], maxPayload);
    forall s: nat | s < Total(uploads, maxPayload, id)
      ensures Assembly.Arrival(id, s) in Arrivals(sent)
    {
      EachIsSent(sent, id, Total(uploads, maxPayload, id), s);
    }
    forall i | 0 <= i < |sent| && sent[i].id == id
      ensures ResultAt(uploads, maxPayload, Arrivals(sent), i) ==
              if sent[i].chunk == Total(uploads, maxPayload, id) - 1 then Whole(uploads[id]) else Ok(None)
    {
      ArrivesAt(uploads, maxPayload, sent, i);
    }
    forall i, j | 0 <= i < j < |sent| && sent[i].id == id
      ensures Arrivals(sent)[i] != Arrivals(sent)[j]
    {
      if sent[j].id == id { SentInOrder(sent, i, j, Total(uploads, maxPayload, id)); }
    }
  }

  lemma {:induction false} HasChunks(sections: seq<Bytes>, maxPayload: nat)
    requires maxPayload >= 6 && Sound(sections, maxPayload)
    ensures |Chunks(sections, maxPayload)| > 0 && sections != []
  {
    SoundIsDeliverable(sections, maxPayload);
  }

  lemma {:induction false} SentInOrder(sent: seq<Scheduler.Sent<nat>>, i: nat, j: nat, total: nat)
    requires i < j < |sent| && sent[i].id == sent[j].id && Scheduler.SentOf(sent, sent[i].id) == UpTo(total)
    ensures sent[i].chunk < sent[j].chunk
  {
    NextSent(sent, i, total);
    NextSent(sent, j, total);
    SentPrefix(sent[..j], i + 1, sent[i].id);
    assert sent[..j][..i + 1] == sent[..i + 1];
  }

  lemma {:induction false} EachIsSent(sent: seq<Scheduler.Sent<nat>>, id: nat, total: nat, s: nat)
    requires s < total && Scheduler.SentOf(sent, id) == UpTo(total)
    ensures Assembly.Arrival(id, s) in Arrivals(sent)
  {
    var last := |sent| - 1;
    assert UpTo(total)[total - 1] == total - 1 && UpTo(total)[..total - 1] == UpTo(total - 1);
    if sent[last].id == id && s == total - 1 {
      assert Arrivals(sent)[last] == Assembly.Arrival(id, s);
    } else {
      EachIsSent(sent[..last], id, if sent[last].id == id then total - 1 else total, s);
      var i :| 0 <= i < last && Arrivals(sent[..last])[i] == Assembly.Arrival(id, s);
      assert Arrivals(sent)[i] == Assembly.Arrival(id, s);
    }
  }

  lemma {:induction false} ArrivesAt(uploads: Uploads, maxPayload: nat, sent: seq<Scheduler.Sent<nat>>, i: nat)
    requires maxPayload >= 6 && InFlight(uploads, maxPayload)
    requires Assembly.Known(Shapes(uploads, maxPayload), Arrivals(sent))
    requires i < |sent| && sent[i].id in uploads && Sound(uploads[sent[i].id], maxPayload)
    requires Scheduler.SentOf(sent, sent[i].id) == UpTo(Total(uploads, maxPayload, sent[i].id))
    ensures ResultAt(uploads, maxPayload, Arrivals(sent), i) ==
            if sent[i].chunk == Total(uploads, maxPayload, sent[i].id) - 1 then Whole(uploads[sent[i].id]) else Ok(None)
  {
    hide Chunks, Sound, InFlight, LastStep, Shapes;
    var id, serial, total := sent[i].id, sent[i].chunk, Total(uploads, maxPayload, sent[i].id);
    var arrivals := Arrivals(sent);
    NextSent(sent, i, total);
    SeenIsSent(sent[..i], id, serial);
    SeenIsSent(sent[..i + 1], id, serial + 1);
    assert Arrivals(sent[..i]) == arrivals[..i] && Arrivals(sent[..i + 1]) == arrivals[..i + 1];
    assert arrivals[..i + 1][..i] == arrivals[..i];
    assert serial in Assembly.Serials(total) && serial !in Assembly.Serials(serial);
    assert serial + 1 < total ==> serial + 1 in Assembly.Serials(total) && serial + 1 !in Assembly.Serials(serial + 1);
    UploadsArriveIntact(uploads, maxPayload, arrivals[..i + 1]);
  }
}
