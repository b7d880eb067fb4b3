/** From the server's encoder to the browser's dechunker: any interleaving, reordering and duplication. */
module DownloadRoundTrip {
  import opened Wrappers
  import opened ChunkFormat
  import opened ChunkSender
  import opened ChunkEncoder
  import opened BrowserDechunker
  import opened Assembly

  /** The chunks of a message in the mode in use. */
  function Sent(msg: Bytes): seq<Chunk> {
    MessageChunks(UnreliableUnordered, msg)
  }

  function ShapeOf(msg: Bytes): Shape {
    Shape(|Sent(msg)|, msg != [], Serials(|Sent(msg)|))
  }

  /** Only the highest serial carries the end mark, and serials count up from 0. */
  lemma {:induction false} OnlyTheLastEnds(msg: Bytes, s: nat)
    requires s < |Sent(msg)|
    ensures Sent(msg)[s].serial == s && Sent(msg)[s].fileStart == None
    ensures Sent(msg)[s].endOfMessage <==> s == |Sent(msg)| - 1
  {
    MessageChunkAt(UnreliableUnordered, msg, s);
  }

  // ---------------------------------------------------------------- what the dechunker holds

  /** The record of a message of which the chunks with serials in `have` were received. */
  ghost predicate Records(m: IncomingMessage, chunks: seq<Chunk>, have: set<nat>) {
    && have <= Serials(|chunks|) && |m.chunks| <= |chunks| && m.chunksReceived == |have|
    && (forall s: nat :: s < |chunks| ==>
          if s in have then s < |m.chunks| && m.chunks[s] == Some(chunks[s].payload) else IsHole(m.chunks, s))
    && m.lastSerial == if |chunks| - 1 in have then Some(|chunks| - 1) else None
  }

  ghost predicate Holds(incoming: Incoming, id: nat, chunks: seq<Chunk>, have: set<nat>) {
    if have == {} then id !in incoming else id in incoming && have != Serials(|chunks|) && Records(incoming[id], chunks, have)
  }

  /** Reading a chunk off the wire gives back the chunk. */
  lemma {:induction false} Survives(msg: Bytes, id: nat, s: nat)
    requires s < |Sent(msg)| <= WORD && id < WORD
    ensures var c := Sent(msg)[s];
            ReadChunk(Encode(UnreliableUnordered, id, c)) == Ok(Read(id, Some(s), c.payload, s == |Sent(msg)| - 1))
  {
    hide Sent, DecodeInBrowser, Encode;
    OnlyTheLastEnds(msg, s);
    ReadsBack(id, Sent(msg)[s]);
    assert s % WORD == s && id % WORD == id;
  }

  lemma {:induction false} ReadsBack(id: nat, c: Chunk)
    requires c.fileStart.None?
    ensures ReadChunk(Encode(UnreliableUnordered, id, c)) ==
            Ok(Read(id % WORD, Some(c.serial % WORD), c.payload, c.endOfMessage))
  {
    hide DecodeInBrowser, WordBytes;
    DecodeInBrowserEncode(id, c);
    BitFieldReads(UnreliableUnordered, c.endOfMessage, false);
    assert Encode(UnreliableUnordered, id, c)[0] == BitField(UnreliableUnordered, c.endOfMessage, false);
  }

  lemma {:induction false} RecordsGrow(m: IncomingMessage, chunks: seq<Chunk>, have: set<nat>, c: Read, s: nat)
    requires Records(m, chunks, have) && s < |chunks|
    requires c.serial == Some(s) && c.payload == chunks[s].payload && (c.endOfMessage <==> s == |chunks| - 1)
    ensures Records(Note(m, c), chunks, have + {s})
  {
    if s in have { assert have + {s} == have; }
  }

  lemma {:induction false} ConcatAll(slots: Slots, parts: seq<Bytes>)
    requires |slots| == |parts| && forall i :: 0 <= i < |slots| ==> slots[i] == Some(parts[i])
    ensures Concat(slots) == Ok(Flatten(parts))
  {
    if slots != [] { ConcatAll(slots[1..], parts[1..]); }
  }

  /** The record is complete exactly when no chunk is missing, and then concatenates to the message. */
  lemma {:induction false} CompleteByCount(msg: Bytes, m: IncomingMessage, have: set<nat>)
    requires Records(m, Sent(msg), have) && have != {}
    ensures m.lastSerial.Some? && m.chunksReceived == m.lastSerial.value + 1 <==> have == Serials(|Sent(msg)|)
    ensures have == Serials(|Sent(msg)|) ==> Concat(m.chunks) == Ok(msg)
  {
    var chunks, slices := Sent(msg), Slices(msg, PayloadSize(UnreliableUnordered));
    FullByCount(have, |chunks|);
    if have == Serials(|chunks|) {
      hide Slices;
      assert |chunks| - 1 in have;
      forall s | 0 <= s < |chunks|
        ensures m.chunks[s] == Some(slices[s])
      {
        MessageChunkAt(UnreliableUnordered, msg, s);
      }
      ConcatAll(m.chunks, slices);
      SlicesMakeUpSection(msg, PayloadSize(UnreliableUnordered));
    }
  }

  // ---------------------------------------------------------------- one chunk

  /** What the abstract receiver's verdict means for the dechunker's result. */
  predicate Matches(verdict: Verdict, msg: Bytes, result: Result<Option<Bytes>>) {
    result == if verdict == Complete then Ok(Some(msg)) else Ok(None)
  }

  lemma {:induction false} ReceiveRefines(msg: Bytes, id: nat, s: nat, incoming: Incoming, have: set<nat>)
    requires s < |Sent(msg)| && Holds(incoming, id, Sent(msg), have)
    ensures var c := Read(id, Some(s), Sent(msg)[s].payload, s == |Sent(msg)| - 1);
            var (incoming', result) := ReceiveRead(incoming, c);
            var (verdict, have') := Receive(ShapeOf(msg), have, s);
            && Holds(incoming', id, Sent(msg), have') && incoming' - {id} == incoming - {id}
            && Matches(verdict, msg, result)
  {
    var c := Read(id, Some(s), Sent(msg)[s].payload, s == |Sent(msg)| - 1);
    NotEmpty(msg);
    hide Sent, Records, Note, Concat, ReceiveRead, ReceivedAll;
    RecordAfter(msg, c, s, incoming, have);
    Update(incoming, c, have + {s}, msg);
    if s in have {
      assert have + {s} == have;
    }
  }

  lemma {:induction false} RecordAfter(msg: Bytes, c: Read, s: nat, incoming: Incoming, have: set<nat>)
    requires s < |Sent(msg)| && Holds(incoming, c.id, Sent(msg), have)
    requires c == Read(c.id, Some(s), Sent(msg)[s].payload, s == |Sent(msg)| - 1)
    ensures var noted := Note(if c.id in incoming then incoming[c.id] else NEW, c);
            && Records(noted, Sent(msg), have + {s})
            && (ReceivedAll(noted, c) <==> have + {s} == Serials(|Sent(msg)|))
            && (have + {s} == Serials(|Sent(msg)|) ==> Concat(noted.chunks) == Ok(msg))
  {
    var m := if c.id in incoming then incoming[c.id] else NEW;
    assert Records(m, Sent(msg), have);
    hide Sent, Records, Note, Concat, Serials;
    RecordsGrow(m, Sent(msg), have, c, s);
    CompleteByCount(msg, Note(m, c), have + {s});
    NoteKeepsSerial(m, c);
  }

  lemma {:induction false} NoteKeepsSerial(m: IncomingMessage, c: Read)
    requires c.serial.Some?
    ensures var noted := Note(m, c);
            ReceivedAll(noted, c) <==> noted.lastSerial.Some? && noted.chunksReceived == noted.lastSerial.value + 1
  {
  }

  lemma {:induction false} NotEmpty(msg: Bytes)
    ensures Sent(msg) != [] <==> msg != []
  {
    SlicesEmpty(msg, PayloadSize(UnreliableUnordered));
  }

  lemma {:induction false} Update(incoming: Incoming, c: Read, have: set<nat>, msg: Bytes)
    requires c.serial.Some? && have != {}
    requires var noted := Note(if c.id in incoming then incoming[c.id] else NEW, c);
             && Records(noted, Sent(msg), have)
             && (ReceivedAll(noted, c) <==> have == Serials(|Sent(msg)|))
             && (have == Serials(|Sent(msg)|) ==> Concat(noted.chunks) == Ok(msg))
    ensures var (incoming', result) := ReceiveRead(incoming, c);
            && incoming' - {c.id} == incoming - {c.id}
            && if have == Serials(|Sent(msg)|) then c.id !in incoming' && result == Ok(Some(msg))
               else Holds(incoming', c.id, Sent(msg), have) && result == Ok(None)
  {
    hide Sent, Records, Note, Concat, Serials, ReceivedAll;
    var noted := Note(if c.id in incoming then incoming[c.id] else NEW, c);
    assert incoming[c.id := noted] - {c.id} == incoming - {c.id};
  }

  /** Receiving one chunk off the wire does to the dechunker what it does to the abstract receiver. */
  lemma {:induction false} StepRefines(msg: Bytes, id: nat, s: nat, incoming: Incoming, have: set<nat>)
    requires s < |Sent(msg)| <= WORD && id < WORD && Holds(incoming, id, Sent(msg), have)
    ensures var (incoming', result) := Process(incoming, Encode(UnreliableUnordered, id, Sent(msg)[s]));
            var (verdict, have') := Receive(ShapeOf(msg), have, s);
            && Holds(incoming', id, Sent(msg), have') && incoming' - {id} == incoming - {id}
            && Matches(verdict, msg, result)
  {
    hide Sent, Holds, Serials, ReadChunk, ReceiveRead, Encode;
    Survives(msg, id, s);
    ReceiveRefines(msg, id, s, incoming, have);
  }

  // ---------------------------------------------------------------- whole streams

  /** Messages in flight, by id: the ids are distinct, and ids and serials fit their 32 bits. */
  predicate InFlight(messages: map<nat, Bytes>) {
    forall id :: id in messages ==> id < WORD && |Sent(messages[id])| <= WORD
  }

  function Shapes(messages: map<nat, Bytes>): map<nat, Shape> {
    map id | id in messages :: ShapeOf(messages[id])
  }

  /** The dechunker's state after a stream of the encoder's chunks. */
  function IncomingAfter(messages: map<nat, Bytes>, arrivals: seq<Arrival>): Incoming
    requires Known(Shapes(messages), arrivals)
    decreases |arrivals|, 1
  {
    if arrivals == [] then map[] else LastStep(messages, arrivals).0
  }

  /** What the dechunker does with the last chunk of a stream. */
  function LastStep(messages: map<nat, Bytes>, arrivals: seq<Arrival>): (Incoming, Result<Option<Bytes>>)
    requires Known(Shapes(messages), arrivals) && arrivals != []
    decreases |arrivals|, 0
  {
    var before, last := arrivals[..|arrivals| - 1], arrivals[|arrivals| - 1];
    Process(IncomingAfter(messages, before), EncodeMessage(UnreliableUnordered, last.id, messages[last.id])[last.serial])
  }

  ghost predicate Represents(messages: map<nat, Bytes>, incoming: Incoming, arrivals: seq<Arrival>)
    requires Known(Shapes(messages), arrivals)
  {
    forall id :: id in messages ==> Holds(incoming, id, Sent(messages[id]), Have(Shapes(messages), arrivals, id))
  }

  /** The byte-level dechunker refines abstract reassembly over every stream of chunks. */
  lemma {:induction false} StreamRefines(messages: map<nat, Bytes>, arrivals: seq<Arrival>)
    requires InFlight(messages) && Known(Shapes(messages), arrivals)
    ensures Represents(messages, IncomingAfter(messages, arrivals), arrivals)
    ensures arrivals != [] ==>
              Matches(LastVerdict(Shapes(messages), arrivals), messages[arrivals[|arrivals| - 1].id],
                      LastStep(messages, arrivals).1)
  {
    if arrivals == [] {
      hide Sent;
    } else {
      hide Represents, Sent, EncodeMessage;
      StreamRefines(messages, arrivals[..|arrivals| - 1]);
      StreamStep(messages, arrivals);
    }
  }

  lemma {:induction false} StreamStep(messages: map<nat, Bytes>, arrivals: seq<Arrival>)
    requires InFlight(messages) && Known(Shapes(messages), arrivals) && arrivals != []
    requires Represents(messages, IncomingAfter(messages, arrivals[..|arrivals| - 1]), arrivals[..|arrivals| - 1])
    ensures Represents(messages, LastStep(messages, arrivals).0, arrivals)
    ensures Matches(LastVerdict(Shapes(messages), arrivals), messages[arrivals[|arrivals| - 1].id],
                    LastStep(messages, arrivals).1)
  {
    var shapes := Shapes(messages);
    var before, last := arrivals[..|arrivals| - 1], arrivals[|arrivals| - 1];
    assert EncodeMessage(UnreliableUnordered, last.id, messages[last.id])[last.serial] ==
           Encode(UnreliableUnordered, last.id, Sent(messages[last.id])[last.serial]);
    hide Sent, Encode, EncodeMessage, Process, Receive, Serials, Holds, IncomingAfter;
    var incoming := IncomingAfter(messages, before);
    StepRefines(messages[last.id], last.id, last.serial, incoming, Have(shapes, before, last.id));
    var incoming' := LastStep(messages, arrivals).0;
    forall id | id in messages
      ensures Holds(incoming', id, Sent(messages[id]), Have(shapes, arrivals, id))
    {
      if id != last.id {
        SameElsewhere(incoming, incoming', last.id, id, Sent(messages[id]), Have(shapes, before, id));
      }
    }
  }

  lemma {:induction false} SameElsewhere(incoming: Incoming, incoming': Incoming, id: nat, other: nat,
      chunks: seq<Chunk>, have: set<nat>)
    requires incoming' - {id} == incoming - {id} && other != id
    ensures Holds(incoming, other, chunks, have) == Holds(incoming', other, chunks, have)
  {
    assert other in incoming' <==> other in incoming' - {id};
    assert other in incoming <==> other in incoming - {id};
    if other in incoming { assert (incoming' - {id})[other] == (incoming - {id})[other]; }
  }

  /**
   For any messages in flight with distinct ids and any stream of their chunks, interleaved, reordered and
   duplicated: the dechunker returns nothing for a message until its last missing chunk, and then exactly its
   bytes. No condition on the message is needed, since an empty one has no chunk to arrive.
   */
  lemma {:induction false} DownloadsArriveIntact(messages: map<nat, Bytes>, arrivals: seq<Arrival>)
    requires InFlight(messages) && Known(Shapes(messages), arrivals) && arrivals != []
    requires var id := arrivals[|arrivals| - 1].id;
             Seen(arrivals[..|arrivals| - 1], id) != Serials(|Sent(messages[id])|)
    ensures var id := arrivals[|arrivals| - 1].id;
            LastStep(messages, arrivals).1 ==
            if Seen(arrivals, id) == Serials(|Sent(messages[id])|) then Ok(Some(messages[id])) else Ok(None)
  {
    var id := arrivals[|arrivals| - 1].id;
    NotEmpty(messages[id]);
    hide Sent, Serials, LastStep, Seen;
    StreamRefines(messages, arrivals);
    DeliveredByLastMissingChunk(Shapes(messages), arrivals);
  }

  // ---------------------------------------------------------------- the ordered mode

  /** The browser after some buffers in a row, and what the last one gave. */
  function Fed(incoming: Incoming, wire: seq<Bytes>): (Incoming, Result<Option<Bytes>>) {
    if wire == [] then (incoming, Ok(None))
    else Process(Fed(incoming, wire[..|wire| - 1]).0, wire[|wire| - 1])
  }

  lemma {:induction false} OrderedRead(id: nat, c: Chunk)
    requires c.fileStart.None?
    ensures ReadChunk(Encode(ReliableOrdered, id, c)) == Ok(Read(0, None, c.payload, c.endOfMessage))
  {
    var buffer := Encode(ReliableOrdered, id, c);
    BitFieldReads(ReliableOrdered, c.endOfMessage, false);
    assert buffer[1..] == c.payload;
  }

  /** The payloads of a message that is coming in. */
  function Given(slices: seq<Bytes>): (slots: Slots)
    ensures |slots| == |slices|
  {
    seq(|slices|, i requires 0 <= i < |slices| => Some(slices[i]))
  }

  lemma {:induction false} GivenJoins(slices: seq<Bytes>)
    ensures Concat(Given(slices)) == Ok(Flatten(slices))
  {
    if slices != [] {
      GivenJoins(slices[1..]);
      assert Given(slices)[1..] == Given(slices[1..]);
    }
  }

  /** What the browser holds with the first payloads of a message. */
  function Holding(incoming: Incoming, held: seq<Bytes>): Incoming {
    if held == [] then incoming else incoming[0 := IncomingMessage(Given(held), 0, None)]
  }

  lemma {:induction false} OrderedStep(incoming: Incoming, held: seq<Bytes>, payload: Bytes, endOfMessage: bool)
    requires 0 !in incoming
    ensures ReceiveRead(Holding(incoming, held), Read(0, None, payload, endOfMessage)) ==
            if endOfMessage then (incoming, Ok(Some(Flatten(held + [payload]))))
            else (Holding(incoming, held + [payload]), Ok(None))
  {
    var holding, c := Holding(incoming, held), Read(0, None, payload, endOfMessage);
    var noted := Note(if 0 in holding then holding[0] else NEW, c);
    assert Given(held) + [Some(payload)] == Given(held + [payload]);
    GivenJoins(held + [payload]);
    hide Concat;
    assert noted == IncomingMessage(Given(held + [payload]), 0, None);
    assert holding[0 := noted] == incoming[0 := noted] && holding - {0} == incoming;
  }

  lemma {:induction false} FedOneMore(incoming: Incoming, wire: seq<Bytes>, n: nat, c: Read)
    requires 0 < n <= |wire| && ReadChunk(wire[n - 1]) == Ok(c)
    ensures Fed(incoming, wire[..n]) == ReceiveRead(Fed(incoming, wire[..n - 1]).0, c)
  {
    assert wire[..n][..n - 1] == wire[..n - 1];
    hide ReadChunk, ReceiveRead;
  }

  lemma {:induction false} OrderedChunk(id: nat, msg: Bytes, s: nat)
    requires s < |EncodeMessage(ReliableOrdered, id, msg)|
    ensures var wire, slices := EncodeMessage(ReliableOrdered, id, msg), Slices(msg, PayloadSize(ReliableOrdered));
            |slices| == |wire| && ReadChunk(wire[s]) == Ok(Read(0, None, slices[s], s == |wire| - 1))
  {
    MessageChunkAt(ReliableOrdered, msg, s);
    OrderedRead(id, MessageChunks(ReliableOrdered, msg)[s]);
    hide Slices, Encode, ReadChunk;
  }

  /** The buffers are read as these payloads, the last one with the end mark. */
  predicate ReadsAs(wire: seq<Bytes>, slices: seq<Bytes>) {
    |wire| == |slices| && forall s :: 0 <= s < |wire| ==> ReadChunk(wire[s]) == Ok(Read(0, None, slices[s], s == |wire| - 1))
  }

  /** Chunk after chunk the browser collects the payloads, until the one that is marked as the last. */
  lemma {:induction false} Collects(incoming: Incoming, wire: seq<Bytes>, slices: seq<Bytes>, n: nat)
    requires 0 !in incoming && ReadsAs(wire, slices) && n <= |wire|
    ensures n < |wire| ==> Fed(incoming, wire[..n]) == (Holding(incoming, slices[..n]), Ok(None))
    ensures 0 < n == |wire| ==> Fed(incoming, wire[..n]) == (incoming, Ok(Some(Flatten(slices))))
  {
    if n == 0 {
      assert wire[..0] == [] && slices[..0] == [];
    } else {
      var c := Read(0, None, slices[n - 1], n == |wire|);
      assert ReadChunk(wire[n - 1]) == Ok(c) && |wire| == |slices|;
      hide ReadChunk, ReceiveRead, Holding, Flatten, Fed, ReadsAs;
      Collects(incoming, wire, slices, n - 1);
      FedOneMore(incoming, wire, n, c);
      OrderedStep(incoming, slices[..n - 1], slices[n - 1], n == |wire|);
      assert slices[..n - 1] + [slices[n - 1]] == slices[..n] && slices[..|slices|] == slices;
    }
  }

  lemma {:induction false} SameLength(id: nat, msg: Bytes)
    ensures |EncodeMessage(ReliableOrdered, id, msg)| == |Slices(msg, PayloadSize(ReliableOrdered))|
  {
  }

  /**
   In the ordered mode too a message arrives intact, chunk after chunk: nothing is returned until its last
   chunk, and then the message, and nothing of it is kept.
   */
  lemma {:induction false} OrderedDownloadsArrive(incoming: Incoming, id: nat, msg: Bytes)
    requires 0 !in incoming && msg != []
    ensures var wire := EncodeMessage(ReliableOrdered, id, msg);
            && wire != []
            && (forall n :: 0 < n < |wire| ==> Fed(incoming, wire[..n]).1 == Ok(None))
            && Fed(incoming, wire) == (incoming, Ok(Some(msg)))
  {
    var wire, slices := EncodeMessage(ReliableOrdered, id, msg), Slices(msg, PayloadSize(ReliableOrdered));
    SlicesMakeUpSection(msg, PayloadSize(ReliableOrdered));
    SameLength(id, msg);
    hide EncodeMessage, Slices, Fed, ReadChunk, Flatten;
    forall s | 0 <= s < |wire| ensures ReadChunk(wire[s]) == Ok(Read(0, None, slices[s], s == |wire| - 1)) {
      OrderedChunk(id, msg, s);
    }
    forall n | 0 <= n < |wire| ensures Fed(incoming, wire[..n]).1 == Ok(None) { Collects(incoming, wire, slices, n); }
    Collects(incoming, wire, slices, |wire|);
    assert wire[..|wire|] == wire;
  }
}
