/** The server's decoder: partial messages by id, sections by first serial, delivery when complete. */
module ChunkDecoder {
  import opened Wrappers
  import opened ChunkFormat
  import Assembly

  /** Chunks of one section, by serial. */
  type Section = map<nat, Bytes>

  datatype PartialMessage = PartialMessage(
    chunks: set<nat>,
    sections: map<nat, Section>,
    finalSerial: Option<nat>)

  datatype Message = Message(payload: Bytes, files: seq<Bytes>)

  type Store = map<nat, PartialMessage>

  const EMPTY := PartialMessage({}, map[], None)

  // ---------------------------------------------------------------- ordered maps

  lemma {:induction false} LeastExists(keys: set<nat>, k: nat)
    requires k in keys
    ensures exists m :: m in keys && forall j :: j in keys ==> m <= j
    decreases k
  {
    if j: nat :| j in keys && j < k {
      LeastExists(keys, j);
    }
  }

  /** The first key of an ordered map. */
  function Least(keys: set<nat>): (m: nat)
    requires keys != {}
    ensures m in keys && forall k :: k in keys ==> m <= k
  {
    LeastExists(keys, var k :| k in keys; k);
    var m :| m in keys && forall k :: k in keys ==> m <= k;
    m
  }

  /** The chunks of a section, in order of serial. */
  function JoinSection(section: Section): Bytes
    decreases |section|
  {
    if section == map[] then []
    else
      var k := Least(section.Keys);
      section[k] + JoinSection(section - {k})
  }

  /** The sections, in order of first serial. */
  function JoinSections(sections: map<nat, Section>): (joined: seq<Bytes>)
    ensures |joined| == |sections|
    decreases |sections|
  {
    if sections == map[] then []
    else
      var k := Least(sections.Keys);
      [JoinSection(sections[k])] + JoinSections(sections - {k})
  }

  // ---------------------------------------------------------------- one chunk

  /** A chunk goes into its section; in the unordered mode the end mark is remembered. */
  function AddChunk(mode: Mode, p: PartialMessage, c: Parsed): (added: PartialMessage)
    ensures |added.sections| > 0
  {
    var section: Section := if c.sectionStart in p.sections then p.sections[c.sectionStart] else map[];
    var sections := p.sections[c.sectionStart := section[c.serial := c.payload]];
    assert c.sectionStart in sections;
    PartialMessage(p.chunks + {c.serial}, sections,
                   if mode == UnreliableUnordered && c.endOfMessage then Some(c.serial) else p.finalSerial)
  }

  predicate IsComplete(mode: Mode, p: PartialMessage, endOfMessage: bool) {
    match mode
    case ReliableOrdered => endOfMessage
    case UnreliableUnordered => p.finalSerial.Some? && |p.chunks| == p.finalSerial.value + 1
  }

  function CompleteMessage(p: PartialMessage): Message
    requires |p.sections| > 0
  {
    var joined := JoinSections(p.sections);
    Message(joined[0], joined[1..])
  }

  function ReceiveChunk(mode: Mode, store: Store, c: Parsed): (Store, Option<Message>) {
    var partial := if c.id in store then store[c.id] else EMPTY;
    if mode == UnreliableUnordered && c.serial in partial.chunks then (store[c.id := partial], None)
    else
      var added := AddChunk(mode, partial, c);
      if IsComplete(mode, added, c.endOfMessage) then (store - {c.id}, Some(CompleteMessage(added)))
      else (store[c.id := added], None)
  }

  function DecodeSingle(mode: Mode, store: Store, buffer: Bytes): (Store, Result<Option<Message>>) {
    match Decode(mode, buffer)
    case Err(error) => (store, Err(error))
    case Ok(c) => var (store', message) := ReceiveChunk(mode, store, c); (store', Ok(message))
  }

  lemma {:induction false} Forgets(store: Store, id: nat, p: PartialMessage)
    ensures store[id := p] - {id} == store - {id}
  {
  }

  /** The decoder object; `decode_stream` feeds it chunk after chunk. */
  class Decoder {
    const mode: Mode
    var partialMessages: Store

    constructor (mode: Mode)
      ensures this.mode == mode && partialMessages == map[]
    {
      this.mode := mode;
      partialMessages := map[];
    }

    method DecodeSingleMessage(buffer: Bytes) returns (result: Result<Option<Message>>)
      modifies this
      ensures (partialMessages, result) == DecodeSingle(mode, old(partialMessages), buffer)
    {
      hide Decode, ReceiveChunk;
      var parsed := Decode(mode, buffer);
      if parsed.Err? {
        return Err(parsed.error);
      }
      var message := Receive(parsed.value);
      result := Ok(message);
    }

    /** The part of `decode_single_message` after the chunk has been parsed. */
    method Receive(c: Parsed) returns (message: Option<Message>)
      modifies this
      ensures (partialMessages, message) == ReceiveChunk(mode, old(partialMessages), c)
    {
      hide CompleteMessage, JoinSections, IsComplete, AddChunk;
      var store := partialMessages;
      var partial := if c.id in store then store[c.id] else EMPTY;
      if mode == UnreliableUnordered && c.serial in partial.chunks {
        partialMessages := store[c.id := partial];
        return None;
      }
      partial := Insert(partial, c);
      partialMessages := store[c.id := partial];
      if IsComplete(mode, partial, c.endOfMessage) {
        Forgets(store, c.id, partial);
        message := TakeMessage(c.id);
      } else {
        message := None;
      }
    }

    method Insert(p: PartialMessage, c: Parsed) returns (partial: PartialMessage)
      ensures partial == AddChunk(mode, p, c)
    {
      partial := p.(chunks := p.chunks + {c.serial});
      var section: Section := if c.sectionStart in partial.sections then partial.sections[c.sectionStart] else map[];
      section := section[c.serial := c.payload];
      partial := partial.(sections := partial.sections[c.sectionStart := section]);
      if mode == UnreliableUnordered && c.endOfMessage {
        partial := partial.(finalSerial := Some(c.serial));
      }
    }

    method TakeMessage(id: nat) returns (message: Option<Message>)
      requires id in partialMessages && |partialMessages[id].sections| > 0
      modifies this
      ensures partialMessages == old(partialMessages) - {id}
      ensures message == Some(CompleteMessage(old(partialMessages)[id]))
    {
      var partial := partialMessages[id];
      partialMessages := partialMessages - {id};
      message := Some(CompleteMessage(partial));
    }
  }
}
