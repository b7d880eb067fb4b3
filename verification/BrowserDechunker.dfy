/** The browser's dechunker: a sparse array of payloads per message, delivered when none is missing. */
module BrowserDechunker {
  import opened Wrappers
  import opened ChunkFormat

  /** A JavaScript array with holes. */
  type Slots = seq<Option<Bytes>>

  datatype IncomingMessage = IncomingMessage(chunks: Slots, chunksReceived: nat, lastSerial: Option<nat>)

  type Incoming = map<nat, IncomingMessage>

  /** A chunk as the browser reads it; there is a serial only in the unordered mode. */
  datatype Read = Read(id: nat, serial: Option<nat>, payload: Bytes, endOfMessage: bool)

  function ReadChunk(buffer: Bytes): Result<Read> {
    match DecodeInBrowser(buffer)
    case Err(error) => Err(error)
    case Ok(c) => Ok(Read(c.id, if MaskMode(buffer[0]) == 0 then Some(c.serial) else None, c.payload, c.endOfMessage))
  }

  predicate IsHole(slots: Slots, i: nat) {
    i >= |slots| || slots[i] == None
  }

  /** Assignment to an index extends the array with holes. */
  function Put(slots: Slots, i: nat, payload: Bytes): (put: Slots)
    ensures |put| == if i < |slots| then |slots| else i + 1
    ensures forall j: nat :: j < |put| ==> put[j] == if j == i then Some(payload) else if j < |slots| then slots[j] else None
  {
    if i < |slots| then slots[i := Some(payload)]
    else slots + seq(i - |slots|, _ => None) + [Some(payload)]
  }

  /** Concatenation throws on a hole. */
  function Concat(slots: Slots): Result<Bytes> {
    if slots == [] then Ok([])
    else if slots[0] == None then Err("not a buffer")
    else match Concat(slots[1..])
      case Err(error) => Err(error)
      case Ok(rest) => Ok(slots[0].value + rest)
  }

  function Note(m: IncomingMessage, c: Read): IncomingMessage {
    match c.serial
    case None => m.(chunks := m.chunks + [Some(c.payload)])
    case Some(serial) =>
      IncomingMessage(
        if IsHole(m.chunks, serial) then Put(m.chunks, serial, c.payload) else m.chunks,
        m.chunksReceived + (if IsHole(m.chunks, serial) then 1 else 0),
        if c.endOfMessage then Some(serial) else m.lastSerial)
  }

  predicate ReceivedAll(m: IncomingMessage, c: Read) {
    match c.serial
    case None => c.endOfMessage
    case Some(_) => m.lastSerial.Some? && m.chunksReceived == m.lastSerial.value + 1
  }

  const NEW := IncomingMessage([], 0, None)

  function ReceiveRead(incoming: Incoming, c: Read): (Incoming, Result<Option<Bytes>>) {
    var noted := Note(if c.id in incoming then incoming[c.id] else NEW, c);
    if ReceivedAll(noted, c) then
      match Concat(noted.chunks)
      case Err(error) => (incoming[c.id := noted], Err(error))
      case Ok(message) => (incoming - {c.id}, Ok(Some(message)))
    else (incoming[c.id := noted], Ok(None))
  }

  function Process(incoming: Incoming, buffer: Bytes): (Incoming, Result<Option<Bytes>>) {
    match ReadChunk(buffer)
    case Err(error) => (incoming, Err(error))
    case Ok(c) => ReceiveRead(incoming, c)
  }

  class Dechunker {
    var incomingMessages: Incoming

    constructor ()
      ensures incomingMessages == map[]
    {
      incomingMessages := map[];
    }

    method ProcessEvent(buffer: Bytes) returns (message: Result<Option<Bytes>>)
      modifies this
      ensures (incomingMessages, message) == Process(old(incomingMessages), buffer)
    {
      hide DecodeInBrowser, Concat, Put;
      var read := ReadChunk(buffer);
      if read.Err? {
        return Err(read.error);
      }
      var c := read.value;
      var m := if c.id in incomingMessages then incomingMessages[c.id] else NEW;
      var receivedAllChunks;
      if c.serial.Some? {
        var serial := c.serial.value;
        if IsHole(m.chunks, serial) {
          m := m.(chunks := Put(m.chunks, serial, c.payload), chunksReceived := m.chunksReceived + 1);
        }
        if c.endOfMessage {
          m := m.(lastSerial := Some(serial));
        }
        receivedAllChunks := m.lastSerial.Some? && m.chunksReceived == m.lastSerial.value + 1;
      } else {
        m := m.(chunks := m.chunks + [Some(c.payload)]);
        receivedAllChunks := c.endOfMessage;
      }
      var before := incomingMessages;
      incomingMessages := before[c.id := m];
      if !receivedAllChunks {
        return Ok(None);
      }
      var text := Concat(m.chunks);
      if text.Err? {
        return Err(text.error);
      }
      Forgets(before, c.id, m);
      incomingMessages := incomingMessages - {c.id};
      message := Ok(Some(text.value));
    }
  }

  lemma {:induction false} Forgets(incoming: Incoming, id: nat, m: IncomingMessage)
    ensures incoming[id := m] - {id} == incoming - {id}
  {
  }
}
