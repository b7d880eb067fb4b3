/** The SaltyRTC chunk on the wire, with this repository's file bit: how it is written and read. */
module ChunkFormat {
  import opened Wrappers

  type Byte = b: int | 0 <= b < 256
  type Bytes = seq<Byte>

  const WORD := 0x1_0000_0000

  datatype Mode = ReliableOrdered | UnreliableUnordered

  /**
   A chunk before it is written. `fileStart`, present in the chunks of files, is the serial of the first
   chunk of the file.
   */
  datatype Chunk = Chunk(serial: nat, fileStart: Option<nat>, payload: Bytes, endOfMessage: bool)

  // ---------------------------------------------------------------- 32 bit words, big endian

  function LowByte(n: nat): Byte {
    var low: nat := n % 256;
    low
  }

  /** A word as four bytes; higher bits are lost. */
  function WordBytes(n: nat): (bytes: Bytes)
    ensures |bytes| == 4
  {
    var p: nat, q: nat, r: nat := n / 0x100, n / 0x1_0000, n / 0x100_0000;
    [LowByte(r), LowByte(q), LowByte(p), LowByte(n)]
  }

  function ReadWord(bytes: Bytes): (n: nat)
    requires |bytes| >= 4
    ensures n < WORD
  {
    var r: nat, q: nat, p: nat, low: nat := bytes[0], bytes[1], bytes[2], bytes[3];
    r * 0x100_0000 + q * 0x1_0000 + p * 0x100 + low
  }

  lemma {:induction false} WordRoundTrip(n: nat)
    ensures ReadWord(WordBytes(n)) == n % WORD
  {
    var p, q, r := n / 0x100, n / 0x1_0000, n / 0x100_0000;
    assert q == p / 0x100 && r == q / 0x100;
    assert n == ((r * 256 + q % 256) * 256 + p % 256) * 256 + n % 256;
  }

  // ---------------------------------------------------------------- the bit field

  /** The bits of the options byte: 1 end of message, 2 and 4 the mode, 8 multipart file. */
  function ModeBits(mode: Mode): Byte {
    match mode
    case ReliableOrdered => 6
    case UnreliableUnordered => 0
  }

  function BitField(mode: Mode, endOfMessage: bool, multipart: bool): Byte {
    ModeBits(mode) + (if endOfMessage then 1 else 0) + (if multipart then 8 else 0)
  }

  predicate HasEnd(field: Byte) { field % 2 == 1 }

  predicate HasMultipart(field: Byte) { field / 8 % 2 == 1 }

  /** The options byte masked to its mode bits. */
  function MaskMode(field: Byte): Byte { field / 2 % 4 * 2 }

  lemma {:induction false} BitFieldReads(mode: Mode, endOfMessage: bool, multipart: bool)
    ensures var field := BitField(mode, endOfMessage, multipart);
            && HasEnd(field) == endOfMessage && HasMultipart(field) == multipart && MaskMode(field) == ModeBits(mode)
  {
  }

  // ---------------------------------------------------------------- writing

  function HeaderSize(mode: Mode, multipart: bool): nat {
    (match mode case ReliableOrdered => 1 case UnreliableUnordered => 9) + if multipart then 4 else 0
  }

  function Header(mode: Mode, id: nat, c: Chunk): (bytes: Bytes)
    ensures |bytes| == HeaderSize(mode, c.fileStart.Some?)
  {
    [BitField(mode, c.endOfMessage, c.fileStart.Some?)]
    + (if mode == UnreliableUnordered then WordBytes(id) + WordBytes(c.serial) else [])
    + (if c.fileStart.Some? then WordBytes(c.fileStart.value) else [])
  }

  function Encode(mode: Mode, id: nat, c: Chunk): Bytes {
    Header(mode, id, c) + c.payload
  }

  // ---------------------------------------------------------------- reading, in the server

  datatype Parsed = Parsed(id: nat, serial: nat, sectionStart: nat, payload: Bytes, endOfMessage: bool)

  /**
   How the server reads a chunk. The length test runs after the options byte has been consumed, so it asks
   for one byte more than the header and one byte of payload.
   */
  function Decode(mode: Mode, buffer: Bytes): Result<Parsed> {
    if |buffer| < 1 then Err("Incomplete SaltyRTC Chunk received")
    else
      var field, rest := buffer[0], buffer[1..];
      if MaskMode(field) != ModeBits(mode) then Err("Invalid bit field received")
      else if |rest| < HeaderSize(mode, HasMultipart(field)) + 1 then Err("Incomplete SaltyRTC Chunk received")
      else
        var (id, serial, rest1) :=
          if mode == UnreliableUnordered then (ReadWord(rest), ReadWord(rest[4..]), rest[8..]) else (0, 0, rest);
        var (start, payload) := if HasMultipart(field) then (ReadWord(rest1), rest1[4..]) else (0, rest1);
        Ok(Parsed(id, serial, start, payload, HasEnd(field)))
  }

  /** What survives of a chunk on the wire. */
  function OnWire(id: nat, c: Chunk): Parsed {
    Parsed(id % WORD, c.serial % WORD, c.fileStart.GetOr(0) % WORD, c.payload, c.endOfMessage)
  }

  lemma {:induction false} WordPrefix(n: nat, rest: Bytes)
    ensures ReadWord(WordBytes(n) + rest) == n % WORD && (WordBytes(n) + rest)[4..] == rest
  {
    WordRoundTrip(n);
  }

  /**
   The server reads back what was written exactly when the payload has at least two bytes; shorter
   payloads it rejects.
   */
  lemma {:induction false} DecodeEncode(id: nat, c: Chunk)
    ensures var result := Decode(UnreliableUnordered, Encode(UnreliableUnordered, id, c));
            if |c.payload| >= 2 then result == Ok(OnWire(id, c)) else result.Err?
  {
    var mode := UnreliableUnordered;
    var buffer := Encode(mode, id, c);
    var field := BitField(mode, c.endOfMessage, c.fileStart.Some?);
    BitFieldReads(mode, c.endOfMessage, c.fileStart.Some?);
    var tail := (if c.fileStart.Some? then WordBytes(c.fileStart.value) else []) + c.payload;
    assert buffer[0] == field;
    assert buffer[1..] == WordBytes(id) + (WordBytes(c.serial) + tail);
    WordPrefix(id, WordBytes(c.serial) + tail);
    WordPrefix(c.serial, tail);
    assert buffer[1..][8..] == buffer[1..][4..][4..];
    if c.fileStart.Some? {
      WordPrefix(c.fileStart.value, c.payload);
    } else {
      assert tail == c.payload;
    }
  }

  // ---------------------------------------------------------------- reading, in the browser

  /** How the browser reads a chunk; it knows no file bit. None where reading past the end throws. */
  function DecodeInBrowser(buffer: Bytes): Result<Parsed> {
    if |buffer| < 1 then Err("out of range")
    else if MaskMode(buffer[0]) == 6 then Ok(Parsed(0, 0, 0, buffer[1..], HasEnd(buffer[0])))
    else if MaskMode(buffer[0]) == 0 then
      if |buffer| < 9 then Err("out of range")
      else Ok(Parsed(ReadWord(buffer[1..]), ReadWord(buffer[5..]), 0, buffer[9..], HasEnd(buffer[0])))
    else Err("Invalid SaltyRTC mode")
  }

  /** The browser reads back every chunk without a file start, however short. */
  lemma {:induction false} DecodeInBrowserEncode(id: nat, c: Chunk)
    requires c.fileStart.None?
    ensures DecodeInBrowser(Encode(UnreliableUnordered, id, c)) == Ok(OnWire(id, c))
  {
    var buffer := Encode(UnreliableUnordered, id, c);
    BitFieldReads(UnreliableUnordered, c.endOfMessage, false);
    assert buffer[1..] == WordBytes(id) + (WordBytes(c.serial) + c.payload);
    WordPrefix(id, WordBytes(c.serial) + c.payload);
    WordPrefix(c.serial, c.payload);
    assert buffer[5..] == buffer[1..][4..] && buffer[9..] == buffer[5..][4..];
  }
}
