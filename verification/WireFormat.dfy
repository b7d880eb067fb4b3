/**
 Where everything is in a chunk on the wire, which buffers the server takes for chunks, and how long chunks
 are. Nothing here says how a chunk is put together.
 */
module WireFormat {
  import opened Wrappers
  import opened ChunkFormat
  import opened ChunkSender
  import opened ChunkEncoder

  // ---------------------------------------------------------------- layout

  /** The number that some bytes stand for, the first one counting most. */
  function Value(bytes: Bytes): nat {
    if bytes == [] then 0 else Value(bytes[..|bytes| - 1]) * 256 + bytes[|bytes| - 1]
  }

  /** What the bits of the options byte mean. */
  predicate Options(field: Byte, ordered: bool, endOfMessage: bool, file: bool) {
    && (field % 2 == 1 <==> endOfMessage)
    && (field / 2 % 2 == 1 <==> ordered) && (field / 4 % 2 == 1 <==> ordered)
    && (field / 8 % 2 == 1 <==> file)
    && field < 16
  }

  /** The words of an unordered chunk follow the options: message, serial and, for files, the file's first serial. */
  predicate Words(buffer: Bytes, id: nat, c: Chunk) {
    && |buffer| >= 9 && Value(buffer[1..5]) == id % 0x1_0000_0000 && Value(buffer[5..9]) == c.serial % 0x1_0000_0000
    && (c.fileStart.Some? ==> |buffer| >= 13 && Value(buffer[9..13]) == c.fileStart.value % 0x1_0000_0000)
  }

  lemma {:induction false} ValueOfWord(bytes: Bytes)
    requires |bytes| == 4
    ensures Value(bytes) == ReadWord(bytes)
  {
    var three, two, one := bytes[..3], bytes[..2], bytes[..1];
    assert three[..2] == two && two[..1] == one && one[..0] == [];
    assert Value(one) == bytes[0];
    var first: nat, second: nat := bytes[0], bytes[1];
    assert Value(two) == first * 256 + second;
    assert Value(three) == (first * 256 + second) * 256 + bytes[2];
  }

  lemma {:induction false} WordValue(n: nat)
    ensures Value(WordBytes(n)) == n % 0x1_0000_0000
  {
    ValueOfWord(WordBytes(n));
    WordRoundTrip(n);
  }

  /** The layout of every chunk: options, then the words in the unordered mode, then the payload. */
  lemma {:induction false} Layout(mode: Mode, id: nat, c: Chunk)
    ensures var buffer := Encode(mode, id, c);
            var header := (if mode == ReliableOrdered then 1 else 9) + if c.fileStart.Some? then 4 else 0;
            && |buffer| == header + |c.payload| && buffer[header..] == c.payload
            && Options(buffer[0], mode == ReliableOrdered, c.endOfMessage, c.fileStart.Some?)
            && (mode == UnreliableUnordered ==> Words(buffer, id, c))
  {
    var buffer := Encode(mode, id, c);
    WordValue(id);
    WordValue(c.serial);
    WordValue(c.fileStart.GetOr(0));
    hide WordBytes, Value;
    if mode == UnreliableUnordered {
      assert buffer[1..5] == WordBytes(id) && buffer[5..9] == WordBytes(c.serial);
      assert c.fileStart.Some? ==> buffer[9..13] == WordBytes(c.fileStart.value);
    }
  }

  // ---------------------------------------------------------------- what the server accepts

  /** Words that fit 32 bits, and a payload of two bytes at least. */
  predicate Sendable(id: nat, c: Chunk) {
    id < WORD && c.serial < WORD && c.fileStart.GetOr(0) < WORD && |c.payload| >= 2
  }

  lemma {:induction false} BytesOfWord(bytes: Bytes)
    requires |bytes| == 4
    ensures WordBytes(ReadWord(bytes)) == bytes
  {
    var a: nat, b: nat, c: nat, d: nat := bytes[0], bytes[1], bytes[2], bytes[3];
    var n := ReadWord(bytes);
    assert n == ((a * 256 + b) * 256 + c) * 256 + d;
    Divide(n, (a * 256 + b) * 256 + c, d);
    Divide((a * 256 + b) * 256 + c, a * 256 + b, c);
    Divide(a * 256 + b, a, b);
    assert n / 0x1_0000 == (n / 256) / 256 && n / 0x100_0000 == ((n / 256) / 256) / 256;
  }

  lemma {:induction false} Divide(n: nat, q: nat, r: nat)
    requires n == q * 256 + r && r < 256
    ensures n / 256 == q && n % 256 == r
  {
  }

  lemma {:induction false} FieldOfBits(field: Byte)
    requires field < 16 && MaskMode(field) == 0
    ensures BitField(UnreliableUnordered, HasEnd(field), HasMultipart(field)) == field
  {
  }

  /** A buffer that is accepted is the encoding of a chunk. */
  lemma {:induction false} AcceptedIsEncoded(buffer: Bytes)
    requires |buffer| > 0 && buffer[0] < 16 && Decode(UnreliableUnordered, buffer).Ok?
    ensures exists id, c :: Sendable(id, c) && buffer == Encode(UnreliableUnordered, id, c)
  {
    var field, rest := buffer[0], buffer[1..];
    var file := HasMultipart(field);
    FieldOfBits(field);
    var id, serial := ReadWord(buffer[1..5]), ReadWord(buffer[5..9]);
    BytesOfWord(buffer[1..5]);
    BytesOfWord(buffer[5..9]);
    if file { BytesOfWord(buffer[9..13]); }
    hide ReadWord, WordBytes;
    var c := if file then Chunk(serial, Some(ReadWord(buffer[9..13])), buffer[13..], HasEnd(field))
             else Chunk(serial, None, buffer[9..], HasEnd(field));
    assert buffer[1..] == buffer[1..5] + buffer[5..9] + buffer[9..];
    assert file ==> buffer[9..] == buffer[9..13] + buffer[13..];
    assert Sendable(id, c) by { WordsFit(buffer); }
    assert buffer == Encode(UnreliableUnordered, id, c);
  }

  lemma {:induction false} WordsFit(buffer: Bytes)
    ensures |buffer| >= 9 ==> ReadWord(buffer[1..5]) < WORD && ReadWord(buffer[5..9]) < WORD
    ensures |buffer| >= 13 ==> ReadWord(buffer[9..13]) < WORD
  {
  }

  /**
   The server accepts exactly the encodings of chunks with at least two bytes of payload. It looks at the lower
   half of the options byte only.
   */
  lemma {:induction false} AcceptsExactlyChunks(buffer: Bytes)
    requires |buffer| > 0
    ensures Decode(UnreliableUnordered, buffer) == Decode(UnreliableUnordered, [buffer[0] % 16] + buffer[1..])
    ensures buffer[0] < 16 ==>
              (Decode(UnreliableUnordered, buffer).Ok? <==>
                 exists id, c :: Sendable(id, c) && buffer == Encode(UnreliableUnordered, id, c))
  {
    assert ([buffer[0] % 16] + buffer[1..])[1..] == buffer[1..];
    LowHalf(buffer[0]);
    if buffer[0] < 16 {
      if Decode(UnreliableUnordered, buffer).Ok? { AcceptedIsEncoded(buffer); }
      if id, c :| Sendable(id, c) && buffer == Encode(UnreliableUnordered, id, c) { DecodeEncode(id, c); }
    }
  }

  lemma {:induction false} LowHalf(field: Byte)
    ensures var low := field % 16;
            MaskMode(low) == MaskMode(field) && HasEnd(low) == HasEnd(field) && HasMultipart(low) == HasMultipart(field)
  {
    var high: nat, low: nat := field / 16, field % 16;
    assert field / 2 == high * 8 + low / 2 && field / 8 == high * 2 + low / 8;
    assert (high * 8 + low / 2) % 4 == low / 2 % 4 && (high * 2 + low / 8) % 2 == low / 8 % 2;
  }

  // ---------------------------------------------------------------- how long chunks are

  /** All slices but the last one are full. */
  lemma {:induction false} SlicesAreFull(section: Bytes, size: nat, i: nat)
    requires size >= 1 && i < |Slices(section, size)|
    ensures |Slices(section, size)[i]| <= size
    ensures i < |Slices(section, size)| - 1 ==> |Slices(section, size)[i]| == size
    decreases |section|
  {
    if |section| > size && i > 0 { SlicesAreFull(section[size..], size, i - 1); }
  }

  /**
   No chunk of the server is longer than 65535 bytes, and all chunks of a message but the last are exactly as
   long as that.
   */
  lemma {:induction false} ServerChunksFit(mode: Mode, id: nat, msg: Bytes, s: nat)
    requires s < |EncodeMessage(mode, id, msg)|
    ensures var wire := EncodeMessage(mode, id, msg);
            |wire[s]| <= 65535 && (s < |wire| - 1 ==> |wire[s]| == 65535)
  {
    MessageChunkAt(mode, msg, s);
    SlicesAreFull(msg, PayloadSize(mode), s);
    Layout(mode, id, MessageChunks(mode, msg)[s]);
    hide Slices, Encode;
  }

  /**
   No chunk of the browser is longer than the channel's maximum, and all slices of a section but its last make
   chunks of exactly that length, once a chunk was made before any file.
   */
  lemma {:induction false} BrowserChunksFit(sections: seq<Bytes>, maximum: nat, id: nat, k: nat, i: nat)
    requires maximum >= 15 && k < |sections| && i < |Slices(sections[k], SliceSize(maximum - 9, k))|
    ensures var maxPayload := maximum - 9;
            var offset, slices := Offset(sections, maxPayload, k), Slices(sections[k], SliceSize(maxPayload, k));
            && offset + i < |Plan(sections, maxPayload, 0, 0)|
            && var length := |Encode(UnreliableUnordered, id, Plan(sections, maxPayload, 0, 0)[offset + i])|;
               length <= maximum && (i < |slices| - 1 && (k == 0 || offset > 0) ==> length == maximum)
  {
    PlanAt(sections, maximum - 9, k, i);
    SlicesAreFull(sections[k], SliceSize(maximum - 9, k), i);
    Layout(UnreliableUnordered, id, Plan(sections, maximum - 9, 0, 0)[Offset(sections, maximum - 9, k) + i]);
    hide Slices, Plan, Encode;
  }
}
