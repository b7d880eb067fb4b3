/** The server's encoder: one section, no files, the end mark placed by a peeking iterator. */
module ChunkEncoder {
  import opened Wrappers
  import opened ChunkFormat
  import opened ChunkSender

  /** Says of every item whether it is the first and whether it is the last. */
  class IdentifyFirstLast<T> {
    var first: bool
    var items: seq<T>

    constructor (items: seq<T>)
      ensures first && this.items == items
    {
      first, this.items := true, items;
    }

    method Next() returns (item: Option<(bool, bool, T)>)
      modifies this
      ensures !first
      ensures old(items) == [] ==> item == None && items == []
      ensures old(items) != [] ==> item == Some((old(first), |old(items)| == 1, old(items)[0])) && items == old(items)[1..]
    {
      var wasFirst := first;
      first := false;
      if items == [] {
        return None;
      }
      var next := items[0];
      items := items[1..];
      item := Some((wasFirst, items == [], next));
    }
  }

  const U16_MAX := 65535

  function PayloadSize(mode: Mode): nat {
    U16_MAX - HeaderSize(mode, false)
  }

  /** A message's chunks: slices numbered from 0, only the last with the end mark. */
  function MessageChunks(mode: Mode, msg: Bytes): seq<Chunk> {
    SectionChunks(Slices(msg, PayloadSize(mode)), 0, true)
  }

  function EncodeMessage(mode: Mode, id: nat, msg: Bytes): (wire: seq<Bytes>)
    ensures |wire| == |MessageChunks(mode, msg)|
  {
    var chunks := MessageChunks(mode, msg);
    seq(|chunks|, i requires 0 <= i < |chunks| => Encode(mode, id, chunks[i]))
  }

  class Encoder {
    const mode: Mode
    var nextMessageId: nat

    constructor (mode: Mode)
      ensures this.mode == mode && nextMessageId == 0
    {
      this.mode := mode;
      nextMessageId := 0;
    }

    method EncodeSingleMessage(msg: Bytes) returns (wire: seq<Bytes>)
      modifies this
      ensures wire == EncodeMessage(mode, old(nextMessageId), msg)
      ensures nextMessageId == old(nextMessageId) + 1
    {
      hide Slices, Encode;
      var id := nextMessageId;
      nextMessageId := nextMessageId + 1;
      var slices := SplitSlice(msg, PayloadSize(mode));
      var chunks := new IdentifyFirstLast<Bytes>(slices);
      wire := [];
      var serial := 0;
      var next := chunks.Next();
      while next.Some?
        invariant serial == |wire| <= |slices|
        invariant wire == EncodeMessage(mode, id, msg)[..serial]
        invariant fresh(chunks) && nextMessageId == id + 1
        invariant match next
                  case None => serial == |slices|
                  case Some(item) => serial < |slices| && item.1 == (serial == |slices| - 1) && item.2 == slices[serial]
                                     && chunks.items == slices[serial + 1..]
        decreases |slices| - serial
      {
        var (_, last, payload) := next.value;
        wire := wire + [Encode(mode, id, Chunk(serial, None, payload, last))];
        serial := serial + 1;
        next := chunks.Next();
      }
      assert |EncodeMessage(mode, id, msg)| == serial;
    }
  }

  lemma {:induction false} MessageChunkAt(mode: Mode, msg: Bytes, s: nat)
    requires s < |MessageChunks(mode, msg)|
    ensures var slices := Slices(msg, PayloadSize(mode));
            && |slices| == |MessageChunks(mode, msg)|
            && MessageChunks(mode, msg)[s] == Chunk(s, None, slices[s], s == |slices| - 1)
  {
    hide Slices;
  }
}
