/**
 From the browser's chunker to the server's decoder: for messages with any number of files, under any
 interleaving, reordering and duplication of their chunks.
 */
module UploadRoundTrip {
  import opened Wrappers
  import opened ChunkFormat
  import opened ChunkSender
  import opened ChunkDecoder
  import opened Assembly

  /** A message is its payload followed by its files; what it is when cut into chunks. */
  function Chunks(sections: seq<Bytes>, maxPayload: nat): seq<Chunk>
    requires maxPayload >= 6
  {
    Plan(sections, maxPayload, 0, 0)
  }

  /** Serials and file starts fit their 32 bits. */
  predicate Fits(sections: seq<Bytes>, maxPayload: nat)
    requires maxPayload >= 6
  {
    |Chunks(sections, maxPayload)| <= WORD
  }

  function Accepted(chunks: seq<Chunk>): set<nat> {
    set s: nat | s in Serials(|chunks|) && |chunks[s].payload| >= 2
  }

  function ShapeOf(sections: seq<Bytes>, maxPayload: nat): Shape
    requires maxPayload >= 6
  {
    var chunks := Chunks(sections, maxPayload);
    Shape(|chunks|, sections != [] && sections[|sections| - 1] != [], Accepted(chunks))
  }

  // ---------------------------------------------------------------- what the decoder holds

  function StartOf(c: Chunk): nat {
    c.fileStart.GetOr(0)
  }

  /** The chunks with serials in `have` that belong to the section starting at `start`. */
  function SectionOf(chunks: seq<Chunk>, have: set<nat>, start: nat): Section
    requires have <= Serials(|chunks|)
  {
    map s | s in have && StartOf(chunks[s]) == start :: chunks[s].payload
  }

  function Starts(chunks: seq<Chunk>, have: set<nat>): set<nat>
    requires have <= Serials(|chunks|)
  {
    set s | s in have :: StartOf(chunks[s])
  }

  function SectionsOf(chunks: seq<Chunk>, have: set<nat>): map<nat, Section>
    requires have <= Serials(|chunks|)
  {
    map start | start in Starts(chunks, have) :: SectionOf(chunks, have, start)
  }

  /** What the decoder has of a message when it holds the chunks with serials in `have`. */
  function Held(chunks: seq<Chunk>, have: set<nat>): PartialMessage
    requires have <= Serials(|chunks|)
  {
    var last := |chunks| - 1;
    PartialMessage(have, SectionsOf(chunks, have),
                   if last in have && chunks[last].endOfMessage then Some(last) else None)
  }

  lemma {:induction false} StartBelow(sections: seq<Bytes>, maxPayload: nat, s: nat)
    requires maxPayload >= 6 && s < |Chunks(sections, maxPayload)|
    ensures StartOf(Chunks(sections, maxPayload)[s]) <= s
  {
    PlanLength(sections, maxPayload);
    var k, i := PlanSection(sections, maxPayload, s, |sections|);
    PlanAt(sections, maxPayload, k, i);
  }

  lemma {:induction false} SectionsGrow(chunks: seq<Chunk>, have: set<nat>, s: nat)
    requires have <= Serials(|chunks|) && s < |chunks| && s !in have
    ensures var before, start := SectionsOf(chunks, have), StartOf(chunks[s]);
            var section: Section := if start in before then before[start] else map[];
            SectionsOf(chunks, have + {s}) == before[start := section[s := chunks[s].payload]]
  {
    StartsGrow(chunks, have, s);
    OwnSectionGrows(chunks, have, s);
    forall other | other in Starts(chunks, have) && other != StartOf(chunks[s])
      ensures SectionOf(chunks, have + {s}, other) == SectionOf(chunks, have, other)
    {
      OtherSectionStays(chunks, have, s, other);
    }
    hide Starts, SectionOf, Serials, StartOf;
  }

  lemma {:induction false} StartsGrow(chunks: seq<Chunk>, have: set<nat>, s: nat)
    requires have <= Serials(|chunks|) && s < |chunks|
    ensures have + {s} <= Serials(|chunks|)
    ensures Starts(chunks, have + {s}) == Starts(chunks, have) + {StartOf(chunks[s])}
  {
    forall start | start in Starts(chunks, have + {s})
      ensures start in Starts(chunks, have) + {StartOf(chunks[s])}
    {
      var r :| r in have + {s} && StartOf(chunks[r]) == start;
    }
    hide Serials;
  }

  lemma {:induction false} OwnSectionGrows(chunks: seq<Chunk>, have: set<nat>, s: nat)
    requires have <= Serials(|chunks|) && s < |chunks| && s !in have
    ensures have + {s} <= Serials(|chunks|)
    ensures var start := StartOf(chunks[s]);
            && (start !in Starts(chunks, have) ==> SectionOf(chunks, have, start) == map[])
            && SectionOf(chunks, have + {s}, start) == SectionOf(chunks, have, start)[s := chunks[s].payload]
  {
    hide StartOf;
  }

  lemma {:induction false} OtherSectionStays(chunks: seq<Chunk>, have: set<nat>, s: nat, other: nat)
    requires have <= Serials(|chunks|) && s < |chunks| && other != StartOf(chunks[s])
    ensures have + {s} <= Serials(|chunks|)
    ensures SectionOf(chunks, have + {s}, other) == SectionOf(chunks, have, other)
  {
    hide StartOf;
  }

  /** Chunk `s` survives the wire, and only the last chunk can carry the end mark. */
  lemma {:induction false} Survives(sections: seq<Bytes>, maxPayload: nat, s: nat, id: nat)
    requires maxPayload >= 6 && Fits(sections, maxPayload) && id < WORD
    requires s < |Chunks(sections, maxPayload)|
    ensures var chunks := Chunks(sections, maxPayload);
            && OnWire(id, chunks[s]) == Parsed(id, s, StartOf(chunks[s]), chunks[s].payload, chunks[s].endOfMessage)
            && (chunks[s].endOfMessage ==> s == |chunks| - 1)
  {
    PlanIsNumbered(sections, maxPayload, s);
    StartBelow(sections, maxPayload, s);
    hide Plan;
    var start := StartOf(Chunks(sections, maxPayload)[s]);
    assert s % WORD == s && id % WORD == id && start % WORD == start;
  }

  lemma {:induction false} HeldGrows(chunks: seq<Chunk>, have: set<nat>, s: nat, id: nat)
    requires have <= Serials(|chunks|) && s < |chunks| && s !in have
    requires chunks[s].endOfMessage ==> s == |chunks| - 1
    ensures var c := Parsed(id, s, StartOf(chunks[s]), chunks[s].payload, chunks[s].endOfMessage);
            AddChunk(UnreliableUnordered, Held(chunks, have), c) == Held(chunks, have + {s})
  {
    SectionsGrow(chunks, have, s);
    hide SectionsOf;
  }

  // ---------------------------------------------------------------- joining everything again

  function Interval(lo: nat, hi: nat): (all: set<nat>)
    ensures all <= Serials(hi)
  {
    set s | s in Serials(hi) && lo <= s
  }

  /** What the chunks from serial `lo` on join to. */
  function JoinedFrom(chunks: seq<Chunk>, lo: nat): seq<Bytes> {
    JoinSections(SectionsOf(chunks, Interval(lo, |chunks|)))
  }

  function NonEmpty(sections: seq<Bytes>): seq<Bytes> {
    if sections == [] then []
    else (if sections[0] == [] then [] else [sections[0]]) + NonEmpty(sections[1..])
  }

  /** Consecutive chunks join to what was sliced, though the map holds them by serial. */
  lemma {:induction false} JoinInterval(section: Section, lo: nat, slices: seq<Bytes>)
    requires section.Keys == Interval(lo, lo + |slices|)
    requires forall s :: s in section ==> section[s] == slices[s - lo]
    ensures JoinSection(section) == Flatten(slices)
    decreases |slices|
  {
    if slices == [] {
      assert section.Keys == {};
      assert section == map[];
    } else {
      assert lo in section.Keys;
      assert Least(section.Keys) == lo;
      var rest := section - {lo};
      assert rest.Keys == Interval(lo + 1, lo + 1 + |slices[1..]|);
      JoinInterval(rest, lo + 1, slices[1..]);
    }
  }

  /** Where section `k` lies among the chunks: all of it starts at its offset, the rest later. */
  lemma {:induction false} SectionExtent(sections: seq<Bytes>, maxPayload: nat, k: nat, s: nat)
    requires maxPayload >= 6 && k < |sections| && Offset(sections, maxPayload, k) <= s < |Chunks(sections, maxPayload)|
    ensures var chunks, offset := Chunks(sections, maxPayload), Offset(sections, maxPayload, k);
            var slices := Slices(sections[k], SliceSize(maxPayload, k));
            if s < offset + |slices| then StartOf(chunks[s]) == offset && chunks[s].payload == slices[s - offset]
            else StartOf(chunks[s]) >= offset + |slices|
  {
    hide Slices, Plan;
    var offset := Offset(sections, maxPayload, k);
    var slices := Slices(sections[k], SliceSize(maxPayload, k));
    if s < offset + |slices| {
      PlanAt(sections, maxPayload, k, s - offset);
    } else {
      PlanLength(sections, maxPayload);
      var j, i := PlanSection(sections, maxPayload, s, |sections|);
      PlanAt(sections, maxPayload, j, i);
      if j <= k {
        OffsetMonotone(sections, maxPayload, j + 1, k + 1);
      } else {
        OffsetMonotone(sections, maxPayload, k + 1, j);
      }
    }
  }

  lemma {:induction false} NothingToJoin(chunks: seq<Chunk>)
    ensures JoinedFrom(chunks, |chunks|) == []
  {
    assert Interval(|chunks|, |chunks|) == {};
    assert SectionsOf(chunks, {}) == map[];
  }

  lemma {:induction false} JoinFrom(sections: seq<Bytes>, maxPayload: nat, k: nat)
    requires maxPayload >= 6 && k <= |sections|
    ensures var chunks, offset := Chunks(sections, maxPayload), Offset(sections, maxPayload, k);
            JoinedFrom(chunks, offset) == NonEmpty(sections[k..])
    decreases |sections| - k
  {
    hide Slices, Plan, JoinedFrom, Flatten;
    var chunks, offset := Chunks(sections, maxPayload), Offset(sections, maxPayload, k);
    PlanLength(sections, maxPayload);
    if k == |sections| {
      NothingToJoin(chunks);
    } else {
      JoinFrom(sections, maxPayload, k + 1);
      SlicesMakeUpSection(sections[k], SliceSize(maxPayload, k));
      assert sections[k..][1..] == sections[k + 1..];
      if sections[k] != [] {
        FirstSection(sections, maxPayload, k);
      }
    }
  }

  lemma {:induction false} FirstSection(sections: seq<Bytes>, maxPayload: nat, k: nat)
    requires maxPayload >= 6 && k < |sections| && sections[k] != []
    ensures var chunks, offset, next := Chunks(sections, maxPayload), Offset(sections, maxPayload, k), Offset(sections, maxPayload, k + 1);
            JoinedFrom(chunks, offset) == [sections[k]] + JoinedFrom(chunks, next)
  {
    hide Slices, Plan;
    var chunks, offset := Chunks(sections, maxPayload), Offset(sections, maxPayload, k);
    var slices := Slices(sections[k], SliceSize(maxPayload, k));
    var next := Offset(sections, maxPayload, k + 1);
    PlanLength(sections, maxPayload);
    OffsetMonotone(sections, maxPayload, k + 1, |sections|);
    SlicesMakeUpSection(sections[k], SliceSize(maxPayload, k));
    var all, later := Interval(offset, |chunks|), Interval(next, |chunks|);
    forall s | s in all
      ensures if s < next then StartOf(chunks[s]) == offset && chunks[s].payload == slices[s - offset]
              else StartOf(chunks[s]) >= next
    {
      SectionExtent(sections, maxPayload, k, s);
    }
    SplitsOff(chunks, offset, next, slices);
  }

  lemma {:induction false} JoinFirst(sections: map<nat, Section>, first: nat)
    requires first in sections && forall start :: start in sections ==> first <= start
    ensures JoinSections(sections) == [JoinSection(sections[first])] + JoinSections(sections - {first})
  {
    assert Least(sections.Keys) == first;
  }

  lemma {:induction false} SplitsOff(chunks: seq<Chunk>, offset: nat, next: nat, slices: seq<Bytes>)
    requires slices != [] && next == offset + |slices| <= |chunks|
    requires forall s :: s in Interval(offset, |chunks|) ==>
      if s < next then StartOf(chunks[s]) == offset && chunks[s].payload == slices[s - offset]
      else StartOf(chunks[s]) >= next
    ensures JoinedFrom(chunks, offset) == [Flatten(slices)] + JoinedFrom(chunks, next)
  {
    var all, later := Interval(offset, |chunks|), Interval(next, |chunks|);
    IntervalTail(offset, next, |chunks|);
    FirstIs(chunks, offset, next, slices);
    hide Interval, Serials, Flatten, JoinSection, JoinSections, SectionsOf;
    RestIsLater(chunks, offset, next, all, later);
    JoinFirst(SectionsOf(chunks, all), offset);
  }

  lemma {:induction false} IntervalTail(lo: nat, mid: nat, hi: nat)
    requires lo <= mid <= hi
    ensures Interval(mid, hi) == (set s | s in Interval(lo, hi) && s >= mid) && (lo < hi ==> lo in Interval(lo, hi))
  {
  }

  lemma {:induction false} FirstIs(chunks: seq<Chunk>, offset: nat, next: nat, slices: seq<Bytes>)
    requires slices != [] && next == offset + |slices| <= |chunks|
    requires forall s :: s in Interval(offset, |chunks|) ==>
      if s < next then StartOf(chunks[s]) == offset && chunks[s].payload == slices[s - offset]
      else StartOf(chunks[s]) >= next
    ensures var sections := SectionsOf(chunks, Interval(offset, |chunks|));
            offset in sections && JoinSection(sections[offset]) == Flatten(slices)
  {
    hide Flatten, JoinSection;
    var all := Interval(offset, |chunks|);
    assert offset in all && StartOf(chunks[offset]) == offset;
    var section := SectionOf(chunks, all, offset);
    assert section.Keys == Interval(offset, next);
    JoinInterval(section, offset, slices);
  }

  lemma {:induction false} RestIsLater(chunks: seq<Chunk>, offset: nat, next: nat, all: set<nat>, later: set<nat>)
    requires offset < next && all <= Serials(|chunks|) && offset in all
    requires forall s :: s in all ==> if s < next then StartOf(chunks[s]) == offset else StartOf(chunks[s]) >= next
    requires later == set s | s in all && s >= next
    ensures SectionsOf(chunks, all) - {offset} == SectionsOf(chunks, later)
    ensures forall start :: start in SectionsOf(chunks, all) ==> offset <= start
  {
    LaterStarts(chunks, offset, next, all, later);
    forall start | start in Starts(chunks, later)
      ensures SectionOf(chunks, all, start) == SectionOf(chunks, later, start)
    {
      LaterSection(chunks, offset, next, all, later, start);
    }
    hide Starts, SectionOf, Serials, StartOf;
  }

  lemma {:induction false} LaterStarts(chunks: seq<Chunk>, offset: nat, next: nat, all: set<nat>, later: set<nat>)
    requires offset < next && all <= Serials(|chunks|) && offset in all
    requires forall s :: s in all ==> if s < next then StartOf(chunks[s]) == offset else StartOf(chunks[s]) >= next
    requires later == set s | s in all && s >= next
    ensures Starts(chunks, later) == Starts(chunks, all) - {offset}
    ensures forall start :: start in Starts(chunks, later) ==> start >= next
  {
    hide StartOf;
    forall start | start in Starts(chunks, all) && start != offset
      ensures start in Starts(chunks, later)
    {
      var s :| s in all && StartOf(chunks[s]) == start;
      assert s in later;
    }
    forall start | start in Starts(chunks, later)
      ensures start in Starts(chunks, all) && start >= next
    {
      var s :| s in later && StartOf(chunks[s]) == start;
      assert s in all;
    }
  }

  lemma {:induction false} LaterSection(chunks: seq<Chunk>, offset: nat, next: nat, all: set<nat>, later: set<nat>,
      start: nat)
    requires offset < next <= start && all <= Serials(|chunks|)
    requires forall s :: s in all && s < next ==> StartOf(chunks[s]) == offset
    requires later == set s | s in all && s >= next
    ensures SectionOf(chunks, all, start) == SectionOf(chunks, later, start)
  {
    hide StartOf;
  }

  // ---------------------------------------------------------------- one chunk

  /** The store holds exactly the chunks of message `id` with serials in `have`. */
  predicate Holds(store: Store, id: nat, chunks: seq<Chunk>, have: set<nat>) {
    && have <= Serials(|chunks|)
    && if have == {} then id !in store else id in store && store[id] == Held(chunks, have)
  }

  /** The message that the non-empty sections make. */
  function Delivered(sections: seq<Bytes>): Message
    requires NonEmpty(sections) != []
  {
    Message(NonEmpty(sections)[0], NonEmpty(sections)[1..])
  }

  lemma {:induction false} HoldsNothing(chunks: seq<Chunk>)
    ensures Held(chunks, {}) == EMPTY
  {
    assert SectionsOf(chunks, {}) == map[];
  }

  lemma {:induction false} CompleteIs(sections: seq<Bytes>, maxPayload: nat)
    requires maxPayload >= 6
    ensures var chunks := Chunks(sections, maxPayload);
            && |Held(chunks, Serials(|chunks|)).sections| == |NonEmpty(sections)|
            && (NonEmpty(sections) != [] ==> CompleteMessage(Held(chunks, Serials(|chunks|))) == Delivered(sections))
  {
    hide Plan;
    var chunks := Chunks(sections, maxPayload);
    JoinFrom(sections, maxPayload, 0);
    assert Interval(0, |chunks|) == Serials(|chunks|);
    assert sections[0..] == sections;
  }

  lemma {:induction false} CompleteByCount(sections: seq<Bytes>, maxPayload: nat, have: set<nat>, endOfMessage: bool)
    requires maxPayload >= 6
    requires have <= Serials(|Chunks(sections, maxPayload)|)
    ensures var chunks := Chunks(sections, maxPayload);
            IsComplete(UnreliableUnordered, Held(chunks, have), endOfMessage) <==>
            have != {} && ShapeOf(sections, maxPayload).ends && have == Serials(|chunks|)
  {
    hide Plan, SectionsOf;
    var chunks := Chunks(sections, maxPayload);
    FullByCount(have, |chunks|);
    PlanLength(sections, maxPayload);
    if |chunks| > 0 {
      PlanIsNumbered(sections, maxPayload, |chunks| - 1);
    }
  }

  lemma {:induction false} StoreUpdates(store: Store, id: nat, p: PartialMessage)
    ensures store[id := p] - {id} == store - {id} && (id in store && store[id] == p ==> store[id := p] == store)
  {
  }

  /** An accepted chunk does to the decoder what it does to the abstract receiver. */
  lemma {:induction false} ReceiveRefines(chunks: seq<Chunk>, ends: bool, c: Parsed, store: Store, have: set<nat>)
    requires c.serial in Accepted(chunks) && c.serial < |chunks| && Holds(store, c.id, chunks, have)
    requires c.serial !in have ==> AddChunk(UnreliableUnordered, Held(chunks, have), c) == Held(chunks, have + {c.serial})
    requires c.serial !in have && have + {c.serial} <= Serials(|chunks|) ==>
      (IsComplete(UnreliableUnordered, Held(chunks, have + {c.serial}), c.endOfMessage) <==>
       ends && have + {c.serial} == Serials(|chunks|))
    ensures var (store', message) := ReceiveChunk(UnreliableUnordered, store, c);
            var (verdict, have') := Receive(Shape(|chunks|, ends, Accepted(chunks)), have, c.serial);
            && Holds(store', c.id, chunks, have') && store' - {c.id} == store - {c.id} && verdict != Rejected
            && if verdict != Complete then message == None
               else && |Held(chunks, Serials(|chunks|)).sections| > 0
                    && message == Some(CompleteMessage(Held(chunks, Serials(|chunks|))))
  {
    hide AddChunk, Held, CompleteMessage, IsComplete, Accepted;
    HoldsNothing(chunks);
    HeldChunks(chunks, have);
    var partial := if c.id in store then store[c.id] else EMPTY;
    assert partial == Held(chunks, have);
    var have' := have + {c.serial};
    if c.serial in have {
      StoreUpdates(store, c.id, partial);
    } else {
      assert have' <= Serials(|chunks|) && have' != {};
      hide Serials;
      StoreUpdates(store, c.id, Held(chunks, have'));
      Completes(chunks, store, c, have');
    }
  }

  lemma {:induction false} Completes(chunks: seq<Chunk>, store: Store, c: Parsed, have: set<nat>)
    requires have <= Serials(|chunks|) && have != {} && c.serial in have
    requires var partial := if c.id in store then store[c.id] else EMPTY;
             c.serial !in partial.chunks && AddChunk(UnreliableUnordered, partial, c) == Held(chunks, have)
    ensures var (store', message) := ReceiveChunk(UnreliableUnordered, store, c);
            if IsComplete(UnreliableUnordered, Held(chunks, have), c.endOfMessage)
            then store' == store - {c.id} && |Held(chunks, have).sections| > 0 && message == Some(CompleteMessage(Held(chunks, have)))
            else store' == store[c.id := Held(chunks, have)] && message == None
  {
    hide Held, CompleteMessage, IsComplete, Serials;
  }

  lemma {:induction false} HeldChunks(chunks: seq<Chunk>, have: set<nat>)
    requires have <= Serials(|chunks|)
    ensures Held(chunks, have).chunks == have
  {
  }

  /** Receiving one chunk off the wire does to the decoder what it does to the abstract receiver. */
  lemma {:induction false} StepRefines(sections: seq<Bytes>, maxPayload: nat, id: nat, s: nat, store: Store,
      have: set<nat>)
    requires maxPayload >= 6 && Fits(sections, maxPayload) && id < WORD
    requires s < |Chunks(sections, maxPayload)|
    requires Holds(store, id, Chunks(sections, maxPayload), have)
    ensures var chunks := Chunks(sections, maxPayload);
            var (store', result) := DecodeSingle(UnreliableUnordered, store, Encode(UnreliableUnordered, id, chunks[s]));
            var (verdict, have') := Receive(ShapeOf(sections, maxPayload), have, s);
            && Holds(store', id, chunks, have') && store' - {id} == store - {id}
            && match verdict
               case Rejected => result.Err?
               case Pending => result == Ok(None)
               case Complete => NonEmpty(sections) != [] && result == Ok(Some(Delivered(sections)))
  {
    hide Plan, Encode, Decode, ReceiveChunk, NonEmpty, CompleteMessage, Held, IsComplete, OnWire, AddChunk;
    var chunks := Chunks(sections, maxPayload);
    DecodeEncode(id, chunks[s]);
    if s in Accepted(chunks) {
      Survives(sections, maxPayload, s, id);
      var c := OnWire(id, chunks[s]);
      if s !in have {
        HeldGrows(chunks, have, s, id);
        CompleteByCount(sections, maxPayload, have + {s}, c.endOfMessage);
      }
      CompleteIs(sections, maxPayload);
      hide Holds, Serials, Accepted;
      ReceiveRefines(chunks, ShapeOf(sections, maxPayload).ends, c, store, have);
    }
  }

  // ---------------------------------------------------------------- whole streams

  /** Messages in flight, by id. */
  type Uploads = map<nat, seq<Bytes>>

  predicate InFlight(uploads: Uploads, maxPayload: nat)
    requires maxPayload >= 6
  {
    forall id :: id in uploads ==> id < WORD && Fits(uploads[id], maxPayload)
  }

  function Shapes(uploads: Uploads, maxPayload: nat): map<nat, Shape>
    requires maxPayload >= 6
  {
    map id | id in uploads :: ShapeOf(uploads[id], maxPayload)
  }

  /** The bytes of an arriving chunk. */
  function Wire(uploads: Uploads, maxPayload: nat, a: Arrival): Bytes
    requires maxPayload >= 6 && a.id in uploads && a.serial < |Chunks(uploads[a.id], maxPayload)|
  {
    Encode(UnreliableUnordered, a.id, Chunks(uploads[a.id], maxPayload)[a.serial])
  }

  /** The decoder's store after a stream of chunks. */
  function StoreAfter(uploads: Uploads, maxPayload: nat, arrivals: seq<Arrival>): Store
    requires maxPayload >= 6 && Known(Shapes(uploads, maxPayload), arrivals)
    decreases |arrivals|, 1
  {
    if arrivals == [] then map[]
    else LastStep(uploads, maxPayload, arrivals).0
  }

  /** What the decoder does with the last chunk of a stream. */
  function LastStep(uploads: Uploads, maxPayload: nat, arrivals: seq<Arrival>): (Store, Result<Option<Message>>)
    requires maxPayload >= 6 && Known(Shapes(uploads, maxPayload), arrivals) && arrivals != []
    decreases |arrivals|, 0
  {
    var before, last := arrivals[..|arrivals| - 1], arrivals[|arrivals| - 1];
    DecodeSingle(UnreliableUnordered, StoreAfter(uploads, maxPayload, before), Wire(uploads, maxPayload, last))
  }

  /** What the abstract receiver's verdict means for the decoder's result. */
  predicate Matches(verdict: Verdict, sections: seq<Bytes>, result: Result<Option<Message>>) {
    match verdict
    case Rejected => result.Err?
    case Pending => result == Ok(None)
    case Complete => NonEmpty(sections) != [] && result == Ok(Some(Delivered(sections)))
  }

  /** For every message the store holds exactly what the abstract receiver has of it. */
  predicate Represents(uploads: Uploads, maxPayload: nat, store: Store, arrivals: seq<Arrival>)
    requires maxPayload >= 6 && Known(Shapes(uploads, maxPayload), arrivals)
  {
    forall id :: id in uploads ==>
      Holds(store, id, Chunks(uploads[id], maxPayload), Have(Shapes(uploads, maxPayload), arrivals, id))
  }

  /** The byte-level decoder refines abstract reassembly over every stream of chunks. */
  lemma {:induction false} StreamRefines(uploads: Uploads, maxPayload: nat, arrivals: seq<Arrival>)
    requires maxPayload >= 6 && InFlight(uploads, maxPayload) && Known(Shapes(uploads, maxPayload), arrivals)
    ensures Represents(uploads, maxPayload, StoreAfter(uploads, maxPayload, arrivals), arrivals)
    ensures arrivals != [] ==>
              Matches(LastVerdict(Shapes(uploads, maxPayload), arrivals), uploads[arrivals[|arrivals| - 1].id],
                      LastStep(uploads, maxPayload, arrivals).1)
  {
    if arrivals == [] {
      hide Plan;
    } else {
      hide Plan, Represents;
      StreamRefines(uploads, maxPayload, arrivals[..|arrivals| - 1]);
      StreamStep(uploads, maxPayload, arrivals);
    }
  }

  lemma {:induction false} StreamStep(uploads: Uploads, maxPayload: nat, arrivals: seq<Arrival>)
    requires maxPayload >= 6 && InFlight(uploads, maxPayload) && Known(Shapes(uploads, maxPayload), arrivals)
    requires arrivals != []
    requires Represents(uploads, maxPayload, StoreAfter(uploads, maxPayload, arrivals[..|arrivals| - 1]), arrivals[..|arrivals| - 1])
    ensures Represents(uploads, maxPayload, LastStep(uploads, maxPayload, arrivals).0, arrivals)
    ensures Matches(LastVerdict(Shapes(uploads, maxPayload), arrivals), uploads[arrivals[|arrivals| - 1].id],
                    LastStep(uploads, maxPayload, arrivals).1)
  {
    hide Plan, Encode, DecodeSingle, Receive, Held, Serials, NonEmpty, Delivered, StoreAfter;
    var shapes := Shapes(uploads, maxPayload);
    var before, last := arrivals[..|arrivals| - 1], arrivals[|arrivals| - 1];
    var store := StoreAfter(uploads, maxPayload, before);
    StepRefines(uploads[last.id], maxPayload, last.id, last.serial, store, Have(shapes, before, last.id));
    var store' := LastStep(uploads, maxPayload, arrivals).0;
    forall id | id in uploads
      ensures Holds(store', id, Chunks(uploads[id], maxPayload), Have(shapes, arrivals, id))
    {
      if id != last.id { SameElsewhere(store, store', last.id, id); }
    }
  }

  lemma {:induction false} SameElsewhere(store: Store, store': Store, id: nat, other: nat)
    requires store' - {id} == store - {id} && other != id
    ensures other in store' <==> other in store
    ensures other in store ==> store'[other] == store[other]
  {
    assert other in store' <==> other in store' - {id};
    assert other in store <==> other in store - {id};
    if other in store { assert (store' - {id})[other] == (store - {id})[other]; }
  }

  // ---------------------------------------------------------------- which uploads arrive

  /**
   A message and files that survive: none is empty, and none leaves a slice of one byte. Both can be
   checked before sending.
   */
  predicate Sound(sections: seq<Bytes>, maxPayload: nat)
    requires maxPayload >= 6
  {
    && sections != []
    && forall k :: 0 <= k < |sections| ==> sections[k] != [] && |sections[k]| % SliceSize(maxPayload, k) != 1
  }

  lemma {:induction false} NonEmptyKeepsAll(sections: seq<Bytes>)
    ensures |NonEmpty(sections)| <= |sections|
    ensures NonEmpty(sections) == sections <==> forall k :: 0 <= k < |sections| ==> sections[k] != []
  {
    if sections != [] {
      var rest := sections[1..];
      NonEmptyKeepsAll(rest);
      assert sections == [sections[0]] + rest;
      if sections[0] != [] {
        assert NonEmpty(sections)[1..] == NonEmpty(rest);
      }
    }
  }

  /** Every chunk is let through exactly when no section leaves a slice of one byte. */
  lemma {:induction false} AllAccepted(sections: seq<Bytes>, maxPayload: nat)
    requires maxPayload >= 6
    ensures var chunks := Chunks(sections, maxPayload);
            Serials(|chunks|) <= Accepted(chunks) <==>
            forall k :: 0 <= k < |sections| ==> |sections[k]| % SliceSize(maxPayload, k) != 1
  {
    hide Plan, Slices;
    var chunks := Chunks(sections, maxPayload);
    forall s: nat | s < |chunks| && forall k :: 0 <= k < |sections| ==> |sections[k]| % SliceSize(maxPayload, k) != 1
      ensures s in Accepted(chunks)
    {
      PlanLength(sections, maxPayload);
      var k, i := PlanSection(sections, maxPayload, s, |sections|);
      PlanAt(sections, maxPayload, k, i);
      SlicesMakeUpSection(sections[k], SliceSize(maxPayload, k));
    }
    forall k: nat | k < |sections| && |sections[k]| % SliceSize(maxPayload, k) == 1
      ensures !(Serials(|chunks|) <= Accepted(chunks))
    {
      OddSectionIsRejected(sections, maxPayload, k);
    }
  }

  lemma {:induction false} OddSectionIsRejected(sections: seq<Bytes>, maxPayload: nat, k: nat)
    requires maxPayload >= 6 && k < |sections| && |sections[k]| % SliceSize(maxPayload, k) == 1
    ensures var chunks := Chunks(sections, maxPayload);
            exists s :: s in Serials(|chunks|) && s !in Accepted(chunks)
  {
    hide Plan, Slices;
    SlicesMakeUpSection(sections[k], SliceSize(maxPayload, k));
    var slices := Slices(sections[k], SliceSize(maxPayload, k));
    var i: nat :| i < |slices| && |slices[i]| < 2;
    PlanAt(sections, maxPayload, k, i);
    var s := Offset(sections, maxPayload, k) + i;
    assert s in Serials(|Chunks(sections, maxPayload)|) && s !in Accepted(Chunks(sections, maxPayload));
  }

  lemma {:induction false} SoundIsDeliverable(sections: seq<Bytes>, maxPayload: nat)
    requires maxPayload >= 6
    ensures Sound(sections, maxPayload) <==>
            Deliverable(ShapeOf(sections, maxPayload)) && NonEmpty(sections) == sections
  {
    AllAccepted(sections, maxPayload);
    NonEmptyKeepsAll(sections);
    PlanLength(sections, maxPayload);
    if sections != [] && sections[0] != [] {
      hide Plan, Slices;
      OffsetMonotone(sections, maxPayload, 1, |sections|);
      SlicesEmpty(sections[0], SliceSize(maxPayload, 0));
      assert Offset(sections, maxPayload, 0) == 0;
    }
  }

  /** The whole message, as its receiver should get it. */
  function Whole(sections: seq<Bytes>): Result<Option<Message>>
    requires sections != []
  {
    Ok(Some(Message(sections[0], sections[1..])))
  }

  /**
   For any messages in flight with distinct ids and any stream of their chunks, interleaved, reordered and
   duplicated: the decoder returns nothing for a sound message until its last missing chunk, and then exactly
   its payload and its files in order.
   */
  lemma {:induction false} UploadsArriveIntact(uploads: Uploads, maxPayload: nat, arrivals: seq<Arrival>)
    requires maxPayload >= 6 && InFlight(uploads, maxPayload) && Known(Shapes(uploads, maxPayload), arrivals)
    requires arrivals != []
    requires var id := arrivals[|arrivals| - 1].id;
             && Sound(uploads[id], maxPayload)
             && Seen(arrivals[..|arrivals| - 1], id) != Serials(|Chunks(uploads[id], maxPayload)|)
    ensures var id := arrivals[|arrivals| - 1].id;
            LastStep(uploads, maxPayload, arrivals).1 ==
            if Seen(arrivals, id) == Serials(|Chunks(uploads[id], maxPayload)|) then Whole(uploads[id]) else Ok(None)
  {
    var id := arrivals[|arrivals| - 1].id;
    SoundIsDeliverable(uploads[id], maxPayload);
    hide Plan, Serials, LastStep, Seen, Sound, Accepted;
    StreamRefines(uploads, maxPayload, arrivals);
    DeliveredByLastMissingChunk(Shapes(uploads, maxPayload), arrivals);
  }

  /** Some stream of the chunks of a single message ends with the message delivered intact. */
  ghost predicate CanArriveIntact(sections: seq<Bytes>, maxPayload: nat, id: nat)
    requires maxPayload >= 6 && sections != []
  {
    exists arrivals: seq<Arrival> ::
      && Known(Shapes(map[id := sections], maxPayload), arrivals) && arrivals != []
      && LastStep(map[id := sections], maxPayload, arrivals).1 == Whole(sections)
  }

  /** The sound messages are exactly the ones that can arrive intact. */
  lemma {:induction false} SoundExactly(sections: seq<Bytes>, maxPayload: nat, id: nat)
    requires maxPayload >= 6 && sections != [] && Fits(sections, maxPayload) && id < WORD
    ensures CanArriveIntact(sections, maxPayload, id) <==> Sound(sections, maxPayload)
  {
    hide Plan, LastStep, Sound, Serials;
    var uploads := map[id := sections];
    if CanArriveIntact(sections, maxPayload, id) {
      var arrivals: seq<Arrival> :|
        && Known(Shapes(uploads, maxPayload), arrivals) && arrivals != []
        && LastStep(uploads, maxPayload, arrivals).1 == Whole(sections);
      OnlySoundArrive(uploads, maxPayload, arrivals);
    }
    if Sound(sections, maxPayload) {
      SoundArrivesInOrder(sections, maxPayload, id);
    }
  }

  lemma {:induction false} SoundArrivesInOrder(sections: seq<Bytes>, maxPayload: nat, id: nat)
    requires maxPayload >= 6 && Fits(sections, maxPayload) && id < WORD && Sound(sections, maxPayload)
    ensures CanArriveIntact(sections, maxPayload, id)
  {
    var uploads := map[id := sections];
    var total := |Chunks(sections, maxPayload)|;
    SoundIsDeliverable(sections, maxPayload);
    hide Plan, Sound, Accepted, LastStep, NonEmpty;
    var arrivals := seq(total, i requires 0 <= i < total => Arrival(id, i));
    SeenInOrder(arrivals, id, total);
    SeenInOrder(arrivals[..total - 1], id, total - 1);
    assert total - 1 in Serials(total) && total - 1 !in Serials(total - 1);
    hide Serials, Seen, Whole;
    UploadsArriveIntact(uploads, maxPayload, arrivals);
    assert LastStep(uploads, maxPayload, arrivals).1 == Whole(sections);
  }

  lemma {:induction false} SeenInOrder(arrivals: seq<Arrival>, id: nat, total: nat)
    requires |arrivals| == total && forall i :: 0 <= i < total ==> arrivals[i] == Arrival(id, i)
    ensures Seen(arrivals, id) == Serials(total)
  {
    forall s | s in Serials(total)
      ensures s in Seen(arrivals, id)
    {
      assert arrivals[s] in arrivals && arrivals[s].serial == s;
    }
  }

  /** A message that is not sound is never delivered as it was sent, whatever arrives. */
  lemma {:induction false} OnlySoundArrive(uploads: Uploads, maxPayload: nat, arrivals: seq<Arrival>)
    requires maxPayload >= 6 && InFlight(uploads, maxPayload) && Known(Shapes(uploads, maxPayload), arrivals)
    requires arrivals != [] && uploads[arrivals[|arrivals| - 1].id] != []
    requires LastStep(uploads, maxPayload, arrivals).1 == Whole(uploads[arrivals[|arrivals| - 1].id])
    ensures Sound(uploads[arrivals[|arrivals| - 1].id], maxPayload)
  {
    var sections := uploads[arrivals[|arrivals| - 1].id];
    SoundIsDeliverable(sections, maxPayload);
    assert Shapes(uploads, maxPayload)[arrivals[|arrivals| - 1].id] == ShapeOf(sections, maxPayload);
    hide Plan, Serials, LastStep, Seen, Sound, Accepted, NonEmpty, Have, LastVerdict, Deliverable, Known, Represents;
    hide InFlight, ShapeOf, Shapes;
    StreamRefines(uploads, maxPayload, arrivals);
    if !Deliverable(ShapeOf(sections, maxPayload)) {
      UndeliverableIsNeverDelivered(Shapes(uploads, maxPayload), arrivals);
    }
    WholeIsAll(sections);
  }

  /** What is delivered is the message as sent only when no section was left out. */
  lemma {:induction false} WholeIsAll(sections: seq<Bytes>)
    requires sections != []
    ensures NonEmpty(sections) != [] && Ok(Some(Delivered(sections))) == Whole(sections) ==> NonEmpty(sections) == sections
  {
    hide NonEmpty;
    if NonEmpty(sections) != [] {
      assert NonEmpty(sections) == [NonEmpty(sections)[0]] + NonEmpty(sections)[1..];
      assert sections == [sections[0]] + sections[1..];
    }
  }

  // ---------------------------------------------------------------- the ordered mode

  lemma {:induction false} OrderedReads(c: Chunk)
    requires c.fileStart == None && |c.payload| >= 2
    ensures Decode(ReliableOrdered, Encode(ReliableOrdered, 0, c)) == Ok(Parsed(0, 0, 0, c.payload, c.endOfMessage))
  {
    var buffer := Encode(ReliableOrdered, 0, c);
    BitFieldReads(ReliableOrdered, c.endOfMessage, false);
    assert buffer[0] == BitField(ReliableOrdered, c.endOfMessage, false) && buffer[1..] == c.payload;
  }

  /** The decoder in the ordered mode, given chunks one after the other. */
  function OrderedStore(chunks: seq<Chunk>): Store
    decreases |chunks|, 1
  {
    if chunks == [] then map[] else OrderedStep(chunks).0
  }

  function OrderedStep(chunks: seq<Chunk>): (Store, Result<Option<Message>>)
    requires chunks != []
    decreases |chunks|, 0
  {
    var n := |chunks| - 1;
    DecodeSingle(ReliableOrdered, OrderedStore(chunks[..n]), Encode(ReliableOrdered, 0, chunks[n]))
  }

  /** All that the decoder keeps of a message in the ordered mode. */
  function OnlyThis(payload: Bytes): PartialMessage {
    PartialMessage({0}, map[0 := map[0 := payload]], None)
  }

  lemma {:induction false} Overwrites(payload: Bytes, c: Parsed)
    requires c.serial == 0 && c.sectionStart == 0
    ensures AddChunk(ReliableOrdered, EMPTY, c) == OnlyThis(c.payload)
    ensures AddChunk(ReliableOrdered, OnlyThis(payload), c) == OnlyThis(c.payload)
  {
    var none: Section, one: Section := map[], map[0 := payload];
    assert none[0 := c.payload] == one[0 := c.payload] == map[0 := c.payload];
    assert OnlyThis(payload).sections[0] == one;
    var after: map<nat, Section> := map[0 := map[0 := c.payload]];
    assert OnlyThis(payload).sections[0 := one[0 := c.payload]] == after;
    assert EMPTY.sections[0 := none[0 := c.payload]] == after;
  }

  /** A chunk without a file start that the decoder lets through. */
  predicate Passes(c: Chunk) {
    c.fileStart == None && |c.payload| >= 2
  }

  /** A chunk puts itself in the place of all that came before it. */
  lemma {:induction false} OrderedReceives(store: Store, c: Chunk)
    requires Passes(c) && (store == map[] || exists before :: store == map[0 := OnlyThis(before)])
    ensures DecodeSingle(ReliableOrdered, store, Encode(ReliableOrdered, 0, c)) ==
            if c.endOfMessage then (map[], Ok(Some(Message(c.payload, [])))) else (map[0 := OnlyThis(c.payload)], Ok(None))
  {
    OrderedReads(c);
    var parsed := Parsed(0, 0, 0, c.payload, c.endOfMessage);
    var before: Bytes := [];
    if store != map[] { before :| store == map[0 := OnlyThis(before)]; }
    Overwrites(before, parsed);
    JoinOne(c.payload);
    hide Encode, Decode, AddChunk, JoinSections;
    assert store[0 := OnlyThis(c.payload)] == map[0 := OnlyThis(c.payload)] && store - {0} == map[];
  }

  lemma {:induction false} OrderedKeepsTheLast(chunks: seq<Chunk>)
    requires forall c :: c in chunks ==> Passes(c) && !c.endOfMessage
    ensures OrderedStore(chunks) == if chunks == [] then map[] else map[0 := OnlyThis(chunks[|chunks| - 1].payload)]
    ensures chunks != [] ==> OrderedStep(chunks).1 == Ok(None)
  {
    hide DecodeSingle, Encode;
    if chunks != [] {
      var n := |chunks| - 1;
      OrderedKeepsTheLast(chunks[..n]);
      OrderedReceives(OrderedStore(chunks[..n]), chunks[n]);
    }
  }

  /**
   In the ordered mode, which is not in use, every chunk is filed under serial 0: of a message whose chunks
   pass, cut into any number of slices and received in order, only the last slice is delivered. So a message
   arrives intact if and only if it fits one chunk.
   */
  lemma {:induction false} OrderedModeKeepsTheLast(section: Bytes, size: nat)
    requires size >= 2 && section != [] && |section| % size != 1
    ensures var slices := Slices(section, size);
            var chunks := SectionChunks(slices, 0, true);
            && slices != []
            && (forall i :: 0 < i < |chunks| ==> OrderedStep(chunks[..i]).1 == Ok(None))
            && OrderedStep(chunks).1 == Ok(Some(Message(slices[|slices| - 1], [])))
            && (OrderedStep(chunks).1 == Whole([section]) <==> |section| <= size)
  {
    var slices := Slices(section, size);
    var chunks := SectionChunks(slices, 0, true);
    SlicesMakeUpSection(section, size);
    var n := |chunks| - 1;
    forall i | 0 <= i <= n
      ensures Passes(chunks[i]) && (chunks[i].endOfMessage <==> i == n) && chunks[i].payload == slices[i]
    {
      SectionChunkAt(slices, 0, true, i);
    }
    forall i | 0 <= i <= n
      ensures i > 0 ==> OrderedStep(chunks[..i]).1 == Ok(None)
      ensures OrderedStore(chunks[..i]) == map[] || exists before :: OrderedStore(chunks[..i]) == map[0 := OnlyThis(before)]
    {
      hide Slices, SectionChunks, OrderedStep, OrderedStore;
      OrderedKeepsTheLast(chunks[..i]);
    }
    LastSlice(section, size);
    hide Slices, SectionChunks, DecodeSingle, Encode;
    OrderedReceives(OrderedStore(chunks[..n]), chunks[n]);
  }

  /** The last slice is the section exactly when there is no other. */
  lemma {:induction false} LastSlice(section: Bytes, size: nat)
    requires size >= 1 && section != []
    ensures var slices := Slices(section, size);
            slices != [] && (slices[|slices| - 1] == section <==> |section| <= size) && |slices[|slices| - 1]| <= size
    decreases |section|
  {
    if |section| > size {
      var rest := Slices(section[size..], size);
      LastSlice(section[size..], size);
      assert Slices(section, size)[|rest|] == rest[|rest| - 1];
    }
  }

  lemma {:induction false} JoinOne(payload: Bytes)
    ensures var section: Section := map[0 := payload];
            var sections: map<nat, Section> := map[0 := section];
            JoinSections(sections) == [payload]
  {
    var section: Section := map[0 := payload];
    var sections: map<nat, Section> := map[0 := section];
    assert 0 in section.Keys && 0 in sections.Keys;
    assert Least(section.Keys) == 0 && Least(sections.Keys) == 0;
    assert section - {0} == map[] && sections - {0} == map[];
    assert JoinSection(section) == payload + JoinSection(section - {0}) == payload + [] == payload;
    assert JoinSections(sections) == [JoinSection(section)] + JoinSections(sections - {0}) == [payload];
  }
}
