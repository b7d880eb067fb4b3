/** Cutting messages into chunks: the browser's chunker, with files, and the server's encoder, without. */
module ChunkSender {
  import opened Wrappers
  import opened ChunkFormat

  // ---------------------------------------------------------------- slices

  function Slices(section: Bytes, size: nat): seq<Bytes>
    requires size >= 1
    decreases |section|
  {
    if section == [] then []
    else if |section| <= size then [section]
    else [section[..size]] + Slices(section[size..], size)
  }

  function Flatten(parts: seq<Bytes>): Bytes {
    if parts == [] then [] else parts[0] + Flatten(parts[1..])
  }

  lemma {:induction false} FlattenConcat(a: seq<Bytes>, b: seq<Bytes>)
    ensures Flatten(a + b) == Flatten(a) + Flatten(b)
  {
    if a == [] {
      assert a + b == b;
    } else {
      assert (a + b)[1..] == a[1..] + b;
      FlattenConcat(a[1..], b);
    }
  }

  /** Slicing loses nothing, and makes a slice of one byte exactly when one byte is left over. */
  lemma {:induction false} SlicesMakeUpSection(section: Bytes, size: nat)
    requires size >= 2
    ensures var slices := Slices(section, size);
            && Flatten(slices) == section && (slices == [] <==> section == [])
            && (forall i :: 0 <= i < |slices| ==> 1 <= |slices[i]| <= size)
            && ((forall i :: 0 <= i < |slices| ==> |slices[i]| >= 2) <==> |section| % size != 1)
    decreases |section|
  {
    if |section| > size {
      var rest := Slices(section[size..], size);
      SlicesMakeUpSection(section[size..], size);
      assert section[..size] + section[size..] == section;
      assert Slices(section, size)[1..] == rest;
      assert |section| % size == |section[size..]| % size by { ModMinus(|section|, size); }
      assert forall i :: 1 <= i < |Slices(section, size)| ==> Slices(section, size)[i] == rest[i - 1];
      if forall i :: 0 <= i < |Slices(section, size)| ==> |Slices(section, size)[i]| >= 2 {
        assert forall i :: 0 <= i < |rest| ==> rest[i] == Slices(section, size)[i + 1];
      }
    } else if section != [] {
      assert Slices(section, size) == [section] && Flatten([section]) == section + Flatten([]);
      assert |Slices(section, size)[0]| == |section|;
    }
  }

  lemma {:induction false} ModMinus(n: int, size: int)
    requires size >= 1 && n >= size
    ensures n % size == (n - size) % size
  {
    var q, r := n / size, n % size;
    assert n - size == (q - 1) * size + r;
    ModUnique(n - size, size, q - 1, r);
  }

  lemma {:induction false} ModUnique(n: int, size: int, q: int, r: int)
    requires size >= 1 && n == q * size + r && 0 <= r < size
    ensures n % size == r
  {
    var d, m := n / size - q, n % size;
    assert d * size == r - m;
    assert d >= 1 ==> d * size >= size;
    assert d <= -1 ==> d * size <= -size;
  }

  /** The browser's slicing loop. */
  method SplitSlice(section: Bytes, size: nat) returns (slices: seq<Bytes>)
    requires size >= 1
    ensures slices == Slices(section, size)
  {
    slices := [];
    var offset := 0;
    while offset < |section|
      invariant offset >= |section| ==> slices == Slices(section, size)
      invariant offset < |section| ==> slices + Slices(section[offset..], size) == Slices(section, size)
    {
      var end := if |section| <= size + offset then |section| else size + offset;
      if end < |section| {
        assert section[offset..][..size] == section[offset..end] && section[offset..][size..] == section[end..];
      } else {
        assert section[offset..] == section[offset..end];
      }
      slices := slices + [section[offset..end]];
      offset := offset + size;
    }
  }

  // ---------------------------------------------------------------- the browser's chunker

  /** Files give four bytes of every chunk to the file start. */
  function SliceSize(maxPayload: nat, sectionIndex: nat): nat
    requires maxPayload >= 5
  {
    if sectionIndex == 0 then maxPayload else maxPayload - 4
  }

  /** The chunks of one section, the first of which gets serial `first`. */
  function SectionChunks(slices: seq<Bytes>, first: nat, isLast: bool): (chunks: seq<Chunk>)
    ensures |chunks| == |slices|
  {
    seq(|slices|, i requires 0 <= i < |slices| =>
      Chunk(first + i, if first > 0 then Some(first) else None, slices[i], isLast && i == |slices| - 1))
  }

  /** The chunks of the sections from `k` on, when `offset` chunks came before them. */
  function Plan(sections: seq<Bytes>, maxPayload: nat, k: nat, offset: nat): seq<Chunk>
    requires maxPayload >= 5 && k <= |sections|
    decreases |sections| - k
  {
    if k == |sections| then []
    else
      var slices := Slices(sections[k], SliceSize(maxPayload, k));
      SectionChunks(slices, offset, k == |sections| - 1) + Plan(sections, maxPayload, k + 1, offset + |slices|)
  }

  method SplitSectionIntoChunks(sections: seq<Bytes>, sectionIndex: nat, maxPayload: nat, serialOffset: nat)
    returns (chunks: seq<Chunk>, serialOffset': nat)
    requires maxPayload >= 5 && sectionIndex < |sections|
    ensures var slices := Slices(sections[sectionIndex], SliceSize(maxPayload, sectionIndex));
            && chunks == SectionChunks(slices, serialOffset, sectionIndex == |sections| - 1)
            && serialOffset' == serialOffset + |slices|
  {
    var slices := SplitSlice(sections[sectionIndex], maxPayload - if sectionIndex == 0 then 0 else 4);
    serialOffset' := serialOffset + |slices|;
    chunks := [];
    for i := 0 to |slices|
      invariant chunks == SectionChunks(slices, serialOffset, sectionIndex == |sections| - 1)[..i]
    {
      chunks := chunks + [Chunk(i + serialOffset, if serialOffset > 0 then Some(serialOffset) else None, slices[i],
                                sectionIndex == |sections| - 1 && i == |slices| - 1)];
    }
  }

  method SplitMessageIntoChunks(sections: seq<Bytes>, maxPayload: nat) returns (chunks: seq<Chunk>)
    requires maxPayload >= 5
    ensures chunks == Plan(sections, maxPayload, 0, 0)
  {
    hide Slices, SectionChunks;
    chunks := [];
    var serialOffset := 0;
    for k := 0 to |sections|
      invariant chunks + Plan(sections, maxPayload, k, serialOffset) == Plan(sections, maxPayload, 0, 0)
    {
      var more;
      more, serialOffset := SplitSectionIntoChunks(sections, k, maxPayload, serialOffset);
      chunks := chunks + more;
    }
  }

  // ---------------------------------------------------------------- what a plan looks like

  /** Chunks before section `k`. */
  function Offset(sections: seq<Bytes>, maxPayload: nat, k: nat): nat
    requires maxPayload >= 5 && k <= |sections|
  {
    if k == 0 then 0 else Offset(sections, maxPayload, k - 1) + |Slices(sections[k - 1], SliceSize(maxPayload, k - 1))|
  }

  /** The whole plan, from section `k` on. */
  lemma {:induction false} PlanFrom(sections: seq<Bytes>, maxPayload: nat, k: nat)
    requires maxPayload >= 5 && k <= |sections|
    ensures var plan, offset := Plan(sections, maxPayload, 0, 0), Offset(sections, maxPayload, k);
            offset <= |plan| && plan[offset..] == Plan(sections, maxPayload, k, offset)
  {
    hide Slices, SectionChunks;
    if k > 0 {
      PlanFrom(sections, maxPayload, k - 1);
      var plan, before := Plan(sections, maxPayload, 0, 0), Offset(sections, maxPayload, k - 1);
      var slices := Slices(sections[k - 1], SliceSize(maxPayload, k - 1));
      var isLast := k - 1 == |sections| - 1;
      assert plan[before..] == SectionChunks(slices, before, isLast) + Plan(sections, maxPayload, k, before + |slices|);
      assert plan[before..][|slices|..] == plan[before + |slices|..];
    }
  }

  lemma {:induction false} SectionChunkAt(slices: seq<Bytes>, first: nat, isLast: bool, i: nat)
    requires i < |slices|
    ensures |SectionChunks(slices, first, isLast)| == |slices|
    ensures SectionChunks(slices, first, isLast)[i] ==
            Chunk(first + i, if first > 0 then Some(first) else None, slices[i], isLast && i == |slices| - 1)
  {
  }

  /** The chunk of slice `i` of section `k`. */
  lemma {:induction false} PlanAt(sections: seq<Bytes>, maxPayload: nat, k: nat, i: nat)
    requires maxPayload >= 5 && k < |sections| && i < |Slices(sections[k], SliceSize(maxPayload, k))|
    ensures var plan, offset := Plan(sections, maxPayload, 0, 0), Offset(sections, maxPayload, k);
            var slices := Slices(sections[k], SliceSize(maxPayload, k));
            && offset + i < |plan|
            && plan[offset + i] == Chunk(offset + i, if offset > 0 then Some(offset) else None, slices[i],
                                         k == |sections| - 1 && i == |slices| - 1)
  {
    hide Slices, SectionChunks;
    PlanFrom(sections, maxPayload, k);
    var plan, offset := Plan(sections, maxPayload, 0, 0), Offset(sections, maxPayload, k);
    var slices := Slices(sections[k], SliceSize(maxPayload, k));
    var chunks := SectionChunks(slices, offset, k == |sections| - 1);
    assert plan[offset..] == chunks + Plan(sections, maxPayload, k + 1, offset + |slices|);
    SectionChunkAt(slices, offset, k == |sections| - 1, i);
    assert plan[offset + i] == plan[offset..][i] == chunks[i];
  }

  /** Every chunk of a plan is a slice of some section. */
  lemma {:induction false} PlanSection(sections: seq<Bytes>, maxPayload: nat, s: nat, k: nat) returns (j: nat, i: nat)
    requires maxPayload >= 5 && k <= |sections| && s < Offset(sections, maxPayload, k)
    ensures j < k && i < |Slices(sections[j], SliceSize(maxPayload, j))| && s == Offset(sections, maxPayload, j) + i
  {
    var before := Offset(sections, maxPayload, k - 1);
    if s < before { j, i := PlanSection(sections, maxPayload, s, k - 1); }
    else { j, i := k - 1, s - before; }
  }

  lemma {:induction false} PlanLength(sections: seq<Bytes>, maxPayload: nat)
    requires maxPayload >= 5
    ensures |Plan(sections, maxPayload, 0, 0)| == Offset(sections, maxPayload, |sections|)
  {
    PlanFrom(sections, maxPayload, |sections|);
    var plan, offset := Plan(sections, maxPayload, 0, 0), Offset(sections, maxPayload, |sections|);
    assert plan[offset..] == [];
  }

  /**
   Serials count up from 0, and the end mark is on the last chunk of the last section: on none when that
   section is empty.
   */
  lemma {:induction false} PlanIsNumbered(sections: seq<Bytes>, maxPayload: nat, s: nat)
    requires maxPayload >= 5 && s < |Plan(sections, maxPayload, 0, 0)|
    ensures var plan := Plan(sections, maxPayload, 0, 0);
            && plan[s].serial == s
            && (plan[s].endOfMessage <==> s == |plan| - 1 && sections[|sections| - 1] != [])
  {
    PlanLength(sections, maxPayload);
    var k, i := PlanSection(sections, maxPayload, s, |sections|);
    PlanAt(sections, maxPayload, k, i);
    var n := |sections|;
    var slices := Slices(sections[n - 1], SliceSize(maxPayload, n - 1));
    SlicesEmpty(sections[n - 1], SliceSize(maxPayload, n - 1));
    if k < n - 1 {
      OffsetMonotone(sections, maxPayload, k + 1, n - 1);
    }
  }

  lemma {:induction false} SlicesEmpty(section: Bytes, size: nat)
    requires size >= 1
    ensures Slices(section, size) == [] <==> section == []
  {
  }

  lemma {:induction false} OffsetMonotone(sections: seq<Bytes>, maxPayload: nat, j: nat, k: nat)
    requires maxPayload >= 5 && j <= k <= |sections|
    ensures Offset(sections, maxPayload, j) <= Offset(sections, maxPayload, k)
  {
    if j < k { OffsetMonotone(sections, maxPayload, j, k - 1); }
  }
}
