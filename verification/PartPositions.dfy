/** Moving parts in the print queue: shifting positions in place, and what that does to the order of the list. */
module PartPositions {
  import opened Wrappers

  datatype Part = Part(id: string, position: int)

  /** One element of the request. */
  datatype Move = Move(id: string, position: int)

  // ---------------------------------------------------------------- what the loops compute

  /** The new position of a part that is not moved. */
  function Bumped(position: int, previous: int, next: int): int {
    var closed := if position > previous then position - 1 else position;
    if closed >= next then closed + 1 else closed
  }

  function Moved(part: Part, move: Move, previous: int): Part {
    part.(position := if part.id == move.id then move.position else Bumped(part.position, previous, move.position))
  }

  /** The index of a part, or the number of parts. */
  function Find(parts: seq<Part>, id: string): (i: nat)
    ensures i <= |parts| && (forall j :: 0 <= j < i ==> parts[j].id != id) && (i < |parts| ==> parts[i].id == id)
  {
    if parts == [] || parts[0].id == id then 0 else 1 + Find(parts[1..], id)
  }

  function MovedAll(parts: seq<Part>, move: Move, previous: int): (moved: seq<Part>)
    ensures |moved| == |parts|
  {
    seq(|parts|, j requires 0 <= j < |parts| => Moved(parts[j], move, previous))
  }

  function MoveOne(parts: seq<Part>, move: Move): (moved: Result<seq<Part>>)
    ensures moved.Ok? ==> |moved.value| == |parts|
  {
    var i := Find(parts, move.id);
    if i == |parts| then Err("Part not found in job queue")
    else Ok(MovedAll(parts, move, parts[i].position))
  }

  function MoveAll(parts: seq<Part>, moves: seq<Move>): (moved: Result<seq<Part>>)
    ensures moved.Ok? ==> |moved.value| == |parts|
    decreases |moves|
  {
    if moves == [] then Ok(parts)
    else
      match MoveOne(parts, moves[0])
      case Err(error) => Err(error)
      case Ok(next) => MoveAll(next, moves[1..])
  }

  /** The parts whose position changed, as they are now. */
  function Changed(before: seq<Part>, after: seq<Part>): seq<Part>
    requires |before| == |after|
  {
    if before == [] then []
    else (if after[0].position != before[0].position then [after[0]] else []) + Changed(before[1..], after[1..])
  }

  function SetPositions(parts: seq<Part>, moves: seq<Move>): Result<seq<Part>> {
    match MoveAll(parts, moves)
    case Err(error) => Err(error)
    case Ok(moved) => Ok(Changed(parts, moved))
  }

  // ---------------------------------------------------------------- the mutation

  method FindPart(parts: array<Part>, id: string) returns (i: nat)
    ensures i == Find(parts[..], id)
  {
    i := 0;
    while i < parts.Length && parts[i].id != id
      invariant i <= parts.Length
      invariant Find(parts[..], id) == i + Find(parts[i..], id)
    {
      assert parts[i..][1..] == parts[i + 1..];
      i := i + 1;
    }
  }

  /** The inner loop. */
  method Bump(parts: array<Part>, move: Move, previous: int)
    modifies parts
    ensures parts[..] == MovedAll(old(parts[..]), move, previous)
  {
    for i := 0 to parts.Length
      invariant forall j :: 0 <= j < i ==> parts[j] == Moved(old(parts[j]), move, previous)
      invariant forall j :: i <= j < parts.Length ==> parts[j] == old(parts[j])
    {
      if parts[i].position > previous {
        parts[i] := parts[i].(position := parts[i].position - 1);
      }
      if parts[i].position >= move.position {
        parts[i] := parts[i].(position := parts[i].position + 1);
      }
      if parts[i].id == move.id {
        parts[i] := parts[i].(position := move.position);
      }
    }
  }

  method SetPartPositions(parts: array<Part>, moves: seq<Move>) returns (result: Result<seq<Part>>)
    modifies parts
    ensures result == SetPositions(old(parts[..]), moves)
    ensures result.Ok? ==> MoveAll(old(parts[..]), moves) == Ok(parts[..])
  {
    var originals := parts[..];
    for m := 0 to |moves|
      invariant MoveAll(originals, moves) == MoveAll(parts[..], moves[m..])
    {
      var i := FindPart(parts, moves[m].id);
      assert moves[m..][0] == moves[m] && moves[m..][1..] == moves[m + 1..];
      if i == parts.Length {
        return Err("Part not found in job queue");
      }
      Bump(parts, moves[m], parts[i].position);
    }
    assert moves[|moves|..] == [];
    var changed := CollectChanged(originals, parts);
    result := Ok(changed);
  }

  /** The last loop. */
  method CollectChanged(originals: seq<Part>, parts: array<Part>) returns (changed: seq<Part>)
    requires |originals| == parts.Length
    ensures changed == Changed(originals, parts[..])
  {
    changed := [];
    for i := 0 to parts.Length
      invariant changed + Changed(originals[i..], parts[i..]) == Changed(originals, parts[..])
    {
      assert originals[i..][1..] == originals[i + 1..] && parts[i..][1..] == parts[i + 1..];
      if parts[i].position != originals[i].position {
        changed := changed + [parts[i]];
      }
    }
  }

  // ---------------------------------------------------------------- what every move keeps

  /** Ids are distinct, as primary keys are, and so are positions. */
  predicate Distinct(parts: seq<Part>) {
    forall i, j :: 0 <= i < j < |parts| ==> parts[i].id != parts[j].id && parts[i].position != parts[j].position
  }

  /** Parts other than `moves` name keep their relative order. */
  predicate SameOrder(before: seq<Part>, after: seq<Part>, moves: seq<Move>)
    requires |before| == |after|
  {
    forall i, j :: 0 <= i < |before| && 0 <= j < |before| && !Named(before[i].id, moves) && !Named(before[j].id, moves) ==>
      (before[i].position < before[j].position <==> after[i].position < after[j].position)
  }

  predicate Named(id: string, moves: seq<Move>) {
    exists move :: move in moves && move.id == id
  }

  predicate SameIds(before: seq<Part>, after: seq<Part>) {
    |before| == |after| && forall i :: 0 <= i < |before| ==> before[i].id == after[i].id
  }

  lemma {:induction false} MoveOneKeeps(parts: seq<Part>, move: Move)
    requires Distinct(parts) && MoveOne(parts, move).Ok?
    ensures var moved := MoveOne(parts, move).value;
            && SameIds(parts, moved) && Distinct(moved)
            && (forall i, j :: 0 <= i < |parts| && 0 <= j < |parts| && parts[i].id != move.id && parts[j].id != move.id ==>
                  (parts[i].position < parts[j].position <==> moved[i].position < moved[j].position))
            && (forall i :: 0 <= i < |parts| && parts[i].id == move.id ==> moved[i].position == move.position)
  {
    var k := Find(parts, move.id);
    var moved := MoveOne(parts, move).value;
    forall i | 0 <= i < |parts| && i != k
      ensures moved[i].position == Bumped(parts[i].position, parts[k].position, move.position) != move.position
    {
    }
  }

  /**
   Whatever is moved wherever: positions stay distinct, and the parts that no move names keep their relative
   order.
   */
  lemma {:induction false} MovesKeepOrder(parts: seq<Part>, moves: seq<Move>)
    requires Distinct(parts) && MoveAll(parts, moves).Ok?
    ensures var moved := MoveAll(parts, moves).value;
            SameIds(parts, moved) && Distinct(moved) && SameOrder(parts, moved, moves)
    decreases |moves|
  {
    if moves != [] {
      var next := MoveOne(parts, moves[0]).value;
      MoveOneKeeps(parts, moves[0]);
      MovesKeepOrder(next, moves[1..]);
      hide Distinct;
      var moved := MoveAll(next, moves[1..]).value;
      forall i, j | 0 <= i < |parts| && 0 <= j < |parts| && !Named(parts[i].id, moves) && !Named(parts[j].id, moves)
        ensures parts[i].position < parts[j].position <==> moved[i].position < moved[j].position
      {
        NotNamed(parts[i].id, moves);
        NotNamed(parts[j].id, moves);
      }
    }
  }

  lemma {:induction false} NotNamed(id: string, moves: seq<Move>)
    requires moves != [] && !Named(id, moves)
    ensures id != moves[0].id && !Named(id, moves[1..])
  {
    assert moves[0] in moves;
  }

  /** It fails exactly when a move names no part. */
  lemma {:induction false} FailsForUnknownParts(parts: seq<Part>, moves: seq<Move>)
    ensures MoveAll(parts, moves).Err? <==>
            exists m :: 0 <= m < |moves| && Find(parts, moves[m].id) == |parts|
    decreases |moves|
  {
    if moves != [] {
      assert moves[0] == moves[0..][0];
      if MoveOne(parts, moves[0]).Ok? {
        var next := MoveOne(parts, moves[0]).value;
        FailsForUnknownParts(next, moves[1..]);
        forall id: string ensures Find(next, id) == Find(parts, id) {
          SameFind(parts, next, id);
        }
        assert forall m :: 1 <= m < |moves| ==> moves[m] == moves[1..][m - 1];
      }
    }
  }

  lemma {:induction false} SameFind(parts: seq<Part>, others: seq<Part>, id: string)
    requires SameIds(parts, others)
    ensures Find(parts, id) == Find(others, id)
  {
  }

  // ---------------------------------------------------------------- moving in a list

  predicate NoRepeats(order: seq<string>) {
    forall p, q :: 0 <= p < q < |order| ==> order[p] != order[q]
  }

  /** The parts stand in the list `order` at their positions 0, 1, ... */
  predicate Lists(parts: seq<Part>, order: seq<string>) {
    && |order| == |parts| && NoRepeats(order)
    && forall i :: 0 <= i < |parts| ==> 0 <= parts[i].position < |order| && order[parts[i].position] == parts[i].id
  }

  function Remove(order: seq<string>, i: nat): seq<string>
    requires i < |order|
  {
    order[..i] + order[i + 1..]
  }

  function Insert(order: seq<string>, i: nat, id: string): seq<string>
    requires i <= |order|
  {
    order[..i] + [id] + order[i..]
  }

  function IndexOf(order: seq<string>, id: string): (i: nat)
    ensures i <= |order| && (id in order ==> i < |order| && order[i] == id)
  {
    if order == [] || order[0] == id then 0 else 1 + IndexOf(order[1..], id)
  }

  /** Taking a part out of the list and putting it back at the target index. */
  function Reinsert(order: seq<string>, move: Move): (after: seq<string>)
    requires move.id in order && 0 <= move.position < |order|
    ensures |after| == |order|
  {
    Insert(Remove(order, IndexOf(order, move.id)), move.position, move.id)
  }

  /** Moves of listed parts to places in the list, one after the other. */
  predicate InRange(order: seq<string>, moves: seq<Move>) {
    forall move :: move in moves ==> move.id in order && 0 <= move.position < |order|
  }

  function ReinsertAll(order: seq<string>, moves: seq<Move>): (after: seq<string>)
    requires InRange(order, moves)
    ensures |after| == |order|
    decreases |moves|
  {
    if moves == [] then order
    else
      ReinsertKeeps(order, moves[0]);
      ReinsertAll(Reinsert(order, moves[0]), moves[1..])
  }

  lemma {:induction false} ReinsertKeeps(order: seq<string>, move: Move)
    requires move.id in order && 0 <= move.position < |order|
    ensures forall id :: id in order ==> id in Reinsert(order, move)
  {
    var i := IndexOf(order, move.id);
    var removed, after := Remove(order, i), Reinsert(order, move);
    forall id | id in order
      ensures id in after
    {
      if id == move.id {
        assert after[move.position] == id;
      } else {
        var j :| 0 <= j < |order| && order[j] == id;
        var r := if j < i then j else j - 1;
        assert removed[r] == id;
        assert after[if r < move.position then r else r + 1] == id;
      }
    }
  }

  /**
   On positions 0, 1, ..., a move to a place in the list is the list move, and it is one of the positions
   0, 1, ... again exactly when the place is in the list.
   */
  lemma {:induction false} MoveIsReinsert(parts: seq<Part>, order: seq<string>, move: Move)
    requires Distinct(parts) && Lists(parts, order) && MoveOne(parts, move).Ok?
    ensures move.id in order
    ensures var moved := MoveOne(parts, move).value;
            if 0 <= move.position < |order| then Lists(moved, Reinsert(order, move))
            else forall other :: !Lists(moved, other)
  {
    var k := Find(parts, move.id);
    var moved := MoveOne(parts, move).value;
    assert order[parts[k].position] == move.id;
    if 0 <= move.position < |order| {
      assert parts[k].position == IndexOf(order, move.id);
      NoNewRepeats(order, move);
      forall i | 0 <= i < |moved|
        ensures 0 <= moved[i].position < |order| && Reinsert(order, move)[moved[i].position] == moved[i].id
      {
      }
    } else {
      assert moved[k].position == move.position;
    }
  }

  lemma {:induction false} NoNewRepeats(order: seq<string>, move: Move)
    requires NoRepeats(order) && move.id in order && 0 <= move.position < |order|
    ensures NoRepeats(Reinsert(order, move))
  {
    var removed := Remove(order, IndexOf(order, move.id));
    assert NoRepeats(removed) && move.id !in removed;
  }

  /** Every move is of a part of the queue to a place in the queue. */
  predicate Within(parts: seq<Part>, moves: seq<Move>) {
    forall move :: move in moves ==> Find(parts, move.id) < |parts| && 0 <= move.position < |parts|
  }

  lemma {:induction false} WithinIsInRange(parts: seq<Part>, order: seq<string>, moves: seq<Move>)
    requires Lists(parts, order) && Within(parts, moves)
    ensures InRange(order, moves)
  {
    forall move | move in moves
      ensures move.id in order
    {
      assert order[parts[Find(parts, move.id)].position] == move.id;
    }
  }

  /** Any number of moves within the queue are the list moves, in turn. */
  lemma {:induction false} MovesAreReinserts(parts: seq<Part>, order: seq<string>, moves: seq<Move>)
    requires Distinct(parts) && Lists(parts, order) && Within(parts, moves)
    ensures InRange(order, moves)
    ensures MoveAll(parts, moves).Ok? && Lists(MoveAll(parts, moves).value, ReinsertAll(order, moves))
    decreases |moves|
  {
    WithinIsInRange(parts, order, moves);
    if moves != [] {
      var move := moves[0];
      assert move in moves;
      var next := MoveOne(parts, move).value;
      MoveIsReinsert(parts, order, move);
      MoveOneKeeps(parts, move);
      hide Distinct, Lists, Reinsert;
      forall other | other in moves[1..]
        ensures Find(next, other.id) < |next|
      {
        assert other in moves;
        SameFind(parts, next, other.id);
      }
      MovesAreReinserts(next, Reinsert(order, move), moves[1..]);
    }
  }

  // ---------------------------------------------------------------- what is returned

  /** Exactly the parts whose position changed are returned, each once and as they are now. */
  lemma {:induction false} ReturnsTheChanged(before: seq<Part>, after: seq<Part>)
    requires SameIds(before, after) && Distinct(after)
    ensures forall part :: part in Changed(before, after) <==>
              exists i :: 0 <= i < |after| && after[i] == part && after[i].position != before[i].position
    ensures forall p, q :: 0 <= p < q < |Changed(before, after)| ==> Changed(before, after)[p] != Changed(before, after)[q]
  {
    if before != [] {
      ReturnsTheChanged(before[1..], after[1..]);
      var rest := Changed(before[1..], after[1..]);
      assert Distinct(after[1..]);
      forall part | part in rest
        ensures part != after[0]
      {
        var i :| 0 <= i < |after[1..]| && after[1..][i] == part;
        assert after[i + 1].id != after[0].id;
      }
      assert forall q :: 0 <= q < |rest| ==> rest[q] in rest;
      assert Changed(before, after) == (if after[0].position != before[0].position then [after[0]] else []) + rest;
      forall part
        ensures part in Changed(before, after) <==>
                exists i :: 0 <= i < |after| && after[i] == part && after[i].position != before[i].position
      {
        if i :| 0 <= i < |after| && after[i] == part && after[i].position != before[i].position {
          if i > 0 { assert after[1..][i - 1] == part && before[1..][i - 1] == before[i]; }
        }
        if part in rest {
          var i :| 0 <= i < |after[1..]| && after[1..][i] == part && after[1..][i].position != before[1..][i].position;
          assert after[i + 1] == part && before[i + 1] == before[1..][i];
        }
      }
    }
  }
}
