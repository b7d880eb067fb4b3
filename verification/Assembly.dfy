/**
 What reassembling messages from chunks ought to do, with no bytes in it: for every message, remember
 the serials received since it was last delivered, and deliver when none is missing. Both decoders are
 proved to do exactly this.
 */
module Assembly {

  /**
   A message as its receiver sees it: how many chunks it has, whether one of them carries the end mark,
   and which of them the receiver's format check lets through.
   */
  datatype Shape = Shape(total: nat, ends: bool, accepted: set<nat>)

  datatype Verdict = Rejected | Pending | Complete

  /** The arrival of chunk `serial` of message `id`. */
  datatype Arrival = Arrival(id: nat, serial: nat)

  /** 0, 1, ..., total - 1. */
  function Serials(total: nat): (all: set<nat>)
    ensures forall s: nat :: s in all <==> s < total
  {
    if total == 0 then {} else Serials(total - 1) + {total - 1}
  }

  function Receive(shape: Shape, have: set<nat>, serial: nat): (Verdict, set<nat>) {
    if serial !in shape.accepted then (Rejected, have)
    else if serial in have then (Pending, have)
    else if shape.ends && have + {serial} == Serials(shape.total) then (Complete, {})
    else (Pending, have + {serial})
  }

  /** Every arrival is of a chunk of a known message. */
  predicate Known(shapes: map<nat, Shape>, arrivals: seq<Arrival>) {
    forall a :: a in arrivals ==> a.id in shapes && a.serial < shapes[a.id].total
  }

  /** The serials of `id` received since it was last delivered. */
  function Have(shapes: map<nat, Shape>, arrivals: seq<Arrival>, id: nat): set<nat>
    requires Known(shapes, arrivals)
  {
    if arrivals == [] then {}
    else
      var before, last := arrivals[..|arrivals| - 1], arrivals[|arrivals| - 1];
      if last.id == id then Receive(shapes[id], Have(shapes, before, id), last.serial).1
      else Have(shapes, before, id)
  }

  /** The verdict on the last arrival. */
  function LastVerdict(shapes: map<nat, Shape>, arrivals: seq<Arrival>): Verdict
    requires Known(shapes, arrivals) && arrivals != []
  {
    var last := arrivals[|arrivals| - 1];
    Receive(shapes[last.id], Have(shapes, arrivals[..|arrivals| - 1], last.id), last.serial).0
  }

  // ---------------------------------------------------------------- when a message is delivered

  /** The serials of `id` that have arrived at all. */
  function Seen(arrivals: seq<Arrival>, id: nat): set<nat> {
    set a | a in arrivals && a.id == id :: a.serial
  }

  predicate Deliverable(shape: Shape) {
    shape.ends && shape.total > 0 && Serials(shape.total) <= shape.accepted
  }

  lemma {:induction false} SeenGrows(arrivals: seq<Arrival>, id: nat)
    requires arrivals != []
    ensures var before, last := arrivals[..|arrivals| - 1], arrivals[|arrivals| - 1];
            Seen(arrivals, id) == Seen(before, id) + if last.id == id then {last.serial} else {}
  {
    var before, last := arrivals[..|arrivals| - 1], arrivals[|arrivals| - 1];
    assert arrivals == before + [last];
  }

  lemma {:induction false} SeenInRange(shapes: map<nat, Shape>, arrivals: seq<Arrival>, id: nat)
    requires Known(shapes, arrivals) && id in shapes
    ensures Seen(arrivals, id) <= Serials(shapes[id].total)
  {
  }

  /** Until every chunk of a deliverable message has arrived, exactly the arrived ones are held. */
  lemma {:induction false} HaveIsSeen(shapes: map<nat, Shape>, arrivals: seq<Arrival>, id: nat)
    requires Known(shapes, arrivals) && id in shapes && Deliverable(shapes[id])
    requires Seen(arrivals, id) != Serials(shapes[id].total)
    ensures Have(shapes, arrivals, id) == Seen(arrivals, id)
  {
    if arrivals != [] {
      var before := arrivals[..|arrivals| - 1];
      SeenGrows(arrivals, id);
      SeenInRange(shapes, arrivals, id);
      SeenInRange(shapes, before, id);
      HaveIsSeen(shapes, before, id);
    }
  }

  /**
   In any stream, interleaved with any other messages and with duplicates, a deliverable message is not
   delivered while a chunk is missing, and is delivered by the arrival of its last missing chunk.
   */
  lemma {:induction false} DeliveredByLastMissingChunk(shapes: map<nat, Shape>, arrivals: seq<Arrival>)
    requires Known(shapes, arrivals) && arrivals != []
    requires var id := arrivals[|arrivals| - 1].id;
             && Deliverable(shapes[id])
             && Seen(arrivals[..|arrivals| - 1], id) != Serials(shapes[id].total)
    ensures var id := arrivals[|arrivals| - 1].id;
            LastVerdict(shapes, arrivals) == if Seen(arrivals, id) == Serials(shapes[id].total) then Complete else Pending
  {
    var before, last := arrivals[..|arrivals| - 1], arrivals[|arrivals| - 1];
    SeenGrows(arrivals, last.id);
    SeenInRange(shapes, arrivals, last.id);
    HaveIsSeen(shapes, before, last.id);
  }

  lemma {:induction false} HaveIsAccepted(shapes: map<nat, Shape>, arrivals: seq<Arrival>, id: nat)
    requires Known(shapes, arrivals) && id in shapes
    ensures Have(shapes, arrivals, id) <= shapes[id].accepted * Serials(shapes[id].total)
  {
    if arrivals != [] { HaveIsAccepted(shapes, arrivals[..|arrivals| - 1], id); }
  }

  /** A message that is not deliverable is never delivered, whatever arrives. */
  lemma {:induction false} UndeliverableIsNeverDelivered(shapes: map<nat, Shape>, arrivals: seq<Arrival>)
    requires Known(shapes, arrivals) && arrivals != []
    requires !Deliverable(shapes[arrivals[|arrivals| - 1].id])
    ensures LastVerdict(shapes, arrivals) != Complete
  {
    var last := arrivals[|arrivals| - 1];
    HaveIsAccepted(shapes, arrivals[..|arrivals| - 1], last.id);
    var have := Have(shapes, arrivals[..|arrivals| - 1], last.id);
    if last.serial in shapes[last.id].accepted {
      assert have + {last.serial} <= shapes[last.id].accepted;
    }
  }

  // ---------------------------------------------------------------- counting chunks

  /** A set of serials below `n` has `n` members exactly when none is missing. */
  lemma {:induction false} FullByCount(have: set<nat>, n: nat)
    requires have <= Serials(n)
    ensures |have| <= n && (|have| == n <==> have == Serials(n))
  {
    if n == 0 {
    } else {
      var rest := have - {n - 1};
      FullByCount(rest, n - 1);
      if n - 1 in have {
        assert have == rest + {n - 1};
        assert Serials(n) == Serials(n - 1) + {n - 1};
      } else {
        assert rest == have;
        assert n - 1 in Serials(n);
      }
    }
  }
}
