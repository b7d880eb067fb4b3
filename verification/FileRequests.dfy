/** Any number of requests with files, linked one after the other and sent in any order. */
module FileRequests {
  import opened Wrappers
  import opened FilePointers

  /** The first pointer of request `k`, when the requests are linked one after the other. */
  function Start<F>(requests: seq<Value<F>>, n: nat, k: nat): (start: nat)
    requires k <= |requests|
    ensures start >= n
  {
    if k == 0 then n else Start(requests, n, k - 1) + |Files(requests[k - 1])|
  }

  /** The map when the first `k` requests have been linked. */
  function LinkAll<F>(requests: seq<Value<F>>, pointers: map<string, F>, n: nat, k: nat): map<string, F>
    requires k <= |requests|
  {
    if k == 0 then pointers
    else Register(LinkAll(requests, pointers, n, k - 1), Start(requests, n, k - 1), Files(requests[k - 1]))
  }

  predicate InRange<F>(requests: seq<Value<F>>, order: seq<nat>) {
    forall i :: 0 <= i < |order| ==> order[i] < |requests|
  }

  /** Sending the linked requests in an order of one's own: what each send comes to. */
  function SendAll<F>(requests: seq<Value<F>>, n: nat, order: seq<nat>, pointers: map<string, F>):
      (sent: seq<Sending<F, Value<F>>>)
    requires InRange(requests, order)
    ensures |sent| == |order|
  {
    if order == [] then []
    else
      var first := Normalize(Linked(requests[order[0]], Start(requests, n, order[0])), pointers, []);
      [first] + SendAll(requests, n, order[1..], first.pointers)
  }

  lemma {:induction false} StartsApart<F>(requests: seq<Value<F>>, n: nat, a: nat, b: nat)
    requires a < b <= |requests|
    ensures Start(requests, n, a) + |Files(requests[a])| <= Start(requests, n, b)
    decreases b
  {
    if a < b - 1 { StartsApart(requests, n, a, b - 1); }
  }

  /** Taking the pointers of one range leaves those of a range apart from it. */
  lemma {:induction false} HasApart<F>(pointers: map<string, F>, n: nat, files: seq<F>, m: nat, count: nat)
    requires Has(pointers, n, files) && (n + |files| <= m || m + count <= n)
    ensures Has(pointers - Pointers(m, count), n, files)
  {
    forall j: nat | n <= j < n + |files|
      ensures Pointer(j) in pointers - Pointers(m, count) && pointers[Pointer(j)] == files[j - n]
    {
      PointersIn(m, count, j);
    }
  }

  /** Registering more leaves what was there. */
  lemma {:induction false} HasStill<F>(pointers: map<string, F>, n: nat, files: seq<F>, m: nat, more: seq<F>)
    requires Has(pointers, n, files) && n + |files| <= m
    ensures Has(Register(pointers, m, more), n, files)
  {
    forall j: nat | n <= j < n + |files|
      ensures Pointer(j) in Register(pointers, m, more) && Register(pointers, m, more)[Pointer(j)] == files[j - n]
    {
      RegisterKeeps(pointers, m, more, j);
    }
  }

  lemma {:induction false} TakeBackwards<F>(pointers: map<string, F>, n: nat, a: nat, b: nat)
    ensures pointers - Pointers(n + a, b) - Pointers(n, a) == pointers - Pointers(n, a + b)
  {
    PointersJoin(n, a, b);
  }

  /** Taking the first `count` pointers from `n` on out of the map gives back the one before. */
  predicate Restores<F(==)>(all: map<string, F>, n: nat, count: nat, before: map<string, F>) {
    all - Pointers(n, count) == before
  }

  lemma {:induction false} LinkOne<F>(before: map<string, F>, pointers: map<string, F>, n: nat, start: nat,
      files: seq<F>)
    requires n <= start && Issued(before, start) && Restores(before, n, start - n, pointers)
    ensures var after := Register(before, start, files);
            && Issued(after, start + |files|) && Has(after, start, files)
            && Restores(after, n, start - n + |files|, pointers)
  {
    hide Has, Pointers, Register, Issued;
    RegisterAdds(before, start, files);
    assert n + (start - n) == start;
    TakeBackwards(Register(before, start, files), n, start - n, |files|);
  }

  lemma {:induction false} LinkAllIssues<F>(requests: seq<Value<F>>, pointers: map<string, F>, n: nat, k: nat)
    requires k <= |requests| && Issued(pointers, n)
    ensures var all := LinkAll(requests, pointers, n, k);
            Issued(all, Start(requests, n, k)) && Restores(all, n, Start(requests, n, k) - n, pointers)
  {
    hide Has, Pointers, Register, Issued, Files, Restores;
    if k == 0 {
      NothingTaken(pointers, n);
    } else {
      LinkAllIssues(requests, pointers, n, k - 1);
      LinkOne(LinkAll(requests, pointers, n, k - 1), pointers, n, Start(requests, n, k - 1), Files(requests[k - 1]));
    }
  }

  lemma {:induction false} LinkAllHas<F>(requests: seq<Value<F>>, pointers: map<string, F>, n: nat, k: nat, i: nat)
    requires i < k <= |requests| && Issued(pointers, n)
    ensures Has(LinkAll(requests, pointers, n, k), Start(requests, n, i), Files(requests[i]))
    decreases k
  {
    hide Has, Pointers, Register, Issued, Files, Start;
    var before, start, files := LinkAll(requests, pointers, n, k - 1), Start(requests, n, k - 1), Files(requests[k - 1]);
    if i == k - 1 {
      LinkAllIssues(requests, pointers, n, k - 1);
      LinkOne(before, pointers, n, start, files);
    } else {
      LinkAllHas(requests, pointers, n, k - 1, i);
      StartsApart(requests, n, i, k - 1);
      HasStill(before, Start(requests, n, i), Files(requests[i]), start, files);
    }
  }

  lemma {:induction false} NothingTaken<F>(pointers: map<string, F>, n: nat)
    ensures Restores(pointers, n, 0, pointers)
  {
  }

  predicate NoRepeats(order: seq<nat>) {
    forall i, j :: 0 <= i < j < |order| ==> order[i] != order[j]
  }

  /** The pointers of the requests in `order`. */
  function PointersOf<F>(requests: seq<Value<F>>, n: nat, order: seq<nat>): set<string>
    requires InRange(requests, order)
  {
    if order == [] then {}
    else Pointers(Start(requests, n, order[0]), |Files(requests[order[0]])|) + PointersOf(requests, n, order[1..])
  }

  /** The map after everything in `order` was sent. */
  function Left<F>(pointers: map<string, F>, sent: seq<Sending<F, Value<F>>>): map<string, F> {
    if sent == [] then pointers else sent[|sent| - 1].pointers
  }

  /** After one send the other requests still have their files in the map. */
  lemma {:induction false} OthersKeep<F>(requests: seq<Value<F>>, n: nat, order: seq<nat>, pointers: map<string, F>)
    requires InRange(requests, order) && NoRepeats(order) && order != []
    requires forall i :: 0 <= i < |order| ==> Has(pointers, Start(requests, n, order[i]), Files(requests[order[i]]))
    ensures var own := Pointers(Start(requests, n, order[0]), |Files(requests[order[0]])|);
            forall i :: 1 <= i < |order| ==> Has(pointers - own, Start(requests, n, order[i]), Files(requests[order[i]]))
  {
    hide Has, Pointers, Files, Start;
    var k := order[0];
    forall i | 1 <= i < |order|
      ensures Has(pointers - Pointers(Start(requests, n, k), |Files(requests[k])|), Start(requests, n, order[i]), Files(requests[order[i]]))
    {
      var j := order[i];
      if j < k { StartsApart(requests, n, j, k); } else { StartsApart(requests, n, k, j); }
      HasApart(pointers, Start(requests, n, j), Files(requests[j]), Start(requests, n, k), |Files(requests[k])|);
    }
  }

  lemma {:induction false} TakeTwo<F>(pointers: map<string, F>, a: set<string>, b: set<string>)
    ensures pointers - a - b == pointers - (a + b) && pointers - {} == pointers
  {
  }

  lemma {:induction false} SendsTakeOwn<F>(requests: seq<Value<F>>, n: nat, order: seq<nat>, pointers: map<string, F>)
    requires InRange(requests, order) && NoRepeats(order)
    requires forall i :: 0 <= i < |order| ==> Clean(requests[order[i]])
    requires forall i :: 0 <= i < |order| ==> Has(pointers, Start(requests, n, order[i]), Files(requests[order[i]]))
    ensures var sent := SendAll(requests, n, order, pointers);
            && (forall i :: 0 <= i < |order| ==>
                  sent[i].normalized == Some(Linked(requests[order[i]], 0)) && sent[i].files == Files(requests[order[i]]))
            && Left(pointers, sent) == pointers - PointersOf(requests, n, order)
  {
    hide Has, Pointers, Normalize, Linked, Files, Clean, Start;
    if order == [] {
      TakeTwo(pointers, {}, {});
    } else {
      var k, rest := order[0], order[1..];
      var own := Pointers(Start(requests, n, k), |Files(requests[k])|);
      SendTakesOwn(requests[k], Start(requests, n, k), pointers);
      OthersKeep(requests, n, order, pointers);
      assert forall i :: 0 <= i < |rest| ==> rest[i] == order[i + 1];
      SendsTakeOwn(requests, n, rest, pointers - own);
      TakeTwo(pointers, own, PointersOf(requests, n, rest));
    }
  }

  /** The pointers of all requests together are those issued while linking them. */
  lemma {:induction false} AllPointers<F>(requests: seq<Value<F>>, n: nat, order: seq<nat>, k: nat)
    requires InRange(requests, order) && k <= |requests| && forall i: nat :: i < k ==> i in order
    ensures Pointers(n, Start(requests, n, k) - n) <= PointersOf(requests, n, order)
  {
    hide Pointers, PointersOf, Files;
    if k == 0 {
      NoPointers(n);
    } else {
      AllPointers(requests, n, order, k - 1);
      OwnPointers(requests, n, order, k - 1);
      var start := Start(requests, n, k - 1);
      PointersJoin(n, start - n, |Files(requests[k - 1])|);
      assert n + (start - n) == start;
    }
  }

  lemma {:induction false} NoPointers(n: nat)
    ensures Pointers(n, 0) == {}
  {
  }

  lemma {:induction false} OwnPointers<F>(requests: seq<Value<F>>, n: nat, order: seq<nat>, k: nat)
    requires InRange(requests, order) && k in order
    ensures Pointers(Start(requests, n, k), |Files(requests[k])|) <= PointersOf(requests, n, order)
  {
    if order[0] != k { OwnPointers(requests, n, order[1..], k); }
  }

  lemma {:induction false} Within(n: nat, a: nat, b: nat, total: nat)
    requires a + b <= total
    ensures Pointers(n + a, b) <= Pointers(n, total)
  {
    PointersJoin(n, a, b);
    PointersJoin(n, a + b, total - (a + b));
  }

  lemma {:induction false} OnlyPointers<F>(requests: seq<Value<F>>, n: nat, order: seq<nat>)
    requires InRange(requests, order)
    ensures PointersOf(requests, n, order) <= Pointers(n, Start(requests, n, |requests|) - n)
  {
    hide Pointers, Files, Start;
    if order != [] {
      OnlyPointers(requests, n, order[1..]);
      var start := Start(requests, n, order[0]);
      StartsApart(requests, n, order[0], |requests|);
      assert n + (start - n) == start;
      Within(n, start - n, |Files(requests[order[0]])|, Start(requests, n, |requests|) - n);
    }
  }

  /**
   Any number of requests, linked one after the other, can be sent in any order: each gets its own files, in
   their order and under pointers numbered from 0, and when all have been sent the shared map is as before.
   */
  lemma {:induction false} AnyRequestsInAnyOrder<F>(requests: seq<Value<F>>, pointers: map<string, F>, n: nat,
      order: seq<nat>)
    requires Issued(pointers, n) && (forall k :: 0 <= k < |requests| ==> Clean(requests[k]))
    requires InRange(requests, order) && NoRepeats(order)
    ensures var all := LinkAll(requests, pointers, n, |requests|);
            var sent := SendAll(requests, n, order, all);
            && (forall i :: 0 <= i < |order| ==>
                  sent[i].normalized == Some(Linked(requests[order[i]], 0)) && sent[i].files == Files(requests[order[i]]))
            && ((forall k: nat :: k < |requests| ==> k in order) ==> Left(all, sent) == pointers)
  {
    hide Has, Pointers, Normalize, Linked, Files, Clean, Start, LinkAll, SendAll, PointersOf, Issued;
    LinkAllIssues(requests, pointers, n, |requests|);
    forall i | 0 <= i < |order|
      ensures Has(LinkAll(requests, pointers, n, |requests|), Start(requests, n, order[i]), Files(requests[order[i]]))
    {
      LinkAllHas(requests, pointers, n, |requests|, order[i]);
    }
    SendsTakeOwn(requests, n, order, LinkAll(requests, pointers, n, |requests|));
    OnlyPointers(requests, n, order);
    if forall k: nat :: k < |requests| ==> k in order { AllPointers(requests, n, order, |requests|); }
  }
}
