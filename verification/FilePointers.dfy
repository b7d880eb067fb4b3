/**
 Files in the variables of a request: the link replaces them by pointers to a shared map, the socket takes
 them out of the map again, renumbers the pointers from 0 and lists the files in that order.
 */
module FilePointers {
  import opened Wrappers

  /** The variables: a JSON tree with files in it. The fields of an object keep their order. */
  datatype Value<F> =
    | Text(text: string)
    | File(file: F)
    | Plain(id: int)
    | Array(items: Items<F>)
    | Object(items: Items<F>)

  datatype Items<F> = End | Item(key: string, value: Value<F>, rest: Items<F>)

  const PREFIX := "#__graphql_file__:"

  // ---------------------------------------------------------------- pointers

  function Digit(d: nat): char
    requires d < 10
  {
    '0' + d as char
  }

  function Digits(n: nat): (text: string)
    ensures |text| > 0
  {
    if n < 10 then [Digit(n)] else Digits(n / 10) + [Digit(n % 10)]
  }

  function Pointer(n: nat): string {
    PREFIX + Digits(n)
  }

  predicate IsPointer(text: string) {
    PREFIX <= text
  }

  function ReadDigits(text: string): Option<nat> {
    if text == "" then Some(0)
    else
      var before, last := ReadDigits(text[..|text| - 1]), text[|text| - 1];
      if before.Some? && '0' <= last <= '9' then Some(before.value * 10 + (last - '0') as nat) else None
  }

  /** The number of a pointer. */
  function Target(text: string): Option<nat> {
    if IsPointer(text) && |text| > |PREFIX| then ReadDigits(text[|PREFIX|..]) else None
  }

  lemma {:induction false} DigitsReadBack(n: nat)
    ensures ReadDigits(Digits(n)) == Some(n)
  {
    var text := Digits(n);
    if n < 10 {
      assert text[..|text| - 1] == "";
    } else {
      DigitsReadBack(n / 10);
      assert text[..|text| - 1] == Digits(n / 10);
    }
  }

  lemma {:induction false} PointersAreDistinct(i: nat, j: nat)
    ensures Target(Pointer(i)) == Some(i) && IsPointer(Pointer(i)) && (Pointer(i) == Pointer(j) ==> i == j)
  {
    DigitsReadBack(i);
    DigitsReadBack(j);
    assert Pointer(i)[|PREFIX|..] == Digits(i) && Pointer(j)[|PREFIX|..] == Digits(j);
  }

  // ---------------------------------------------------------------- the link

  /** The files of a tree, in order. */
  function Files<F>(v: Value<F>): seq<F> {
    match v
    case File(f) => [f]
    case Array(items) => FilesIn(items)
    case Object(items) => FilesIn(items)
    case _ => []
  }

  function FilesIn<F>(items: Items<F>): seq<F> {
    match items
    case End => []
    case Item(_, v, rest) => Files(v) + FilesIn(rest)
  }

  /** The tree with its files replaced by the pointers `n`, `n + 1`, ... */
  function Linked<F>(v: Value<F>, n: nat): Value<F> {
    match v
    case File(_) => Text(Pointer(n))
    case Array(items) => Array(LinkedItems(items, n))
    case Object(items) => Object(LinkedItems(items, n))
    case _ => v
  }

  function LinkedItems<F>(items: Items<F>, n: nat): Items<F> {
    match items
    case End => End
    case Item(key, v, rest) => Item(key, Linked(v, n), LinkedItems(rest, n + |Files(v)|))
  }

  /** The pointer map with the files entered from pointer `n` on. */
  function Register<F>(pointers: map<string, F>, n: nat, files: seq<F>): map<string, F>
    decreases |files|
  {
    if |files| == 0 then pointers else Register(pointers[Pointer(n) := files[0]], n + 1, files[1..])
  }

  lemma {:induction false} RegisterTwice<F>(pointers: map<string, F>, n: nat, a: seq<F>, b: seq<F>)
    ensures Register(Register(pointers, n, a), n + |a|, b) == Register(pointers, n, a + b)
    decreases |a|
  {
    if |a| == 0 {
      assert a + b == b;
    } else {
      RegisterTwice(pointers[Pointer(n) := a[0]], n + 1, a[1..], b);
      assert (a + b)[1..] == a[1..] + b;
    }
  }

  class Link<F> {
    var files: map<string, F>
    var nextId: nat

    constructor ()
      ensures files == map[] && nextId == 1
    {
      files, nextId := map[], 1;
    }

    method NormalizeVariables(v: Value<F>) returns (normalized: Value<F>)
      modifies this
      ensures normalized == Linked(v, old(nextId)) && nextId == old(nextId) + |Files(v)|
      ensures files == Register(old(files), old(nextId), Files(v))
      decreases v
    {
      match v {
        case File(file) =>
          var filePointer := Pointer(nextId);
          files := files[filePointer := file];
          nextId := nextId + 1;
          normalized := Text(filePointer);
        case Array(items) =>
          var mapped := NormalizeItems(items);
          normalized := Array(mapped);
        case Object(items) =>
          var mapped := NormalizeItems(items);
          normalized := Object(mapped);
        case _ =>
          normalized := v;
      }
    }

    method NormalizeItems(items: Items<F>) returns (normalized: Items<F>)
      modifies this
      ensures normalized == LinkedItems(items, old(nextId)) && nextId == old(nextId) + |FilesIn(items)|
      ensures files == Register(old(files), old(nextId), FilesIn(items))
      decreases items
    {
      match items {
        case End =>
          normalized := End;
        case Item(key, v, rest) =>
          RegisterTwice(files, nextId, Files(v), FilesIn(rest));
          var value := NormalizeVariables(v);
          var others := NormalizeItems(rest);
          normalized := Item(key, value, others);
      }
    }
  }

  // ---------------------------------------------------------------- the socket

  /**
   What the socket makes of a tree: its normalized form, or None where it throws; the pointer map and the
   list of files it leaves.
   */
  datatype Sending<F, T> = Sending(normalized: Option<T>, pointers: map<string, F>, files: seq<F>)

  function Normalize<F>(v: Value<F>, pointers: map<string, F>, files: seq<F>): Sending<F, Value<F>> {
    match v
    case Text(text) =>
      if !IsPointer(text) then Sending(Some(v), pointers, files)
      else if text !in pointers then Sending(None, pointers, files)
      else Sending(Some(Text(Pointer(|files|))), pointers - {text}, files + [pointers[text]])
    case Array(items) =>
      var s := NormalizeAll(items, pointers, files);
      Sending(if s.normalized.Some? then Some(Array(s.normalized.value)) else None, s.pointers, s.files)
    case Object(items) =>
      var s := NormalizeAll(items, pointers, files);
      Sending(if s.normalized.Some? then Some(Object(s.normalized.value)) else None, s.pointers, s.files)
    case _ => Sending(Some(v), pointers, files)
  }

  function NormalizeAll<F>(items: Items<F>, pointers: map<string, F>, files: seq<F>): Sending<F, Items<F>> {
    match items
    case End => Sending(Some(End), pointers, files)
    case Item(key, v, rest) =>
      var head := Normalize(v, pointers, files);
      if head.normalized.None? then Sending(None, head.pointers, head.files)
      else
        var tail := NormalizeAll(rest, head.pointers, head.files);
        Sending(if tail.normalized.Some? then Some(Item(key, head.normalized.value, tail.normalized.value)) else None,
                tail.pointers, tail.files)
  }

  /** One `send`: its local list of files, and the link with the shared map. */
  class Send<F> {
    const link: Link<F>
    var files: seq<F>
    var fileIndex: nat

    constructor (link: Link<F>)
      ensures this.link == link && files == [] && fileIndex == 0
    {
      this.link, files, fileIndex := link, [], 0;
    }

    /** None where the source throws. */
    method NormalizeVariables(v: Value<F>) returns (normalized: Option<Value<F>>)
      requires fileIndex == |files|
      modifies this, link`files
      ensures fileIndex == |files|
      ensures Sending(normalized, link.files, files) == Normalize(v, old(link.files), old(files))
      decreases v
    {
      match v {
        case Text(text) =>
          if !IsPointer(text) {
            return Some(v);
          }
          if text !in link.files {
            return None;
          }
          var file := link.files[text];
          link.files := link.files - {text};
          files := files + [file];
          var pointer := Pointer(fileIndex);
          fileIndex := fileIndex + 1;
          normalized := Some(Text(pointer));
        case Array(items) =>
          var mapped := NormalizeItems(items);
          normalized := if mapped.Some? then Some(Array(mapped.value)) else None;
        case Object(items) =>
          var mapped := NormalizeItems(items);
          normalized := if mapped.Some? then Some(Object(mapped.value)) else None;
        case _ =>
          normalized := Some(v);
      }
    }

    method NormalizeItems(items: Items<F>) returns (normalized: Option<Items<F>>)
      requires fileIndex == |files|
      modifies this, link`files
      ensures fileIndex == |files|
      ensures Sending(normalized, link.files, files) == NormalizeAll(items, old(link.files), old(files))
      decreases items
    {
      match items {
        case End =>
          normalized := Some(End);
        case Item(key, v, rest) =>
          var value := NormalizeVariables(v);
          if value.None? {
            return None;
          }
          var others := NormalizeItems(rest);
          normalized := if others.Some? then Some(Item(key, value.value, others.value)) else None;
      }
    }
  }

  // ---------------------------------------------------------------- sending undoes linking

  /** No string of the tree is a pointer already. */
  predicate Clean<F>(v: Value<F>) {
    match v
    case Text(text) => !IsPointer(text)
    case Array(items) => CleanItems(items)
    case Object(items) => CleanItems(items)
    case _ => true
  }

  predicate CleanItems<F>(items: Items<F>) {
    match items
    case End => true
    case Item(_, v, rest) => Clean(v) && CleanItems(rest)
  }

  /** The pointers `n`, ..., `n + count - 1`. */
  function Pointers(n: nat, count: nat): set<string> {
    if count == 0 then {} else Pointers(n, count - 1) + {Pointer(n + count - 1)}
  }

  /** The map has the files under the pointers from `n` on. */
  predicate Has<F(==)>(pointers: map<string, F>, n: nat, files: seq<F>) {
    forall j: nat :: n <= j < n + |files| ==> Pointer(j) in pointers && pointers[Pointer(j)] == files[j - n]
  }

  lemma {:induction false} PointersIn(n: nat, count: nat, j: nat)
    ensures Pointer(j) in Pointers(n, count) <==> n <= j < n + count
  {
    if count > 0 {
      PointersIn(n, count - 1, j);
      PointersAreDistinct(j, n + count - 1);
    }
  }

  lemma {:induction false} PointersJoin(n: nat, a: nat, b: nat)
    ensures Pointers(n, a + b) == Pointers(n, a) + Pointers(n + a, b)
  {
    if b > 0 { PointersJoin(n, a, b - 1); }
  }

  /** Taking the pointers of the first files out leaves the others. */
  lemma {:induction false} HasRest<F>(pointers: map<string, F>, n: nat, a: seq<F>, b: seq<F>)
    requires Has(pointers, n, a + b)
    ensures Has(pointers, n, a) && Has(pointers - Pointers(n, |a|), n + |a|, b)
  {
    forall j: nat | n <= j < n + |a|
      ensures Pointer(j) in pointers && pointers[Pointer(j)] == a[j - n]
    {
      assert (a + b)[j - n] == a[j - n];
    }
    forall j: nat | n + |a| <= j < n + |a| + |b|
      ensures Pointer(j) in pointers - Pointers(n, |a|) && pointers[Pointer(j)] == b[j - (n + |a|)]
    {
      assert (a + b)[j - n] == b[j - (n + |a|)];
      PointersIn(n, |a|, j);
    }
  }

  lemma {:induction false} TakeBoth<F>(pointers: map<string, F>, n: nat, a: nat, b: nat)
    ensures pointers - Pointers(n, a) - Pointers(n + a, b) == pointers - Pointers(n, a + b)
  {
    PointersJoin(n, a, b);
  }

  lemma {:induction false} Regroup<F>(a: seq<F>, b: seq<F>, c: seq<F>)
    ensures (a + b) + c == a + (b + c)
  {
  }

  /** Sending a linked tree renumbers its pointers from the number of files so far, and takes its files. */
  lemma {:induction false} SendUndoesLink<F>(v: Value<F>, n: nat, pointers: map<string, F>, files: seq<F>)
    requires Clean(v) && Has(pointers, n, Files(v))
    ensures Normalize(Linked(v, n), pointers, files) ==
            Sending(Some(Linked(v, |files|)), pointers - Pointers(n, |Files(v)|), files + Files(v))
    decreases v
  {
    match v {
      case File(file) =>
        PointersAreDistinct(n, n);
        assert Pointers(n, 1) == Pointers(n, 0) + {Pointer(n)};
        assert Pointer(n) in pointers && pointers[Pointer(n)] == Files(v)[0];
      case Array(items) => SendUndoesLinkIn(items, n, pointers, files);
      case Object(items) => SendUndoesLinkIn(items, n, pointers, files);
      case _ =>
        assert files + Files(v) == files;
        assert pointers - Pointers(n, 0) == pointers;
    }
  }

  lemma {:induction false} SendUndoesLinkIn<F>(items: Items<F>, n: nat, pointers: map<string, F>, files: seq<F>)
    requires CleanItems(items) && Has(pointers, n, FilesIn(items))
    ensures NormalizeAll(LinkedItems(items, n), pointers, files) ==
            Sending(Some(LinkedItems(items, |files|)), pointers - Pointers(n, |FilesIn(items)|), files + FilesIn(items))
    decreases items
  {
    match items {
      case End =>
        assert files + FilesIn(items) == files;
        assert pointers - Pointers(n, 0) == pointers;
      case Item(key, v, rest) =>
        hide Normalize, Linked, Has, Pointers, Files;
        var a, b := Files(v), FilesIn(rest);
        HasRest(pointers, n, a, b);
        SendUndoesLink(v, n, pointers, files);
        SendUndoesLinkIn(rest, n + |a|, pointers - Pointers(n, |a|), files + a);
        TakeBoth(pointers, n, |a|, |b|);
        Regroup(files, a, b);
    }
  }

  // ---------------------------------------------------------------- reading the files back

  /** The tree with pointer `i` replaced by file `i`. */
  function Restore<F>(v: Value<F>, files: seq<F>): Value<F> {
    match v
    case Text(text) =>
      var target := Target(text);
      if target.Some? && target.value < |files| then File(files[target.value]) else v
    case Array(items) => Array(RestoreItems(items, files))
    case Object(items) => Object(RestoreItems(items, files))
    case _ => v
  }

  function RestoreItems<F>(items: Items<F>, files: seq<F>): Items<F> {
    match items
    case End => End
    case Item(key, v, rest) => Item(key, Restore(v, files), RestoreItems(rest, files))
  }

  lemma {:induction false} RegroupFour<F>(a: seq<F>, b: seq<F>, c: seq<F>, d: seq<F>)
    ensures a + b + (c + d) == a + (b + c) + d && a + (b + c) + d == (a + b) + c + d
  {
  }

  lemma {:induction false} RestoreLinked<F>(v: Value<F>, before: seq<F>, after: seq<F>)
    requires Clean(v)
    ensures Restore(Linked(v, |before|), before + Files(v) + after) == v
    decreases v
  {
    match v {
      case File(file) => PointersAreDistinct(|before|, |before|);
      case Array(items) => RestoreLinkedIn(items, before, after);
      case Object(items) => RestoreLinkedIn(items, before, after);
      case _ =>
    }
  }

  lemma {:induction false} RestoreLinkedIn<F>(items: Items<F>, before: seq<F>, after: seq<F>)
    requires CleanItems(items)
    ensures RestoreItems(LinkedItems(items, |before|), before + FilesIn(items) + after) == items
    decreases items
  {
    match items {
      case End =>
      case Item(key, v, rest) =>
        var a, b := Files(v), FilesIn(rest);
        RestoreLinked(v, before, b + after);
        RestoreLinkedIn(rest, before + a, after);
        RegroupFour(before, a, b, after);
    }
  }

  /** Whatever was sent, what is read back has no pointer left in it. */
  lemma {:induction false} RestoredIsClean<F>(v: Value<F>, pointers: map<string, F>, files: seq<F>, more: seq<F>)
    ensures var sent := Normalize(v, pointers, files);
            && files <= sent.files
            && (sent.normalized.Some? && sent.files <= more ==> Clean(Restore(sent.normalized.value, more)))
    decreases v
  {
    match v {
      case Text(text) => PointersAreDistinct(|files|, |files|);
      case Array(items) => RestoredIsCleanIn(items, pointers, files, more);
      case Object(items) => RestoredIsCleanIn(items, pointers, files, more);
      case _ =>
    }
  }

  lemma {:induction false} RestoredIsCleanIn<F>(items: Items<F>, pointers: map<string, F>, files: seq<F>, more: seq<F>)
    ensures var sent := NormalizeAll(items, pointers, files);
            && files <= sent.files
            && (sent.normalized.Some? && sent.files <= more ==> CleanItems(RestoreItems(sent.normalized.value, more)))
    decreases items
  {
    match items {
      case End =>
      case Item(key, v, rest) =>
        RestoredIsClean(v, pointers, files, more);
        var head := Normalize(v, pointers, files);
        RestoredIsCleanIn(rest, head.pointers, head.files, more);
    }
  }

  // ---------------------------------------------------------------- requests

  /** Every pointer in the map was issued before pointer `n`. */
  predicate Issued<F>(pointers: map<string, F>, n: nat) {
    pointers.Keys <= Pointers(0, n)
  }

  lemma {:induction false} RegisterAdds<F>(pointers: map<string, F>, n: nat, files: seq<F>)
    requires Issued(pointers, n)
    ensures var registered := Register(pointers, n, files);
            && Issued(registered, n + |files|) && Has(registered, n, files)
            && registered - Pointers(n, |files|) == pointers
    decreases |files|
  {
    if |files| == 0 {
      assert pointers - Pointers(n, 0) == pointers;
    } else {
      var one := pointers[Pointer(n) := files[0]];
      assert Pointers(0, n + 1) == Pointers(0, n) + {Pointer(n)};
      RegisterAdds(one, n + 1, files[1..]);
      RegisterKeeps(one, n + 1, files[1..], n);
      PointersIn(0, n, n);
      FirstPointer(n, |files|);
      var registered := Register(pointers, n, files);
      forall j: nat | n <= j < n + |files|
        ensures Pointer(j) in registered && registered[Pointer(j)] == files[j - n]
      {
        assert j > n ==> files[1..][j - (n + 1)] == files[j - n];
      }
      assert registered - Pointers(n, |files|) == (registered - Pointers(n + 1, |files| - 1)) - {Pointer(n)};
      assert one - {Pointer(n)} == pointers;
    }
  }

  lemma {:induction false} FirstPointer(n: nat, count: nat)
    requires count > 0
    ensures Pointers(n, count) == {Pointer(n)} + Pointers(n + 1, count - 1)
  {
    PointersJoin(n, 1, count - 1);
    assert Pointers(n, 1) == Pointers(n, 0) + {Pointer(n)};
  }

  lemma {:induction false} RegisterKeeps<F>(pointers: map<string, F>, n: nat, files: seq<F>, j: nat)
    requires j < n && Pointer(j) in pointers
    ensures Pointer(j) in Register(pointers, n, files) && Register(pointers, n, files)[Pointer(j)] == pointers[Pointer(j)]
    decreases |files|
  {
    if |files| > 0 {
      PointersAreDistinct(j, n);
      RegisterKeeps(pointers[Pointer(n) := files[0]], n + 1, files[1..], j);
    }
  }

  /** No file is left in the tree, so that it can be written as JSON. */
  predicate FileFree<F>(v: Value<F>) {
    match v
    case File(_) => false
    case Array(items) => FileFreeItems(items)
    case Object(items) => FileFreeItems(items)
    case _ => true
  }

  predicate FileFreeItems<F>(items: Items<F>) {
    match items
    case End => true
    case Item(_, v, rest) => FileFree(v) && FileFreeItems(rest)
  }

  lemma {:induction false} LinkedIsFileFree<F>(v: Value<F>, n: nat)
    ensures FileFree(Linked(v, n))
    decreases v
  {
    match v {
      case Array(items) => LinkedItemsAreFileFree(items, n);
      case Object(items) => LinkedItemsAreFileFree(items, n);
      case _ =>
    }
  }

  lemma {:induction false} LinkedItemsAreFileFree<F>(items: Items<F>, n: nat)
    ensures FileFreeItems(LinkedItems(items, n))
    decreases items
  {
    match items {
      case End =>
      case Item(_, v, rest) =>
        LinkedIsFileFree(v, n);
        LinkedItemsAreFileFree(rest, n + |Files(v)|);
    }
  }

  /** Whatever is sent, nothing but text goes out if nothing but text was linked. */
  lemma {:induction false} SentIsFileFree<F>(v: Value<F>, pointers: map<string, F>, files: seq<F>)
    requires FileFree(v)
    ensures var sent := Normalize(v, pointers, files); sent.normalized.Some? ==> FileFree(sent.normalized.value)
    decreases v
  {
    match v {
      case Array(items) => SentItemsAreFileFree(items, pointers, files);
      case Object(items) => SentItemsAreFileFree(items, pointers, files);
      case _ =>
    }
  }

  lemma {:induction false} SentItemsAreFileFree<F>(items: Items<F>, pointers: map<string, F>, files: seq<F>)
    requires FileFreeItems(items)
    ensures var sent := NormalizeAll(items, pointers, files); sent.normalized.Some? ==> FileFreeItems(sent.normalized.value)
    decreases items
  {
    match items {
      case End =>
      case Item(_, v, rest) =>
        SentIsFileFree(v, pointers, files);
        var head := Normalize(v, pointers, files);
        SentItemsAreFileFree(rest, head.pointers, head.files);
    }
  }

  /** What one request comes to: linked with the next pointers, then sent. */
  function Request<F>(v: Value<F>, pointers: map<string, F>, n: nat): Sending<F, Value<F>> {
    Normalize(Linked(v, n), Register(pointers, n, Files(v)), [])
  }

  predicate Inverts<F(==)>(v: Value<F>, sent: Sending<F, Value<F>>) {
    sent.normalized.Some? && Restore(sent.normalized.value, sent.files) == v
  }

  /**
   What is sent of a request has no file in it, and it can be read back exactly when no string in it is a
   pointer already. Then its files are listed once each, in order, under pointers numbered from 0, and the
   shared map is left as it was.
   */
  lemma {:induction false} RequestsRoundTrip<F>(v: Value<F>, pointers: map<string, F>, n: nat)
    requires Issued(pointers, n)
    ensures var sent := Request(v, pointers, n).normalized; sent.Some? ==> FileFree(sent.value)
    ensures Inverts(v, Request(v, pointers, n)) <==> Clean(v)
    ensures Clean(v) ==> Request(v, pointers, n) == Sending(Some(Linked(v, 0)), pointers, Files(v))
  {
    var sent := Request(v, pointers, n);
    LinkedIsFileFree(v, n);
    SentIsFileFree(Linked(v, n), Register(pointers, n, Files(v)), []);
    RestoredIsClean(Linked(v, n), Register(pointers, n, Files(v)), [], sent.files);
    if Clean(v) {
      RegisterAdds(pointers, n, Files(v));
      SendUndoesLink(v, n, Register(pointers, n, Files(v)), []);
      RestoreLinked(v, [], []);
      assert [] + Files(v) == Files(v) && [] + Files(v) + [] == Files(v);
    }
  }

  /** Sending, when other pointers are in the map too: only the request's own are taken. */
  lemma {:induction false} SendTakesOwn<F>(v: Value<F>, n: nat, pointers: map<string, F>)
    requires Clean(v) && Has(pointers, n, Files(v))
    ensures Normalize(Linked(v, n), pointers, []) ==
            Sending(Some(Linked(v, 0)), pointers - Pointers(n, |Files(v)|), Files(v))
  {
    SendUndoesLink(v, n, pointers, []);
    assert [] + Files(v) == Files(v);
  }

  /**
   Two requests linked one after the other can be sent in either order: neither gets the other's files, and
   nothing is left in the map.
   */
  lemma {:induction false} OverlappingRequests<F>(a: Value<F>, b: Value<F>, pointers: map<string, F>, n: nat)
    requires Issued(pointers, n) && Clean(a) && Clean(b)
    ensures var m := n + |Files(a)|;
            var both := Register(Register(pointers, n, Files(a)), m, Files(b));
            var a1, b1 := Normalize(Linked(a, n), both, []), Normalize(Linked(b, m), both, []);
            && a1.normalized == Some(Linked(a, 0)) && a1.files == Files(a)
            && Normalize(Linked(b, m), a1.pointers, []) == Sending(Some(Linked(b, 0)), pointers, Files(b))
            && b1.normalized == Some(Linked(b, 0)) && b1.files == Files(b)
            && Normalize(Linked(a, n), b1.pointers, []) == Sending(Some(Linked(a, 0)), pointers, Files(a))
  {
    var m := n + |Files(a)|;
    var first := Register(pointers, n, Files(a));
    var both := Register(first, m, Files(b));
    BothRegistered(pointers, n, Files(a), Files(b));
    hide Has, Pointers, Register, Normalize, Linked, Files, Clean, Issued;
    SendBoth(a, n, b, m, both);
    SendBoth(b, m, a, n, both);
  }

  lemma {:induction false} SendBoth<F>(v: Value<F>, n: nat, w: Value<F>, m: nat, pointers: map<string, F>)
    requires Clean(v) && Clean(w) && Has(pointers, n, Files(v)) && Has(pointers - Pointers(n, |Files(v)|), m, Files(w))
    ensures var sent := Normalize(Linked(v, n), pointers, []);
            && sent.normalized == Some(Linked(v, 0)) && sent.files == Files(v)
            && Normalize(Linked(w, m), sent.pointers, []) ==
               Sending(Some(Linked(w, 0)), pointers - Pointers(n, |Files(v)|) - Pointers(m, |Files(w)|), Files(w))
  {
    hide Has, Pointers, Normalize, Linked, Files, Clean;
    SendTakesOwn(v, n, pointers);
    SendTakesOwn(w, m, pointers - Pointers(n, |Files(v)|));
  }

  lemma {:induction false} BothRegistered<F>(pointers: map<string, F>, n: nat, a: seq<F>, b: seq<F>)
    requires Issued(pointers, n)
    ensures var m := n + |a|;
            var first := Register(pointers, n, a);
            var both := Register(first, m, b);
            && Has(both, n, a) && Has(both, m, b) && Has(both - Pointers(n, |a|), m, b) && Has(first, n, a)
            && both - Pointers(m, |b|) == first && first - Pointers(n, |a|) == pointers
            && (both - Pointers(n, |a|)) - Pointers(m, |b|) == pointers
  {
    hide Has, Pointers, Register, Issued;
    RegisterAdds(pointers, n, a);
    RegisterAdds(Register(pointers, n, a), n + |a|, b);
    RegisterTwice(pointers, n, a, b);
    FirstOfBoth(pointers, n, a, b);
  }

  lemma {:induction false} FirstOfBoth<F>(pointers: map<string, F>, n: nat, a: seq<F>, b: seq<F>)
    requires Issued(pointers, n)
    ensures var both := Register(pointers, n, a + b);
            && Has(both, n, a) && Has(both - Pointers(n, |a|), n + |a|, b)
            && (both - Pointers(n, |a|)) - Pointers(n + |a|, |b|) == pointers
  {
    hide Has, Pointers, Register, Issued;
    RegisterAdds(pointers, n, a + b);
    HasRest(Register(pointers, n, a + b), n, a, b);
    TakeBoth(Register(pointers, n, a + b), n, |a|, |b|);
  }
}
