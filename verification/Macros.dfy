/**
 Compiling the macros of a print: an iterator expands lines into gcodes and annotations, a scan numbers the
 annotations by the gcodes before them, and a loop writes the gcodes out and collects the annotations.
 */
module Macros {
  import opened Wrappers

  datatype AnyMacro = InternalMacro(body: string) | JsonGCode(body: string)

  /** An item of the compiled stream; an annotation carries the line it stands before. */
  datatype AnnotatedGCode = GCode(text: string) | Annotation(line: nat, note: string)

  /** The JSON parser, the compiler of the machine's own macros, and the writer of JSON gcodes. */
  datatype Tools = Tools(
    parse: string -> Result<AnyMacro>,
    compile: string -> Result<seq<AnnotatedGCode>>,
    render: string -> Result<string>)

  type Item = Result<AnnotatedGCode>

  // ---------------------------------------------------------------- expansion, line by line

  function OkAll(gcodes: seq<AnnotatedGCode>): (items: seq<Item>)
    ensures |items| == |gcodes|
  {
    seq(|gcodes|, i requires 0 <= i < |gcodes| => Ok(gcodes[i]))
  }

  /** What one line of the print expands to. */
  function Expand(tools: Tools, read: Result<string>): seq<Item> {
    match read
    case Err(_) => [Err("Error reading gcodes")]
    case Ok(line) =>
      if line != "" && line[0] == '!' then [Err("Driver macros are for internal use only")]
      else if line != "" && line[0] == '{' then
        match tools.parse(line)
        case Err(_) => [Err("Invalid JSON GCode")]
        case Ok(InternalMacro(body)) =>
          (match tools.compile(body)
           case Err(error) => [Err(error)]
           case Ok(gcodes) => OkAll(gcodes))
        case Ok(JsonGCode(body)) =>
          (match tools.render(body)
           case Err(error) => [Err(error)]
           case Ok(text) => [Ok(GCode(text))])
      else [Ok(GCode(line))]
  }

  /** The whole print, as the concatenation of its lines' expansions. */
  function Expansion(tools: Tools, lines: seq<Result<string>>): seq<Item> {
    if lines == [] then [] else Expand(tools, lines[0]) + Expansion(tools, lines[1..])
  }

  class MacrosCompiler {
    const tools: Tools
    var gcodeLines: seq<Result<string>>
    var annotatedGCodes: Option<seq<AnnotatedGCode>>

    constructor (tools: Tools, lines: seq<Result<string>>)
      ensures this.tools == tools && Remaining() == Expansion(tools, lines)
    {
      this.tools, gcodeLines, annotatedGCodes := tools, lines, None;
    }

    /** What the iterator will still yield. */
    ghost function Remaining(): seq<Item>
      reads this
    {
      OkAll(annotatedGCodes.GetOr([])) + Expansion(tools, gcodeLines)
    }

    /** The next item. Lines that expand to nothing are passed over, so only the end of the print is an end. */
    method Next() returns (item: Option<Item>)
      modifies this
      ensures old(Remaining()) == [] ==> item == None && Remaining() == []
      ensures old(Remaining()) != [] ==> item == Some(old(Remaining())[0]) && Remaining() == old(Remaining())[1..]
    {
      hide Expansion, OkAll;
      while true
        invariant Remaining() == old(Remaining())
        decreases |gcodeLines|
      {
        var pending := annotatedGCodes.GetOr([]);
        NothingPending(tools);
        if pending != [] {
          PendingFirst(pending, Expansion(tools, gcodeLines));
          annotatedGCodes := Some(pending[1..]);
          return Some(Ok(pending[0]));
        }
        if gcodeLines == [] {
          return None;
        }
        var read := gcodeLines[0];
        LineFirst(tools, gcodeLines);
        assert Remaining() == Expand(tools, read) + Expansion(tools, gcodeLines[1..]);
        gcodeLines := gcodeLines[1..];
        if read.Err? {
          return Some(Err("Error reading gcodes"));
        }
        var line := read.value;
        if line != "" && line[0] == '!' {
          return Some(Err("Driver macros are for internal use only"));
        }
        if line == "" || line[0] != '{' {
          return Some(Ok(GCode(line)));
        }
        var parsed := tools.parse(line);
        if parsed.Err? {
          return Some(Err("Invalid JSON GCode"));
        }
        if parsed.value.JsonGCode? {
          var text := tools.render(parsed.value.body);
          return Some(if text.Err? then Err(text.error) else Ok(GCode(text.value)));
        }
        var gcodes := tools.compile(parsed.value.body);
        if gcodes.Err? {
          return Some(Err(gcodes.error));
        }
        annotatedGCodes := Some(gcodes.value);
      }
    }
  }

  lemma {:induction false} NothingPending(tools: Tools)
    ensures OkAll([]) == [] && Expansion(tools, []) == []
  {
  }

  lemma {:induction false} PendingFirst(pending: seq<AnnotatedGCode>, later: seq<Item>)
    requires pending != []
    ensures var items := OkAll(pending) + later;
            items != [] && items[0] == Ok(pending[0]) && items[1..] == OkAll(pending[1..]) + later
  {
    assert OkAll(pending) == [Ok(pending[0])] + OkAll(pending[1..]);
  }

  lemma {:induction false} LineFirst(tools: Tools, lines: seq<Result<string>>)
    requires lines != []
    ensures Expansion(tools, lines) == Expand(tools, lines[0]) + Expansion(tools, lines[1..])
  {
  }

  // ---------------------------------------------------------------- numbering

  function CountGCodes(items: seq<Item>): nat {
    if items == [] then 0
    else CountGCodes(items[..|items| - 1]) + if IsGCode(items[|items| - 1]) then 1 else 0
  }

  predicate IsGCode(item: Item) {
    item.Ok? && item.value.GCode?
  }

  function Renumber(item: Item, line: nat): Item {
    if item.Ok? && item.value.Annotation? then Ok(Annotation(line, item.value.note)) else item
  }

  /** The scan over the iterator. */
  class CompiledMacros {
    const compiler: MacrosCompiler
    var nextLineNumber: nat

    constructor (tools: Tools, lines: seq<Result<string>>)
      ensures fresh(compiler) && compiler.Remaining() == Expansion(tools, lines) && nextLineNumber == 0
    {
      compiler := new MacrosCompiler(tools, lines);
      nextLineNumber := 0;
    }

    method Next() returns (item: Option<Item>)
      modifies this, compiler
      ensures old(compiler.Remaining()) == [] ==>
                item == None && compiler.Remaining() == [] && nextLineNumber == old(nextLineNumber)
      ensures old(compiler.Remaining()) != [] ==>
                var next := old(compiler.Remaining())[0];
                && item == Some(Renumber(next, old(nextLineNumber)))
                && compiler.Remaining() == old(compiler.Remaining())[1..]
                && nextLineNumber == old(nextLineNumber) + if IsGCode(next) then 1 else 0
    {
      var next := compiler.Next();
      if next.None? {
        return None;
      }
      match next.value {
        case Ok(GCode(_)) =>
          nextLineNumber := nextLineNumber + 1;
          item := next;
        case Ok(Annotation(_, note)) =>
          item := Some(Ok(Annotation(nextLineNumber, note)));
        case Err(_) =>
          item := next;
      }
    }
  }

  // ---------------------------------------------------------------- the print file

  datatype PrintFile = PrintFile(written: string, totalLines: nat, annotations: seq<(nat, string)>)

  /** The gcodes of a stream, a line each. */
  function Written(items: seq<Item>): string {
    if items == [] then ""
    else
      var last := items[|items| - 1];
      Written(items[..|items| - 1]) + if IsGCode(last) then last.value.text + "\n" else ""
  }

  /** The annotations of a stream, each with the number of gcodes before it. */
  function Annotations(items: seq<Item>): seq<(nat, string)> {
    if items == [] then []
    else
      var before, last := items[..|items| - 1], items[|items| - 1];
      Annotations(before) + if last.Ok? && last.value.Annotation? then [(CountGCodes(before), last.value.note)] else []
  }

  predicate ErrorFree(items: seq<Item>) {
    forall i :: 0 <= i < |items| ==> items[i].Ok?
  }

  lemma {:induction false} NothingYet()
    ensures ErrorFree([]) && CountGCodes([]) == 0 && Written([]) == "" && Annotations([]) == []
  {
  }

  lemma {:induction false} OneMore(items: seq<Item>, done: nat)
    requires done < |items|
    ensures var before, after, item := items[..done], items[..done + 1], items[done];
            && (ErrorFree(after) <==> ErrorFree(before) && item.Ok?) && (ErrorFree(items) ==> item.Ok?)
            && CountGCodes(after) == CountGCodes(before) + (if IsGCode(item) then 1 else 0)
            && Written(after) == Written(before) + (if IsGCode(item) then item.value.text + "\n" else "")
            && Annotations(after) == Annotations(before) +
               if item.Ok? && item.value.Annotation? then [(CountGCodes(before), item.value.note)] else []
  {
    var before, after := items[..done], items[..done + 1];
    assert after[..done] == before && after[done] == items[done];
    assert after == before + [items[done]];
  }

  /**
   Compiles a print. It fails exactly when some line does not compile. Otherwise every line contributes in its
   place: itself, its rendered text or all that its macro was compiled to.
   */
  method CompilePrintFile(tools: Tools, lines: seq<Result<string>>) returns (file: Result<PrintFile>)
    ensures file.Ok? <==> AllCompile(tools, lines)
    ensures file.Ok? ==> exists parts :: MadeOf(tools, lines, parts, file.value)
    ensures var items := Expansion(tools, lines);
            if ErrorFree(items) then file == Ok(PrintFile(Written(items), CountGCodes(items), Annotations(items)))
            else file.Err?
  {
    hide Expansion, CountGCodes, Written, Annotations, ErrorFree, OkAll, AllCompile, MadeOf;
    ghost var items := Expansion(tools, lines);
    PrintIsMade(tools, lines);
    NothingYet();
    var annotatedGCodes := new CompiledMacros(tools, lines);
    var written, totalLines, annotations := "", 0, [];
    ghost var done := 0;
    while true
      invariant done <= |items| && ErrorFree(items[..done])
      invariant fresh(annotatedGCodes) && fresh(annotatedGCodes.compiler)
      invariant annotatedGCodes.compiler.Remaining() == items[done..]
      invariant annotatedGCodes.nextLineNumber == totalLines == CountGCodes(items[..done])
      invariant written == Written(items[..done]) && annotations == Annotations(items[..done])
      decreases |items| - done
    {
      var next := annotatedGCodes.Next();
      if next.None? {
        assert items[..done] == items;
        return Ok(PrintFile(written, totalLines, annotations));
      }
      assert items[done..][0] == items[done] && items[done..][1..] == items[done + 1..];
      OneMore(items, done);
      var item := next.value;
      if item.Err? {
        return Err(item.error);
      }
      match item.value {
        case GCode(text) =>
          totalLines := totalLines + 1;
          written := written + (text + "\n");
        case Annotation(line, note) =>
          annotations := annotations + [(line, note)];
      }
      done := done + 1;
    }
  }

  // ---------------------------------------------------------------- what the numbers mean

  /** Splitting a stream: counting, writing and annotating go on from where the first part ended. */
  lemma {:induction false} Continues(a: seq<Item>, b: seq<Item>)
    ensures CountGCodes(a + b) == CountGCodes(a) + CountGCodes(b) && Written(a + b) == Written(a) + Written(b)
    ensures Annotations(a) <= Annotations(a + b)
    decreases |b|
  {
    if b == [] {
      assert a + b == a;
    } else {
      var before := b[..|b| - 1];
      Continues(a, before);
      ContinuesByOne(a + before, b[|b| - 1]);
      ContinuesByOne(before, b[|b| - 1]);
      assert (a + before) + [b[|b| - 1]] == a + b && before + [b[|b| - 1]] == b;
      hide CountGCodes, Written, Annotations;
    }
  }

  lemma {:induction false} ContinuesByOne(items: seq<Item>, last: Item)
    ensures CountGCodes(items + [last]) == CountGCodes(items) + if IsGCode(last) then 1 else 0
    ensures Written(items + [last]) == Written(items) + if IsGCode(last) then last.value.text + "\n" else ""
    ensures Annotations(items) <= Annotations(items + [last])
  {
    assert (items + [last])[..|items|] == items;
  }

  /**
   An annotation's number is where it belongs in the file: the gcodes written before it are that many, and
   they are how the file begins. So numbers never decrease and never exceed the total.
   */
  lemma {:induction false} AnnotationsAreInPlace(items: seq<Item>, k: nat)
    requires k < |Annotations(items)|
    ensures exists i :: 0 <= i < |items| && items[i].Ok? && items[i].value.Annotation?
                        && Annotations(items)[k] == (CountGCodes(items[..i]), items[i].value.note)
                        && Written(items[..i]) <= Written(items)
    ensures Annotations(items)[k].0 <= CountGCodes(items)
    ensures k > 0 ==> Annotations(items)[k - 1].0 <= Annotations(items)[k].0
    decreases |items|
  {
    var before, last := items[..|items| - 1], items[|items| - 1];
    Continues(before, [last]);
    assert items == before + [last];
    if k < |Annotations(before)| {
      AnnotationsAreInPlace(before, k);
      var i :| 0 <= i < |before| && before[i].Ok? && before[i].value.Annotation?
               && Annotations(before)[k] == (CountGCodes(before[..i]), before[i].value.note)
               && Written(before[..i]) <= Written(before);
      assert items[..i] == before[..i] && items[i] == before[i];
    } else {
      assert items[..|items| - 1] == before;
      if k > 0 { AnnotationsAreInPlace(before, k - 1); }
    }
  }

  function Newlines(text: string): nat {
    if text == "" then 0 else Newlines(text[..|text| - 1]) + if text[|text| - 1] == '\n' then 1 else 0
  }

  lemma {:induction false} NewlinesConcat(a: string, b: string)
    ensures Newlines(a + b) == Newlines(a) + Newlines(b)
    decreases |b|
  {
    if b == "" {
      assert a + b == a;
    } else {
      assert (a + b)[..|a + b| - 1] == a + b[..|b| - 1];
      NewlinesConcat(a, b[..|b| - 1]);
    }
  }

  lemma {:induction false} NoNewlines(text: string)
    ensures Newlines(text) == 0 <==> '\n' !in text
  {
    if text != "" {
      NoNewlines(text[..|text| - 1]);
      assert text == text[..|text| - 1] + [text[|text| - 1]];
    }
  }

  predicate SingleLine(item: Item) {
    IsGCode(item) ==> '\n' !in item.value.text
  }

  /**
   The total counts gcodes, not lines: the file has at least that many lines, and exactly that many when and
   only when no expansion has a line break inside a gcode.
   */
  lemma {:induction false} TotalIsLinesWhenSingle(items: seq<Item>)
    ensures Newlines(Written(items)) >= CountGCodes(items)
    ensures Newlines(Written(items)) == CountGCodes(items) <==> forall i :: 0 <= i < |items| ==> SingleLine(items[i])
    decreases |items|
  {
    if items != [] {
      var before, last := items[..|items| - 1], items[|items| - 1];
      TotalIsLinesWhenSingle(before);
      assert (forall i :: 0 <= i < |items| ==> SingleLine(items[i])) <==>
             (forall i :: 0 <= i < |before| ==> SingleLine(before[i])) && SingleLine(last) by {
        assert items == before + [last];
        assert SingleLine(items[|items| - 1]) == SingleLine(last);
        assert forall i :: 0 <= i < |before| ==> SingleLine(items[i]) == SingleLine(before[i]);
      }
      if IsGCode(last) {
        NewlinesConcat(last.value.text, "\n");
        NewlinesConcat(Written(before), last.value.text + "\n");
        NoNewlines(last.value.text);
        assert ("\n")[..0] == "";
      } else {
        assert Written(before) + "" == Written(before);
      }
    }
  }

  // ---------------------------------------------------------------- which prints compile, and to what

  /** A line that was read and compiles: a gcode as it stands, or JSON that the tools accept. */
  predicate Compiles(tools: Tools, read: Result<string>) {
    && read.Ok?
    && (read.value == "" || read.value[0] != '!')
    && (read.value != "" && read.value[0] == '{' ==>
          && tools.parse(read.value).Ok?
          && match tools.parse(read.value).value
             case InternalMacro(body) => tools.compile(body).Ok?
             case JsonGCode(body) => tools.render(body).Ok?)
  }

  predicate AllCompile(tools: Tools, lines: seq<Result<string>>) {
    forall i :: 0 <= i < |lines| ==> Compiles(tools, lines[i])
  }

  lemma {:induction false} ErrorFreeParts(a: seq<Item>, b: seq<Item>)
    ensures ErrorFree(a + b) <==> ErrorFree(a) && ErrorFree(b)
  {
    if ErrorFree(a + b) {
      assert forall i :: 0 <= i < |a| ==> a[i] == (a + b)[i];
      assert forall i :: 0 <= i < |b| ==> b[i] == (a + b)[|a| + i];
    }
  }

  /** A print compiles exactly when each of its lines does; driver macros are among those that do not. */
  lemma {:induction false} CompilesLineByLine(tools: Tools, lines: seq<Result<string>>)
    ensures ErrorFree(Expansion(tools, lines)) <==> AllCompile(tools, lines)
  {
    if lines != [] {
      CompilesLineByLine(tools, lines[1..]);
      ErrorFreeParts(Expand(tools, lines[0]), Expansion(tools, lines[1..]));
      LineCompiles(tools, lines[0]);
      hide Compiles, Expand, ErrorFree;
      assert (forall i :: 0 <= i < |lines| ==> Compiles(tools, lines[i])) <==>
             Compiles(tools, lines[0]) && forall i :: 0 <= i < |lines[1..]| ==> Compiles(tools, lines[1..][i]) by {
        assert forall i :: 1 <= i < |lines| ==> lines[i] == lines[1..][i - 1];
      }
    }
  }

  lemma {:induction false} LineCompiles(tools: Tools, read: Result<string>)
    ensures ErrorFree(Expand(tools, read)) <==> Compiles(tools, read)
  {
    var items := Expand(tools, read);
    if !Compiles(tools, read) { assert items[0].Err?; }
  }

  /** Lines, each ended by a line break. */
  function Joined(lines: seq<string>): string {
    if lines == [] then "" else lines[0] + "\n" + Joined(lines[1..])
  }

  /** Lines that were all read without an error. */
  function AllRead(lines: seq<string>): (input: seq<Result<string>>)
    ensures |input| == |lines|
  {
    seq(|lines|, i requires 0 <= i < |lines| => Ok(lines[i]))
  }

  predicate IsPlain(line: string) {
    line == "" || (line[0] != '!' && line[0] != '{')
  }

  /** A print without macros or JSON is written out as it was read. */
  lemma {:induction false} PlainPrintsAreCopied(tools: Tools, lines: seq<string>)
    requires forall i :: 0 <= i < |lines| ==> IsPlain(lines[i])
    ensures var items := Expansion(tools, AllRead(lines));
            && ErrorFree(items) && Written(items) == Joined(lines)
            && CountGCodes(items) == |lines| && Annotations(items) == []
  {
    if lines != [] {
      var rest := AllRead(lines[1..]);
      assert AllRead(lines)[1..] == rest;
      PlainPrintsAreCopied(tools, lines[1..]);
      var one: seq<Item> := [Ok(GCode(lines[0]))];
      assert Expand(tools, AllRead(lines)[0]) == one;
      ErrorFreeParts(one, Expansion(tools, rest));
      Continues(one, Expansion(tools, rest));
      NothingAnnotated(one, Expansion(tools, rest));
      OneLine(lines[0]);
    }
  }

  lemma {:induction false} OneLine(text: string)
    ensures var one: seq<Item> := [Ok(GCode(text))];
            ErrorFree(one) && Written(one) == text + "\n" && CountGCodes(one) == 1 && Annotations(one) == []
  {
    var one: seq<Item> := [Ok(GCode(text))];
    assert one[..|one| - 1] == [];
    assert Written([]) + (text + "\n") == text + "\n";
  }

  lemma {:induction false} NothingAnnotated(a: seq<Item>, b: seq<Item>)
    requires Annotations(a) == [] && Annotations(b) == []
    ensures Annotations(a + b) == []
    decreases |b|
  {
    if b == [] {
      assert a + b == a;
    } else {
      var before := b[..|b| - 1];
      assert (a + b)[..|a + b| - 1] == a + before;
      NothingAnnotated(a, before);
    }
  }

  // ---------------------------------------------------------------- what each line contributes

  /** What a line that compiles contributes, in terms of the tools alone. */
  ghost predicate Contributes(tools: Tools, line: string, part: seq<AnnotatedGCode>) {
    if line == "" || line[0] != '{' then part == [GCode(line)]
    else
      && (forall body :: tools.parse(line) == Ok(InternalMacro(body)) ==> tools.compile(body) == Ok(part))
      && (forall body :: tools.parse(line) == Ok(JsonGCode(body)) ==>
            tools.render(body).Ok? && part == [GCode(tools.render(body).value)])
  }

  /** The texts of the gcodes, a line each. */
  function Texts(part: seq<AnnotatedGCode>): string {
    if part == [] then "" else (if part[0].GCode? then part[0].text + "\n" else "") + Texts(part[1..])
  }

  function Notes(part: seq<AnnotatedGCode>): seq<string> {
    if part == [] then [] else (if part[0].Annotation? then [part[0].note] else []) + Notes(part[1..])
  }

  function Gcodes(part: seq<AnnotatedGCode>): nat {
    if part == [] then 0 else (if part[0].GCode? then 1 else 0) + Gcodes(part[1..])
  }

  /** The contributions of all lines, one after the other. */
  function Together(parts: seq<seq<AnnotatedGCode>>): seq<AnnotatedGCode> {
    if parts == [] then [] else parts[0] + Together(parts[1..])
  }

  /** The gcodes of all contributions, summed line by line. */
  function Sum(parts: seq<seq<AnnotatedGCode>>): nat {
    if parts == [] then 0 else Gcodes(parts[0]) + Sum(parts[1..])
  }

  function NotesOf(annotations: seq<(nat, string)>): seq<string> {
    if annotations == [] then [] else [annotations[0].1] + NotesOf(annotations[1..])
  }

  /** The `k`th annotation of the contributions is at `i`, and is numbered by the gcodes before it. */
  predicate StandsAt(all: seq<AnnotatedGCode>, i: int, annotation: (nat, string), k: nat) {
    && 0 <= i < |all| && all[i].Annotation? && all[i].note == annotation.1
    && |Notes(all[..i])| == k && Gcodes(all[..i]) == annotation.0
  }

  ghost predicate Placed(all: seq<AnnotatedGCode>, annotations: seq<(nat, string)>) {
    forall k :: 0 <= k < |annotations| ==> Stands(all, annotations[k], k)
  }

  ghost predicate Stands(all: seq<AnnotatedGCode>, annotation: (nat, string), k: nat) {
    exists i :: StandsAt(all, i, annotation, k)
  }

  /**
   Each line makes its contribution; the file has the gcodes of the contributions, in order, and their number
   as its total, and exactly their annotations, in order, each numbered by the gcodes before it.
   */
  ghost predicate MadeOf(tools: Tools, lines: seq<Result<string>>, parts: seq<seq<AnnotatedGCode>>, file: PrintFile) {
    && |parts| == |lines| && (forall i :: 0 <= i < |lines| ==> lines[i].Ok? && Contributes(tools, lines[i].value, parts[i]))
    && file.written == Texts(Together(parts))
    && file.totalLines == Sum(parts)
    && NotesOf(file.annotations) == Notes(Together(parts)) && Placed(Together(parts), file.annotations)
  }

  lemma {:induction false} NotesOfJoin(a: seq<(nat, string)>, b: seq<(nat, string)>)
    ensures NotesOf(a + b) == NotesOf(a) + NotesOf(b)
  {
    if a == [] {
      assert a + b == b;
    } else {
      assert (a + b)[1..] == a[1..] + b;
      NotesOfJoin(a[1..], b);
    }
  }

  lemma {:induction false} TextsJoin(a: seq<AnnotatedGCode>, b: seq<AnnotatedGCode>)
    ensures Texts(a + b) == Texts(a) + Texts(b)
  {
    if a == [] {
      assert a + b == b;
    } else {
      assert (a + b)[1..] == a[1..] + b;
      TextsJoin(a[1..], b);
    }
  }

  lemma {:induction false} NotesJoin(a: seq<AnnotatedGCode>, b: seq<AnnotatedGCode>)
    ensures Notes(a + b) == Notes(a) + Notes(b)
  {
    if a == [] {
      assert a + b == b;
    } else {
      assert (a + b)[1..] == a[1..] + b;
      NotesJoin(a[1..], b);
    }
  }

  lemma {:induction false} GcodesJoin(a: seq<AnnotatedGCode>, b: seq<AnnotatedGCode>)
    ensures Gcodes(a + b) == Gcodes(a) + Gcodes(b)
  {
    if a == [] {
      assert a + b == b;
    } else {
      assert (a + b)[1..] == a[1..] + b;
      GcodesJoin(a[1..], b);
    }
  }

  lemma {:induction false} SumIsAll(parts: seq<seq<AnnotatedGCode>>)
    ensures Sum(parts) == Gcodes(Together(parts))
  {
    if parts != [] {
      SumIsAll(parts[1..]);
      GcodesJoin(parts[0], Together(parts[1..]));
    }
  }

  /** One more item at the end. */
  lemma {:induction false} ItemsEnd(before: seq<AnnotatedGCode>, last: AnnotatedGCode)
    ensures var items, all := OkAll(before), OkAll(before + [last]);
            && all[..|all| - 1] == items && all[|all| - 1] == Ok(last)
    ensures Texts(before + [last]) == Texts(before) + if last.GCode? then last.text + "\n" else ""
    ensures Notes(before + [last]) == Notes(before) + if last.Annotation? then [last.note] else []
    ensures Gcodes(before + [last]) == Gcodes(before) + if last.GCode? then 1 else 0
  {
    assert Texts([last]) == if last.GCode? then last.text + "\n" else "";
    TextsJoin(before, [last]);
    NotesJoin(before, [last]);
    GcodesJoin(before, [last]);
  }

  /** What is read off a stream of items without errors. */
  lemma {:induction false} StreamIsPart(part: seq<AnnotatedGCode>)
    ensures var items := OkAll(part);
            && Written(items) == Texts(part) && CountGCodes(items) == Gcodes(part)
            && NotesOf(Annotations(items)) == Notes(part)
  {
    if part != [] {
      var before, last := part[..|part| - 1], part[|part| - 1];
      assert part == before + [last];
      StreamIsPart(before);
      ItemsEnd(before, last);
      var items := OkAll(before);
      NotesOfJoin(Annotations(items), if last.Annotation? then [(CountGCodes(items), last.note)] else []);
      assert last.Annotation? ==> NotesOf([(CountGCodes(items), last.note)]) == [last.note];
      hide Texts, Notes, Gcodes, OkAll;
    }
  }

  lemma {:induction false} SameCount(annotations: seq<(nat, string)>)
    ensures |NotesOf(annotations)| == |annotations|
  {
    if annotations != [] { SameCount(annotations[1..]); }
  }

  lemma {:induction false} PlacedEnd(before: seq<AnnotatedGCode>, last: AnnotatedGCode, earlier: seq<(nat, string)>)
    requires Placed(before, earlier)
    ensures Placed(before + [last], earlier)
    ensures last.Annotation? && |Notes(before)| == |earlier| ==>
              Placed(before + [last], earlier + [(Gcodes(before), last.note)])
  {
    hide Notes, Gcodes;
    var all := before + [last];
    forall k | 0 <= k < |earlier| ensures Stands(all, earlier[k], k) {
      assert Stands(before, earlier[k], k);
      var i :| StandsAt(before, i, earlier[k], k);
      assert all[..i] == before[..i];
      assert StandsAt(all, i, earlier[k], k);
    }
    if last.Annotation? && |Notes(before)| == |earlier| {
      var more := earlier + [(Gcodes(before), last.note)];
      assert all[..|before|] == before;
      assert StandsAt(all, |before|, more[|earlier|], |earlier|);
      assert forall k :: 0 <= k < |earlier| ==> more[k] == earlier[k];
    }
  }

  lemma {:induction false} StreamIsPlaced(part: seq<AnnotatedGCode>)
    ensures Placed(part, Annotations(OkAll(part)))
  {
    if part != [] {
      var before, last := part[..|part| - 1], part[|part| - 1];
      assert part == before + [last];
      StreamIsPlaced(before);
      StreamIsPart(before);
      SameCount(Annotations(OkAll(before)));
      ItemsEnd(before, last);
      PlacedEnd(before, last, Annotations(OkAll(before)));
      hide Texts, Notes, Gcodes, OkAll, Placed;
      assert Annotations(OkAll(before)) + [] == Annotations(OkAll(before));
    }
  }

  /** What a line that compiles expands to is its contribution. */
  lemma {:induction false} ExpandIsContribution(tools: Tools, read: Result<string>) returns (part: seq<AnnotatedGCode>)
    requires Compiles(tools, read)
    ensures Contributes(tools, read.value, part) && Expand(tools, read) == OkAll(part)
  {
    var line := read.value;
    if line == "" || line[0] != '{' {
      part := [GCode(line)];
    } else {
      match tools.parse(line).value
      case InternalMacro(body) => part := tools.compile(body).value;
      case JsonGCode(body) => part := [GCode(tools.render(body).value)];
    }
  }

  lemma {:induction false} OkAllJoin(a: seq<AnnotatedGCode>, b: seq<AnnotatedGCode>)
    ensures OkAll(a + b) == OkAll(a) + OkAll(b)
  {
  }

  lemma {:induction false} ExpansionIsTogether(tools: Tools, lines: seq<Result<string>>)
    returns (parts: seq<seq<AnnotatedGCode>>)
    requires forall i :: 0 <= i < |lines| ==> Compiles(tools, lines[i])
    ensures |parts| == |lines|
    ensures forall i :: 0 <= i < |lines| ==> lines[i].Ok? && Contributes(tools, lines[i].value, parts[i])
    ensures Expansion(tools, lines) == OkAll(Together(parts))
  {
    if lines == [] {
      parts := [];
    } else {
      assert Compiles(tools, lines[0]);
      var part := ExpandIsContribution(tools, lines[0]);
      hide Compiles, Contributes, Expand, OkAll;
      var rest := ExpansionIsTogether(tools, lines[1..]);
      parts := [part] + rest;
      assert parts[1..] == rest;
      OkAllJoin(part, Together(rest));
    }
  }

  /** A print compiles if its lines do, and is then made of their contributions. */
  lemma {:induction false} PrintIsMade(tools: Tools, lines: seq<Result<string>>)
    ensures ErrorFree(Expansion(tools, lines)) <==> AllCompile(tools, lines)
    ensures AllCompile(tools, lines) ==>
              var items := Expansion(tools, lines);
              exists parts :: MadeOf(tools, lines, parts, PrintFile(Written(items), CountGCodes(items), Annotations(items)))
  {
    hide Contributes, Expansion, Written, CountGCodes, Annotations;
    CompilesLineByLine(tools, lines);
    if AllCompile(tools, lines) {
      var parts := ExpansionIsTogether(tools, lines);
      var items := Expansion(tools, lines);
      StreamIsPart(Together(parts));
      StreamIsPlaced(Together(parts));
      SumIsAll(parts);
      assert MadeOf(tools, lines, parts, PrintFile(Written(items), CountGCodes(items), Annotations(items)));
    }
  }
}
