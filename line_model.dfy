/**
 * The line builder of generator-common.js (`$generatorCommon.builder`) as a
 * value: one function per method, from the builder before the call to the
 * builder after it. The class in module LineBuilder is proved to follow these
 * functions; the lemmas here are what they imply for callers.
 */
module LineModel {
  import opened Text
  import opened ClassNames

  const IndentUnit := "    "

  /** `_.repeat('    ', deep)`: nothing at all when `deep` is below 1. */
  function Indent(deep: int): string
  {
    Repeat(IndentUnit, if deep > 0 then deep else 0)
  }

  /**
   * The array of output lines with the fields the builder hangs on it. The
   * `safe*` fields are the snapshot of a safe block; `safePoint` is the line
   * count it was taken at, or -1 when none is open.
   */
  datatype BuilderState = BuilderState(
    lines: seq<string>,
    deep: int,
    needEmptyLine: bool,
    lineStart: bool,
    datasources: seq<string>,
    imports: map<string, string>,
    vars: map<string, string>,
    safeDeep: int,
    safeNeedEmptyLine: bool,
    safeImports: map<string, string>,
    safeDatasources: seq<string>,
    safePoint: int)

  /** What every builder method keeps: a snapshot point inside the lines, registries keyed by short name. */
  ghost predicate Consistent(b: BuilderState)
  {
    -1 <= b.safePoint <= |b.lines|
    && WellKeyed(b.imports) && WellKeyed(b.safeImports)
  }

  /** `$generatorCommon.builder(deep)` (an absent depth is 0). */
  function New(deep: int): (b: BuilderState)
    ensures Consistent(b) && b.lines == [] && b.lineStart && !b.needEmptyLine && b.safePoint == -1
    ensures b.deep == deep && b.datasources == [] && b.imports == map[] && b.vars == map[]
    ensures b.safeDeep == 0 && !b.safeNeedEmptyLine && b.safeImports == map[] && b.safeDatasources == []
  {
    BuilderState([], deep, false, true, [], map[], map[], 0, false, map[], [], -1)
  }

  /** `append(s)`: exactly one new line, `s` behind the indentation of the current depth when `lineStart` is set. */
  function Append(b: BuilderState, s: string): (r: BuilderState)
    ensures |r.lines| == |b.lines| + 1 && r.lines[..|b.lines|] == b.lines
    ensures r.lines[|b.lines|] == (if b.lineStart then Indent(b.deep) else "") + s
    ensures r.(lines := b.lines) == b
  {
    b.(lines := b.lines + [(if b.lineStart then Indent(b.deep) else "") + s])
  }

  /** `line(s)`: the owed blank line and then `s`, or nothing at all for an empty `s`; either way the debt is cleared. */
  function Line(b: BuilderState, s: string): (r: BuilderState)
    ensures s == "" ==> r.lines == b.lines
    ensures s != "" ==> r.lines == b.lines + (if b.needEmptyLine then [""] else [])
                                          + [(if b.lineStart then Indent(b.deep) else "") + s]
    ensures !r.needEmptyLine && r.lineStart
    ensures r.(lines := b.lines, needEmptyLine := b.needEmptyLine, lineStart := b.lineStart) == b
  {
    var pushed := if s != "" then Append(if b.needEmptyLine then b.(lines := b.lines + [""]) else b, s) else b;
    pushed.(needEmptyLine := false, lineStart := true)
  }

  /** `startBlock(s)`: like `line(s)`, the header at the old depth, then one level deeper. */
  function StartBlock(b: BuilderState, s: string): (r: BuilderState)
    ensures r.deep == b.deep + 1 && r.lines == Line(b, s).lines
    ensures r == Line(b, s).(deep := b.deep + 1)
  {
    var header := Line(b, s);
    header.(deep := header.deep + 1)
  }

  /** `endBlock(s)`: one level shallower, then the footer at the new depth; the blank-line debt stays as it was. */
  function EndBlock(b: BuilderState, s: string): (r: BuilderState)
    ensures r.deep == b.deep - 1 && r.lineStart && r.needEmptyLine == b.needEmptyLine
    ensures s == "" ==> r.lines == b.lines
    ensures s != "" ==> r.lines == b.lines + [(if b.lineStart then Indent(b.deep - 1) else "") + s]
    ensures r.(lines := b.lines, deep := b.deep, lineStart := b.lineStart) == b
  {
    var shallower := b.(deep := b.deep - 1);
    var footer := if s != "" then Append(shallower, s) else shallower;
    footer.(lineStart := true)
  }

  /** `emptyLineIfNeeded()`: pays the owed blank line, if one is owed. */
  function EmptyLineIfNeeded(b: BuilderState): (r: BuilderState)
    ensures b.needEmptyLine ==> r.lines == b.lines + [""] && !r.needEmptyLine && r.lineStart
    ensures r.(lines := b.lines, needEmptyLine := b.needEmptyLine, lineStart := b.lineStart) == b
    ensures !b.needEmptyLine ==> r == b
  {
    if b.needEmptyLine then b.(lines := b.lines + [""], lineStart := true, needEmptyLine := false) else b
  }

  /**
   * The name `importClass(full)` returns: the short name, or the full name
   * when the short name is already taken by another class.
   */
  function ImportedName(imports: map<string, string>, full: string): (r: string)
    ensures !Registered(imports, ShortName(full)) ==> r == ShortName(full)
    ensures Registered(imports, ShortName(full)) && imports[ShortName(full)] == full ==> r == ShortName(full)
    ensures Registered(imports, ShortName(full)) && imports[ShortName(full)] != full ==> r == full
  {
    var short := ShortName(full);
    if Registered(imports, short) && imports[short] != full then full else short
  }

  /** `importClass(full)` as a change of the builder: only the registry changes. */
  function ImportClass(b: BuilderState, full: string): (r: BuilderState)
    ensures r == b.(imports := WithImport(b.imports, full))
  {
    b.(imports := WithImport(b.imports, full))
  }

  /** `startSafeBlock()`: a snapshot of depth, blank-line debt, registry, data sources and line count. */
  function StartSafeBlock(b: BuilderState): (r: BuilderState)
    ensures r.safePoint == |b.lines| && r.safeDeep == b.deep && r.safeNeedEmptyLine == b.needEmptyLine
    ensures r.safeImports == b.imports && r.safeDatasources == b.datasources
    ensures r.(safeDeep := b.safeDeep, safeNeedEmptyLine := b.safeNeedEmptyLine, safeImports := b.safeImports,
               safeDatasources := b.safeDatasources, safePoint := b.safePoint) == b
  {
    b.(safeDeep := b.deep, safeNeedEmptyLine := b.needEmptyLine, safeImports := b.imports,
       safeDatasources := b.datasources, safePoint := |b.lines|)
  }

  /**
   * `rollbackSafeBlock()`: with a snapshot open, drop the lines written since
   * and restore the saved fields; without one, do nothing.
   */
  function RollbackSafeBlock(b: BuilderState): (r: BuilderState)
    ensures b.safePoint < 0 ==> r == b
    ensures b.safePoint >= 0 ==> r.safePoint == -1 && r.lines == b.lines[..if b.safePoint <= |b.lines| then b.safePoint else |b.lines|]
    ensures b.safePoint >= 0 ==>
              r.deep == b.safeDeep && r.needEmptyLine == b.safeNeedEmptyLine
              && r.imports == b.safeImports && r.datasources == b.safeDatasources
    ensures r.(lines := b.lines, deep := b.deep, needEmptyLine := b.needEmptyLine, datasources := b.datasources,
               imports := b.imports, safePoint := b.safePoint) == b
  {
    if b.safePoint >= 0 then
      b.(lines := b.lines[..if b.safePoint <= |b.lines| then b.safePoint else |b.lines|],
         deep := b.safeDeep, needEmptyLine := b.safeNeedEmptyLine,
         datasources := b.safeDatasources, imports := b.safeImports, safePoint := -1)
    else b
  }

  /** `asString()`: the lines joined by newlines. */
  function AsString(b: BuilderState): string
  {
    Join(b.lines, "\n")
  }

  /** A line of the generated text holds no line break of its own. */
  predicate NoBreaks(lines: seq<string>)
  {
    forall i :: 0 <= i < |lines| ==> '\n' !in lines[i]
  }

  /** The text splits back into exactly the builder's lines. */
  lemma AsStringSplits(b: BuilderState)
    requires |b.lines| >= 1 && NoBreaks(b.lines)
    ensures Split(AsString(b), '\n') == b.lines
  {
    SplitJoin(b.lines, '\n');
  }

  /**
   * `text` is what `generateImports()` returns for `imports`: one line
   * `import X;` per registered class outside `java.lang`, sorted, joined by
   * newlines.
   */
  ghost predicate IsImportsText(imports: map<string, string>, text: string)
  {
    exists ls :: Sorted(ls) && multiset(ls) == Statements(imports, true) && text == Join(ls, "\n")
  }

  /** The collected lines of the registry, sorted and joined, are its import section. */
  lemma SortedImportsText(imports: map<string, string>, statements: seq<string>)
    requires multiset(statements) == Statements(imports, true)
    ensures IsImportsText(imports, Join(SortStrings(statements), "\n"))
  {
    var sorted := SortStrings(statements);
    assert Sorted(sorted) && multiset(sorted) == Statements(imports, true);
  }

  /** The import section is determined by the registry alone, whatever order its keys come in. */
  lemma ImportsTextUnique(imports: map<string, string>, t1: string, t2: string)
    requires IsImportsText(imports, t1) && IsImportsText(imports, t2)
    ensures t1 == t2
  {
    var l1 :| Sorted(l1) && multiset(l1) == Statements(imports, true) && t1 == Join(l1, "\n");
    var l2 :| Sorted(l2) && multiset(l2) == Statements(imports, true) && t2 == Join(l2, "\n");
    SortedUnique(l1, l2);
  }

  // ---------------------------------------------------------------------
  // Sequences of calls

  /** A call a generator makes on the builder, or a field it writes directly. */
  datatype Call =
    | AppendCall(text: string)
    | LineCall(text: string)
    | StartBlockCall(text: string)
    | EndBlockCall(text: string)
    | EmptyLineCall
    | ImportCall(cls: string)
    | RequestEmptyLine          // `res.needEmptyLine = true`, written by the generators
    | AddDatasource(id: string) // `res.datasources.push(id)`, written by the generators
    | StartSafeCall
    | RollbackCall

  function Apply(b: BuilderState, c: Call): BuilderState
  {
    match c
    case AppendCall(s) => Append(b, s)
    case LineCall(s) => Line(b, s)
    case StartBlockCall(s) => StartBlock(b, s)
    case EndBlockCall(s) => EndBlock(b, s)
    case EmptyLineCall => EmptyLineIfNeeded(b)
    case ImportCall(cls) => ImportClass(b, cls)
    case RequestEmptyLine => b.(needEmptyLine := true)
    case AddDatasource(id) => b.(datasources := b.datasources + [id])
    case StartSafeCall => StartSafeBlock(b)
    case RollbackCall => RollbackSafeBlock(b)
  }

  function Run(b: BuilderState, cs: seq<Call>): BuilderState
    decreases |cs|
  {
    if |cs| == 0 then b else Run(Apply(b, cs[0]), cs[1..])
  }

  predicate NoSafeBlockCalls(cs: seq<Call>)
  {
    forall i :: 0 <= i < |cs| ==> !cs[i].StartSafeCall? && !cs[i].RollbackCall?
  }

  /** Blocks started minus blocks closed. */
  function Net(cs: seq<Call>): int
    decreases |cs|
  {
    if |cs| == 0 then 0
    else (if cs[0].StartBlockCall? then 1 else if cs[0].EndBlockCall? then -1 else 0) + Net(cs[1..])
  }

  /** Every call keeps the builder consistent. */
  lemma ApplyConsistent(b: BuilderState, c: Call)
    requires Consistent(b)
    ensures Consistent(Apply(b, c))
  {
    var r := Apply(b, c);
    match c {
      case ImportCall(cls) =>
        WithImportWellKeyed(b.imports, cls);
      case StartSafeCall =>
      case RollbackCall =>
      case EmptyLineCall =>
        Grows(b, r);
      case AppendCall(s) =>
        Grows(b, r);
      case LineCall(s) =>
        Grows(b, r);
      case StartBlockCall(s) =>
        Grows(b, r);
      case EndBlockCall(s) =>
        Grows(b, r);
      case RequestEmptyLine =>
        Grows(b, r);
      case AddDatasource(id) =>
        Grows(b, r);
    }
  }

  /** Adding lines and leaving both registries and the snapshot point alone keeps a builder consistent. */
  lemma Grows(b: BuilderState, r: BuilderState)
    requires Consistent(b) && |r.lines| >= |b.lines|
    requires r.imports == b.imports && r.safeImports == b.safeImports && r.safePoint == b.safePoint
    ensures Consistent(r)
  {
  }

  lemma {:induction false} RunConsistent(b: BuilderState, cs: seq<Call>)
    requires Consistent(b)
    ensures Consistent(Run(b, cs))
    decreases |cs|
  {
    if |cs| > 0 {
      ApplyConsistent(b, cs[0]);
      RunConsistent(Apply(b, cs[0]), cs[1..]);
    }
  }

  /** Once set, `lineStart` stays set: no method of this builder clears it, so every line is indented. */
  lemma {:induction false} RunKeepsLineStart(b: BuilderState, cs: seq<Call>)
    requires b.lineStart
    ensures Run(b, cs).lineStart
    decreases |cs|
  {
    if |cs| > 0 { RunKeepsLineStart(Apply(b, cs[0]), cs[1..]); }
  }

  /** Outside safe blocks the depth moves by one per block started or closed, with no floor. */
  lemma {:induction false} RunDepth(b: BuilderState, cs: seq<Call>)
    requires NoSafeBlockCalls(cs)
    ensures Run(b, cs).deep == b.deep + Net(cs)
    decreases |cs|
  {
    if |cs| > 0 {
      assert NoSafeBlockCalls(cs[1..]) by {
        forall i | 0 <= i < |cs[1..]| ensures !cs[1..][i].StartSafeCall? && !cs[1..][i].RollbackCall? {
          assert cs[1..][i] == cs[i + 1];
        }
      }
      RunDepth(Apply(b, cs[0]), cs[1..]);
    }
  }

  /** The part of a builder a safe block saved. */
  predicate SameSnapshot(a: BuilderState, b: BuilderState)
  {
    a.safeDeep == b.safeDeep && a.safeNeedEmptyLine == b.safeNeedEmptyLine
    && a.safeImports == b.safeImports && a.safeDatasources == b.safeDatasources && a.safePoint == b.safePoint
  }

  /** One call other than the safe-block pair only adds lines at the end and keeps the snapshot. */
  lemma ApplyExtends(b: BuilderState, c: Call)
    requires !c.StartSafeCall? && !c.RollbackCall?
    ensures |b.lines| <= |Apply(b, c).lines| && Apply(b, c).lines[..|b.lines|] == b.lines
    ensures SameSnapshot(Apply(b, c), b)
  {
    var a := Apply(b, c);
    if c.LineCall? || c.StartBlockCall? {
      var pad := if b.needEmptyLine then b.(lines := b.lines + [""]) else b;
      assert pad.lines[..|b.lines|] == b.lines;
    }
  }

  lemma PrefixOfPrefix<T>(a: seq<T>, b: seq<T>, c: seq<T>)
    requires |a| <= |b| <= |c| && b[..|a|] == a && c[..|b|] == b
    ensures c[..|a|] == a
  {
    assert c[..|a|] == c[..|b|][..|a|];
  }

  /** Outside safe-block calls, lines are only ever added at the end and the snapshot is left alone. */
  lemma {:induction false} RunExtends(b: BuilderState, cs: seq<Call>)
    requires NoSafeBlockCalls(cs)
    ensures |b.lines| <= |Run(b, cs).lines| && Run(b, cs).lines[..|b.lines|] == b.lines
    ensures SameSnapshot(Run(b, cs), b)
    decreases |cs|
  {
    if |cs| > 0 {
      assert NoSafeBlockCalls(cs[1..]) by {
        forall i | 0 <= i < |cs[1..]| ensures !cs[1..][i].StartSafeCall? && !cs[1..][i].RollbackCall? {
          assert cs[1..][i] == cs[i + 1];
        }
      }
      var a := Apply(b, cs[0]);
      ApplyExtends(b, cs[0]);
      RunExtends(a, cs[1..]);
      assert Run(b, cs) == Run(a, cs[1..]);
      PrefixOfPrefix(b.lines, a.lines, Run(a, cs[1..]).lines);
    }
  }

  /**
   * A safe block rolled back leaves no trace: the lines, depth, blank-line
   * debt, registry and data sources are those from before `startSafeBlock`;
   * no snapshot stays open, so a second rollback does nothing. `lineStart`
   * and `vars` are not part of the snapshot and keep what the block left.
   */
  lemma RollbackRestores(b: BuilderState, cs: seq<Call>)
    requires NoSafeBlockCalls(cs)
    ensures var done := Run(StartSafeBlock(b), cs);
            var r := RollbackSafeBlock(done);
            && r.lines == b.lines && r.deep == b.deep && r.needEmptyLine == b.needEmptyLine
            && r.imports == b.imports && r.datasources == b.datasources
            && r.safePoint == -1 && RollbackSafeBlock(r) == r
            && r.lineStart == done.lineStart && r.vars == done.vars
  {
    RunExtends(StartSafeBlock(b), cs);
  }

  /**
   * A block started and closed around a body that opens as many blocks as it
   * closes ends at the depth it began, its footer indented like its header.
   */
  lemma MatchedBlock(b: BuilderState, header: string, body: seq<Call>, footer: string)
    requires b.lineStart && header != "" && footer != ""
    requires NoSafeBlockCalls(body) && Net(body) == 0
    ensures var started := StartBlock(b, header);
            var r := EndBlock(Run(started, body), footer);
            && r.deep == b.deep
            && started.lines[|started.lines| - 1] == Indent(b.deep) + header
            && r.lines[|r.lines| - 1] == Indent(b.deep) + footer
            && |b.lines| < |r.lines| && r.lines[..|b.lines|] == b.lines
  {
    var started := StartBlock(b, header);
    RunDepth(started, body);
    RunKeepsLineStart(started, body);
    RunExtends(started, body);
    var inner := Run(started, body);
    PrefixOfPrefix(b.lines, started.lines, inner.lines);
    var r := EndBlock(inner, footer);
    PrefixOfPrefix(b.lines, inner.lines, r.lines);
  }

  function Requests(n: nat): seq<Call>
  {
    seq(n, _ => RequestEmptyLine)
  }

  lemma {:induction false} RequestsSetFlag(b: BuilderState, n: nat)
    requires n >= 1
    ensures Run(b, Requests(n)) == b.(needEmptyLine := true)
    decreases n
  {
    assert Requests(n)[1..] == Requests(n - 1);
    if n > 1 {
      RequestsSetFlag(b.(needEmptyLine := true), n - 1);
    }
  }

  /**
   * Blank lines collapse: any number of requests for a separator before a
   * line yield exactly one blank line before it.
   */
  lemma BlankLinesCollapse(b: BuilderState, n: nat, s: string)
    requires n >= 1 && s != "" && b.lineStart
    ensures Run(b, Requests(n) + [LineCall(s)]).lines == b.lines + ["", Indent(b.deep) + s]
  {
    RunAppend(b, Requests(n), [LineCall(s)]);
    RequestsSetFlag(b, n);
  }

  lemma {:induction false} RunAppend(b: BuilderState, cs: seq<Call>, ds: seq<Call>)
    ensures Run(b, cs + ds) == Run(Run(b, cs), ds)
    decreases |cs|
  {
    if |cs| > 0 {
      assert (cs + ds)[0] == cs[0] && (cs + ds)[1..] == cs[1..] + ds;
      RunAppend(Apply(b, cs[0]), cs[1..], ds);
    } else {
      assert cs + ds == ds;
    }
  }

  /** Paying the blank line twice pays it once; the line after it gets no second blank. */
  lemma EmptyLineOnce(b: BuilderState, s: string)
    requires s != "" && b.lineStart
    ensures EmptyLineIfNeeded(EmptyLineIfNeeded(b)) == EmptyLineIfNeeded(b)
    ensures Line(EmptyLineIfNeeded(b), s).lines
         == b.lines + (if b.needEmptyLine then [""] else []) + [Indent(b.deep) + s]
  {
  }

  /**
   * What `importClass` promises its caller: the name it returns denotes the
   * class asked for, either as a registered short name or as the full name;
   * a clash never rebinds the short name.
   */
  lemma ImportResolves(imports: map<string, string>, full: string)
    requires WellKeyed(imports)
    ensures var r := ImportedName(imports, full);
            var m := WithImport(imports, full);
            || (r == ShortName(full) && r in m && m[r] == full)
            || (r == full && m == imports && Registered(imports, ShortName(full)) && imports[ShortName(full)] != full)
  {
  }

  lemma ExampleStatements()
    ensures Statements(map["A" := "java.lang.A", "B" := "x.B"], true) == multiset{"import x.B;"}
  {
    StatementsPair("A", "java.lang.A", "B", "x.B", true);
    assert Contribution("x.B", true) == multiset{"import x.B;"} by {
      assert "x.B"[0] == 'x';
      assert !IsJavaLang("x.B");
      assert Statement("x.B") == "import x.B;";
    }
    assert Contribution("java.lang.A", true) == multiset{} by {
      assert "java.lang.A"[..10] == "java.lang.";
    }
  }

  /** The import section leaves out `java.lang`: `java.lang.A` gives no line, `x.B` one. */
  lemma ImportsTextExample(text: string)
    requires IsImportsText(map["A" := "java.lang.A", "B" := "x.B"], text)
    ensures text == "import x.B;"
  {
    ExampleStatements();
    var ls :| Sorted(ls) && multiset(ls) == multiset{"import x.B;"} && text == Join(ls, "\n");
    assert |ls| == 1;
    assert ls[0] in multiset(ls);
  }

  /**
   * `startBlock(header)`, `line(body)`, `endBlock(footer)` on a new builder:
   * the header, the body one level in, and the footer back at depth 0.
   */
  lemma BlockLayout(header: string, body: string, footer: string)
    requires header != "" && body != "" && footer != ""
    ensures var r := Run(New(0), [StartBlockCall(header), LineCall(body), EndBlockCall(footer)]);
            r.lines == [header, IndentUnit + body, footer]
            && AsString(r) == header + "\n" + IndentUnit + body + "\n" + footer
  {
    BlockLines(header, body, footer);
    JoinThree(header, IndentUnit + body, footer, "\n");
  }

  lemma BlockLines(header: string, body: string, footer: string)
    requires header != "" && body != "" && footer != ""
    ensures Run(New(0), [StartBlockCall(header), LineCall(body), EndBlockCall(footer)]).lines
         == [header, IndentUnit + body, footer]
  {
    var b0 := New(0);
    var b1 := StartBlock(b0, header);
    var b2 := Line(b1, body);
    var b3 := EndBlock(b2, footer);
    RunThree(b0, StartBlockCall(header), LineCall(body), EndBlockCall(footer));
    IndentOneLevel();
    LineFresh(b0, header);
    assert "" + header == header && "" + footer == footer;
    assert b1.lines == [] + [header];
    LineFresh(b1, body);
    assert b2.lines == [header] + [IndentUnit + body];
    assert b3.lines == [header, IndentUnit + body] + [footer];
  }

  lemma IndentOneLevel()
    ensures Indent(0) == "" && Indent(1) == IndentUnit
  {
    assert Repeat(IndentUnit, 1) == IndentUnit + "";
  }

  /** `line(s)` at the start of a line with no blank line owed: just the indented `s`. */
  lemma LineFresh(b: BuilderState, s: string)
    requires b.lineStart && !b.needEmptyLine && s != ""
    ensures Line(b, s).lines == b.lines + [Indent(b.deep) + s]
  {
    assert b.lines + [] == b.lines;
  }

  lemma RunThree(b: BuilderState, c1: Call, c2: Call, c3: Call)
    ensures Run(b, [c1, c2, c3]) == Apply(Apply(Apply(b, c1), c2), c3)
  {
    var b1 := Apply(b, c1);
    var b2 := Apply(b1, c2);
    assert [c1, c2, c3][1..] == [c2, c3];
    assert Run(b, [c1, c2, c3]) == Run(b1, [c2, c3]);
    assert [c2, c3][1..] == [c3];
    assert Run(b1, [c2, c3]) == Run(b2, [c3]);
    assert [c3][1..] == [];
    assert Run(b2, [c3]) == Run(Apply(b2, c3), []);
  }

  lemma JoinThree(a: string, b: string, c: string, sep: string)
    ensures Join([a, b, c], sep) == a + sep + b + sep + c
  {
    assert [a, b, c][1..] == [b, c];
    assert [b, c][1..] == [c];
    assert Join([b, c], sep) == b + sep + c;
    assert Join([a, b, c], sep) == a + sep + (b + sep + c);
  }
}
