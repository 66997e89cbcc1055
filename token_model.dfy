/**
 * The older builder of common.js (`exports.builder`) as a value. It keeps a
 * list of tokens rather than lines: indentation is one token per level, and
 * every line ends with a separate "\n" token.
 */
module TokenModel {
  import opened Wrappers
  import opened Text
  import opened ClassNames
  import LineModel

  const IndentUnit := "    "

  /** The tokens the indentation loop of `append` pushes: one per level, none below 1. */
  function IndentTokens(deep: int): (r: seq<string>)
    ensures |r| == (if deep > 0 then deep else 0)
    ensures forall i :: 0 <= i < |r| ==> r[i] == IndentUnit
  {
    seq(if deep > 0 then deep else 0, _ => IndentUnit)
  }

  /** `needEmptyLine` starts out undefined, which the builder reads as false. */
  datatype TokenState = TokenState(
    tokens: seq<string>,
    deep: int,
    lineStart: bool,
    needEmptyLine: bool,
    imports: map<string, string>)

  /** `exports.builder()`. */
  function New(): (b: TokenState)
    ensures b.tokens == [] && b.deep == 0 && b.lineStart && !b.needEmptyLine && b.imports == map[]
  {
    TokenState([], 0, true, false, map[])
  }

  /** `tokens.join('')`: the text a caller assembles from the tokens. */
  function Concat(ts: seq<string>): string
    decreases |ts|
  {
    if |ts| == 0 then "" else ts[0] + Concat(ts[1..])
  }

  lemma {:induction false} ConcatAppend(a: seq<string>, b: seq<string>)
    ensures Concat(a + b) == Concat(a) + Concat(b)
    decreases |a|
  {
    if |a| == 0 {
      assert a + b == b;
    } else {
      assert (a + b)[1..] == a[1..] + b;
      ConcatAppend(a[1..], b);
    }
  }

  /** The indentation tokens join to the indentation string of the line builder. */
  lemma {:induction false} ConcatIndent(deep: int)
    ensures Concat(IndentTokens(deep)) == LineModel.Indent(deep)
    decreases if deep > 0 then deep else 0
  {
    if deep > 0 {
      assert IndentTokens(deep) == [IndentUnit] + IndentTokens(deep - 1);
      ConcatIndent(deep - 1);
      ConcatAppend([IndentUnit], IndentTokens(deep - 1));
    }
  }

  /**
   * `append(s)`: at the start of a line the indentation tokens, then `s`;
   * afterwards the line has begun.
   */
  function Append(b: TokenState, s: string): (r: TokenState)
    ensures r.tokens == b.tokens + (if b.lineStart then IndentTokens(b.deep) else []) + [s]
    ensures !r.lineStart && r.deep == b.deep && r.needEmptyLine == b.needEmptyLine && r.imports == b.imports
  {
    b.(tokens := b.tokens + (if b.lineStart then IndentTokens(b.deep) else []) + [s], lineStart := false)
  }

  /** `line(s)`: `s` when there is one, then the line break. */
  function Line(b: TokenState, s: string): (r: TokenState)
    ensures r.tokens == (if s != "" then Append(b, s).tokens else b.tokens) + ["\n"]
    ensures r.lineStart && r.deep == b.deep && r.needEmptyLine == b.needEmptyLine && r.imports == b.imports
  {
    var written := if s != "" then Append(b, s) else b;
    written.(tokens := written.tokens + ["\n"], lineStart := true)
  }

  /** `startBlock(s)`: the header line at the old depth, then one level deeper. */
  function StartBlock(b: TokenState, s: string): (r: TokenState)
    ensures r.tokens == Line(b, s).tokens && r.lineStart && r.deep == b.deep + 1
    ensures r.needEmptyLine == b.needEmptyLine && r.imports == b.imports
  {
    var header := Line(b, s);
    header.(deep := header.deep + 1)
  }

  /** `endBlock(s)`: one level shallower, then the footer line at the new depth. */
  function EndBlock(b: TokenState, s: string): (r: TokenState)
    ensures r.deep == b.deep - 1 && r.lineStart
    ensures r.tokens == Line(b.(deep := b.deep - 1), s).tokens
    ensures r.needEmptyLine == b.needEmptyLine && r.imports == b.imports
  {
    Line(b.(deep := b.deep - 1), s)
  }

  /**
   * `emptyLineIfNeeded()`: when a blank line is owed, one "\n" token and the
   * debt cleared, answering true; otherwise false and no change.
   */
  function EmptyLineIfNeeded(b: TokenState): (r: (bool, TokenState))
    ensures r.0 <==> b.needEmptyLine
    ensures r.0 ==> r.1.tokens == b.tokens + ["\n"] && !r.1.needEmptyLine && r.1.lineStart && r.1.deep == b.deep
    ensures r.0 ==> r.1.imports == b.imports
    ensures !r.0 ==> r.1 == b
  {
    if b.needEmptyLine then (true, Line(b, "").(needEmptyLine := false)) else (false, b)
  }

  /** The message `importClass` throws when two classes share a short name. */
  function ConflictMessage(registered: string, full: string): string
  {
    "Class name conflict: " + registered + " and " + full
  }

  /** What `importClass(full)` returns, or the message it throws. */
  function StrictImport(imports: map<string, string>, full: string): (r: Result<string, string>)
    ensures r.Failure? <==> Registered(imports, ShortName(full)) && imports[ShortName(full)] != full
    ensures r.Failure? ==> r.error == ConflictMessage(imports[ShortName(full)], full)
    ensures r.Success? ==> r.value == ShortName(full)
  {
    var short := ShortName(full);
    if Registered(imports, short) && imports[short] != full then Failure(ConflictMessage(imports[short], full))
    else Success(short)
  }

  /** The builder after `importClass(full)`: unchanged when it throws, otherwise the class registered. */
  function ImportClass(b: TokenState, full: string): (r: TokenState)
    ensures StrictImport(b.imports, full).Failure? ==> r == b
    ensures StrictImport(b.imports, full).Success? ==> r == b.(imports := WithImport(b.imports, full))
  {
    if StrictImport(b.imports, full).Failure? then b else b.(imports := WithImport(b.imports, full))
  }

  /**
   * A successful import can be repeated: the second call answers the same
   * short name and leaves the registry as the first call left it.
   */
  lemma ImportIdempotent(b: TokenState, full: string)
    requires StrictImport(b.imports, full).Success?
    ensures var once := ImportClass(b, full);
            StrictImport(once.imports, full) == StrictImport(b.imports, full)
            && ImportClass(once, full) == once
  {
    WithImportIdempotent(b.imports, full);
  }

  /** A registered short name keeps its class: whatever is imported later, the entry stays. */
  lemma ImportKeepsEntries(b: TokenState, full: string, short: string)
    requires Registered(b.imports, short)
    ensures var r := ImportClass(b, full);
            short in r.imports && r.imports[short] == b.imports[short]
  {
  }

  /**
   * `text` is what `generateImports()` returns: one `import X;` line per
   * registry entry, in some order (the key order of a JavaScript object).
   */
  ghost predicate IsImportsText(imports: map<string, string>, text: string)
  {
    exists ls :: multiset(ls) == Statements(imports, false) && text == Join(ls, "\n")
  }

  /** The lines of the import section: exactly one per registered class, nothing else. */
  lemma ImportsLines(imports: map<string, string>, ls: seq<string>)
    requires multiset(ls) == Statements(imports, false)
    ensures |ls| == |imports|
    ensures forall k :: k in imports ==> Statement(imports[k]) in ls
    ensures forall i :: 0 <= i < |ls| ==> exists k :: k in imports && ls[i] == Statement(imports[k])
  {
    StatementsCount(imports);
    assert |ls| == |multiset(ls)|;
    forall k | k in imports ensures Statement(imports[k]) in ls {
      StatementsCover(imports, k, false);
      assert Statement(imports[k]) in multiset(ls);
    }
    forall i | 0 <= i < |ls| ensures exists k :: k in imports && ls[i] == Statement(imports[k]) {
      assert ls[i] in multiset(ls);
      StatementsSound(imports, ls[i], false);
    }
  }

  // ---------------------------------------------------------------------
  // Sequences of calls

  datatype Call =
    | AppendCall(text: string)
    | LineCall(text: string)
    | StartBlockCall(text: string)
    | EndBlockCall(text: string)
    | EmptyLineCall
    | ImportCall(cls: string)
    | RequestEmptyLine   // `res.needEmptyLine = true`, written by the generators

  function Apply(b: TokenState, c: Call): TokenState
  {
    match c
    case AppendCall(s) => Append(b, s)
    case LineCall(s) => Line(b, s)
    case StartBlockCall(s) => StartBlock(b, s)
    case EndBlockCall(s) => EndBlock(b, s)
    case EmptyLineCall => EmptyLineIfNeeded(b).1
    case ImportCall(cls) => ImportClass(b, cls)
    case RequestEmptyLine => b.(needEmptyLine := true)
  }

  function Run(b: TokenState, cs: seq<Call>): TokenState
    decreases |cs|
  {
    if |cs| == 0 then b else Run(Apply(b, cs[0]), cs[1..])
  }

  /** Blocks opened minus blocks closed. */
  function Net(cs: seq<Call>): int
    decreases |cs|
  {
    if |cs| == 0 then 0
    else (if cs[0].StartBlockCall? then 1 else if cs[0].EndBlockCall? then -1 else 0) + Net(cs[1..])
  }

  /** The depth moves by one per block opened or closed, with no floor. */
  lemma {:induction false} RunDepth(b: TokenState, cs: seq<Call>)
    ensures Run(b, cs).deep == b.deep + Net(cs)
    decreases |cs|
  {
    if |cs| > 0 { RunDepth(Apply(b, cs[0]), cs[1..]); }
  }

  /** Every call adds its tokens at the end. */
  lemma ApplyExtends(b: TokenState, c: Call)
    ensures |b.tokens| <= |Apply(b, c).tokens| && Apply(b, c).tokens[..|b.tokens|] == b.tokens
  {
    match c {
      case AppendCall(s) =>
        AppendExtends(b, s);
      case LineCall(s) =>
        LineExtends(b, s);
      case StartBlockCall(s) =>
        LineExtends(b, s);
      case EndBlockCall(s) =>
        LineExtends(b.(deep := b.deep - 1), s);
      case EmptyLineCall =>
        LineExtends(b, "");
      case ImportCall(cls) =>
      case RequestEmptyLine =>
    }
  }

  lemma AppendExtends(b: TokenState, s: string)
    ensures |b.tokens| <= |Append(b, s).tokens| && Append(b, s).tokens[..|b.tokens|] == b.tokens
  {
    var pad := b.tokens + (if b.lineStart then IndentTokens(b.deep) else []);
    assert Append(b, s).tokens == pad + [s];
    assert pad[..|b.tokens|] == b.tokens;
    assert (pad + [s])[..|pad|] == pad;
    LineModel.PrefixOfPrefix(b.tokens, pad, pad + [s]);
  }

  lemma LineExtends(b: TokenState, s: string)
    ensures |b.tokens| <= |Line(b, s).tokens| && Line(b, s).tokens[..|b.tokens|] == b.tokens
  {
    var written := if s != "" then Append(b, s) else b;
    AppendExtends(b, s);
    assert Line(b, s).tokens == written.tokens + ["\n"];
    assert (written.tokens + ["\n"])[..|written.tokens|] == written.tokens;
    LineModel.PrefixOfPrefix(b.tokens, written.tokens, written.tokens + ["\n"]);
  }

  /** Tokens are only ever added at the end. */
  lemma {:induction false} RunExtends(b: TokenState, cs: seq<Call>)
    ensures |b.tokens| <= |Run(b, cs).tokens| && Run(b, cs).tokens[..|b.tokens|] == b.tokens
    decreases |cs|
  {
    if |cs| > 0 {
      var a := Apply(b, cs[0]);
      ApplyExtends(b, cs[0]);
      RunExtends(a, cs[1..]);
      assert Run(b, cs) == Run(a, cs[1..]);
      LineModel.PrefixOfPrefix(b.tokens, a.tokens, Run(a, cs[1..]).tokens);
    }
  }

  /**
   * A block around a body that opens as many blocks as it closes ends at the
   * depth it began; the header is indented at that depth and ends its line.
   * The footer is indented like the header only when the body ended its last
   * line: after a bare `append` it joins that line unindented.
   */
  lemma MatchedBlock(b: TokenState, header: string, body: seq<Call>, footer: string)
    requires b.lineStart && header != "" && Net(body) == 0
    ensures var started := StartBlock(b, header);
            var r := EndBlock(Run(started, body), footer);
            && r.deep == b.deep && r.lineStart
            && started.tokens == b.tokens + IndentTokens(b.deep) + [header, "\n"]
            && |b.tokens| < |r.tokens| && r.tokens[..|b.tokens|] == b.tokens
    ensures var inner := Run(StartBlock(b, header), body);
            var r := EndBlock(inner, footer);
            && (footer == "" ==> r.tokens == inner.tokens + ["\n"])
            && (footer != "" && inner.lineStart ==> r.tokens == inner.tokens + IndentTokens(b.deep) + [footer, "\n"])
            && (footer != "" && !inner.lineStart ==> r.tokens == inner.tokens + [footer, "\n"])
  {
    var started := StartBlock(b, header);
    RunDepth(started, body);
    LineExtends(b, header);
    RunExtends(started, body);
    var inner := Run(started, body);
    var r := EndBlock(inner, footer);
    LineExtends(inner.(deep := inner.deep - 1), footer);
    LineModel.PrefixOfPrefix(b.tokens, started.tokens, inner.tokens);
    LineModel.PrefixOfPrefix(b.tokens, inner.tokens, r.tokens);
  }

  /**
   * The two builders write a line alike: at the start of a line, the tokens
   * of `line(s)` join to the line builder's indented `s` and a line break.
   */
  lemma LineText(b: TokenState, s: string)
    requires b.lineStart && s != ""
    ensures Concat(Line(b, s).tokens) == Concat(b.tokens) + LineModel.Indent(b.deep) + s + "\n"
  {
    ConcatAppend(b.tokens + IndentTokens(b.deep), [s] + ["\n"]);
    ConcatAppend(b.tokens, IndentTokens(b.deep));
    ConcatIndent(b.deep);
    assert b.tokens + IndentTokens(b.deep) + [s] + ["\n"] == (b.tokens + IndentTokens(b.deep)) + ([s] + ["\n"]);
    assert Concat([s] + ["\n"]) == s + "\n" by {
      assert ([s] + ["\n"])[1..] == ["\n"];
      assert Concat(["\n"]) == "\n" + Concat([]);
    }
  }

  /** At the start of a line at depth 0, `line(s)` adds the tokens `s` and "\n" and nothing else. */
  lemma LineAtTop(b: TokenState, s: string)
    requires b.lineStart && b.deep == 0
    ensures Line(b, s) == b.(tokens := b.tokens + (if s != "" then [s] else []) + ["\n"])
  {
    assert IndentTokens(0) == [];
    assert b.tokens + [] == b.tokens;
  }
}
