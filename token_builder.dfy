/**
 * `exports.builder()` of common.js: an array of tokens with its own state
 * and methods. Each method is proved to change the builder exactly as the
 * matching function of TokenModel says.
 */
module TokenBuilder {
  import opened Wrappers
  import opened Text
  import opened ClassNames
  import TokenModel

  class Builder {
    var tokens: seq<string>
    var deep: int
    var lineStart: bool
    var needEmptyLine: bool
    var imports: map<string, string>

    function State(): TokenModel.TokenState
      reads this
    {
      TokenModel.TokenState(tokens, deep, lineStart, needEmptyLine, imports)
    }

    constructor ()
      ensures State() == TokenModel.New()
    {
      tokens := [];
      deep := 0;
      lineStart := true;
      needEmptyLine := false;
      imports := map[];
    }

    method Append(s: string)
      modifies this
      ensures State() == TokenModel.Append(old(State()), s)
    {
      if lineStart {
        var i := 0;
        while i < deep
          invariant 0 <= i <= (if deep > 0 then deep else 0)
          invariant tokens == old(tokens) + TokenModel.IndentTokens(i)
          invariant deep == old(deep) && imports == old(imports) && needEmptyLine == old(needEmptyLine)
        {
          tokens := tokens + [TokenModel.IndentUnit];
          i := i + 1;
        }
        lineStart := false;
      }
      tokens := tokens + [s];
    }

    method Line(s: string)
      modifies this
      ensures State() == TokenModel.Line(old(State()), s)
    {
      if s != "" {
        Append(s);
      }
      tokens := tokens + ["\n"];
      lineStart := true;
    }

    method StartBlock(s: string)
      modifies this
      ensures State() == TokenModel.StartBlock(old(State()), s)
    {
      if s != "" {
        Append(s);
      }
      tokens := tokens + ["\n"];
      lineStart := true;
      deep := deep + 1;
    }

    method EndBlock(s: string)
      modifies this
      ensures State() == TokenModel.EndBlock(old(State()), s)
    {
      deep := deep - 1;
      if s != "" {
        Append(s);
      }
      tokens := tokens + ["\n"];
      lineStart := true;
    }

    method EmptyLineIfNeeded() returns (emitted: bool)
      modifies this
      ensures (emitted, State()) == TokenModel.EmptyLineIfNeeded(old(State()))
    {
      if needEmptyLine {
        Line("");
        needEmptyLine := false;
        return true;
      }
      return false;
    }

    /** `importClass(fullClassName)`; the thrown conflict message is the `Failure`. */
    method ImportClass(fullClassName: string) returns (r: Result<string, string>)
      modifies this
      ensures r == TokenModel.StrictImport(old(imports), fullClassName)
      ensures State() == TokenModel.ImportClass(old(State()), fullClassName)
    {
      var dotIdx := LastIndexOf(fullClassName, '.');
      var shortName;
      if dotIdx > 0 {
        shortName := fullClassName[dotIdx + 1..];
      } else {
        shortName := fullClassName;
      }
      if shortName in imports && imports[shortName] != "" {
        if imports[shortName] != fullClassName {
          return Failure(TokenModel.ConflictMessage(imports[shortName], fullClassName));
        }
      } else {
        imports := imports[shortName := fullClassName];
      }
      return Success(shortName);
    }

    /** `generateImports()`: one `import` line per registry entry, in the order the keys come. */
    method GenerateImports() returns (text: string)
      ensures TokenModel.IsImportsText(imports, text)
    {
      var statements: seq<string> := [];
      var rest := imports;
      while rest != map[]
        invariant multiset(statements) + Statements(rest, false) == Statements(imports, false)
        decreases |rest|
      {
        var clsName :| clsName in rest;
        var line := Statement(rest[clsName]);
        StatementsRemove(rest, clsName, false);
        RemoveOne(rest, clsName);
        assert multiset(statements + [line]) == multiset(statements) + multiset{line};
        statements := statements + [line];
        rest := rest - {clsName};
      }
      text := Join(statements, "\n");
      assert multiset(statements) == Statements(imports, false);
    }
  }
}
