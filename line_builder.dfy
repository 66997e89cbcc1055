/**
 * `$generatorCommon.builder(deep)` of generator-common.js: an array of output
 * lines carrying its own state and methods. Each method is proved to change
 * the builder exactly as the matching function of LineModel says.
 */
module LineBuilder {
  import opened Text
  import opened ClassNames
  import LineModel

  class Builder {
    var lines: seq<string>
    var deep: int
    var needEmptyLine: bool
    var lineStart: bool
    var datasources: seq<string>
    var imports: map<string, string>
    var vars: map<string, string>
    var safeDeep: int
    var safeNeedEmptyLine: bool
    var safeImports: map<string, string>
    var safeDatasources: seq<string>
    var safePoint: int

    function State(): LineModel.BuilderState
      reads this
    {
      LineModel.BuilderState(lines, deep, needEmptyLine, lineStart, datasources, imports, vars,
                             safeDeep, safeNeedEmptyLine, safeImports, safeDatasources, safePoint)
    }

    ghost predicate Valid()
      reads this
    {
      LineModel.Consistent(State())
    }

    constructor (deep: int)
      ensures Valid() && State() == LineModel.New(deep)
    {
      lines := [];
      this.deep := deep;
      needEmptyLine := false;
      lineStart := true;
      datasources := [];
      imports := map[];
      vars := map[];
      safeDeep := 0;
      safeNeedEmptyLine := false;
      safeImports := map[];
      safeDatasources := [];
      safePoint := -1;
    }

    method StartSafeBlock()
      requires Valid()
      modifies this
      ensures Valid() && State() == LineModel.StartSafeBlock(old(State()))
    {
      safeDeep := deep;
      safeNeedEmptyLine := needEmptyLine;
      safeImports := imports;
      safeDatasources := datasources;
      safePoint := |lines|;
    }

    method RollbackSafeBlock()
      requires Valid()
      modifies this
      ensures Valid() && State() == LineModel.RollbackSafeBlock(old(State()))
    {
      if safePoint >= 0 {
        // `splice(safePoint, length - safePoint)`: a start beyond the end removes nothing
        lines := lines[..if safePoint <= |lines| then safePoint else |lines|];
        deep := safeDeep;
        needEmptyLine := safeNeedEmptyLine;
        datasources := safeDatasources;
        imports := safeImports;
        safePoint := -1;
      }
    }

    /** `asString()`: a text that splits back into the lines, when no line holds a break. */
    function AsString(): (r: string)
      reads this
      ensures |lines| >= 1 && LineModel.NoBreaks(lines) ==> Split(r, '\n') == lines
    {
      if |lines| >= 1 && LineModel.NoBreaks(lines) then
        SplitJoin(lines, '\n');
        Join(lines, "\n")
      else
        Join(lines, "\n")
    }

    method Append(s: string)
      requires Valid()
      modifies this
      ensures Valid() && State() == LineModel.Append(old(State()), s)
    {
      lines := lines + [(if lineStart then LineModel.Indent(deep) else "") + s];
    }

    method Line(s: string)
      requires Valid()
      modifies this
      ensures Valid() && State() == LineModel.Line(old(State()), s)
    {
      if s != "" {
        if needEmptyLine {
          lines := lines + [""];
        }
        Append(s);
      }
      needEmptyLine := false;
      lineStart := true;
    }

    method StartBlock(s: string)
      requires Valid()
      modifies this
      ensures Valid() && State() == LineModel.StartBlock(old(State()), s)
    {
      if s != "" {
        if needEmptyLine {
          lines := lines + [""];
        }
        Append(s);
      }
      needEmptyLine := false;
      lineStart := true;
      deep := deep + 1;
    }

    method EndBlock(s: string)
      requires Valid()
      modifies this
      ensures Valid() && State() == LineModel.EndBlock(old(State()), s)
    {
      deep := deep - 1;
      if s != "" {
        Append(s);
      }
      lineStart := true;
    }

    method EmptyLineIfNeeded()
      requires Valid()
      modifies this
      ensures Valid() && State() == LineModel.EmptyLineIfNeeded(old(State()))
    {
      if needEmptyLine {
        lines := lines + [""];
        lineStart := true;
        needEmptyLine := false;
      }
    }

    /** `importClass(clsName)`: registers the class under its short name unless that name is taken. */
    method ImportClass(clsName: string) returns (name: string)
      requires Valid()
      modifies this
      ensures Valid() && State() == LineModel.ImportClass(old(State()), clsName)
      ensures name == LineModel.ImportedName(old(imports), clsName)
    {
      var fullClassName := clsName;
      var dotIdx := LastIndexOf(fullClassName, '.');
      var shortName := if dotIdx > 0 then fullClassName[dotIdx + 1..] else fullClassName;
      assert shortName == ShortName(fullClassName);
      ghost var registry := WithImport(imports, fullClassName);
      WithImportWellKeyed(imports, fullClassName);
      assert LineModel.Consistent(LineModel.ImportClass(State(), clsName));
      if shortName in imports && imports[shortName] != "" {
        assert registry == imports;
        if imports[shortName] != fullClassName {
          return fullClassName;
        }
      } else {
        imports := imports[shortName := fullClassName];
        assert imports == registry;
      }
      name := shortName;
    }

    /** `generateImports()`: the sorted `import` lines of the registry without `java.lang`. */
    method GenerateImports() returns (text: string)
      ensures LineModel.IsImportsText(imports, text)
    {
      var statements: seq<string> := [];
      var rest := imports;
      while rest != map[]
        invariant multiset(statements) + Statements(rest, true) == Statements(imports, true)
        decreases |rest|
      {
        var clsName :| clsName in rest;
        StatementsRemove(rest, clsName, true);
        RemoveOne(rest, clsName);
        if !IsJavaLang(rest[clsName]) {
          var line := Statement(rest[clsName]);
          assert multiset(statements + [line]) == multiset(statements) + multiset{line};
          statements := statements + [line];
        }
        rest := rest - {clsName};
      }
      var sorted := SortStrings(statements);
      text := Join(sorted, "\n");
      LineModel.SortedImportsText(imports, statements);
    }
  }
}
