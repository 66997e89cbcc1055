/**
 * Short class names and the `import` lines of the generated Java code: what
 * the two builders' `importClass` and `generateImports` have in common.
 */
module ClassNames {
  import opened Text

  /**
   * The short name `importClass` registers a class under: the text after
   * the last '.', or the whole name when there is no '.' after the first
   * character.
   */
  function ShortName(full: string): (r: string)
    ensures |r| <= |full| && full[|full| - |r|..] == r
    ensures (exists k :: 0 < k < |full| && full[k] == '.') ==> '.' !in r
    ensures (forall k :: 0 < k < |full| ==> full[k] != '.') ==> r == full
  {
    var dotIdx := LastIndexOf(full, '.');
    if dotIdx > 0 then full[dotIdx + 1..] else full
  }

  /** `this.imports[shortName]` is truthy: a key whose name is "" counts as free. */
  predicate Registered(imports: map<string, string>, short: string)
  {
    short in imports && imports[short] != ""
  }

  /** Every entry of the registry sits under the short name of its own class. */
  ghost predicate WellKeyed(imports: map<string, string>)
  {
    forall k :: k in imports ==> ShortName(imports[k]) == k
  }

  /** The registry after `importClass(full)`: the class is added unless its short name is taken. */
  function WithImport(imports: map<string, string>, full: string): (r: map<string, string>)
    ensures ShortName(full) in r
    ensures Registered(imports, ShortName(full)) ==> r == imports
    ensures !Registered(imports, ShortName(full)) ==> r == imports[ShortName(full) := full]
  {
    var short := ShortName(full);
    if Registered(imports, short) then imports else imports[short := full]
  }

  /** Registering keeps every entry under its class's short name, so no short name is bound twice. */
  lemma WithImportWellKeyed(imports: map<string, string>, full: string)
    requires WellKeyed(imports)
    ensures WellKeyed(WithImport(imports, full))
  {
  }

  /** Registering a class a second time changes nothing. */
  lemma WithImportIdempotent(imports: map<string, string>, full: string)
    ensures WithImport(WithImport(imports, full), full) == WithImport(imports, full)
  {
  }

  /** The line `generateImports` writes for a class. */
  function Statement(full: string): string
  {
    "import " + full + ";"
  }

  /** Classes of `java.lang`, which Java code uses without an import. */
  predicate IsJavaLang(full: string)
  {
    StartsWith(full, "java.lang.")
  }

  /** The lines one registry entry contributes; `skipJavaLang` drops `java.lang` classes. */
  function Contribution(full: string, skipJavaLang: bool): multiset<string>
  {
    if skipJavaLang && IsJavaLang(full) then multiset{} else multiset{Statement(full)}
  }

  ghost function PickKey(m: map<string, string>): (k: string)
    requires m != map[]
    ensures k in m
  {
    assert exists k :: k in m by {
      var k :| k in m.Keys;
    }
    var k :| k in m; k
  }

  lemma RemoveOne(m: map<string, string>, k: string)
    requires k in m
    ensures |m - {k}| == |m| - 1
  {
    assert (m - {k}).Keys == m.Keys - {k};
  }

  /** The import lines of the whole registry, whatever order its keys come in. */
  ghost function Statements(m: map<string, string>, skipJavaLang: bool): multiset<string>
    decreases |m|
  {
    if m == map[] then multiset{}
    else
      var k := PickKey(m);
      RemoveOne(m, k);
      Statements(m - {k}, skipJavaLang) + Contribution(m[k], skipJavaLang)
  }

  /** Any entry may be taken out first: the lines do not depend on the order of the keys. */
  lemma {:induction false} StatementsRemove(m: map<string, string>, k: string, skipJavaLang: bool)
    requires k in m
    ensures Statements(m, skipJavaLang) == Statements(m - {k}, skipJavaLang) + Contribution(m[k], skipJavaLang)
    decreases |m|
  {
    var p := PickKey(m);
    if p != k {
      var rest := m - {p} - {k};
      assert rest == m - {k} - {p};
      assert (m - {p})[k] == m[k] && (m - {k})[p] == m[p];
      RemoveOne(m, p);
      RemoveOne(m, k);
      assert Statements(m, skipJavaLang) == Statements(m - {p}, skipJavaLang) + Contribution(m[p], skipJavaLang);
      StatementsRemove(m - {p}, k, skipJavaLang);
      StatementsRemove(m - {k}, p, skipJavaLang);
    }
  }

  /** The lines of a registry with one entry. */
  lemma StatementsSingle(a: string, fa: string, skipJavaLang: bool)
    ensures Statements(map[a := fa], skipJavaLang) == Contribution(fa, skipJavaLang)
  {
    var m := map[a := fa];
    assert m - {a} == map[];
    StatementsRemove(m, a, skipJavaLang);
  }

  /** The lines of a registry with two entries. */
  lemma StatementsPair(a: string, fa: string, b: string, fb: string, skipJavaLang: bool)
    requires a != b
    ensures Statements(map[a := fa, b := fb], skipJavaLang) == Contribution(fa, skipJavaLang) + Contribution(fb, skipJavaLang)
  {
    var m := map[a := fa, b := fb];
    assert m - {b} == map[a := fa];
    StatementsRemove(m, b, skipJavaLang);
    StatementsSingle(a, fa, skipJavaLang);
  }

  /** Without the `java.lang` filter there is exactly one line per registry entry. */
  lemma {:induction false} StatementsCount(m: map<string, string>)
    ensures |Statements(m, false)| == |m|
    decreases |m|
  {
    if m != map[] {
      var k := PickKey(m);
      RemoveOne(m, k);
      StatementsCount(m - {k});
    }
  }

  /** Every registered class has its line, unless it is a `java.lang` class and those are skipped. */
  lemma {:induction false} StatementsCover(m: map<string, string>, k: string, skipJavaLang: bool)
    requires k in m && !(skipJavaLang && IsJavaLang(m[k]))
    ensures Statement(m[k]) in Statements(m, skipJavaLang)
  {
    StatementsRemove(m, k, skipJavaLang);
  }

  /** Every line names a registered class, and never a `java.lang` class when those are skipped. */
  lemma {:induction false} StatementsSound(m: map<string, string>, line: string, skipJavaLang: bool)
    requires line in Statements(m, skipJavaLang)
    ensures exists k :: k in m && line == Statement(m[k]) && !(skipJavaLang && IsJavaLang(m[k]))
    decreases |m|
  {
    var k := PickKey(m);
    RemoveOne(m, k);
    if line !in Contribution(m[k], skipJavaLang) {
      StatementsSound(m - {k}, line, skipJavaLang);
      var j :| j in m - {k} && line == Statement((m - {k})[j]) && !(skipJavaLang && IsJavaLang((m - {k})[j]));
      assert j in m && m[j] == (m - {k})[j];
    }
  }
}
