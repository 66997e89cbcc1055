/**
 * `hasProperty` and `generateProperties` of common.js: the scan of a
 * descriptor's properties, and the properties file with connection stubs
 * for every data source the caches' store factories use.
 */
module LegacyGenerator {
  import opened Wrappers
  import opened Js
  import Text
  import TokenModel
  import TokenBuilder

  /**
   * `hasProperty(obj, props)`: whether `obj` has a truthy value under one
   * of the property names of `props`. Objects are maps from property name
   * to value; a missing name reads as undefined.
   */
  method HasProperty(obj: map<string, JsValue>, props: map<string, JsValue>) returns (r: bool)
    ensures r <==> exists p :: p in props && p in obj && Truthy(obj[p])
  {
    var rest := props.Keys;
    while rest != {}
      invariant rest <= props.Keys
      invariant forall p :: p in props && p !in rest && p in obj ==> !Truthy(obj[p])
      decreases |rest|
    {
      var propName :| propName in rest;
      if propName in obj && Truthy(obj[propName]) {
        return true;
      }
      rest := rest - {propName};
    }
    return false;
  }

  // ---------------------------------------------------------------------
  // generateProperties

  /** The store factory a cache selects: its `dialect` and `dataSourceBean` (None is undefined). */
  datatype StoreFactory = StoreFactory(dialect: JsValue, dataSourceBean: Option<string>)

  /** `cache.cacheStoreFactory`: the selected `kind` ("" when unset) and the factories by kind. */
  datatype CacheStoreFactory = CacheStoreFactory(kind: string, factories: map<string, StoreFactory>)

  datatype Cache = Cache(cacheStoreFactory: Option<CacheStoreFactory>)

  /**
   * The `TypeError` the scan raises when the selected kind has no factory
   * object (`storeFactory.dialect` on undefined).
   */
  datatype PropertiesError = MissingStoreFactory(kind: string)

  /** What one cache contributes: nothing, a data source bean, or the error. */
  datatype Probe = Skip | Bean(id: Option<string>) | Broken(kind: string)

  function ProbeCache(c: Cache): Probe
  {
    match c.cacheStoreFactory
    case None => Skip
    case Some(f) =>
      if f.kind == "" then Skip
      else if f.kind !in f.factories then Broken(f.kind)
      else if Truthy(f.factories[f.kind].dialect) then Bean(f.factories[f.kind].dataSourceBean)
      else Skip
  }

  /** The beans of the caches in order, duplicates included, or the error of the first broken cache. */
  function BeansOf(caches: seq<Cache>): (r: Result<seq<Option<string>>, PropertiesError>)
    ensures r.Failure? <==> exists i :: 0 <= i < |caches| && ProbeCache(caches[i]).Broken?
    ensures r.Success? ==> forall b :: b in r.value <==> exists i :: 0 <= i < |caches| && ProbeCache(caches[i]) == Bean(b)
    decreases |caches|
  {
    if |caches| == 0 then Success([])
    else
      var front := caches[..|caches| - 1];
      var last := caches[|caches| - 1];
      assert forall i :: 0 <= i < |front| ==> front[i] == caches[i];
      match BeansOf(front)
      case Failure(e) => Failure(e)
      case Success(bs) =>
        match ProbeCache(last)
        case Skip => Success(bs)
        case Bean(id) => Success(bs + [id])
        case Broken(kind) => Failure(MissingStoreFactory(kind))
  }

  /** `_.contains` then `push`: the distinct beans in the order they first occur. */
  function Dedup(xs: seq<Option<string>>): (r: seq<Option<string>>)
    ensures forall x :: x in r <==> x in xs
    ensures forall i, j :: 0 <= i < j < |r| ==> r[i] != r[j]
    decreases |xs|
  {
    if |xs| == 0 then []
    else
      var d := Dedup(xs[..|xs| - 1]);
      assert forall x :: x in xs <==> x in xs[..|xs| - 1] || x == xs[|xs| - 1];
      if xs[|xs| - 1] in d then d else d + [xs[|xs| - 1]]
  }

  /** A bean id as `beanId + '...'` writes it. */
  function BeanText(id: Option<string>): string
  {
    match id
    case None => "undefined"
    case Some(s) => s
  }

  /** The three property lines of a data source, each a token and a "\n", then the empty line. */
  function GroupTokens(id: Option<string>): seq<string>
  {
    [PropertyLine(id, UrlStub), "\n", PropertyLine(id, UserStub), "\n", PropertyLine(id, PasswordStub), "\n", "\n"]
  }

  const UrlStub := "url=YOUR_JDBC_URL"
  const UserStub := "username=YOUR_USER_NAME"
  const PasswordStub := "password=YOUR_PASSWORD"

  /** `beanId + '.jdbc.' + stub`: never empty, so `line` always writes it, and it starts with the bean id. */
  function PropertyLine(id: Option<string>, stub: string): (r: string)
    ensures r != "" && |BeanText(id)| < |r| && r[..|BeanText(id)|] == BeanText(id)
  {
    BeanText(id) + ".jdbc." + stub
  }

  function GroupsTokens(ids: seq<Option<string>>): seq<string>
    decreases |ids|
  {
    if |ids| == 0 then [] else GroupsTokens(ids[..|ids| - 1]) + GroupTokens(ids[|ids| - 1])
  }

  /** The head of the file; `comment` stands for `mainComment()`, which reads the clock. */
  function Header(comment: string): string
  {
    "# " + comment + "\n\n"
  }

  /**
   * `generateProperties(cluster)` with the tokens joined by "": undefined
   * (None) when no cache selects a factory with a dialect, else the header
   * and one group per distinct bean.
   */
  function Properties(comment: string, caches: seq<Cache>): Result<Option<string>, PropertiesError>
  {
    match BeansOf(caches)
    case Failure(e) => Failure(e)
    case Success(bs) =>
      var ids := Dedup(bs);
      if |ids| == 0 then Success(None) else Success(Some(Header(comment) + TokenModel.Concat(GroupsTokens(ids))))
  }

  /** `generateProperties` as written: `res.join()` puts ',' between the tokens. */
  function PropertiesAsWritten(comment: string, caches: seq<Cache>): Result<Option<string>, PropertiesError>
  {
    match BeansOf(caches)
    case Failure(e) => Failure(e)
    case Success(bs) =>
      var ids := Dedup(bs);
      if |ids| == 0 then Success(None) else Success(Some(Header(comment) + Text.Join(GroupsTokens(ids), ",")))
  }

  /** The text of one group: three `bean.jdbc.*` lines and an empty line. */
  lemma GroupText(id: Option<string>)
    ensures TokenModel.Concat(GroupTokens(id))
         == PropertyLine(id, UrlStub) + "\n" + PropertyLine(id, UserStub) + "\n"
          + PropertyLine(id, PasswordStub) + "\n" + "\n"
  {
    LinesText(PropertyLine(id, UrlStub), PropertyLine(id, UserStub), PropertyLine(id, PasswordStub), "\n");
  }

  lemma LinesText(u: string, n: string, p: string, nl: string)
    ensures TokenModel.Concat([u, nl, n, nl, p, nl, nl]) == u + nl + n + nl + p + nl + nl
  {
    assert [u, nl, n, nl, p, nl, nl] == [u, nl] + [n, nl] + [p, nl] + [nl];
    TokenModel.ConcatAppend([u, nl] + [n, nl] + [p, nl], [nl]);
    TokenModel.ConcatAppend([u, nl] + [n, nl], [p, nl]);
    TokenModel.ConcatAppend([u, nl], [n, nl]);
    Concat2(u, nl);
    Concat2(n, nl);
    Concat2(p, nl);
    assert TokenModel.Concat([nl]) == nl + TokenModel.Concat([]);
  }

  lemma Concat2(x: string, y: string)
    ensures TokenModel.Concat([x, y]) == x + y
  {
    assert [x, y][1..] == [y];
    assert TokenModel.Concat([y]) == y + TokenModel.Concat([]);
    assert y + "" == y;
  }

  /**
   * No file (undefined) exactly when no cache selects a store factory with
   * a dialect and none is broken.
   */
  lemma PropertiesNone(comment: string, caches: seq<Cache>)
    ensures Properties(comment, caches) == Success(None)
        <==> forall i :: 0 <= i < |caches| ==> ProbeCache(caches[i]).Skip?
  {
    var r := BeansOf(caches);
    if r.Success? && (exists i :: 0 <= i < |caches| && !ProbeCache(caches[i]).Skip?) {
      var i :| 0 <= i < |caches| && !ProbeCache(caches[i]).Skip?;
      assert ProbeCache(caches[i]).Bean?;
      assert ProbeCache(caches[i]).id in r.value;
      assert ProbeCache(caches[i]).id in Dedup(r.value);
    }
    if r.Success? && |r.value| > 0 {
      assert r.value[0] in r.value;
    }
  }

  /** Failure exactly when some cache selects a kind it has no factory for. */
  lemma PropertiesFails(comment: string, caches: seq<Cache>)
    ensures Properties(comment, caches).Failure? <==> exists i :: 0 <= i < |caches| && ProbeCache(caches[i]).Broken?
  {
  }

  /** One cache whose POJO store factory has a MySQL dialect and the bean `ds`. */
  const MySqlCaches := [Cache(Some(CacheStoreFactory("CacheJdbcPojoStoreFactory",
    map["CacheJdbcPojoStoreFactory" := StoreFactory(Str("MySQL"), Some("ds"))])))]

  lemma MySqlTokens()
    ensures BeansOf(MySqlCaches) == Success([Some("ds")])
    ensures Dedup([Some("ds")]) == [Some("ds")]
    ensures GroupsTokens([Some("ds")]) == GroupTokens(Some("ds"))
  {
    ScanStep(MySqlCaches, 0);
    assert MySqlCaches[..1] == MySqlCaches && MySqlCaches[..0] == [];
    assert ProbeCache(MySqlCaches[0]) == Bean(Some("ds"));
    DedupStep([], Some("ds"));
    GroupsTokensStep([], Some("ds"));
    assert [] + [Some("ds")] == [Some("ds")];
  }

  /**
   * The first property line ends at position 30 of the file: "\n" there
   * with the tokens joined by "", ',' as written.
   */
  lemma PropertiesAsWrittenExample()
    ensures var w, p := PropertiesAsWritten("c", MySqlCaches), Properties("c", MySqlCaches);
      && w.Success? && w.value.Some? && p.Success? && p.value.Some?
      && |w.value.value| > 30 && |p.value.value| > 30
      && w.value.value[30] == ',' && p.value.value[30] == '\n' && w != p
  {
    MySqlTokens();
    var g := GroupTokens(Some("ds"));
    assert |Header("c")| == 5 && |g[0]| == 25 && g[1] == "\n";
    JoinAt(Header("c"), g, ',');
    ConcatAt(Header("c"), g);
  }

  /** Joined with `sep`, the first token is followed by `sep`. */
  lemma JoinAt(h: string, g: seq<string>, sep: char)
    requires |g| >= 2
    ensures (h + Text.Join(g, [sep]))[|h| + |g[0]|] == sep
  {
    assert Text.Join(g, [sep]) == g[0] + [sep] + Text.Join(g[1..], [sep]);
  }

  /** Concatenated, the first token is followed by the second. */
  lemma ConcatAt(h: string, g: seq<string>)
    requires |g| >= 2 && |g[1]| > 0
    ensures TokenModel.Concat(g) == g[0] + (g[1] + TokenModel.Concat(g[2..]))
    ensures (h + TokenModel.Concat(g))[|h| + |g[0]|] == g[1][0]
  {
    assert g[1..][1..] == g[2..];
    assert TokenModel.Concat(g) == g[0] + (g[1] + TokenModel.Concat(g[2..]));
  }

  /**
   * The properties file, built as the source builds it: a scan of the
   * caches that keeps the beans already written and a token builder.
   */
  method GenerateProperties(comment: string, caches: seq<Cache>) returns (r: Result<Option<string>, PropertiesError>)
    ensures r == Properties(comment, caches)
  {
    var res := new TokenBuilder.Builder();
    var datasources: seq<Option<string>> := [];
    var i := 0;
    while i < |caches|
      invariant 0 <= i <= |caches|
      invariant BeansOf(caches[..i]).Success?
      invariant datasources == Dedup(BeansOf(caches[..i]).value)
      invariant res.State() == TokenModel.TokenState(GroupsTokens(datasources), 0, true, false, map[])
    {
      ScanStep(caches, i);
      var cache := caches[i];
      match cache.cacheStoreFactory {
        case Some(f) =>
          if f.kind != "" {
            if f.kind !in f.factories {
              BrokenPrefix(caches, i + 1);
              return Failure(MissingStoreFactory(f.kind));
            }
            var storeFactory := f.factories[f.kind];
            if Truthy(storeFactory.dialect) {
              var beanId := storeFactory.dataSourceBean;
              DedupStep(BeansOf(caches[..i]).value, beanId);
              if beanId !in datasources {
                GroupsTokensStep(datasources, beanId);
                datasources := datasources + [beanId];
                WriteGroup(res, beanId);
              }
            }
          }
        case None =>
      }
      i := i + 1;
    }
    assert caches[..|caches|] == caches;
    if |datasources| > 0 {
      return Success(Some(Header(comment) + TokenModel.Concat(res.tokens)));
    }
    return Success(None);
  }

  /** The four `res.line(...)` calls for one data source, at the start of a line at depth 0. */
  method WriteGroup(res: TokenBuilder.Builder, beanId: Option<string>)
    requires res.lineStart && res.deep == 0
    modifies res
    ensures res.State() == old(res.State()).(tokens := old(res.tokens) + GroupTokens(beanId))
  {
    ghost var start := res.State();
    var url, user, password := PropertyLine(beanId, UrlStub), PropertyLine(beanId, UserStub), PropertyLine(beanId, PasswordStub);
    TokenModel.LineAtTop(res.State(), url);
    res.Line(url);
    assert res.State() == start.(tokens := start.tokens + [url, "\n"]);
    TokenModel.LineAtTop(res.State(), user);
    res.Line(user);
    assert res.State() == start.(tokens := start.tokens + [url, "\n"] + [user, "\n"]);
    TokenModel.LineAtTop(res.State(), password);
    res.Line(password);
    assert res.State() == start.(tokens := start.tokens + [url, "\n"] + [user, "\n"] + [password, "\n"]);
    TokenModel.LineAtTop(res.State(), "");
    res.Line("");
    ghost var lines := start.tokens + [url, "\n"] + [user, "\n"] + [password, "\n"] + ["\n"];
    assert res.State() == start.(tokens := lines);
    FourLines(start.tokens, url, user, password);
    assert lines == start.tokens + GroupTokens(beanId);
  }

  lemma FourLines(t: seq<string>, a: string, b: string, c: string)
    ensures t + [a, "\n"] + [b, "\n"] + [c, "\n"] + ["\n"] == t + [a, "\n", b, "\n", c, "\n", "\n"]
  {
  }

  lemma ScanStep(caches: seq<Cache>, i: nat)
    requires i < |caches|
    ensures BeansOf(caches[..i + 1]) == match BeansOf(caches[..i])
      case Failure(e) => Failure(e)
      case Success(bs) =>
        match ProbeCache(caches[i])
        case Skip => Success(bs)
        case Bean(id) => Success(bs + [id])
        case Broken(kind) => Failure(MissingStoreFactory(kind))
  {
    assert caches[..i + 1][..i] == caches[..i];
  }

  lemma DedupStep(xs: seq<Option<string>>, x: Option<string>)
    ensures Dedup(xs + [x]) == if x in Dedup(xs) then Dedup(xs) else Dedup(xs) + [x]
  {
    assert (xs + [x])[..|xs|] == xs;
  }

  lemma GroupsTokensStep(ids: seq<Option<string>>, x: Option<string>)
    ensures GroupsTokens(ids + [x]) == GroupsTokens(ids) + GroupTokens(x)
  {
    assert (ids + [x])[..|ids|] == ids;
  }

  /** A broken cache in a prefix makes the whole scan fail with its error. */
  lemma {:induction false} BrokenPrefix(caches: seq<Cache>, n: nat)
    requires 0 < n <= |caches| && BeansOf(caches[..n - 1]).Success? && ProbeCache(caches[n - 1]).Broken?
    ensures BeansOf(caches) == Failure(MissingStoreFactory(ProbeCache(caches[n - 1]).kind))
    decreases |caches|
  {
    if n < |caches| {
      assert caches[..|caches| - 1][..n - 1] == caches[..n - 1];
      BrokenPrefix(caches[..|caches| - 1], n);
    } else {
      assert caches[..n - 1] == caches[..|caches| - 1];
    }
  }
}
