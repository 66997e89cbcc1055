/**
 * The lookups of generator-common.js: JDBC dialect and data source classes
 * by database name, and the default data and meta caches of an IGFS.
 */
module GeneratorCommon {
  import opened Wrappers
  import opened Text

  /** `$generatorCommon.JDBC_DIALECTS`. */
  const JdbcDialects: map<string, string> := map[
    "Generic" := "org.apache.ignite.cache.store.jdbc.dialect.BasicJdbcDialect",
    "Oracle" := "org.apache.ignite.cache.store.jdbc.dialect.OracleDialect",
    "DB2" := "org.apache.ignite.cache.store.jdbc.dialect.DB2Dialect",
    "SQLServer" := "org.apache.ignite.cache.store.jdbc.dialect.SQLServerDialect",
    "MySQL" := "org.apache.ignite.cache.store.jdbc.dialect.MySQLDialect",
    "PostgreSQL" := "org.apache.ignite.cache.store.jdbc.dialect.BasicJdbcDialect",
    "H2" := "org.apache.ignite.cache.store.jdbc.dialect.H2Dialect"]

  /** `$generatorCommon.DATA_SOURCES`. */
  const DataSources: map<string, string> := map[
    "Generic" := "com.mchange.v2.c3p0.ComboPooledDataSource",
    "Oracle" := "oracle.jdbc.pool.OracleDataSource",
    "DB2" := "com.ibm.db2.jcc.DB2DataSource",
    "SQLServer" := "com.microsoft.sqlserver.jdbc.SQLServerDataSource",
    "MySQL" := "com.mysql.jdbc.jdbc2.optional.MysqlDataSource",
    "PostgreSQL" := "org.postgresql.ds.PGPoolingDataSource",
    "H2" := "org.h2.jdbcx.JdbcDataSource"]

  const UnknownPrefix := "Unknown database: "

  /** `jdbcDialectClassName(db)`: the dialect class, or a message naming the unknown database. */
  function JdbcDialectClassName(db: string): (r: string)
    ensures db in JdbcDialects ==> r == JdbcDialects[db]
    ensures db !in JdbcDialects ==> r == UnknownPrefix + db
  {
    if db in JdbcDialects && JdbcDialects[db] != "" then JdbcDialects[db] else UnknownPrefix + db
  }

  /** `dataSourceClassName(db)`: the data source class, or a message naming the unknown database. */
  function DataSourceClassName(db: string): (r: string)
    ensures db in DataSources ==> r == DataSources[db]
    ensures db !in DataSources ==> r == UnknownPrefix + db
  {
    if db in DataSources && DataSources[db] != "" then DataSources[db] else UnknownPrefix + db
  }

  /** The two tables know the same databases, so a dialect always comes with a data source. */
  lemma SameDatabases()
    ensures JdbcDialects.Keys == DataSources.Keys
  {
  }

  /** An IGFS as far as its caches depend on it; a size of None stands for an unset field. */
  datatype Igfs = Igfs(name: string, affinnityGroupSize: Option<int>)

  /** The fields of a cache object; None for a field the object does not set. */
  datatype CacheConfig = CacheConfig(
    name: string,
    cacheMode: string,
    atomicityMode: string,
    writeSynchronizationMode: string,
    backups: Option<int>,
    igfsAffinnityGroupSize: Option<int>)

  /** `igfs.affinnityGroupSize || 512`: an unset or zero size falls back to 512. */
  function GroupSize(size: Option<int>): (r: int)
    ensures size.None? || size == Some(0) ==> r == 512
    ensures size.Some? && size.value != 0 ==> r == size.value
    ensures r != 0
  {
    match size
    case Some(n) => if n != 0 then n else 512
    case None => 512
  }

  /** `igfsDataCache(igfs)`: a partitioned, transactional, fully synchronous cache without backups. */
  function IgfsDataCache(igfs: Igfs): (r: CacheConfig)
    ensures r.name == igfs.name + "-data"
    ensures r.cacheMode == "PARTITIONED" && r.atomicityMode == "TRANSACTIONAL" && r.writeSynchronizationMode == "FULL_SYNC"
    ensures r.backups == Some(0) && r.igfsAffinnityGroupSize == Some(GroupSize(igfs.affinnityGroupSize))
  {
    CacheConfig(igfs.name + "-data", "PARTITIONED", "TRANSACTIONAL", "FULL_SYNC", Some(0),
                Some(GroupSize(igfs.affinnityGroupSize)))
  }

  /** `igfsMetaCache(igfs)`: a replicated, transactional, fully synchronous cache. */
  function IgfsMetaCache(igfs: Igfs): (r: CacheConfig)
    ensures r.name == igfs.name + "-meta"
    ensures r.cacheMode == "REPLICATED" && r.atomicityMode == "TRANSACTIONAL" && r.writeSynchronizationMode == "FULL_SYNC"
    ensures r.backups.None? && r.igfsAffinnityGroupSize.None?
  {
    CacheConfig(igfs.name + "-meta", "REPLICATED", "TRANSACTIONAL", "FULL_SYNC", None, None)
  }

  /**
   * The cache names never clash: no data cache is named like any meta
   * cache, and different IGFS names give different names of each kind.
   */
  lemma IgfsCacheNamesDistinct(a: Igfs, b: Igfs)
    ensures IgfsDataCache(a).name != IgfsMetaCache(b).name
    ensures a.name != b.name ==> IgfsDataCache(a).name != IgfsDataCache(b).name
    ensures a.name != b.name ==> IgfsMetaCache(a).name != IgfsMetaCache(b).name
  {
    var d := IgfsDataCache(a).name;
    var m := IgfsMetaCache(b).name;
    if |d| == |m| {
      assert d[|d| - 4] == 'd' && m[|m| - 4] == 'm';
    }
    if IgfsDataCache(a).name == IgfsDataCache(b).name {
      SuffixCancels(a.name, b.name, "-data");
    }
    if IgfsMetaCache(a).name == IgfsMetaCache(b).name {
      SuffixCancels(a.name, b.name, "-meta");
    }
  }

  lemma SuffixCancels(x: string, y: string, suffix: string)
    requires x + suffix == y + suffix
    ensures x == y
  {
    assert x == (x + suffix)[..|x|];
    assert y == (y + suffix)[..|y|];
  }
}
