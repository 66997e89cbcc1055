/**
 * The Hadoop user name mappers: `BasicUserNameMapper`, a dictionary with a
 * default, and `ConstantUserNameMapper`, one name for everybody. A Java
 * `String` that may be null is an `Option<string>`.
 */
module UserNameMappers {
  import opened Wrappers

  type JavaString = Option<string>

  /** A `Map<String, String>` field that may be null. */
  type JavaMappings = Option<map<JavaString, JavaString>>

  /** The message of the `IgniteException` `start()` throws. */
  const NullMappingsMessage := "Mappings cannot be null."

  class BasicUserNameMapper {
    var mappings: JavaMappings
    var dfltUsrName: JavaString

    /** A new mapper has neither mappings nor a default. */
    constructor ()
      ensures mappings.None? && dfltUsrName.None?
    {
      mappings := None;
      dfltUsrName := None;
    }

    /**
     * `map(name)`: the mapped name when the dictionary holds a non-null one
     * for `name`, the default (possibly null) otherwise. Callers must have
     * set the mappings.
     */
    function Map(name: JavaString): (r: JavaString)
      reads this
      requires mappings.Some?
      ensures name in mappings.value && mappings.value[name].Some? ==> r == mappings.value[name]
      ensures !(name in mappings.value && mappings.value[name].Some?) ==> r == dfltUsrName
    {
      var res := if name in mappings.value then mappings.value[name] else None;
      if res.Some? then res else dfltUsrName
    }

    /** `start()`: fails exactly when no mappings are set, whatever the default. */
    function Start(): (r: Outcome<string>)
      reads this
      ensures r.Fail? <==> mappings.None?
      ensures r.Fail? ==> r.error == NullMappingsMessage
    {
      if mappings.None? then Fail(NullMappingsMessage) else Pass
    }

    /** `stop()` does nothing. */
    method Stop()
      ensures unchanged(this)
    {
    }

    function GetMappings(): JavaMappings
      reads this
    {
      mappings
    }

    method SetMappings(m: JavaMappings)
      modifies this
      ensures GetMappings() == m && dfltUsrName == old(dfltUsrName)
    {
      mappings := m;
    }

    function GetDefaultUserName(): JavaString
      reads this
    {
      dfltUsrName
    }

    method SetDefaultUserName(name: JavaString)
      modifies this
      ensures GetDefaultUserName() == name && mappings == old(mappings)
    {
      dfltUsrName := name;
    }
  }

  /** With no entries every name, null and "" included, maps to the default. */
  lemma EmptyMappingsConstant(m: BasicUserNameMapper, a: JavaString, b: JavaString)
    requires m.mappings == Some(map[])
    ensures m.Map(a) == m.Map(b) == m.dfltUsrName
  {
  }

  /** An entry whose value is null does not hide the default. */
  lemma NullEntryFallsBack(m: BasicUserNameMapper, name: JavaString)
    requires m.mappings.Some? && name in m.mappings.value && m.mappings.value[name].None?
    ensures m.Map(name) == m.dfltUsrName
  {
  }

  /** `testMappings`: "1" maps to "101"; null, "" and "2" get the default, null or "A". */
  lemma MappingsCase(m: BasicUserNameMapper)
    requires m.mappings == Some(map[Some("1") := Some("101")])
    ensures m.Start() == Pass
    ensures m.Map(Some("1")) == Some("101")
    ensures m.Map(None) == m.dfltUsrName && m.Map(Some("")) == m.dfltUsrName && m.Map(Some("2")) == m.dfltUsrName
  {
    assert Some("") != Some("1") && Some("2") != Some("1");
  }

  /** `testNullMappings`: without mappings, `start()` fails with a default of null or "A" alike. */
  lemma NullMappingsCase(m: BasicUserNameMapper)
    requires m.mappings.None?
    ensures m.Start() == Fail(NullMappingsMessage)
  {
  }

  class ConstantUserNameMapper {
    var usrName: JavaString

    constructor ()
      ensures usrName.None?
    {
      usrName := None;
    }

    /** `map(name)`: the configured name, for every input including null. */
    function Map(name: JavaString): (r: JavaString)
      reads this
      ensures r == GetUserName()
    {
      usrName
    }

    function GetUserName(): JavaString
      reads this
    {
      usrName
    }

    /** `setUserName(x)`: null allowed; afterwards every name maps to `x`. */
    method SetUserName(name: JavaString)
      modifies this
      ensures GetUserName() == name
      ensures forall y :: Map(y) == name
    {
      usrName := name;
    }
  }

  /** The constant mapper does not look at its input. */
  lemma ConstantMapIgnoresName(m: ConstantUserNameMapper, a: JavaString, b: JavaString)
    ensures m.Map(a) == m.Map(b)
  {
  }
}
