/**
 * `Factory`: loads the configuration of every operation named in the
 * manifest into a map from operation to its pool specification, once, when
 * the class is initialised. A specification holds exactly seven entries: four
 * integers parsed from the configuration, the core-timeout flag, and the two
 * '|'-separated lists that pair sub-operations with their handlers.
 *
 * The class path is a map from resource path to the properties file found
 * there; a path that is not in it is a missing resource.
 */
module Config {
  import opened Lang
  import Builder

  const MAXIMUM_POOL_SIZE: string := "maximumPoolSize"
  const CORE_POOL_SIZE: string := "corePoolSize"
  const WORK_QUEUE_SIZE: string := "workQueueSize"
  const KEEP_ALIVE_TIME: string := "keepAliveTime"
  const ALLOW_CORE_THREAD_TIMEOUT: string := "allowCoreThreadTimeout"
  const SERIES_CLASS_STATIC_METHOD_NAME: string := "seriesClassStaticMethodName"
  const SERIES_OPERATION: string := "seriesOperation"

  const SPEC_KEYS: set<string> := {
    MAXIMUM_POOL_SIZE, CORE_POOL_SIZE, WORK_QUEUE_SIZE, KEEP_ALIVE_TIME,
    ALLOW_CORE_THREAD_TIMEOUT, SERIES_CLASS_STATIC_METHOD_NAME, SERIES_OPERATION }

  const MISSING_ITEM: string := "缺少配置项!"

  /** A `java.util.Properties` file: keys to values. */
  type Properties = map<string, string>

  /** What the specification map holds: an `Integer`, a `Boolean` or a `List<String>`. */
  datatype SpecValue = IntValue(i: Int32) | BoolValue(b: bool) | ListValue(items: seq<string>)

  /**
   * The per-operation specification, one field per key of the source's
   * `Map<String, Object>`; `SpecMap` gives it back as that map.
   */
  datatype PoolSpec = PoolSpec(
    maximumPoolSize: Int32,
    corePoolSize: Int32,
    workQueueSize: Int32,
    keepAliveTime: Int32,
    allowCoreThreadTimeout: bool,
    seriesClassMethod: seq<string>,
    seriesOperation: seq<string>)

  /** The seven keys are seven different strings. */
  lemma KeysDistinct()
    ensures |SPEC_KEYS| == 7
  {
    assert MAXIMUM_POOL_SIZE[0] == 'm' && SERIES_OPERATION[0] == 's';
    assert WORK_QUEUE_SIZE[0] == 'w' && KEEP_ALIVE_TIME[0] == 'k';
    assert |MAXIMUM_POOL_SIZE| == 15 && |CORE_POOL_SIZE| == 12 && |WORK_QUEUE_SIZE| == 13;
    assert |ALLOW_CORE_THREAD_TIMEOUT| == 22 && |SERIES_CLASS_STATIC_METHOD_NAME| == 27;
  }

  /** The specification as the source stores it: a map with exactly the seven keys. */
  function SpecMap(spec: PoolSpec): (m: map<string, SpecValue>)
    ensures m.Keys == SPEC_KEYS
    ensures m[MAXIMUM_POOL_SIZE] == IntValue(spec.maximumPoolSize)
    ensures m[SERIES_OPERATION] == ListValue(spec.seriesOperation)
  {
    map[
      MAXIMUM_POOL_SIZE := IntValue(spec.maximumPoolSize),
      CORE_POOL_SIZE := IntValue(spec.corePoolSize),
      WORK_QUEUE_SIZE := IntValue(spec.workQueueSize),
      KEEP_ALIVE_TIME := IntValue(spec.keepAliveTime),
      ALLOW_CORE_THREAD_TIMEOUT := BoolValue(spec.allowCoreThreadTimeout),
      SERIES_CLASS_STATIC_METHOD_NAME := ListValue(spec.seriesClassMethod),
      SERIES_OPERATION := ListValue(spec.seriesOperation)]
  }

  /** `config.getProperty(key)`: the value, or null when the key is absent. */
  function GetProperty(config: Properties, key: string): Option<string>
  {
    if key in config then Some(config[key]) else None
  }

  /**
   * `checkEmpty(s)`: a null or empty value is a missing configuration item;
   * any other value is trimmed, so a value made only of blanks passes as "".
   */
  function CheckEmpty(s: Option<string>): (r: Result<string>)
    ensures r.Err? <==> s == None || s == Some("")
    ensures r.Err? ==> r.error == QuickQuarantineException(MISSING_ITEM)
    ensures r.Ok? ==> r.value == Trim(s.value)
    ensures r.Ok? ==> (r.value == "" <==> forall k | 0 <= k < |s.value| :: IsBlank(s.value[k]))
  {
    if s == None || s == Some("") then Err(QuickQuarantineException(MISSING_ITEM)) else Ok(Trim(s.value))
  }

  /** A field present in `config` in the sense of `checkEmpty`: there and not empty. */
  predicate Present(config: Properties, key: string)
  {
    key in config && config[key] != ""
  }

  /** The value of an integer field: `Integer.parseInt(checkEmpty(…))`. */
  function IntField(config: Properties, key: string): (r: Result<Int32>)
    ensures r.Ok? <==> Present(config, key) && ParseInt(Trim(config[key])).Ok?
    ensures r.Ok? ==> r == ParseInt(Trim(config[key]))
    ensures r.Err? ==> r.error in {QuickQuarantineException(MISSING_ITEM), NumberFormatException}
  {
    match CheckEmpty(GetProperty(config, key))
    case Err(e) => Err(e)
    case Ok(v) => ParseInt(v)
  }

  /** The value of a list field: `checkEmpty(…).split("\\|")`. */
  function ListField(config: Properties, key: string): (r: Result<seq<string>>)
    ensures r.Ok? <==> Present(config, key)
    ensures r.Ok? ==> r.value == SplitBar(Trim(config[key]))
    ensures r.Err? ==> r.error == QuickQuarantineException(MISSING_ITEM)
  {
    match CheckEmpty(GetProperty(config, key))
    case Err(e) => Err(e)
    case Ok(v) => Ok(SplitBar(v))
  }

  /** The four integer fields and the three others are all present, and the integers parse. */
  predicate Loadable(config: Properties)
  {
    && IntField(config, MAXIMUM_POOL_SIZE).Ok?
    && IntField(config, CORE_POOL_SIZE).Ok?
    && IntField(config, WORK_QUEUE_SIZE).Ok?
    && IntField(config, KEEP_ALIVE_TIME).Ok?
    && Present(config, ALLOW_CORE_THREAD_TIMEOUT)
    && Present(config, SERIES_CLASS_STATIC_METHOD_NAME)
    && Present(config, SERIES_OPERATION)
  }

  /**
   * The specification one operation's configuration file yields (the loop
   * body of `getResourceFromProperties`). The fields are read in the order
   * of the source, so the first missing or malformed one decides the error.
   */
  function BuildSpec(config: Properties): (r: Result<PoolSpec>)
    ensures r.Ok? <==> Loadable(config)
    ensures r.Err? ==> r.error in {QuickQuarantineException(MISSING_ITEM), NumberFormatException}
  {
    var maximumPoolSize := IntField(config, MAXIMUM_POOL_SIZE);
    if maximumPoolSize.Err? then Err(maximumPoolSize.error) else
    var corePoolSize := IntField(config, CORE_POOL_SIZE);
    if corePoolSize.Err? then Err(corePoolSize.error) else
    var workQueueSize := IntField(config, WORK_QUEUE_SIZE);
    if workQueueSize.Err? then Err(workQueueSize.error) else
    var keepAliveTime := IntField(config, KEEP_ALIVE_TIME);
    if keepAliveTime.Err? then Err(keepAliveTime.error) else
    var allow := CheckEmpty(GetProperty(config, ALLOW_CORE_THREAD_TIMEOUT));
    if allow.Err? then Err(allow.error) else
    var seriesClassMethod := ListField(config, SERIES_CLASS_STATIC_METHOD_NAME);
    if seriesClassMethod.Err? then Err(seriesClassMethod.error) else
    var seriesOperation := ListField(config, SERIES_OPERATION);
    if seriesOperation.Err? then Err(seriesOperation.error) else
    Ok(PoolSpec(
      maximumPoolSize.value, corePoolSize.value, workQueueSize.value, keepAliveTime.value,
      allow.value != "0", seriesClassMethod.value, seriesOperation.value))
  }

  /**
   * The fields of a loaded specification: the four integers are the parses
   * of the trimmed values, the flag is false exactly when its trimmed value
   * is "0", and the lists are the '|'-splits of the trimmed values.
   */
  lemma BuildSpecFields(config: Properties)
    requires Loadable(config)
    ensures var r := BuildSpec(config).value;
              && r.maximumPoolSize == ParseInt(Trim(config[MAXIMUM_POOL_SIZE])).value
              && r.corePoolSize == ParseInt(Trim(config[CORE_POOL_SIZE])).value
              && r.workQueueSize == ParseInt(Trim(config[WORK_QUEUE_SIZE])).value
              && r.keepAliveTime == ParseInt(Trim(config[KEEP_ALIVE_TIME])).value
              && (!r.allowCoreThreadTimeout <==> Trim(config[ALLOW_CORE_THREAD_TIMEOUT]) == "0")
              && r.seriesClassMethod == SplitBar(Trim(config[SERIES_CLASS_STATIC_METHOD_NAME]))
              && r.seriesOperation == SplitBar(Trim(config[SERIES_OPERATION]))
  {
  }

  /** Names that can be written in a '|'-separated list: not empty, no '|', no blank at either end. */
  predicate NameList(ps: seq<string>)
  {
    && |ps| >= 1
    && forall k | 0 <= k < |ps| :: ps[k] != "" && '|' !in ps[k] && !IsBlank(ps[k][0]) && !IsBlank(ps[k][|ps[k]| - 1])
  }

  /** A configuration file written from a specification, the flag as "1" or "0". */
  function RenderConfig(spec: PoolSpec): (config: Properties)
    ensures config.Keys == SPEC_KEYS
  {
    map[
      MAXIMUM_POOL_SIZE := IntToDecimal(spec.maximumPoolSize),
      CORE_POOL_SIZE := IntToDecimal(spec.corePoolSize),
      WORK_QUEUE_SIZE := IntToDecimal(spec.workQueueSize),
      KEEP_ALIVE_TIME := IntToDecimal(spec.keepAliveTime),
      ALLOW_CORE_THREAD_TIMEOUT := if spec.allowCoreThreadTimeout then "1" else "0",
      SERIES_CLASS_STATIC_METHOD_NAME := Join(spec.seriesClassMethod),
      SERIES_OPERATION := Join(spec.seriesOperation)]
  }

  /** A decimal number has no blank at either end. */
  lemma DecimalUnpadded(i: int)
    ensures Trim(IntToDecimal(i)) == IntToDecimal(i)
  {
    var s := IntToDecimal(i);
    if i < 0 {
      assert s[0] == '-';
      assert s[|s| - 1] == NatToDecimal(-i)[|NatToDecimal(-i)| - 1];
    }
    TrimOfUnpadded(s);
  }

  /** A joined list of names has no blank at either end, and splits back into the names. */
  lemma ListUnpadded(ps: seq<string>)
    requires NameList(ps)
    ensures Trim(Join(ps)) == Join(ps)
    ensures SplitBar(Join(ps)) == ps
  {
    JoinFirst(ps);
    JoinLast(ps);
    TrimOfUnpadded(Join(ps));
    SplitBarOfJoin(ps);
  }

  /**
   * Writing a specification into a configuration file and loading it gives
   * the specification back: every integer, the flag, and both lists.
   */
  lemma ConfigRoundTrip(spec: PoolSpec)
    requires NameList(spec.seriesClassMethod) && NameList(spec.seriesOperation)
    ensures BuildSpec(RenderConfig(spec)) == Ok(spec)
  {
    var config := RenderConfig(spec);
    RenderedFields(spec);
    IntFieldOfDecimal(config, MAXIMUM_POOL_SIZE, spec.maximumPoolSize);
    IntFieldOfDecimal(config, CORE_POOL_SIZE, spec.corePoolSize);
    IntFieldOfDecimal(config, WORK_QUEUE_SIZE, spec.workQueueSize);
    IntFieldOfDecimal(config, KEEP_ALIVE_TIME, spec.keepAliveTime);
    ListFieldOfJoin(config, SERIES_CLASS_STATIC_METHOD_NAME, spec.seriesClassMethod);
    ListFieldOfJoin(config, SERIES_OPERATION, spec.seriesOperation);
    FlagFieldOfDigit(config, spec.allowCoreThreadTimeout);
    BuildSpecOfFields(config, spec);
  }

  /** A flag written as "1" or "0" reads back as that flag. */
  lemma FlagFieldOfDigit(config: Properties, b: bool)
    requires ALLOW_CORE_THREAD_TIMEOUT in config && config[ALLOW_CORE_THREAD_TIMEOUT] == if b then "1" else "0"
    ensures CheckEmpty(GetProperty(config, ALLOW_CORE_THREAD_TIMEOUT)).Ok?
    ensures (CheckEmpty(GetProperty(config, ALLOW_CORE_THREAD_TIMEOUT)).value != "0") == b
  {
    TrimOfUnpadded("0");
    TrimOfUnpadded("1");
  }

  /** A configuration whose seven fields each read back as the field of `spec` loads as `spec`. */
  lemma BuildSpecOfFields(config: Properties, spec: PoolSpec)
    requires IntField(config, MAXIMUM_POOL_SIZE) == Ok(spec.maximumPoolSize)
    requires IntField(config, CORE_POOL_SIZE) == Ok(spec.corePoolSize)
    requires IntField(config, WORK_QUEUE_SIZE) == Ok(spec.workQueueSize)
    requires IntField(config, KEEP_ALIVE_TIME) == Ok(spec.keepAliveTime)
    requires CheckEmpty(GetProperty(config, ALLOW_CORE_THREAD_TIMEOUT)).Ok?
    requires (CheckEmpty(GetProperty(config, ALLOW_CORE_THREAD_TIMEOUT)).value != "0") == spec.allowCoreThreadTimeout
    requires ListField(config, SERIES_CLASS_STATIC_METHOD_NAME) == Ok(spec.seriesClassMethod)
    requires ListField(config, SERIES_OPERATION) == Ok(spec.seriesOperation)
    ensures BuildSpec(config) == Ok(spec)
  {
  }

  /** An integer field written in decimal reads back as that integer. */
  lemma IntFieldOfDecimal(config: Properties, key: string, n: Int32)
    requires key in config && config[key] == IntToDecimal(n)
    ensures IntField(config, key) == Ok(n)
  {
    DecimalUnpadded(n);
    ParseIntOfDecimal(n);
  }

  /** A list field written as a '|'-joined list of names reads back as that list. */
  lemma ListFieldOfJoin(config: Properties, key: string, ps: seq<string>)
    requires NameList(ps) && key in config && config[key] == Join(ps)
    ensures ListField(config, key) == Ok(ps)
  {
    ListUnpadded(ps);
    JoinFirst(ps);
  }

  /** Each key of a rendered configuration holds the text of its field. */
  lemma RenderedFields(spec: PoolSpec)
    ensures RenderConfig(spec)[MAXIMUM_POOL_SIZE] == IntToDecimal(spec.maximumPoolSize)
    ensures RenderConfig(spec)[CORE_POOL_SIZE] == IntToDecimal(spec.corePoolSize)
    ensures RenderConfig(spec)[WORK_QUEUE_SIZE] == IntToDecimal(spec.workQueueSize)
    ensures RenderConfig(spec)[KEEP_ALIVE_TIME] == IntToDecimal(spec.keepAliveTime)
    ensures RenderConfig(spec)[ALLOW_CORE_THREAD_TIMEOUT] == if spec.allowCoreThreadTimeout then "1" else "0"
    ensures RenderConfig(spec)[SERIES_CLASS_STATIC_METHOD_NAME] == Join(spec.seriesClassMethod)
    ensures RenderConfig(spec)[SERIES_OPERATION] == Join(spec.seriesOperation)
  {
    KeysDistinct();
  }

  /** Whatever the flag's text, it means false exactly when it trims to "0". */
  lemma AllowFlag(config: Properties, text: string)
    requires Loadable(config) && ALLOW_CORE_THREAD_TIMEOUT in config && config[ALLOW_CORE_THREAD_TIMEOUT] == text
    ensures BuildSpec(config).value.allowCoreThreadTimeout <==> Trim(text) != "0"
  {
  }

  /** `String.format("%s%s%s", dirName, SEPARATOR, fileName)`: where an operation's configuration file is looked up. */
  function ConfigPath(dirName: Option<string>, fileName: string): string
  {
    OptionText(dirName) + Builder.SEPARATOR + fileName
  }

  /** `getProperties(path)` failing: the resource is not on the class path. */
  function ResourceNotFound(path: string): Exception
  {
    QuickQuarantineException("相对路径:[ " + path + " ],找不到资源!")
  }

  /** What loading the manifest entry `operation = fileName` comes to. */
  function EntrySpec(resources: map<string, Properties>, dirName: Option<string>, fileName: string): (r: Result<PoolSpec>)
    ensures ConfigPath(dirName, fileName) !in resources ==> r == Err(ResourceNotFound(ConfigPath(dirName, fileName)))
    ensures ConfigPath(dirName, fileName) in resources ==> r == BuildSpec(resources[ConfigPath(dirName, fileName)])
  {
    var path := ConfigPath(dirName, fileName);
    if path !in resources then Err(ResourceNotFound(path)) else BuildSpec(resources[path])
  }

  /** Reading and building the configuration file of a manifest entry, as a function of the file name. */
  function Loader(resources: map<string, Properties>, dirName: Option<string>): string -> Result<PoolSpec>
  {
    fileName => EntrySpec(resources, dirName, fileName)
  }

  /** Every entry of `manifest` loads. */
  predicate AllLoad(manifest: Properties, load: string -> Result<PoolSpec>)
  {
    forall op | op in manifest :: load(manifest[op]).Ok?
  }

  /** Loading succeeds: the manifest is there and every entry it names loads. */
  predicate LoadSucceeds(resources: map<string, Properties>, path: string, dirName: Option<string>)
  {
    path in resources && AllLoad(resources[path], Loader(resources, dirName))
  }

  /**
   * `after` is `before` with the specification of every manifest entry in
   * `ops` put in: the other entries of `before` are untouched.
   */
  predicate LoadedInto(
    after: map<string, PoolSpec>, before: map<string, PoolSpec>,
    manifest: Properties, load: string -> Result<PoolSpec>, ops: set<string>)
  {
    && after.Keys == before.Keys + ops
    && (forall op | op in ops :: op in manifest && Ok(after[op]) == load(manifest[op]))
    && (forall op | op in before && op !in ops :: after[op] == before[op])
  }

  /** Putting in one more entry that loads keeps `LoadedInto`. */
  lemma LoadedIntoStep(
    m: map<string, PoolSpec>, before: map<string, PoolSpec>,
    manifest: Properties, load: string -> Result<PoolSpec>, ops: set<string>, op: string, spec: PoolSpec)
    requires LoadedInto(m, before, manifest, load, ops)
    requires op in manifest && load(manifest[op]) == Ok(spec)
    ensures LoadedInto(m[op := spec], before, manifest, load, ops + {op})
  {
  }

  class Factory {
    var threadPoolOperationMap: map<string, PoolSpec>
    var isBuilder: bool

    /** The static fields before the static block runs. */
    constructor ()
      ensures threadPoolOperationMap == map[] && !isBuilder
    {
      threadPoolOperationMap := map[];
      isBuilder := false;
    }

    /**
     * The static block: loads the configuration from the manifest at the
     * builder's path and sets `isBuilder` only if the whole load succeeded.
     * A failed load keeps the entries `loaded` before the failing one, and
     * the map is read later without looking at `isBuilder`.
     */
    method Load(builder: Builder.FactoryBuilder, resources: map<string, Properties>) returns (ghost loaded: set<string>)
      requires builder.Valid()
      modifies this
      ensures isBuilder <==> old(isBuilder) || LoadSucceeds(resources, builder.path, builder.dirName)
      ensures LoadSucceeds(resources, builder.path, builder.dirName) ==>
                var manifest := resources[builder.path];
                LoadedInto(threadPoolOperationMap, old(threadPoolOperationMap), manifest,
                           Loader(resources, builder.dirName), manifest.Keys)
      ensures builder.path in resources ==>
                LoadedInto(threadPoolOperationMap, old(threadPoolOperationMap), resources[builder.path],
                           Loader(resources, builder.dirName), loaded)
      ensures builder.path in resources && !LoadSucceeds(resources, builder.path, builder.dirName) ==>
                exists op | op in resources[builder.path] && op !in loaded ::
                  EntrySpec(resources, builder.dirName, resources[builder.path][op]).Err?
      ensures builder.path !in resources ==> threadPoolOperationMap == old(threadPoolOperationMap)
      ensures old(threadPoolOperationMap).Keys <= threadPoolOperationMap.Keys
    {
      var path := builder.GetPath();
      var error;
      error, loaded := GetResourceFromProperties(path, builder.GetDirName(), resources);
      if error.None? {
        isBuilder := true;
      }
    }

    /**
     * `getResourceFromProperties(path)`: reads the manifest, then loads each
     * operation it names. A missing manifest is an error and loads nothing.
     */
    method GetResourceFromProperties(path: string, dirName: Option<string>, resources: map<string, Properties>)
      returns (error: Option<Exception>, ghost loaded: set<string>)
      modifies this
      ensures isBuilder == old(isBuilder)
      ensures error.None? <==> LoadSucceeds(resources, path, dirName)
      ensures path !in resources ==>
                error == Some(ResourceNotFound(path)) && threadPoolOperationMap == old(threadPoolOperationMap)
      ensures path in resources ==>
                LoadedInto(threadPoolOperationMap, old(threadPoolOperationMap), resources[path], Loader(resources, dirName), loaded)
      ensures error.None? ==> loaded == resources[path].Keys
      ensures error.Some? && path in resources ==>
                exists op | op in resources[path] && op !in loaded ::
                  EntrySpec(resources, dirName, resources[path][op]) == Err(error.value)
    {
      if path !in resources {
        return Some(ResourceNotFound(path)), {};
      }
      error, loaded := LoadManifest(resources[path], Loader(resources, dirName));
    }

    /**
     * The loop of `getResourceFromProperties`: loads each operation the
     * manifest names, in the manifest's own (unspecified) order, with
     * `load` reading and building the file an entry names. The first
     * failure ends the load and is returned; the entries loaded before it
     * stay in the map. `loaded` is the set of operations loaded.
     */
    method LoadManifest(manifest: Properties, load: string -> Result<PoolSpec>)
      returns (error: Option<Exception>, ghost loaded: set<string>)
      modifies this
      ensures isBuilder == old(isBuilder)
      ensures LoadedInto(threadPoolOperationMap, old(threadPoolOperationMap), manifest, load, loaded)
      ensures error.None? <==> AllLoad(manifest, load)
      ensures error.None? ==> loaded == manifest.Keys
      ensures error.Some? ==>
                exists op | op in manifest && op !in loaded :: load(manifest[op]) == Err(error.value)
    {
      var remaining := manifest.Keys;
      var m := threadPoolOperationMap;
      error := None;
      while remaining != {}
        invariant remaining <= manifest.Keys
        invariant LoadedInto(m, old(threadPoolOperationMap), manifest, load, manifest.Keys - remaining)
        invariant isBuilder == old(isBuilder)
        decreases |remaining|
      {
        var operation :| operation in remaining;
        var spec := load(manifest[operation]);
        if spec.Err? {
          error := Some(spec.error);
          break;
        }
        LoadedIntoStep(m, old(threadPoolOperationMap), manifest, load, manifest.Keys - remaining, operation, spec.value);
        m := m[operation := spec.value];
        assert (manifest.Keys - remaining) + {operation} == manifest.Keys - (remaining - {operation});
        remaining := remaining - {operation};
      }
      threadPoolOperationMap := m;
      loaded := manifest.Keys - remaining;
    }

    /** `getThreadPoolOperationMap(operation)`: the stored specification, or null when it was never loaded. */
    function GetThreadPoolOperationMap(operation: string): (r: Option<PoolSpec>)
      reads this
      ensures r.None? <==> operation !in threadPoolOperationMap
      ensures r.Some? ==> r.value == threadPoolOperationMap[operation]
    {
      if operation in threadPoolOperationMap then Some(threadPoolOperationMap[operation]) else None
    }
  }
}
