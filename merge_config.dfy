/**
 * `mergeConfig` (request/core/mergeConfig.js): the per-key merge of a
 * request configuration over the client defaults.
 */
module MergeConfig {
  import opened JsValues
  import opened Utils

  datatype Strategy = DefaultStrategy | DeepMergeStrategy

  /** The `strats` table: the keys the source lists and the strategy each one uses. */
  const Strats: map<string, Strategy> :=
    map["url" := DefaultStrategy, "params" := DefaultStrategy, "key" := DefaultStrategy,
        "headers" := DeepMergeStrategy]

  /** `strats[key] || defaultStrat`: keys absent from the table use the default strategy. */
  function StratFor(key: string): (s: Strategy)
    ensures s == DeepMergeStrategy <==> key == "headers"
  {
    if key in Strats then Strats[key] else DefaultStrategy
  }

  /** `defaultStrat`: the second value whenever it is defined, even when it is falsy. */
  function DefaultStrat(val1: Value, val2: Value): (r: Value)
    ensures val2 != Undefined ==> r == val2
    ensures val2 == Undefined ==> r == val1
  {
    if TypeOf(val2) != "undefined" then val2 else val1
  }

  /**
   * `deepMergeStrat`: a plain-object second value is merged over the first;
   * else a defined second value wins; else the first value is kept, a plain
   * object as a copy.
   */
  function DeepMergeStrat(val1: Value, val2: Value): (r: Value)
    ensures val2.Obj? ==> r == Obj(MergeInto(FieldsOf(val1), val2.fields))
    ensures !val2.Obj? && val2 != Undefined ==> r == val2
    ensures val2 == Undefined ==> r == val1
  {
    if IsPlainObject(val2) then
      CopyKeepsFields(val1, val2);
      Obj(DeepMerged([val1, val2]))
    else if TypeOf(val2) != "undefined" then val2
    else if IsPlainObject(val1) then
      CopyKeepsFields(val1, val1);
      Obj(DeepMerged([val1]))
    else val1
  }

  /** `mergeField(key)`: the strategy of `key` applied to the two configurations' values. */
  function MergeField(config1: map<string, Value>, config2: map<string, Value>, key: string): Value
  {
    match StratFor(key)
    case DefaultStrategy => DefaultStrat(Get(config1, key), Get(config2, key))
    case DeepMergeStrategy => DeepMergeStrat(Get(config1, key), Get(config2, key))
  }

  /** The configuration `mergeConfig(config1, config2)` returns. */
  function MergedConfig(config1: map<string, Value>, config2: map<string, Value>): (r: map<string, Value>)
    ensures r.Keys == config1.Keys + config2.Keys
  {
    MergedOn(config1, config2, config1.Keys + config2.Keys)
  }

  /** The merged values of the keys in `keys`. */
  function MergedOn(config1: map<string, Value>, config2: map<string, Value>, keys: set<string>): (r: map<string, Value>)
    ensures r.Keys == keys
  {
    map k | k in keys :: MergeField(config1, config2, k)
  }

  lemma MergedOnAdd(config1: map<string, Value>, config2: map<string, Value>, keys: set<string>, key: string)
    ensures MergedOn(config1, config2, keys + {key}) == MergedOn(config1, config2, keys)[key := MergeField(config1, config2, key)]
  {
  }

  /**
   * `mergeConfig` as the source runs it: every key of `config2` merged, then
   * every key of `config1` whose `config2` value is falsy merged (again).
   */
  method Merge(config1: map<string, Value>, config2: map<string, Value>) returns (config: map<string, Value>)
    ensures config == MergedConfig(config1, config2)
  {
    config := map[];
    var keys2 := config2.Keys;
    assert config == MergedOn(config1, config2, {});
    assert config2.Keys - keys2 == {};
    while keys2 != {}
      invariant keys2 <= config2.Keys
      invariant config == MergedOn(config1, config2, config2.Keys - keys2)
      decreases keys2
    {
      var key :| key in keys2;
      MergedOnAdd(config1, config2, config2.Keys - keys2, key);
      assert config2.Keys - (keys2 - {key}) == (config2.Keys - keys2) + {key};
      config := config[key := MergeField(config1, config2, key)];
      keys2 := keys2 - {key};
    }
    var keys1 := config1.Keys;
    assert config2.Keys - keys2 == config2.Keys + (config1.Keys - keys1);
    while keys1 != {}
      invariant keys1 <= config1.Keys
      invariant config == MergedOn(config1, config2, config2.Keys + (config1.Keys - keys1))
      decreases keys1
    {
      var key :| key in keys1;
      ghost var done := config2.Keys + (config1.Keys - keys1);
      assert config2.Keys + (config1.Keys - (keys1 - {key})) == done + {key};
      if !Truthy(Get(config2, key)) {
        MergedOnAdd(config1, config2, done, key);
        config := config[key := MergeField(config1, config2, key)];
      } else {
        assert key in config2;
        assert done + {key} == done;
      }
      keys1 := keys1 - {key};
    }
    assert config2.Keys + (config1.Keys - keys1) == config1.Keys + config2.Keys;
  }

  /**
   * Per key: every key but 'headers' takes the request's value when that is
   * defined and the default otherwise; 'headers' follows `deepMergeStrat`.
   */
  lemma MergedConfigValue(config1: map<string, Value>, config2: map<string, Value>, key: string)
    requires key in config1 || key in config2
    ensures key != "headers" && Get(config2, key) != Undefined ==>
      MergedConfig(config1, config2)[key] == config2[key]
    ensures key != "headers" && Get(config2, key) == Undefined ==>
      MergedConfig(config1, config2)[key] == Get(config1, key)
    ensures key == "headers" ==>
      MergedConfig(config1, config2)[key] == DeepMergeStrat(Get(config1, key), Get(config2, key))
  {
  }

  /** Merging an empty request configuration gives the defaults back, key for key. */
  lemma MergeOverNothing(config1: map<string, Value>)
    ensures MergedConfig(config1, map[]) == config1
  {
    var r := MergedConfig(config1, map[]);
    forall k | k in config1 ensures r[k] == config1[k] {
      MergedConfigValue(config1, map[], k);
    }
  }

  /** With no defaults, the merge gives the request configuration back, key for key. */
  lemma MergeOntoNothing(config2: map<string, Value>)
    ensures MergedConfig(map[], config2) == config2
  {
    var r := MergedConfig(map[], config2);
    forall k | k in config2 ensures r[k] == config2[k] {
      MergedConfigValue(map[], config2, k);
      if config2[k].Obj? {
        MergeIntoEmpty(config2[k].fields);
      }
    }
  }
}
