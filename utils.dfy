/**
 * Value helpers of the request layer (request/utils.js): the object tests,
 * the recursive `deepMerge` of configuration objects and `flattenHeaders`.
 */
module Utils {
  import opened JsValues

  /** `isObject`: a value that is not null and whose `typeof` is 'object'. */
  function IsObject(v: Value): (r: bool)
    ensures r <==> v.Arr? || v.Obj?
  {
    v != Null && TypeOf(v) == "object"
  }

  /** `isPlainObject`: the '[object Object]' tag, which arrays, functions and primitives lack. */
  function IsPlainObject(v: Value): (r: bool)
    ensures r <==> IsObject(v) && !v.Arr?
  {
    v.Obj?
  }

  // ---------------------------------------------------------------- deepMerge

  /**
   * The fields `deepMerge` holds after it has copied the fields of one more
   * argument `item` over the fields `acc` collected so far: a plain-object
   * value is merged into a plain-object value already there (or copied when
   * there is none), any other value overwrites.
   */
  function MergeInto(acc: map<string, Value>, item: map<string, Value>): map<string, Value>
    decreases Obj(item)
  {
    map k | k in acc.Keys + item.Keys ::
      if k !in item then acc[k]
      else if item[k].Obj? then
        Obj(MergeInto(if k in acc && acc[k].Obj? then acc[k].fields else map[], item[k].fields))
      else item[k]
  }

  /**
   * Per key: the merged object has the keys of both sides; a key `item`
   * lacks keeps its value, a value that is not a plain object overwrites,
   * and a plain object is merged into the plain object already there (into
   * nothing when there is none).
   */
  lemma MergeIntoAt(acc: map<string, Value>, item: map<string, Value>, k: string)
    ensures k in MergeInto(acc, item) <==> k in acc || k in item
    ensures k in acc && k !in item ==> MergeInto(acc, item)[k] == acc[k]
    ensures k in item && !item[k].Obj? ==> MergeInto(acc, item)[k] == item[k]
    ensures k in item && item[k].Obj? ==>
      MergeInto(acc, item)[k] == Obj(MergeInto(if k in acc && acc[k].Obj? then acc[k].fields else map[], item[k].fields))
  {
  }

  /** `deepMerge(...args)`: the fields of the fresh object it returns. */
  function DeepMerged(args: seq<Value>): map<string, Value>
  {
    if args == [] then map[]
    else
      var acc := DeepMerged(args[..|args| - 1]);
      var last := args[|args| - 1];
      if !Truthy(last) then acc else MergeInto(acc, OwnEntries(last))
  }

  /** The result has exactly the keys of the truthy arguments. */
  lemma {:induction false} DeepMergedKeys(args: seq<Value>, k: string)
    ensures k in DeepMerged(args) <==> exists i :: 0 <= i < |args| && Truthy(args[i]) && k in OwnEntries(args[i])
  {
    if args != [] {
      var init, last := args[..|args| - 1], args[|args| - 1];
      DeepMergedKeys(init, k);
      if Truthy(last) {
        MergeIntoAt(DeepMerged(init), OwnEntries(last), k);
      }
      if k in DeepMerged(args) && !(Truthy(last) && k in OwnEntries(last)) {
        var i :| 0 <= i < |init| && Truthy(init[i]) && k in OwnEntries(init[i]);
        assert args[i] == init[i];
      }
      if exists i :: 0 <= i < |args| && Truthy(args[i]) && k in OwnEntries(args[i]) {
        var i :| 0 <= i < |args| && Truthy(args[i]) && k in OwnEntries(args[i]);
        if i < |init| {
          assert init[i] == args[i];
        }
      }
    }
  }

  /** The fields one argument contributes to `deepMerge`: none when it is falsy. */
  function FieldsOf(v: Value): map<string, Value>
  {
    if Truthy(v) then OwnEntries(v) else map[]
  }

  /** One more argument: merged over the result so far when truthy, skipped otherwise. */
  lemma DeepMergedSnoc(args: seq<Value>, v: Value)
    ensures DeepMerged(args + [v]) == MergeInto(DeepMerged(args), FieldsOf(v))
  {
    assert (args + [v])[..|args|] == args;
    if !Truthy(v) {
      MergeIntoNothing(DeepMerged(args));
    }
  }

  lemma MergeIntoNothing(acc: map<string, Value>)
    ensures MergeInto(acc, map[]) == acc
  {
  }

  /** Merging into nothing copies: `deepMerge(o)` has exactly the fields of the plain object `o`. */
  lemma {:induction false} MergeIntoEmpty(a: map<string, Value>)
    ensures MergeInto(map[], a) == a
    decreases Obj(a)
  {
    forall k | k in a && a[k].Obj?
      ensures MergeInto(map[], a[k].fields) == a[k].fields
    {
      MergeIntoEmpty(a[k].fields);
    }
    var r := MergeInto(map[], a);
    forall k | k in a ensures r[k] == a[k] {
      if a[k].Obj? {
        assert r[k] == Obj(MergeInto(map[], a[k].fields));
      }
    }
  }

  /**
   * `MergeInto` is the source's recursion read on values: a plain-object
   * value merged over a plain-object value is `deepMerge(old, new)`, one
   * merged over anything else is `deepMerge(new)`.
   */
  lemma MergeIntoIsDeepMerge(acc: map<string, Value>, item: map<string, Value>, k: string)
    requires k in item && item[k].Obj?
    ensures k in acc && acc[k].Obj? ==>
      MergeInto(acc, item)[k] == Obj(DeepMerged([acc[k], item[k]]))
    ensures !(k in acc && acc[k].Obj?) ==>
      MergeInto(acc, item)[k] == Obj(DeepMerged([item[k]]))
  {
    MergeIntoAt(acc, item, k);
    CopyKeepsFields(item[k], item[k]);
    if k in acc && acc[k].Obj? {
      CopyKeepsFields(acc[k], item[k]);
    }
  }

  /** `deepMerge(val1)` and `deepMerge(val1, val2)` for a plain-object `val2`, read on values. */
  lemma CopyKeepsFields(val1: Value, val2: Value)
    requires val2.Obj?
    ensures DeepMerged([val1]) == FieldsOf(val1)
    ensures DeepMerged([val1, val2]) == MergeInto(FieldsOf(val1), val2.fields)
  {
    assert [] + [val1] == [val1];
    assert [val1] + [val2] == [val1, val2];
    DeepMergedSnoc([], val1);
    MergeIntoEmpty(FieldsOf(val1));
    DeepMergedSnoc([val1], val2);
  }

  /** A falsy argument, wherever it stands, leaves the merge unchanged. */
  lemma {:induction false} DeepMergedSkipsFalsy(front: seq<Value>, v: Value, back: seq<Value>)
    requires !Truthy(v)
    ensures DeepMerged(front + [v] + back) == DeepMerged(front + back)
    decreases |back|
  {
    if back == [] {
      assert front + [v] + back == front + [v];
      assert (front + [v])[..|front|] == front;
      assert front + back == front;
    } else {
      var back' := back[..|back| - 1];
      DeepMergedSkipsFalsy(front, v, back');
      assert (front + [v] + back)[..|front + [v] + back| - 1] == front + [v] + back';
      assert (front + back)[..|front + back| - 1] == front + back';
    }
  }

  /**
   * Later arguments win: when the last argument that has key `k` holds a
   * value that is not a plain object, the result holds that value.
   */
  lemma {:induction false} DeepMergedLastWriter(args: seq<Value>, i: nat, k: string)
    requires i < |args| && Truthy(args[i]) && k in OwnEntries(args[i])
    requires !OwnEntries(args[i])[k].Obj?
    requires forall j :: i < j < |args| && Truthy(args[j]) ==> k !in OwnEntries(args[j])
    ensures k in DeepMerged(args) && DeepMerged(args)[k] == OwnEntries(args[i])[k]
    decreases |args|
  {
    var init := args[..|args| - 1];
    if i < |args| - 1 {
      DeepMergedLastWriter(init, i, k);
    }
  }

  /**
   * `deepMerge` as the source runs it: a fresh result filled argument by
   * argument, falsy arguments skipped.
   */
  method DeepMerge(args: seq<Value>) returns (result: map<string, Value>)
    ensures result == DeepMerged(args)
  {
    result := map[];
    for i := 0 to |args|
      invariant result == DeepMerged(args[..i])
    {
      assert args[..i + 1][..i] == args[..i];
      if Truthy(args[i]) {
        result := MergeFields(result, OwnEntries(args[i]));
      }
    }
    assert args[..|args|] == args;
  }

  /**
   * The key loop of `deepMerge` for one argument: each key of `item`
   * written into `acc`, plain objects merged recursively.
   */
  method MergeFields(acc: map<string, Value>, item: map<string, Value>) returns (result: map<string, Value>)
    ensures result == MergeInto(acc, item)
    decreases Obj(item)
  {
    result := acc;
    var keys := item.Keys;
    while keys != {}
      invariant keys <= item.Keys
      invariant result == MergeInto(acc, item - keys)
      decreases keys
    {
      var key :| key in keys;
      var val := item[key];
      ghost var done := item - keys;
      assert item - (keys - {key}) == done[key := val];
      MergeIntoOneMore(acc, done, key, val);
      MergeIntoAt(acc, done, key);
      if val.Obj? {
        var base := if key in result && result[key].Obj? then result[key].fields else map[];
        var merged := MergeFields(base, val.fields);
        result := result[key := Obj(merged)];
      } else {
        result := result[key := val];
      }
      keys := keys - {key};
    }
    assert item - keys == item;
  }

  /** Copying one more key into the result: only that key changes, as the merge of its value prescribes. */
  lemma MergeIntoOneMore(acc: map<string, Value>, done: map<string, Value>, key: string, val: Value)
    requires key !in done
    ensures MergeInto(acc, done[key := val]) == MergeInto(acc, done)[key :=
      if val.Obj? then Obj(MergeInto(if key in acc && acc[key].Obj? then acc[key].fields else map[], val.fields))
      else val]
  {
    var before, after := MergeInto(acc, done), MergeInto(acc, done[key := val]);
    forall k | k in after || k in before[key := val]
      ensures k in after && k in before[key := val]
    {
      MergeIntoAt(acc, done, k);
      MergeIntoAt(acc, done[key := val], k);
    }
    forall k | k in after && k != key ensures after[k] == before[k] {
      MergeIntoAt(acc, done, k);
      MergeIntoAt(acc, done[key := val], k);
    }
    MergeIntoAt(acc, done[key := val], key);
  }

  // ----------------------------------------------------------- flattenHeaders

  /** The header blocks `flattenHeaders` removes after merging. */
  const MethodKeys: seq<string> := ["delete", "get", "head", "options", "post", "put", "patch", "common"]

  /** `headers.common || {}`, `headers[method] || {}` and `headers`, in merge order. */
  function HeaderLayers(headers: Value, verb: Value): seq<Value>
  {
    [Or(Prop(headers, "common"), Obj(map[])), Or(Prop(headers, ToText(verb)), Obj(map[])), headers]
  }

  /**
   * `flattenHeaders(headers, method)`: falsy headers come back as they are;
   * otherwise the common block, then the block of `method`, then the
   * top-level headers are merged, and the method blocks are dropped.
   */
  function FlattenedHeaders(headers: Value, verb: Value): (r: Value)
    ensures !Truthy(headers) ==> r == headers
    ensures Truthy(headers) ==> r.Obj?
  {
    if !Truthy(headers) then headers
    else Obj(Without(DeepMerged(HeaderLayers(headers, verb)), MethodKeys))
  }

  /** `m` after `delete m[k]` for every `k` of `keys`. */
  function Without(m: map<string, Value>, keys: seq<string>): map<string, Value>
  {
    map k | k in m && k !in keys :: m[k]
  }

  /** Deleting one more key. */
  lemma WithoutOneMore(m: map<string, Value>, keys: seq<string>, key: string)
    ensures Without(m, keys + [key]) == Without(m, keys) - {key}
  {
    assert forall k :: k in keys + [key] <==> k in keys || k == key;
  }

  /** None of the method blocks is left at the top level of the flattened headers. */
  lemma FlattenDropsMethodKeys(headers: Value, verb: Value, k: string)
    requires Truthy(headers) && k in MethodKeys
    ensures k !in FlattenedHeaders(headers, verb).fields
  {
  }

  /** `flattenHeaders` as the source runs it: merge, then delete the method keys. */
  method FlattenHeaders(headers: Value, verb: Value) returns (r: Value)
    ensures r == FlattenedHeaders(headers, verb)
  {
    if !Truthy(headers) {
      return headers;
    }
    var merged := DeepMerge(HeaderLayers(headers, verb));
    merged := DeleteEach(merged, MethodKeys);
    r := Obj(merged);
  }

  /** `keys.forEach(key => delete m[key])`. */
  method DeleteEach(m: map<string, Value>, keys: seq<string>) returns (r: map<string, Value>)
    ensures r == Without(m, keys)
  {
    r := m;
    for i := 0 to |keys|
      invariant r == Without(m, keys[..i])
    {
      WithoutOneMore(m, keys[..i], keys[i]);
      assert keys[..i + 1] == keys[..i] + [keys[i]];
      r := r - {keys[i]};
    }
    assert keys[..|keys|] == keys;
  }

  /**
   * Precedence of `flattenHeaders` for header values that are not plain
   * objects: a top-level header beats the method block, which beats the
   * common block; every key of the three layers but the method keys remains.
   */
  lemma FlattenPrecedence(headers: Value, verb: Value, k: string)
    requires Truthy(headers) && k !in MethodKeys
    ensures var layers := HeaderLayers(headers, verb);
      k in FlattenedHeaders(headers, verb).fields <==>
        k in OwnEntries(layers[0]) || k in OwnEntries(layers[1]) || k in OwnEntries(layers[2])
    ensures var layers := HeaderLayers(headers, verb);
      k in OwnEntries(headers) && !OwnEntries(headers)[k].Obj? ==>
        FlattenedHeaders(headers, verb).fields[k] == OwnEntries(headers)[k]
    ensures var layers := HeaderLayers(headers, verb);
      k !in OwnEntries(headers) && k in OwnEntries(layers[1]) && !OwnEntries(layers[1])[k].Obj? ==>
        FlattenedHeaders(headers, verb).fields[k] == OwnEntries(layers[1])[k]
    ensures var layers := HeaderLayers(headers, verb);
      k !in OwnEntries(headers) && k !in OwnEntries(layers[1]) && k in OwnEntries(layers[0])
        && !OwnEntries(layers[0])[k].Obj? ==>
        FlattenedHeaders(headers, verb).fields[k] == OwnEntries(layers[0])[k]
  {
    var layers := HeaderLayers(headers, verb);
    ThreeLayers(layers[0], layers[1], layers[2], k);
    assert layers == [layers[0], layers[1], layers[2]];
  }

  /** Which of three truthy arguments of `deepMerge` a key that is not a plain object comes from. */
  lemma ThreeLayers(a: Value, b: Value, c: Value, k: string)
    requires Truthy(a) && Truthy(b) && Truthy(c)
    ensures k in DeepMerged([a, b, c]) <==> k in OwnEntries(a) || k in OwnEntries(b) || k in OwnEntries(c)
    ensures k in OwnEntries(c) && !OwnEntries(c)[k].Obj? ==> DeepMerged([a, b, c])[k] == OwnEntries(c)[k]
    ensures k !in OwnEntries(c) && k in OwnEntries(b) && !OwnEntries(b)[k].Obj? ==>
      DeepMerged([a, b, c])[k] == OwnEntries(b)[k]
    ensures k !in OwnEntries(c) && k !in OwnEntries(b) && k in OwnEntries(a) && !OwnEntries(a)[k].Obj? ==>
      DeepMerged([a, b, c])[k] == OwnEntries(a)[k]
  {
    var args := [a, b, c];
    DeepMergedKeys(args, k);
    if k in DeepMerged(args) {
      var i :| 0 <= i < 3 && Truthy(args[i]) && k in OwnEntries(args[i]);
      assert i == 0 || i == 1 || i == 2;
    }
    if k in OwnEntries(a) {
      assert k in OwnEntries(args[0]);
    } else if k in OwnEntries(b) {
      assert k in OwnEntries(args[1]);
    } else if k in OwnEntries(c) {
      assert k in OwnEntries(args[2]);
    }
    if k in OwnEntries(c) && !OwnEntries(c)[k].Obj? {
      DeepMergedLastWriter(args, 2, k);
    } else if k !in OwnEntries(c) && k in OwnEntries(b) && !OwnEntries(b)[k].Obj? {
      DeepMergedLastWriter(args, 1, k);
    } else if k !in OwnEntries(c) && k !in OwnEntries(b) && k in OwnEntries(a) && !OwnEntries(a)[k].Obj? {
      DeepMergedLastWriter(args, 0, k);
    }
  }

}
