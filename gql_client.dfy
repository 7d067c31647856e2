/**
 * The `graphQL` client (request/core/graphQL.js, lines 13-241): its
 * constructor, `query`, `mutate` and `dispatchRequest`, which turns the
 * shorthand in `data` into one GraphQL document, consults the module-wide
 * statement cache and posts `{ query, variables }` through a `Request`.
 */
module GqlClient {
  import opened Wrappers
  import opened Text
  import opened JsValues
  import opened Utils
  import opened RequestCore
  import opened GqlParse
  import opened GqlCodegen
  import opened Defaults

  // ------------------------------------------------------------ the cache

  /** The methods of `Object.prototype`, which every plain object inherits. */
  const PrototypeMethods: set<string> :=
    {"constructor", "hasOwnProperty", "isPrototypeOf", "propertyIsEnumerable", "toLocaleString",
     "toString", "valueOf", "__defineGetter__", "__defineSetter__", "__lookupGetter__", "__lookupSetter__"}

  /** What reading `key` on a plain object without that own property gives. */
  function Inherited(key: string): Value
  {
    if key == "__proto__" then Obj(map[])  // Object.prototype itself
    else if key == "constructor" then Func("function Object() { [native code] }")
    else if key in PrototypeMethods then Func("function " + key + "() { [native code] }")
    else Undefined
  }

  /** Only the inherited names give a value, and that value is truthy. */
  lemma InheritedTruthy(key: string)
    ensures Truthy(Inherited(key)) <==> key == "__proto__" || key in PrototypeMethods
    ensures !Truthy(Inherited(key)) ==> Inherited(key) == Undefined
  {
  }

  /** `cache[key]` on the cache object whose own properties are `entries`. */
  function Cached(entries: map<string, string>, key: string): Value
  {
    if key in entries then Str(entries[key]) else Inherited(key)
  }

  /**
   * `cache[key] = ''`: an own property holding the empty string, except for
   * '__proto__', whose setter ignores a value that is not an object.
   */
  function Forgotten(entries: map<string, string>, key: string): map<string, string>
  {
    if key == "__proto__" then entries else entries[key := ""]
  }

  /** The only value the client ever writes into the cache is the empty string. */
  predicate OnlyBlanks(entries: map<string, string>)
  {
    forall k :: k in entries ==> entries[k] == ""
  }

  /**
   * With only blanks written, a lookup is truthy exactly for a name the
   * object inherits and has not been blanked: no compiled statement is
   * ever served from the cache.
   */
  lemma CachedHit(entries: map<string, string>, key: string)
    requires OnlyBlanks(entries)
    ensures Truthy(Cached(entries, key)) <==> key !in entries && (key == "__proto__" || key in PrototypeMethods)
    ensures Truthy(Cached(entries, key)) ==> !Cached(entries, key).Str?
  {
  }

  /** The module-wide `cache` object, shared by every client. */
  class StatementCache {
    var entries: map<string, string>

    constructor ()
      ensures entries == map[]
    {
      entries := map[];
    }

    function Lookup(key: string): Value
      reads this
    {
      Cached(entries, key)
    }

    /** `cache[cacheKey] = ''` (line 75). */
    method Forget(key: string)
      modifies this
      ensures entries == Forgotten(old(entries), key)
      ensures OnlyBlanks(old(entries)) ==> OnlyBlanks(entries)
    {
      if key != "__proto__" {
        entries := entries[key := ""];
      }
    }
  }

  // -------------------------------------------------------------- flags

  /**
   * Lines 22-26 as written: the constructor compares `config.custom` with the
   * string 'undefined' rather than testing its type, so only that string
   * switches the flag off where its truthiness would switch it on.
   */
  function CustomFlag(config: Value): bool
  {
    var custom := Prop(config, "custom");
    if custom != Str("undefined") then Truthy(custom) else false
  }

  /** The flag follows the truthiness of `custom`, except for the string 'undefined'. */
  lemma CustomFlagTruthiness(config: Value)
    ensures CustomFlag(config) <==> Truthy(Prop(config, "custom")) && Prop(config, "custom") != Str("undefined")
  {
  }

  /** Lines 54-58: a boolean `custom` in the call wins over the instance's flag. */
  function Bypass(custom: Value, instanceFlag: bool): (r: bool)
    ensures custom.Bool? ==> r == custom.b
    ensures !custom.Bool? ==> r == instanceFlag
  {
    if TypeOf(custom) == "boolean" then custom.b else instanceFlag
  }

  /** Line 62: the joined queries followed by the response node as `+` renders it. */
  function CacheKey(queries: seq<string>, responseNode: Value): string
  {
    Join(queries, "/") + ToText(responseNode)
  }

  // ------------------------------------------------------------- the plan

  /** What a successful compilation hands on: the document, the scoped variables and the descriptors. */
  datatype Compilation = Compilation(statement: string, scoped: map<string, Value>, ast: seq<Descriptor>)

  /** Lines 67-70: `parse`, `gencode` and `getVariablesWithScoped` in turn, the first error ending it. */
  function Compiled(queries: seq<string>, responseNode: Value, typ: OperationType, variables: Value)
    : Result<Compilation, CompileError>
  {
    var ast :- Parsed(queries, responseNode, typ, variables);
    var statement :- Document(ast);
    var scoped :- ScopedVariables(ast);
    Ok(Compilation(statement, scoped, ast))
  }

  /** Lines 67-70 as the source runs them, inside the `try`. */
  method Compile(queries: seq<string>, responseNode: Value, typ: OperationType, variables: Value)
    returns (r: Result<Compilation, CompileError>)
    ensures r == Compiled(queries, responseNode, typ, variables)
  {
    var ast :- Parse(queries, responseNode, typ, variables);
    var queryStatement :- Gencode(ast);
    var variablesWithScoped :- GetVariablesWithScoped(ast);
    return Ok(Compilation(queryStatement, variablesWithScoped, ast));
  }

  /**
   * What `dispatchRequest` does before posting: a rejection, or the body to
   * post (the statement, the scoped variables) and the `gql` descriptors,
   * which stay null unless the shorthand was compiled.
   */
  datatype Plan =
    | Reject
    | Post(statement: Value, variables: map<string, Value>, gql: Option<seq<Descriptor>>)

  /** The fields `dispatchRequest` destructures from `data`, with `variables` defaulting to `{}`. */
  datatype Call = Call(query: Value, variables: Value, responseNode: Value, custom: Value)

  function CallOf(data: Value): Call
  {
    var variables := Prop(data, "variables");
    Call(Prop(data, "query"), if variables == Undefined then Obj(map[]) else variables,
            Prop(data, "responseNode"), Prop(data, "custom"))
  }

  /** Lines 46-80: the plan, given the instance's flag and the cache entries. */
  function Planned(req: Call, typ: OperationType, instanceFlag: bool, entries: map<string, string>): Plan
  {
    match FormatQuery(req.query)
    case None => Reject
    case Some(queries) =>
      if Bypass(req.custom, instanceFlag) then Post(Arr(Strings(queries)), map[], None)
      else
        var hit := Cached(entries, CacheKey(queries, req.responseNode));
        if Truthy(hit) then Post(hit, map[], None)
        else match Compiled(queries, req.responseNode, typ, req.variables)
          case Err(_) => Reject
          case Ok(c) => Post(Str(c.statement), c.scoped, Some(c.ast))
  }

  /** The cache after the plan: the key is blanked when, and only when, compilation failed. */
  function CacheAfter(req: Call, typ: OperationType, instanceFlag: bool, entries: map<string, string>)
    : map<string, string>
  {
    match FormatQuery(req.query)
    case None => entries
    case Some(queries) =>
      var key := CacheKey(queries, req.responseNode);
      if Bypass(req.custom, instanceFlag) || Truthy(Cached(entries, key)) then entries
      else if Compiled(queries, req.responseNode, typ, req.variables).Err? then Forgotten(entries, key)
      else entries
  }

  /** A query that is not a string or an array of strings, or is falsy, is rejected and touches nothing. */
  lemma MalformedRejected(req: Call, typ: OperationType, instanceFlag: bool, entries: map<string, string>)
    requires !(Truthy(req.query) && (req.query.Str? || (req.query.Arr? && AllStrings(req.query.items))))
    ensures Planned(req, typ, instanceFlag, entries) == Reject
    ensures CacheAfter(req, typ, instanceFlag, entries) == entries
  {
  }

  /** With the statement given as is, the formatted queries themselves are posted, without variables. */
  lemma BypassPostsQueries(req: Call, typ: OperationType, instanceFlag: bool, entries: map<string, string>)
    requires FormatQuery(req.query).Some? && Bypass(req.custom, instanceFlag)
    ensures Planned(req, typ, instanceFlag, entries) == Post(Arr(Strings(FormatQuery(req.query).value)), map[], None)
    ensures req.query.Arr? ==> Planned(req, typ, instanceFlag, entries).statement == req.query
    ensures CacheAfter(req, typ, instanceFlag, entries) == entries
  {
  }

  /**
   * The cache only ever holds blanks, and a compiled statement never enters
   * it: a posted statement that was compiled leaves the cache as it was.
   */
  lemma CacheKeepsBlanks(req: Call, typ: OperationType, instanceFlag: bool, entries: map<string, string>)
    requires OnlyBlanks(entries)
    ensures OnlyBlanks(CacheAfter(req, typ, instanceFlag, entries))
    ensures Planned(req, typ, instanceFlag, entries).Post? ==> CacheAfter(req, typ, instanceFlag, entries) == entries
  {
  }

  /**
   * Away from the inherited names, the cache never answers: whatever blanks
   * it holds, the plan is the one an empty cache gives, so every request
   * compiles its shorthand afresh.
   */
  lemma PlanIgnoresCache(req: Call, typ: OperationType, instanceFlag: bool, entries: map<string, string>)
    requires OnlyBlanks(entries)
    requires FormatQuery(req.query).Some? ==>
      var key := CacheKey(FormatQuery(req.query).value, req.responseNode);
      key != "__proto__" && key !in PrototypeMethods
    ensures Planned(req, typ, instanceFlag, entries) == Planned(req, typ, instanceFlag, map[])
  {
    if FormatQuery(req.query).Some? {
      var key := CacheKey(FormatQuery(req.query).value, req.responseNode);
      CachedHit(entries, key);
      CachedHit(map[], key);
    }
  }

  /**
   * An inherited name is a hit: a query 'constructor' with an empty response
   * node posts the `Object` function as the statement, uncompiled.
   */
  lemma InheritedNameIsHit(typ: OperationType)
    ensures Planned(Call(Str("constructor"), Obj(map[]), Str(""), Undefined), typ, false, map[])
         == Post(Func("function Object() { [native code] }"), map[], None)
  {
    var req := Call(Str("constructor"), Obj(map[]), Str(""), Undefined);
    assert FormatQuery(req.query) == Some(["constructor"]);
    assert CacheKey(["constructor"], Str("")) == "constructor";
    assert Truthy(Cached(map[], "constructor"));
  }

  /**
   * A compiled plan posts what the compiler produces: the descriptors of
   * the queries, their document and their scoped variables.
   */
  lemma CompiledPlan(req: Call, typ: OperationType, instanceFlag: bool, entries: map<string, string>)
    requires Planned(req, typ, instanceFlag, entries).Post? && Planned(req, typ, instanceFlag, entries).gql.Some?
    ensures var p := Planned(req, typ, instanceFlag, entries);
      var queries := FormatQuery(req.query).value;
      && !Bypass(req.custom, instanceFlag)
      && Parsed(queries, req.responseNode, typ, req.variables) == Ok(p.gql.value)
      && Document(p.gql.value) == Ok(p.statement.s)
      && ScopedVariables(p.gql.value) == Ok(p.variables)
      && |p.gql.value| == |queries| && |queries| > 0
  {
    var queries := FormatQuery(req.query).value;
    var p := Planned(req, typ, instanceFlag, entries);
    DocumentShape(p.gql.value);
  }

  /**
   * The operation type of the call reaches what is posted: every descriptor
   * carries it, and the document starts with its keyword, so a query and a
   * mutation of the same text post different statements.
   */
  lemma PlanCarriesType(req: Call, typ: OperationType, instanceFlag: bool, entries: map<string, string>)
    requires Planned(req, typ, instanceFlag, entries).Post? && Planned(req, typ, instanceFlag, entries).gql.Some?
    ensures var p := Planned(req, typ, instanceFlag, entries);
      && (forall i :: 0 <= i < |p.gql.value| ==> p.gql.value[i].operationType == typ)
      && p.statement.Str? && OperationTypeText(typ) + " " <= p.statement.s
  {
    CompiledPlan(req, typ, instanceFlag, entries);
    var p := Planned(req, typ, instanceFlag, entries);
    var queries := FormatQuery(req.query).value;
    ParsedTypes(queries, req.responseNode, typ, req.variables);
    DocumentShape(p.gql.value);
  }

  /** An empty batch compiles to nothing: `gencode` reads `ast[0]`, so it is rejected and its key blanked. */
  lemma EmptyBatchRejected(req: Call, typ: OperationType, instanceFlag: bool, entries: map<string, string>)
    requires req.query == Arr([]) && !Bypass(req.custom, instanceFlag)
    requires !Truthy(Cached(entries, ToText(req.responseNode)))
    ensures Planned(req, typ, instanceFlag, entries) == Reject
    ensures CacheAfter(req, typ, instanceFlag, entries) == Forgotten(entries, ToText(req.responseNode))
  {
    assert FormatQuery(req.query) == Some([]);
    assert CacheKey([], req.responseNode) == ToText(req.responseNode);
    DocumentShape([]);
  }

  // ------------------------------------------------- the descriptor value

  function VariableValue(v: Variable): Value
  {
    Obj(map["key" := Str(v.key), "type" := Str(v.typ)])
  }

  /** A descriptor as the object `parseQuery` builds, for the `gql` field of the configuration. */
  function DescriptorValue(d: Descriptor): Value
  {
    Obj(map[
      "operationName" := Str(d.operationName),
      "variables" := Arr(seq(|d.variables|, i requires 0 <= i < |d.variables| => VariableValue(d.variables[i]))),
      "variablesMap" := Obj(map k | k in d.variablesMap :: Str(d.variablesMap[k])),
      "variablesStore" := d.variablesStore,
      "responseNode" := d.responseNode,
      "operationType" := Str(OperationTypeText(d.operationType))])
  }

  /** `ast`: null, or the array of descriptors. */
  function GqlValue(gql: Option<seq<Descriptor>>): Value
  {
    match gql
    case None => Null
    case Some(ast) => Arr(seq(|ast|, i requires 0 <= i < |ast| => DescriptorValue(ast[i])))
  }

  /** Lines 81-84: the call's configuration copied, with `isGql` and `gql` set. */
  function PostOptions(config: Value, gql: Option<seq<Descriptor>>): map<string, Value>
  {
    OwnEntries(config)["isGql" := Bool(true)]["gql" := GqlValue(gql)]
  }

  // ----------------------------------------------------------- the client

  class GraphQLClient {
    const client: RequestCore.Request
    const config: Value
    const isCustomQueryStatement: bool
    const cache: StatementCache

    /**
     * `new graphQL(config = {})`: a `Request` over the defaults deep-merged
     * with `config`, and the instance flag (lines 19-27). `cache` is the
     * module-wide object.
     */
    constructor (config: Value, cache: StatementCache)
      requires config != Null
      ensures this.config == (if config == Undefined then Obj(map[]) else config)
      ensures fresh(client) && client.defaults == DeepMerged([Obj(DefaultConfig()), this.config])
      ensures client.requestInterceptors.interceptors == [] && client.responseInterceptors.interceptors == []
      ensures isCustomQueryStatement == CustomFlag(this.config)
      ensures this.cache == cache
    {
      var cfg := if config == Undefined then Obj(map[]) else config;
      var merged := DeepMerge([Obj(DefaultConfig()), cfg]);
      client := new RequestCore.Request(merged);
      this.config := cfg;
      var custom := Prop(cfg, "custom");
      if custom != Str("undefined") {
        isCustomQueryStatement := Truthy(custom);
      } else {
        isCustomQueryStatement := false;
      }
      this.cache := cache;
    }

    /**
     * What `this.client.post(this.config.url, { query, variables }, config)`
     * prepares for a plan that posts: the call's options with `isGql`, `gql`,
     * the method, the URL and the data assigned, merged over the client's
     * defaults, and the chain of the client's live interceptors.
     */
    predicate Posts(p: Prepared, plan: Plan, callConfig: Value)
      reads client, client.requestInterceptors, client.responseInterceptors, p.originConfig
    {
      && plan.Post?
      && p.originConfig != null
      && p.originConfig.fields
         == PostOptions(callConfig, plan.gql)["method" := Str("post")]["url" := Prop(config, "url")]
            ["data" := Obj(map["query" := plan.statement, "variables" := Obj(plan.variables)])]
      && p.config == MergeConfig.MergedConfig(client.defaults, p.originConfig.fields)
      && p.steps
         == Chain(Interceptors.LiveOf(client.requestInterceptors.interceptors),
                  Interceptors.LiveOf(client.responseInterceptors.interceptors))
    }

    /**
     * `dispatchRequest(data, config, type)`: `None` for a rejection, or what
     * `this.client.post(this.config.url, { query, variables }, config)`
     * prepares. The cache changes as `CacheAfter` says and in no other way.
     */
    method DispatchRequest(data: Value, callConfig: Value, typ: OperationType) returns (sent: Option<Prepared>)
      requires data != Undefined && data != Null
      modifies cache
      ensures cache.entries == CacheAfter(CallOf(data), typ, isCustomQueryStatement, old(cache.entries))
      ensures var plan := Planned(CallOf(data), typ, isCustomQueryStatement, old(cache.entries));
        && (sent.None? <==> plan.Reject?)
        && (sent.Some? ==> fresh(sent.value.originConfig) && Posts(sent.value, plan, callConfig))
    {
      var plan := PlanRequest(CallOf(data), typ);
      if plan.Reject? {
        return None;
      }
      var options := new JsObject(PostOptions(callConfig, plan.gql));
      var prepared := client.RequestWithData("post", Prop(config, "url"),
        Obj(map["query" := plan.statement, "variables" := Obj(plan.variables)]), options);
      sent := Some(prepared);
    }

    /**
     * Lines 46-80 as the source runs them: format the query, pick the
     * statement (the queries as given, a cache hit, or the compiled
     * document), blanking the cache entry when compilation throws.
     */
    method PlanRequest(req: Call, typ: OperationType) returns (plan: Plan)
      modifies cache
      ensures plan == Planned(req, typ, isCustomQueryStatement, old(cache.entries))
      ensures cache.entries == CacheAfter(req, typ, isCustomQueryStatement, old(cache.entries))
    {
      var formatted := FormatQuery(req.query);
      if formatted.None? {
        return Reject;
      }
      var queries := formatted.value;
      var isCustom := if TypeOf(req.custom) == "boolean" then req.custom.b else isCustomQueryStatement;
      if isCustom {
        return Post(Arr(Strings(queries)), map[], None);
      }
      var cacheKey := CacheKey(queries, req.responseNode);
      var hit := cache.Lookup(cacheKey);
      if Truthy(hit) {
        return Post(hit, map[], None);
      }
      var compiled := Compile(queries, req.responseNode, typ, req.variables);
      if compiled.Err? {
        cache.Forget(cacheKey);
        return Reject;
      }
      plan := Post(Str(compiled.value.statement), compiled.value.scoped, Some(compiled.value.ast));
    }

    /** `query(data, config)`: dispatches `data` as a query. */
    method Query(data: Value, callConfig: Value) returns (sent: Option<Prepared>)
      requires data != Undefined && data != Null
      modifies cache
      ensures cache.entries == CacheAfter(CallOf(data), GqlParse.Query, isCustomQueryStatement, old(cache.entries))
      ensures var plan := Planned(CallOf(data), GqlParse.Query, isCustomQueryStatement, old(cache.entries));
        && (sent.None? <==> plan.Reject?)
        && (sent.Some? ==> fresh(sent.value.originConfig) && Posts(sent.value, plan, callConfig))
    {
      sent := DispatchRequest(data, callConfig, GqlParse.Query);
    }

    /** `mutate(data, config)`: `data.query = data.mutation` in place, then dispatches `data` as a mutation. */
    method Mutate(data: JsObject, callConfig: Value) returns (sent: Option<Prepared>)
      modifies cache, data
      ensures data.fields == old(data.fields)["query" := Get(old(data.fields), "mutation")]
      ensures cache.entries == CacheAfter(CallOf(Obj(data.fields)), Mutation, isCustomQueryStatement, old(cache.entries))
      ensures var plan := Planned(CallOf(Obj(data.fields)), Mutation, isCustomQueryStatement, old(cache.entries));
        && (sent.None? <==> plan.Reject?)
        && (sent.Some? ==> fresh(sent.value.originConfig) && Posts(sent.value, plan, callConfig))
    {
      data.fields := data.fields["query" := Get(data.fields, "mutation")];
      sent := DispatchRequest(Obj(data.fields), callConfig, Mutation);
    }
  }
}
