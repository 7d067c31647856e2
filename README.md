# A verified model of the wx-axios request layer and its GraphQL client

This project models the request layer of a mini-program HTTP client in the
style of axios, together with the GraphQL client built on top of it.

**The `Request` client.** It holds default settings and two interceptor
managers.
- `request` normalises its arguments and merges the call's configuration
  over the defaults with `mergeConfig`.
- It then builds the promise chain. Request interceptors run
  last-registered first, then `dispatchRequest`, then response interceptors
  in registration order.
- Before the network call, `dispatchRequest` flattens the headers. It adds
  the authorisation header when `authURL`, `auth` and `authKey` allow it,
  prefixes the base URL and upper-cases the method.

**The GraphQL client.** `query` and `mutate` accept one operation written
in a shorthand (`name(var: Type, ...)`) or a batch of them.
- `formatQuery` and `parseQuery` turn each operation into a descriptor.
- `gencode` prints one combined document. The batch is named by joining the
  operation names. Every variable is renamed `<operation>_<key>`, and every
  selection ends with the `↵` character.
- `getVariablesWithScoped` collects the renamed variable values.
- The result is posted with `isGql` and the descriptors added to the call's
  configuration.

**The statement cache.** A module-level object serves as a cache of
statements.
- The source writes to it only on a failure, storing `''`. A successful
  compilation is never stored.
- A lookup is made on an ordinary object. A key such as `constructor`
  therefore finds the inherited `Object.prototype` member.
- The model keeps this. `GqlClient.InheritedNameIsHit` shows that such a
  call posts the inherited function instead of a compiled document.

**Where the model follows the code.**
- With the bypass flag set, the client posts the array `formatQuery`
  returns, not a string.
- A variable's type is the second `:`-separated segment of its
  declaration, not everything after the first colon.
- The constructor compares `config.custom` with the string `'undefined'`,
  not with `typeof`. The instance flag is therefore `!!custom`, except for
  the string `'undefined'`, which gives `false`.
- The syntax-error throw in `parseQuery` cannot happen: after `'()'` is
  appended, the pattern always matches (`GqlParse.NeverSyntaxError`).

**How the model is built.**
- JavaScript values are the datatype `JsValues.Value`.
- The caller's configuration and data objects, which the source changes in
  place, are instances of the class `JsObject`.
- The source's own stateful objects are classes of their own:
  `Interceptors.InterceptorManager`, `GqlClient.StatementCache`,
  `RequestCore.Request` and `GqlClient.GraphQLClient`.
- Every `for`, `while` and `forEach` loop of the source is a method proved
  equal to a specification function. Lemmas then state the properties of
  that function.
- Array callbacks that only compute a value are recursive functions, with
  their properties stated as `ensures` clauses or lemmas. Examples are the
  `map(...).join('_')` of the operation names (`GqlCodegen.Names`) and the
  `some(...)` test of `formatQuery` (`GqlParse.AllStrings`).

## Model

| member | source | states |
|---|---|---|
| JsValues.Plus | request/core/dispatchRequest.js:26 | `+` on two strings is their concatenation |
| Text.TrimIsTrimmed | request/core/graphQL.js:189 | `trim()` leaves no white space at either end |
| Text.JoinSplit | request/core/graphQL.js:210-211 | joining the pieces of `split(c)` with `c` gives the string back, and no piece holds `c` |
| Text.SplitJoin | request/core/graphQL.js:210-211 | splitting parts joined by `c` gives the parts back when none holds `c` |
| Text.ToUpper | request/core/dispatchRequest.js:22 | `toUpperCase` keeps the length, maps each character, and leaves no lower-case ASCII letter |
| Text.ToLower | request/core/dispatchRequest.js:42 | `toLowerCase` keeps the length and leaves no upper-case ASCII letter |
| Text.ToLowerIdempotent | request/core/dispatchRequest.js:42 | lower-casing twice is lower-casing once; characters that are not upper-case letters are kept |
| Utils.IsObject | request/utils.js:19-21 | `isObject` holds exactly for arrays and plain objects |
| Utils.IsPlainObject | request/utils.js:23-25 | `isPlainObject` holds exactly for objects that are not arrays |
| Utils.MergeIntoAt | request/utils.js:42-53 | per key: the merge has the keys of both sides; a key the item lacks is kept; a non-object value overwrites; a plain object merges into a plain object already there, or into nothing |
| Utils.DeepMergedKeys | request/utils.js:38-56 | a key is in `deepMerge(...args)` iff some truthy argument has it as an own key |
| Utils.DeepMergedSnoc | request/utils.js:40-54 | one more argument merges its fields into the result of the earlier arguments |
| Utils.MergeIntoNothing | request/utils.js:41-42 | merging an object with no keys changes nothing |
| Utils.MergeIntoEmpty | request/utils.js:48 | `deepMerge(val)` of a plain object is a copy equal to it, at every depth |
| Utils.MergeIntoIsDeepMerge | request/utils.js:44-49 | a plain-object value is `deepMerge(result[key], val)` when the result already holds a plain object there, else `deepMerge(val)` |
| Utils.CopyKeepsFields | request/utils.js:38-56 | `deepMerge(val1)` is the fields of `val1`, and `deepMerge(val1, val2)` merges `val2` into them |
| Utils.DeepMergedSkipsFalsy | request/utils.js:41 | a falsy argument anywhere in the list has no effect |
| Utils.DeepMergedLastWriter | request/utils.js:42-52 | a non-object value comes from the last argument that has the key |
| Utils.DeepMerged | request/utils.js:38-56 | `deepMerge(...args)` as a value; its properties are stated by `DeepMergedKeys`, `DeepMergedLastWriter`, `DeepMergedSkipsFalsy` and `DeepMergedSnoc` |
| Utils.DeepMerge | request/utils.js:38-56 | the nested loops compute `DeepMerged(args)` |
| Utils.MergeFields | request/utils.js:42-53 | the per-key loop over one argument computes `MergeInto(acc, item)` |
| Utils.MergeIntoOneMore | request/utils.js:42-53 | handling one more key of the argument updates only that key of the result |
| Utils.FlattenedHeaders | request/utils.js:58-68 | falsy headers come back unchanged; any other headers give a plain object |
| Utils.WithoutOneMore | request/utils.js:63-66 | deleting one more key removes exactly that key |
| Utils.FlattenDropsMethodKeys | request/utils.js:63-66 | no method block and no `common` block survives flattening |
| Utils.FlattenHeaders | request/utils.js:58-68 | the merge and the delete loop compute `FlattenedHeaders` |
| Utils.DeleteEach | request/utils.js:63-66 | the delete loop removes exactly the listed keys |
| Utils.FlattenPrecedence | request/utils.js:62 | after flattening, a header is present iff one of the three layers has it; a top-level header beats the method block, which beats the common block |
| Utils.ThreeLayers | request/utils.js:62 | for `deepMerge(a, b, c)`: the keys are those of the three layers, and a non-object value comes from the last layer that has it |
| MergeConfig.StratFor | request/core/mergeConfig.js:13-25 | only `headers` is merged deeply; every other key uses the default strategy |
| MergeConfig.DefaultStrat | request/core/mergeConfig.js:27-29 | the second value wins unless it is `undefined` |
| MergeConfig.DeepMergeStrat | request/core/mergeConfig.js:31-41 | a plain-object second value is deep-merged over the first; any other defined second value wins; otherwise the first value is kept (copied if it is a plain object) |
| MergeConfig.MergedConfig | request/core/mergeConfig.js:43-60 | the merged configuration has the keys of both configurations |
| MergeConfig.MergedOn | request/core/mergeConfig.js:55-58 | merging on a set of keys gives exactly those keys |
| MergeConfig.MergedOnAdd | request/core/mergeConfig.js:55-58 | `mergeField` on one more key adds exactly that key |
| MergeConfig.Merge | request/core/mergeConfig.js:43-60 | the two `for ... in` loops compute `MergedConfig` |
| MergeConfig.MergedConfigValue | request/core/mergeConfig.js:43-60 | per key: the call's value wins unless it is `undefined`; `headers` are deep-merged |
| MergeConfig.MergeOverNothing | request/core/mergeConfig.js:43-60 | merging an empty configuration over a configuration leaves it unchanged |
| MergeConfig.MergeOntoNothing | request/core/mergeConfig.js:43-60 | merging over empty defaults gives the configuration unchanged |
| Interceptors.EjectedAt | request/core/interceptorManager.js:29-33 | after `eject(id)` with an array index `id` (an integer in `[0, 2^32 - 1)`), slot `id` is null, and an id past the end grows the array to `id + 1`; any other id is a plain property and leaves the array as it is |
| Interceptors.EjectOthersUnchanged | request/core/interceptorManager.js:29-33 | `eject` changes no other slot; indices skipped past the end are holes |
| Interceptors.Holes | request/core/interceptorManager.js:31 | a write past the end leaves holes at the skipped indices |
| Interceptors.LiveOf | request/core/interceptorManager.js:21-27 | `forEach` visits at most one interceptor per slot |
| Interceptors.LiveOfAppend | request/core/interceptorManager.js:21-27 | `forEach` visits a concatenation in order |
| Interceptors.LiveOfMembers | request/core/interceptorManager.js:21-27 | an interceptor is visited iff some slot holds it live |
| Interceptors.LiveOfAround | request/core/interceptorManager.js:21-27 | what is visited splits around any one slot |
| Interceptors.EjectLive | request/core/interceptorManager.js:29-33 | ejecting a live slot removes exactly that interceptor from the visit and keeps the others in order |
| Interceptors.EjectNotLive | request/core/interceptorManager.js:29-33 | ejecting an id without a live interceptor leaves the visit unchanged |
| Interceptors.EjectPastEnd | request/core/interceptorManager.js:31 | an eject past the end adds no visited interceptor |
| Interceptors.NoLiveSlots | request/core/interceptorManager.js:24 | slots that are all holes or null are never visited |
| Interceptors.EjectIdempotent | request/core/interceptorManager.js:31 | ejecting twice is ejecting once |
| Interceptors.InterceptorManager.constructor | request/core/interceptorManager.js:9-11 | a new manager has no slots |
| Interceptors.InterceptorManager.Use | request/core/interceptorManager.js:13-19 | `use` appends one live slot and returns its index, the old length |
| Interceptors.InterceptorManager.Eject | request/core/interceptorManager.js:29-33 | `eject` writes null as `EjectedAt` describes |
| Interceptors.InterceptorManager.ForEach | request/core/interceptorManager.js:21-27 | the interceptors passed to the callback are exactly `LiveOf` of the slots, in order |
| Interceptors.UseEjectUse | request/core/interceptorManager.js:13-33 | ids are never reused: a later `use` returns a larger id, whatever was ejected in between |
| RequestCore.InterceptsAppend | request/core/request.js:30-35 | the steps of interceptors registered in two runs are those of the first run, then those of the second |
| RequestCore.Reversed | request/core/request.js:34 | `unshift` one by one reverses the order |
| RequestCore.ChainOrder | request/core/request.js:30-35 | the chain has request interceptors last-registered first, then `dispatchRequest`, then response interceptors in order |
| RequestCore.DispatchOnce | request/core/request.js:30-35 | `dispatchRequest` occurs exactly once in the chain |
| RequestCore.NoDispatchIn | request/core/request.js:34-35 | interceptor steps never include `dispatchRequest` |
| RequestCore.BuildChain | request/core/request.js:30-35 | the `unshift`/`push` loops build `Chain` |
| RequestCore.Drain | request/core/request.js:37-43 | the `shift` loop hands every step to `.then`, in chain order |
| RequestCore.Request.constructor | request/core/request.js:13-19 | a client keeps its defaults and two distinct, empty interceptor managers |
| RequestCore.Request.Request | request/core/request.js:21-45 | a string URL is written into the given or a fresh configuration; any other argument is the configuration; the result is merged over the defaults, and the chain comes from the live interceptors |
| RequestCore.Request.RequestWithoutData | request/core/request.js:75-82 | `method` and `url` are assigned into the caller's object (or a fresh one), which is then merged over the defaults |
| RequestCore.Request.RequestWithData | request/core/request.js:84-92 | `method`, `url` and `data` are assigned into the caller's object (or a fresh one), which is then merged over the defaults |
| Dispatch.TransformURL | request/core/dispatchRequest.js:25-27 | the base URL is prefixed as `+` does it: a missing base gives the URL; `null` gives the text "null"; a missing URL gives the text "undefined" |
| Dispatch.RequestMethod | request/core/dispatchRequest.js:22 | a falsy method becomes GET; a string is upper-cased; anything else throws; a result holds no lower-case letter |
| Dispatch.RequestMethodIdempotent | request/core/dispatchRequest.js:22 | normalising the method a second time changes nothing |
| Dispatch.AuthURLAllows | request/core/dispatchRequest.js:32-37 | a missing `authURL` throws; otherwise auth is allowed iff the URL is not in the exclusive list and is in the inclusive list, when there is one |
| Dispatch.TransformedHeaders | request/core/dispatchRequest.js:29-55 | `transformHeaders` as a value; `ExclusiveSkipsAuth`, `InclusiveRequired`, `AuthOnlyWhenAllowed` and `AuthAdded` state when it adds the auth header |
| Dispatch.ExclusiveSkipsAuth | request/core/dispatchRequest.js:32-34 | a URL in the exclusive list gets the flattened headers unchanged |
| Dispatch.InclusiveRequired | request/core/dispatchRequest.js:35-37 | a URL missing from the inclusive list gets the flattened headers unchanged |
| Dispatch.AuthOnlyWhenAllowed | request/core/dispatchRequest.js:38-53 | if the headers changed, every auth condition held and only the auth header was added |
| Dispatch.AuthAdded | request/core/dispatchRequest.js:38-53 | if every auth condition holds, the auth header is added |
| Dispatch.ProcessedFields | request/core/dispatchRequest.js:19-23 | a completed `procressConfig` sets exactly `headers`, `url` and `method`, and keeps every other field |
| Dispatch.ProcessedCompletes | request/core/dispatchRequest.js:19-23 | `procressConfig` completes iff neither the header step nor the method step throws |
| Dispatch.AuthListsSeeRawUrl | request/core/dispatchRequest.js:19-37 | the auth lists are checked against the URL before the base is prefixed; listing the full URL as exclusive does not withhold auth |
| Dispatch.ProcessConfig | request/core/dispatchRequest.js:19-23 | the in-place updates leave the object's fields and the completion as `Processed` states |
| Defaults.AddMethodBlocks | request/defaults.js:31-44 | after both loops: every method without data has an empty block; every method with data has the JSON content type; other keys are kept, and no key is invented |
| Defaults.BuildDefaultHeaders | request/defaults.js:13-44 | the two loops, run on the common block alone, produce exactly the `headers` default the client starts from |
| Defaults.DefaultHeadersBlocks | request/defaults.js:8-44 | the default headers hold the common block and exactly the blocks the two loops write |
| GqlParse.FormatQuery | request/core/graphQL.js:163-179 | accepted iff the query is truthy and is a string or an array of strings; a string becomes a one-element batch; an array is returned as it is |
| GqlParse.GroupMatchIsGroup | request/core/graphQL.js:190-192 | a match of `/\(([^)]*)\)/` is an opening parenthesis followed by its first closing one |
| GqlParse.GroupMatchNone | request/core/graphQL.js:190-193 | there is no match iff no `(` is followed anywhere by `)` |
| GqlParse.GroupMatchUnique | request/core/graphQL.js:190-192 | the match is the leftmost group |
| GqlParse.AppendedParensMatch | request/core/graphQL.js:193-199 | after `()` is appended, the pattern always matches |
| GqlParse.VariablesOf | request/core/graphQL.js:210-219 | a successful read gives one variable per segment |
| GqlParse.DeclaredVariablesErrors | request/core/graphQL.js:209-219 | reading declarations fails only with a missing type or with a type error |
| GqlParse.SegmentWithoutColon | request/core/graphQL.js:211-213 | a segment gives the TypeError of `undefined.trim()` exactly when it holds no `:` |
| GqlParse.SegmentEmptyType | request/core/graphQL.js:211-216 | a segment `key:type` with a blank type throws the missing-type error for the trimmed key |
| GqlParse.DeclaredVariablesFailsAt | request/core/graphQL.js:209-217 | reading stops at the first failing segment and throws that segment's error |
| GqlParse.DeclaredVariablesSucceeds | request/core/graphQL.js:209-219 | reading succeeds exactly when the interior is empty or every segment reads |
| GqlParse.DeclarationErrorThrows | request/core/graphQL.js:209-217 | a named group whose declarations fail makes `parseQuery` throw that error |
| GqlParse.MissingTypeExample | request/core/graphQL.js:214-216 | `a(b:)` throws the missing-type error for `b` |
| GqlParse.MissingColonExample | request/core/graphQL.js:211-213 | `a(b)` throws the TypeError |
| GqlParse.ParsedGroupParts | request/core/graphQL.js:200-227 | the descriptor carries the name before the group, the declared variables and their map, the variable store and the fragment; an empty name is the only naming error; it is never a syntax error |
| GqlParse.NormalizedMatches | request/core/graphQL.js:189-199 | the trimmed query, completed with `()`, always matches |
| GqlParse.NeverSyntaxError | request/core/graphQL.js:196-198 | `parseQuery` never throws its syntax error |
| GqlParse.MissingParens | request/core/graphQL.js:193-195 | a query without a group parses as the trimmed query followed by `()` |
| GqlParse.TextAfterGroupIgnored | request/core/graphQL.js:190-202 | text after the first group is ignored |
| GqlParse.ParsedQueryAt | request/core/graphQL.js:188-227 | `parseQuery` reads the name before the group and the declarations inside it |
| GqlParse.PrefixThroughGroup | request/core/graphQL.js:190-202 | the query cut after its first group is already normalised and matches at the same place |
| GqlParse.MissingNameExactly | request/core/graphQL.js:201-205 | the naming error occurs iff the trimmed query is empty or starts with `(` |
| GqlParse.ParsedAll | request/core/graphQL.js:109-113 | a successful parse gives one descriptor per query |
| GqlParse.ParsedAllPointwise | request/core/graphQL.js:109-113 | descriptor i is `parseQuery` of query i |
| GqlParse.ParsedQueryParts | request/core/graphQL.js:221-226 | a descriptor carries the operation type, its variable store and its response fragment |
| GqlParse.ParsedTypes | request/core/graphQL.js:224-226 | every descriptor of a parsed batch carries the call's operation type |
| GqlParse.ParsedStoresAndFragments | request/core/graphQL.js:102-115 | a single query takes all variables, and a batch takes `variables[name] \|\| {}`; a string response node is used as is; a falsy one gives `''`; an object gives `node[name] \|\| ''` |
| GqlParse.DeclarationsPlain | request/core/graphQL.js:210-211 | declarations of plain variables hold no `,` and no `)` |
| GqlParse.SegmentRoundTrip | request/core/graphQL.js:211-217 | reading back one `key:type` declaration gives the variable |
| GqlParse.VariablesRoundTrip | request/core/graphQL.js:210-219 | reading back a list of declarations gives the variables |
| GqlParse.ShorthandRoundTrip | request/core/graphQL.js:188-227 | parsing `name(k:T,...)` gives that name, those variables and the operation type |
| GqlParse.ShorthandText | request/core/graphQL.js:190-202 | the shorthand is normalised, its group spans the declarations, and the name precedes it |
| GqlParse.InteriorRoundTrip | request/core/graphQL.js:209-219 | the text between the parentheses reads back as the variables |
| GqlParse.CollectVariables | request/core/graphQL.js:210-219 | the `forEach` over segments computes `VariablesOf` and the `variablesMap` |
| GqlParse.ParseQuery | request/core/graphQL.js:188-228 | `parseQuery` returns `ParsedQuery`'s descriptor or error |
| GqlParse.ParsedQuery | request/core/graphQL.js:188-228 | `parseQuery` as a value; `ParsedQueryAt`, `MissingParens`, `TextAfterGroupIgnored`, `MissingNameExactly`, `NeverSyntaxError` and `ShorthandRoundTrip` state what it returns |
| GqlParse.ParseGroup | request/core/graphQL.js:200-227 | building the descriptor from the match computes `ParsedGroup` |
| GqlParse.ReadVariables | request/core/graphQL.js:209-220 | reading the declarations computes `DeclaredVariables` and the map |
| GqlParse.Parse | request/core/graphQL.js:102-115 | `parse` computes `Parsed` |
| GqlParse.ParseEach | request/core/graphQL.js:109-113 | the `forEach` computes `ParsedAll`, stopping at the first throw |
| GqlCodegen.ScopedNameInjective | request/core/graphQL.js:134 | within one operation, distinct keys get distinct scoped names |
| GqlCodegen.Names | request/core/graphQL.js:123 | name i is the operation name of descriptor i, one name per descriptor |
| GqlCodegen.ScopedDeclarationsNone | request/core/graphQL.js:129-138 | no scoped declaration exists iff no operation has variables |
| GqlCodegen.ParenthesesIffVariables | request/core/graphQL.js:125 | the variable list is empty iff no operation has variables; otherwise it is parenthesised |
| GqlCodegen.Bodies | request/core/graphQL.js:141-153 | one body per descriptor |
| GqlCodegen.OperationBodyParts | request/core/graphQL.js:143-151 | arguments appear iff the operation has variables; a selection appears iff the fragment is truthy; the body starts with the name |
| GqlCodegen.MainStatementTerminated | request/core/graphQL.js:139-155 | the main statement is the bodies, each followed by `↵` |
| GqlCodegen.BodiesAt | request/core/graphQL.js:141-153 | body i belongs to descriptor i |
| GqlCodegen.MainStatementSplits | request/core/graphQL.js:139-155 | splitting the main statement on `↵` gives the bodies back in order, then an empty piece |
| GqlCodegen.Braced | request/core/graphQL.js:126-128 | the document body ends with `}` |
| GqlCodegen.Document | request/core/graphQL.js:120-157 | `gencode` as a value; `DocumentShape`, `OnlyFirstTypeMatters`, `ParenthesesIffVariables` and `MainStatementSplits` state its shape |
| GqlCodegen.DocumentShape | request/core/graphQL.js:120-157 | `gencode` succeeds iff the batch is non-empty; the document starts with the type and joined names, and ends with `}` |
| GqlCodegen.SameTextParts | request/core/graphQL.js:120-157 | descriptors with the same names, variables and fragments give the same names, declarations and main statement |
| GqlCodegen.OnlyFirstTypeMatters | request/core/graphQL.js:122 | only the first descriptor's operation type reaches the document |
| GqlCodegen.ScopedKeys | request/core/graphQL.js:235-237 | a scoped key is present iff its key is in the store and is not `__proto__`; it holds the stored value; every scoped key comes from a store key |
| GqlCodegen.ScopedVariables | request/core/graphQL.js:230-241 | `getVariablesWithScoped` as a value; `ScopedVariablesErrors`, `ScopedVariablesMerged`, `ScopedVariablesKeys` and `ScopedVariablesLastWins` state what it collects |
| GqlCodegen.ScopedVariablesErrors | request/core/graphQL.js:230-241 | collection fails iff some store is `null` or `undefined`, and then with a type error |
| GqlCodegen.ScopedVariablesMerged | request/core/graphQL.js:230-241 | the collected variables are the per-operation contributions merged in order |
| GqlCodegen.ScopedVariablesKeys | request/core/graphQL.js:230-241 | a key is collected iff some operation contributes it |
| GqlCodegen.ScopedVariablesLastWins | request/core/graphQL.js:233-238 | a key written by several operations keeps the last one's value |
| GqlCodegen.ScopedOneMore | request/core/graphQL.js:235-237 | writing one more key adds its scoped name, except when that name is `__proto__` |
| GqlCodegen.VariablesScoped | request/core/graphQL.js:129-138 | `getVariablesScoped` computes the scoped declarations |
| GqlCodegen.CreateMainStatement | request/core/graphQL.js:139-155 | `createMainStatement` computes the main statement |
| GqlCodegen.Gencode | request/core/graphQL.js:120-157 | `gencode` computes `Document`, a type error on an empty batch |
| GqlCodegen.WriteScoped | request/core/graphQL.js:235-237 | the inner loop adds the operation's scoped variables over what is already collected |
| GqlCodegen.GetVariablesWithScoped | request/core/graphQL.js:230-241 | the outer loop computes `ScopedVariables`, a type error on a nullish store |
| GqlClient.InheritedTruthy | request/core/graphQL.js:13 | a missing cache key is truthy iff it names an `Object.prototype` member |
| GqlClient.CachedHit | request/core/graphQL.js:63-64 | in a cache of blanks, a lookup hits iff the key is absent and names a prototype member; a hit is never a string |
| GqlClient.StatementCache.constructor | request/core/graphQL.js:13 | the cache starts with no own entries |
| GqlClient.StatementCache.Forget | request/core/graphQL.js:75 | a failure stores `''` under its key, which keeps the cache all blanks |
| GqlClient.CustomFlagTruthiness | request/core/graphQL.js:22-26 | the instance flag is the truthiness of `custom`, except for the string `'undefined'` |
| GqlClient.Bypass | request/core/graphQL.js:54-58 | a boolean `custom` on the call decides; otherwise the instance flag does |
| GqlClient.CacheKey | request/core/graphQL.js:62 | the joined queries followed by `String(responseNode)`; `PlanIgnoresCache` and `InheritedNameIsHit` state what a lookup under it does |
| GqlClient.Compile | request/core/graphQL.js:66-70 | parsing, code generation and variable collection compute `Compiled`, stopping at the first throw |
| GqlClient.Planned | request/core/graphQL.js:46-80 | what a call posts, or its rejection; `MalformedRejected`, `BypassPostsQueries`, `PlanIgnoresCache`, `CompiledPlan`, `PlanCarriesType` and `EmptyBatchRejected` state its cases |
| GqlClient.MalformedRejected | request/core/graphQL.js:47-49 | a query that is not a truthy string or string array is rejected, and the cache is untouched |
| GqlClient.BypassPostsQueries | request/core/graphQL.js:59-60 | in bypass mode the formatted array is posted as the statement, with no variables and no descriptors, and the cache is untouched |
| GqlClient.CacheKeepsBlanks | request/core/graphQL.js:62-79 | the cache only ever holds `''`, and a posted request never writes it |
| GqlClient.PlanIgnoresCache | request/core/graphQL.js:62-79 | apart from prototype-named keys, the cache never changes what is posted |
| GqlClient.InheritedNameIsHit | request/core/graphQL.js:62-64 | query `constructor` with an empty response node posts the inherited `Object` function |
| GqlClient.CompiledPlan | request/core/graphQL.js:66-70 | a posted compiled request carries the parsed descriptors, their document and their scoped variables |
| GqlClient.PlanCarriesType | request/core/graphQL.js:67-69 | a compiled post carries the call's operation type in every descriptor, and its document starts with that type's keyword |
| GqlClient.EmptyBatchRejected | request/core/graphQL.js:62-78 | an empty batch throws in `gencode`, is rejected, and blanks its cache key |
| GqlClient.GraphQLClient.constructor | request/core/graphQL.js:19-27 | the client's defaults are `deepMerge(defaults, config)`; the flag is computed as written |
| GqlClient.GraphQLClient.DispatchRequest | request/core/graphQL.js:45-99 | rejects iff the plan does; otherwise posts `{query, variables}` to `config.url` with `isGql` and `gql` added to the call's configuration; updates the cache as `CacheAfter` states |
| GqlClient.GraphQLClient.PlanRequest | request/core/graphQL.js:45-80 | the statement, variables and descriptors chosen, and the cache afterwards |
| GqlClient.GraphQLClient.Query | request/core/graphQL.js:32-35 | `query` rejects iff the query-typed plan does; otherwise it posts that plan's statement, variables and descriptors exactly as `dispatchRequest` does; the cache changes as the query-typed `CacheAfter` says |
| GqlClient.GraphQLClient.Mutate | request/core/graphQL.js:40-44 | `mutate` copies `data.mutation` into `data.query` in place, then rejects or posts exactly as the mutation-typed plan says; the cache changes as that plan's `CacheAfter` says |

## Left out

- Network I/O is not modelled: `uniRequest`, `wx.request`, the response transform and cancellation through `cancelToken`. The model stops at the configuration handed to the request.
- Promise evaluation is not modelled. The chain is the sequence of steps passed to `.then`. A rejection is `None`, or a `Reject` plan.
- Logging is not modelled: `requestStart`, `requestEnd` and `requestEndError` in the logger module, and `console.error`. It is not harmless. On the bypass path and the cache-hit path `ast` stays `null` (graphQL.js line 53). With `config.logger` set, `requestEnd(ast, res)` (graphQL.js lines 87-89) then calls `transAst(null)`, and `null.map` throws a TypeError (logger.js line 4). So every such request that succeeds ends up rejected with that TypeError. On failure, `requestEndError` likewise replaces the original error with a TypeError. The model stops before the promise, so it does not capture this.
- The property order of objects is not modelled. Objects are maps, so the order of `Object.keys` and `for ... in` is not captured.
- GqlCodegen.WriteScoped: it walks the store's keys as a set, not in insertion order. Insertion order does not change the result.
- `extend`, `isDate` and the package entry point are not modelled. Dates are not among the modelled values.
- Interceptors.InterceptorManager.Use: the slot array is unbounded. A `push` onto an array of 2^32 - 1 elements, which throws in the source, is not modelled.
- Numbers are integers. Floating point and number-to-text conversion beyond integers are not modelled.
- Text.ToLower and Text.ToUpper map only ASCII letters. Unicode case mapping is not modelled.
- Object.prototype names in lookups: reading a property sees only own entries, except in the statement cache. The cache does reproduce the inherited members.
- Dispatch.TransformedHeaders: the value `auth()` returns is a parameter, `authResult`, because the callback is caller code.
- GqlClient.GraphQLClient.DispatchRequest: it requires `data` to be neither `null` nor `undefined`. The source throws synchronously when destructuring such a value, before any promise exists.
- GqlClient.GraphQLClient.Query: it requires `data` to be neither `null` nor `undefined`, for the same reason.
- GqlClient.GraphQLClient.Mutate: it takes `data` as an object. Module code is strict, so `data.query = ...` throws on every non-object: a TypeError on `null` and `undefined`, and also on any primitive (a string, number or boolean), where strict mode refuses to create the property.
- GqlClient.GraphQLClient.constructor: it requires `config` not to be `null`. The source throws reading `null.custom`. An `undefined` config becomes `{}`, as the default parameter does.
- GqlClient.GraphQLClient.constructor: `defaults.js` is taken as its value after its loops have run (`Defaults.DefaultConfig`), not as a mutable shared object.
- The `gql` descriptors added to the posted configuration are encoded as JavaScript values with the field names the source uses. `variablesMap` is stored as an object of strings.
- RequestCore.Request.Request: an explicit `null` argument is not modelled. A `null` reference stands for an argument left `undefined`. In the source, `request(null)` throws when `mergeConfig` reads `config2[key]` (mergeConfig.js line 50), and `request('u', null)` throws at `config.url = url` (request.js line 23). The model completes in both cases. A first argument that is neither a string nor an object is not covered either.
- RequestCore.Request.Request: the original configuration is returned beside the merged one. In the source it is written into the merged object as `originConfig`.
- An argument the caller leaves `undefined` is modelled as a `null` reference to a `JsObject`.
