/**
 * The front half of the GraphQL shorthand compiler (request/core/graphQL.js):
 * `formatQuery` normalises the query argument, `parseQuery` reads one
 * shorthand string `name(key:Type,...)` into an operation descriptor, and
 * `parse` does so for every string of a batch.
 */
module GqlParse {
  import opened Wrappers
  import opened Text
  import opened JsValues

  datatype OperationType = Query | Mutation

  /** The keyword `gencode` writes for an operation type. */
  function OperationTypeText(t: OperationType): string
  {
    match t
    case Query => "query"
    case Mutation => "mutation"
  }

  /** A declared variable: its key and its GraphQL type, both trimmed. */
  datatype Variable = Variable(key: string, typ: string)

  /** The descriptor `parseQuery` returns for one shorthand string. */
  datatype Descriptor = Descriptor(
    operationName: string,
    variables: seq<Variable>,
    variablesMap: map<string, string>,
    variablesStore: Value,
    responseNode: Value,
    operationType: OperationType)

  /**
   * What compiling throws: the three errors `parseQuery` raises itself, and
   * the `TypeError` of reading a property of undefined or null.
   */
  datatype CompileError =
    | SyntaxError
    | MissingOperationName
    | MissingVariableType(key: string)
    | RuntimeTypeError

  // ------------------------------------------------------------ formatQuery

  predicate AllStrings(items: seq<Value>)
  {
    forall i :: 0 <= i < |items| ==> items[i].Str?
  }

  /** The strings of a batch as the array of JavaScript strings they came from. */
  function Strings(queries: seq<string>): (r: seq<Value>)
    ensures |r| == |queries| && forall i :: 0 <= i < |queries| ==> r[i] == Str(queries[i])
  {
    seq(|queries|, i requires 0 <= i < |queries| => Str(queries[i]))
  }

  /**
   * `formatQuery(query)`: a string becomes a one-element batch, an array of
   * strings is the batch itself, and anything else, falsy values included,
   * gives `false` (here `None`).
   */
  function FormatQuery(query: Value): (r: Option<seq<string>>)
    ensures r.Some? <==> Truthy(query) && (query.Str? || (query.Arr? && AllStrings(query.items)))
    ensures r.Some? && query.Str? ==> r.value == [query.s]
    ensures r.Some? && query.Arr? ==> Arr(Strings(r.value)) == query
  {
    if !Truthy(query) then None
    else if query.Str? then Some([query.s])
    else if query.Arr? then
      if AllStrings(query.items) then
        Some(seq(|query.items|, i requires 0 <= i < |query.items| => query.items[i].s))
      else None
    else None
  }

  // --------------------------------------------------------------- the regex

  /**
   * `s.match(/\(([^)]*)\)/)`: the indices of the `(` and the `)` of the
   * match, or `None`. The leftmost match starts at the first `(`: a later
   * `(` can only be followed by a `)` that also follows the first one.
   */
  function GroupMatch(s: string): Option<(nat, nat)>
  {
    var open := FirstFrom(s, '(', 0);
    if open == |s| then None
    else
      var close := FirstFrom(s, ')', open + 1);
      if close == |s| then None else Some((open, close))
  }

  /** `open` is the first `(` of `s`, and `close` the first `)` after it. */
  predicate IsGroup(s: string, open: nat, close: nat)
  {
    && open < close < |s| && s[open] == '(' && s[close] == ')'
    && (forall k :: 0 <= k < open ==> s[k] != '(')
    && (forall k :: open < k < close ==> s[k] != ')')
  }

  /** A match is the first `(` and the first `)` after it. */
  lemma GroupMatchIsGroup(s: string)
    requires GroupMatch(s).Some?
    ensures IsGroup(s, GroupMatch(s).value.0, GroupMatch(s).value.1)
  {
    FirstFromFinds(s, '(', 0);
    FirstFromFinds(s, ')', FirstFrom(s, '(', 0) + 1);
  }

  /** There is no match exactly when no `(` has a `)` somewhere after it. */
  lemma GroupMatchNone(s: string)
    ensures GroupMatch(s).None? <==> forall i, j :: 0 <= i < j < |s| && s[i] == '(' ==> s[j] != ')'
  {
    var open := FirstFrom(s, '(', 0);
    FirstFromFinds(s, '(', 0);
    if open < |s| {
      FirstFromFinds(s, ')', open + 1);
    }
  }

  /** Any first `(` with the first `)` after it is what `match` finds. */
  lemma GroupMatchUnique(s: string, open: nat, close: nat)
    requires IsGroup(s, open, close)
    ensures GroupMatch(s) == Some((open, close))
  {
    FirstFromFinds(s, '(', 0);
    FirstFromFinds(s, ')', open + 1);
  }

  /** Appending `()` always gives a match: the `syntax error` throw is unreachable. */
  lemma AppendedParensMatch(t: string)
    ensures GroupMatch(t + "()").Some?
  {
    var s := t + "()";
    assert s[|t|] == '(' && s[|t| + 1] == ')';
    FirstFromFinds(s, '(', 0);
    FirstFromFinds(s, ')', FirstFrom(s, '(', 0) + 1);
  }

  // ------------------------------------------------------------- parseQuery

  /** Lines 189-199: the trimmed query, with `()` appended when it has no group. */
  function Normalized(query: string): string
  {
    var t := Trim(query);
    if GroupMatch(t).Some? then t else t + "()"
  }

  /**
   * Lines 211-216: one comma-separated segment `key:type`. A segment without
   * `:` leaves `type` undefined, and `type.trim()` throws a TypeError.
   */
  function SegmentVariable(segment: string): Result<Variable, CompileError>
  {
    var parts := Split(segment, ':');
    if |parts| < 2 then Err(RuntimeTypeError)
    else
      var key, typ := Trim(parts[0]), Trim(parts[1]);
      if typ == "" then Err(MissingVariableType(key)) else Ok(Variable(key, typ))
  }

  /** The variables of the segments, in order, or the error of the first bad segment. */
  function VariablesOf(segments: seq<string>): (r: Result<seq<Variable>, CompileError>)
    ensures r.Ok? ==> |r.value| == |segments|
  {
    AllOk(Outcomes(SegmentVariable, segments))
  }

  /** Reading the declarations fails only with the two errors a segment can raise. */
  lemma DeclaredVariablesErrors(interior: string)
    ensures var r := DeclaredVariables(interior);
      r.Err? ==> r.error == RuntimeTypeError || r.error.MissingVariableType?
  {
    if interior != "" && DeclaredVariables(interior).Err? {
      var segments := Split(interior, ',');
      var rs := Outcomes(SegmentVariable, segments);
      AllOkError(rs);
      var k :| 0 <= k < |rs| && rs[k] == Err(AllOk(rs).error);
      OutcomesAt(SegmentVariable, segments, k);
    }
  }

  /** A segment gives the TypeError of `undefined.trim()` exactly when it holds no `:`. */
  lemma SegmentWithoutColon(segment: string)
    ensures SegmentVariable(segment) == Err(RuntimeTypeError) <==> ':' !in segment
  {
    if ':' in segment {
      SplitAtSeparator(segment, ':');
    } else {
      SplitPiece(segment, ':');
    }
  }

  /** A segment `key:type` whose type, up to the next `:`, is blank throws the missing-type error for the trimmed key. */
  lemma SegmentEmptyType(key: string, rest: string)
    requires ':' !in key && Trim(Split(rest, ':')[0]) == ""
    ensures SegmentVariable(key + ":" + rest) == Err(MissingVariableType(Trim(key)))
  {
    assert key + ":" + rest == key + [':'] + rest;
    SplitPieceThen(key, ':', rest);
  }

  /** Reading stops at the first segment that fails, and fails with that segment's error. */
  lemma DeclaredVariablesFailsAt(interior: string, k: nat)
    requires interior != "" && k < |Split(interior, ',')|
    requires forall j :: 0 <= j < k ==> SegmentVariable(Split(interior, ',')[j]).Ok?
    requires SegmentVariable(Split(interior, ',')[k]).Err?
    ensures DeclaredVariables(interior) == Err(SegmentVariable(Split(interior, ',')[k]).error)
  {
    var segments := Split(interior, ',');
    var rs := Outcomes(SegmentVariable, segments);
    forall j | 0 <= j <= k
      ensures rs[j] == SegmentVariable(segments[j])
    {
      OutcomesAt(SegmentVariable, segments, j);
    }
    AllOkFirstError(rs, k);
  }

  /** Reading succeeds exactly when the interior is empty or every segment reads. */
  lemma DeclaredVariablesSucceeds(interior: string)
    ensures DeclaredVariables(interior).Ok?
        <==> interior == "" || forall k :: 0 <= k < |Split(interior, ',')| ==> SegmentVariable(Split(interior, ',')[k]).Ok?
  {
    if interior != "" {
      var segments := Split(interior, ',');
      var rs := Outcomes(SegmentVariable, segments);
      forall j | 0 <= j < |segments|
        ensures rs[j] == SegmentVariable(segments[j])
      {
        OutcomesAt(SegmentVariable, segments, j);
      }
      AllOkSucceeds(rs);
      assert DeclaredVariables(interior) == AllOk(rs);
      if !AllOk(rs).Ok? {
        var k :| 0 <= k < |rs| && !rs[k].Ok?;
        assert !SegmentVariable(Split(interior, ',')[k]).Ok?;
      }
    }
  }

  /** A named group whose declarations fail makes `parseQuery` throw that error (lines 209-217). */
  lemma DeclarationErrorThrows(name: string, interior: string, responseNode: Value, typ: OperationType, variables: Value, isOnlyQuery: bool)
    requires name != "" && DeclaredVariables(interior).Err?
    ensures ParsedGroup(name, interior, responseNode, typ, variables, isOnlyQuery) == Err(DeclaredVariables(interior).error)
  {
  }

  /** `a(b:)` throws the missing-type error for `b` (lines 214-216). */
  lemma MissingTypeExample(responseNode: Value, typ: OperationType, variables: Value, isOnlyQuery: bool)
    ensures ParsedQuery("a(b:)", responseNode, typ, variables, isOnlyQuery) == Err(MissingVariableType("b"))
  {
    var query := "a(b:)";
    ExampleGroup(query, 4, responseNode, typ, variables, isOnlyQuery);
    assert query[2..4] == "b:";
    SplitPiece("b:", ',');
    assert "b" + ":" + "" == "b:";
    SegmentEmptyType("b", "");
    TrimTrimmed("b");
    DeclaredVariablesFailsAt("b:", 0);
    DeclarationErrorThrows("a", "b:", responseNode, typ, variables, isOnlyQuery);
  }

  /** `a(b)` throws the TypeError of `undefined.trim()` (line 213). */
  lemma MissingColonExample(responseNode: Value, typ: OperationType, variables: Value, isOnlyQuery: bool)
    ensures ParsedQuery("a(b)", responseNode, typ, variables, isOnlyQuery) == Err(RuntimeTypeError)
  {
    var query := "a(b)";
    ExampleGroup(query, 3, responseNode, typ, variables, isOnlyQuery);
    assert query[2..3] == "b";
    SplitPiece("b", ',');
    SegmentWithoutColon("b");
    DeclaredVariablesFailsAt("b", 0);
    DeclarationErrorThrows("a", "b", responseNode, typ, variables, isOnlyQuery);
  }

  /** A trimmed query `a(...)` whose only `)` is its last character parses as the group named `a`. */
  lemma ExampleGroup(query: string, close: nat, responseNode: Value, typ: OperationType, variables: Value, isOnlyQuery: bool)
    requires close == |query| - 1 && 2 <= close && query[..2] == "a(" && query[close] == ')'
    requires !IsSpace(query[0]) && forall i :: 1 < i < close ==> query[i] != '(' && query[i] != ')'
    ensures ParsedQuery(query, responseNode, typ, variables, isOnlyQuery)
         == ParsedGroup("a", query[2..close], responseNode, typ, variables, isOnlyQuery)
  {
    TrimTrimmed(query);
    assert query[0] == 'a' && query[1] == '(';
    GroupMatchUnique(query, 1, close);
    assert query[..1] == "a";
  }

  /** Lines 209-220: an empty group interior declares nothing; otherwise it is split on `,`. */
  function DeclaredVariables(interior: string): Result<seq<Variable>, CompileError>
  {
    if interior == "" then Ok([]) else VariablesOf(Split(interior, ','))
  }

  /**
   * `result.variablesMap[key] = type` for each variable in turn; writing
   * '__proto__' on an object literal sets its prototype (to nothing, for a
   * string) instead of creating a property.
   */
  function VariablesMapOf(vars: seq<Variable>): map<string, string>
  {
    if vars == [] then map[]
    else
      var last := vars[|vars| - 1];
      var front := VariablesMapOf(vars[..|vars| - 1]);
      if last.key == "__proto__" then front else front[last.key := last.typ]
  }

  /** Line 224: the whole variables object for a single query, else its member named after the operation, `{}` when falsy. */
  function VariablesStore(variables: Value, name: string, isOnlyQuery: bool): Result<Value, CompileError>
  {
    if isOnlyQuery then Ok(variables)
    else if variables == Undefined || variables == Null then Err(RuntimeTypeError)
    else Ok(Or(Prop(variables, name), Obj(map[])))
  }

  /** Lines 221-225: a string response node is the fragment; otherwise its member named after the operation, `''` when falsy. */
  function Fragment(responseNode: Value, name: string): Result<Value, CompileError>
  {
    if responseNode.Str? then Ok(Or(responseNode, Str("")))
    else if responseNode == Undefined || responseNode == Null then Err(RuntimeTypeError)
    else Ok(Or(Prop(responseNode, name), Str("")))
  }

  /** `parseQuery(query, responseNode, type, variables, isOnlyQuery)`. */
  function ParsedQuery(query: string, responseNode: Value, typ: OperationType, variables: Value, isOnlyQuery: bool)
    : Result<Descriptor, CompileError>
  {
    var text := Normalized(query);
    match GroupMatch(text)
    case None => Err(SyntaxError)
    case Some((open, close)) => ParsedGroup(text[..open], text[open + 1..close], responseNode, typ, variables, isOnlyQuery)
  }

  /**
   * Lines 200-227, once the group is found: the text before it names the
   * operation, its interior declares the variables.
   */
  function ParsedGroup(name: string, interior: string, responseNode: Value, typ: OperationType, variables: Value, isOnlyQuery: bool)
    : Result<Descriptor, CompileError>
  {
    if name == "" then Err(MissingOperationName)
    else
      var vars :- DeclaredVariables(interior);
      var store :- VariablesStore(variables, name, isOnlyQuery);
      var fragment :- Fragment(responseNode, name);
      Ok(Descriptor(name, vars, VariablesMapOf(vars), store, fragment, typ))
  }

  /**
   * A descriptor carries the name, the declared variables and their map, the
   * store and the fragment, each as its own rule gives it; the name error is
   * raised exactly for an empty name, and the syntax error never.
   */
  lemma ParsedGroupParts(name: string, interior: string, responseNode: Value, typ: OperationType, variables: Value, isOnlyQuery: bool)
    ensures var r := ParsedGroup(name, interior, responseNode, typ, variables, isOnlyQuery);
      && (r == Err(MissingOperationName) <==> name == "")
      && r != Err(SyntaxError)
      && (r.Ok? ==> r.value.operationName == name && r.value.operationType == typ)
      && (r.Ok? ==> Ok(r.value.variables) == DeclaredVariables(interior))
      && (r.Ok? ==> r.value.variablesMap == VariablesMapOf(r.value.variables))
      && (r.Ok? ==> Ok(r.value.variablesStore) == VariablesStore(variables, name, isOnlyQuery))
      && (r.Ok? ==> Ok(r.value.responseNode) == Fragment(responseNode, name))
  {
    DeclaredVariablesErrors(interior);
  }

  /** The group `Normalized(query)` always has. */
  lemma NormalizedMatches(query: string)
    ensures GroupMatch(Normalized(query)).Some?
  {
    if GroupMatch(Trim(query)).None? {
      AppendedParensMatch(Trim(query));
    }
  }

  /** The second match always succeeds: parsing never fails with `SyntaxError`. */
  lemma NeverSyntaxError(query: string, responseNode: Value, typ: OperationType, variables: Value, isOnlyQuery: bool)
    ensures ParsedQuery(query, responseNode, typ, variables, isOnlyQuery) != Err(SyntaxError)
  {
    var text := Normalized(query);
    NormalizedMatches(query);
    var (open, close) := GroupMatch(text).value;
    ParsedQueryAt(query, text, open, close, responseNode, typ, variables, isOnlyQuery);
    ParsedGroupParts(text[..open], text[open + 1..close], responseNode, typ, variables, isOnlyQuery);
  }

  /** A shorthand without a `(...)` group is parsed exactly as the same string with `()` appended. */
  lemma MissingParens(query: string, responseNode: Value, typ: OperationType, variables: Value, isOnlyQuery: bool)
    requires GroupMatch(Trim(query)).None?
    ensures ParsedQuery(query, responseNode, typ, variables, isOnlyQuery)
         == ParsedQuery(Trim(query) + "()", responseNode, typ, variables, isOnlyQuery)
  {
    var t := Trim(query) + "()";
    AppendedParensMatch(Trim(query));
    TrimIsTrimmed(query);
    assert IsTrimmed(t);
    TrimTrimmed(t);
    assert Normalized(t) == t == Normalized(query);
  }

  /** Text after the closing `)` of the first group is ignored. */
  lemma TextAfterGroupIgnored(query: string, responseNode: Value, typ: OperationType, variables: Value, isOnlyQuery: bool)
    requires GroupMatch(Trim(query)).Some?
    ensures var close := GroupMatch(Trim(query)).value.1;
      ParsedQuery(query, responseNode, typ, variables, isOnlyQuery)
        == ParsedQuery(Trim(query)[..close + 1], responseNode, typ, variables, isOnlyQuery)
  {
    var t := Trim(query);
    var open, close := GroupMatch(t).value.0, GroupMatch(t).value.1;
    var u := t[..close + 1];
    TrimIsTrimmed(query);
    GroupMatchIsGroup(t);
    PrefixThroughGroup(t, open, close);
    ParsedQueryAt(query, t, open, close, responseNode, typ, variables, isOnlyQuery);
    ParsedQueryAt(u, u, open, close, responseNode, typ, variables, isOnlyQuery);
    assert ParsedQuery(u, responseNode, typ, variables, isOnlyQuery)
        == ParsedGroup(t[..open], t[open + 1..close], responseNode, typ, variables, isOnlyQuery);
  }

  /** Once the group of the normalised text is known, parsing reads the name and the interior off it. */
  lemma ParsedQueryAt(query: string, text: string, open: nat, close: nat,
                      responseNode: Value, typ: OperationType, variables: Value, isOnlyQuery: bool)
    requires Normalized(query) == text && GroupMatch(text) == Some((open, close))
    ensures open < close < |text|
    ensures ParsedQuery(query, responseNode, typ, variables, isOnlyQuery)
         == ParsedGroup(text[..open], text[open + 1..close], responseNode, typ, variables, isOnlyQuery)
  {
    GroupMatchIsGroup(text);
  }

  /** Cutting a trimmed string after its group keeps it trimmed and keeps the group. */
  lemma PrefixThroughGroup(t: string, open: nat, close: nat)
    requires IsTrimmed(t) && IsGroup(t, open, close)
    ensures var u := t[..close + 1];
      && Normalized(u) == u && GroupMatch(u) == Some((open, close))
      && u[..open] == t[..open] && u[open + 1..close] == t[open + 1..close]
  {
    var u := t[..close + 1];
    assert IsTrimmed(u);
    TrimTrimmed(u);
    assert u[..open] == t[..open];
    assert u[open + 1..close] == t[open + 1..close];
    GroupMatchUnique(u, open, close);
  }

  /** The name is missing exactly when the trimmed shorthand is empty or starts with `(`. */
  lemma MissingNameExactly(query: string, responseNode: Value, typ: OperationType, variables: Value, isOnlyQuery: bool)
    ensures ParsedQuery(query, responseNode, typ, variables, isOnlyQuery) == Err(MissingOperationName)
        <==> Trim(query) == "" || Trim(query)[0] == '('
  {
    var t := Trim(query);
    var text := Normalized(query);
    NormalizedMatches(query);
    var (open, close) := GroupMatch(text).value;
    GroupMatchIsGroup(text);
    ParsedQueryAt(query, text, open, close, responseNode, typ, variables, isOnlyQuery);
    ParsedGroupParts(text[..open], text[open + 1..close], responseNode, typ, variables, isOnlyQuery);
    assert text[0] == if t == "" then '(' else t[0];
    assert text[..open] == "" <==> text[0] == '(';
  }

  // ------------------------------------------------------------------ parse

  /** `parseQuery` with the arguments `parse` passes to every string of a batch. */
  function QueryParser(responseNode: Value, typ: OperationType, variables: Value, isOnlyQuery: bool)
    : string -> Result<Descriptor, CompileError>
  {
    query => ParsedQuery(query, responseNode, typ, variables, isOnlyQuery)
  }

  /** The descriptors of the strings of a batch, in order, or the first error. */
  function ParsedAll(queries: seq<string>, responseNode: Value, typ: OperationType, variables: Value, isOnlyQuery: bool)
    : (r: Result<seq<Descriptor>, CompileError>)
    ensures r.Ok? ==> |r.value| == |queries|
  {
    AllOk(Outcomes(QueryParser(responseNode, typ, variables, isOnlyQuery), queries))
  }

  /** `parse(queries, responseNode, type, variables)`: a falsy response node becomes `{}`. */
  function Parsed(queries: seq<string>, responseNode: Value, typ: OperationType, variables: Value)
    : Result<seq<Descriptor>, CompileError>
  {
    ParsedAll(queries, if Truthy(responseNode) then responseNode else Obj(map[]), typ, variables, |queries| == 1)
  }

  /** Each descriptor of a batch is the one its own string parses to, in batch order. */
  lemma ParsedAllPointwise(queries: seq<string>, responseNode: Value, typ: OperationType, variables: Value, isOnlyQuery: bool, i: nat)
    requires ParsedAll(queries, responseNode, typ, variables, isOnlyQuery).Ok? && i < |queries|
    ensures ParsedQuery(queries[i], responseNode, typ, variables, isOnlyQuery)
         == Ok(ParsedAll(queries, responseNode, typ, variables, isOnlyQuery).value[i])
  {
    var parser := QueryParser(responseNode, typ, variables, isOnlyQuery);
    var rs := Outcomes(parser, queries);
    AllOkValues(rs, AllOk(rs).value);
    OutcomesAt(parser, queries, i);
  }

  /** What a parsed descriptor holds besides its name and variables. */
  lemma ParsedQueryParts(query: string, responseNode: Value, typ: OperationType, variables: Value, isOnlyQuery: bool)
    requires ParsedQuery(query, responseNode, typ, variables, isOnlyQuery).Ok?
    ensures var d := ParsedQuery(query, responseNode, typ, variables, isOnlyQuery).value;
      && d.operationType == typ
      && Ok(d.variablesStore) == VariablesStore(variables, d.operationName, isOnlyQuery)
      && Ok(d.responseNode) == Fragment(responseNode, d.operationName)
  {
    var text := Normalized(query);
    NormalizedMatches(query);
    var (open, close) := GroupMatch(text).value;
    ParsedQueryAt(query, text, open, close, responseNode, typ, variables, isOnlyQuery);
    ParsedGroupParts(text[..open], text[open + 1..close], responseNode, typ, variables, isOnlyQuery);
  }

  /**
   * Values and fragments: with one query the store is the whole variables
   * object, otherwise the member named after the operation or `{}`; a string
   * response node is every operation's fragment, a falsy one gives `''`,
   * anything else is looked up by name, `''` when absent.
   */
  lemma ParsedStoresAndFragments(queries: seq<string>, responseNode: Value, typ: OperationType, variables: Value, i: nat)
    requires Parsed(queries, responseNode, typ, variables).Ok? && i < |queries|
    ensures var d := Parsed(queries, responseNode, typ, variables).value[i];
      && d.operationType == typ
      && (|queries| == 1 ==> d.variablesStore == variables)
      && (|queries| != 1 ==> d.variablesStore == Or(Prop(variables, d.operationName), Obj(map[])))
      && (responseNode.Str? ==> d.responseNode == responseNode)
      && (!Truthy(responseNode) ==> d.responseNode == Str(""))
      && (Truthy(responseNode) && !responseNode.Str? ==> d.responseNode == Or(Prop(responseNode, d.operationName), Str("")))
  {
    var rn := if Truthy(responseNode) then responseNode else Obj(map[]);
    ParsedAllPointwise(queries, rn, typ, variables, |queries| == 1, i);
    ParsedQueryParts(queries[i], rn, typ, variables, |queries| == 1);
    if !Truthy(responseNode) {
      assert Prop(rn, Parsed(queries, responseNode, typ, variables).value[i].operationName) == Undefined;
    }
  }

  /** Every descriptor of a parsed batch carries the operation type of the call. */
  lemma ParsedTypes(queries: seq<string>, responseNode: Value, typ: OperationType, variables: Value)
    requires Parsed(queries, responseNode, typ, variables).Ok?
    ensures var ast := Parsed(queries, responseNode, typ, variables).value;
      forall i :: 0 <= i < |ast| ==> ast[i].operationType == typ
  {
    forall i | 0 <= i < |Parsed(queries, responseNode, typ, variables).value|
      ensures Parsed(queries, responseNode, typ, variables).value[i].operationType == typ
    {
      ParsedStoresAndFragments(queries, responseNode, typ, variables, i);
    }
  }

  // ------------------------------------------------------------- round trip

  /** The shorthand text of an operation: `name(key:type,...)`. */
  function Shorthand(name: string, vars: seq<Variable>): string
  {
    name + "(" + Join(Declarations(vars), ",") + ")"
  }

  /** One declaration of the shorthand: `key:type`. */
  function Declaration(v: Variable): string
  {
    v.key + ":" + v.typ
  }

  function Declarations(vars: seq<Variable>): (r: seq<string>)
    ensures |r| == |vars| && forall i :: 0 <= i < |vars| ==> r[i] == Declaration(vars[i])
  {
    seq(|vars|, i requires 0 <= i < |vars| => Declaration(vars[i]))
  }

  /** No declaration of plain variables holds a `,` or a `)`. */
  lemma DeclarationsPlain(vars: seq<Variable>)
    requires forall i :: 0 <= i < |vars| ==> PlainVariable(vars[i])
    ensures forall i :: 0 <= i < |vars| ==> ',' !in Declarations(vars)[i] && ')' !in Declarations(vars)[i]
  {
    forall i | 0 <= i < |vars|
      ensures ',' !in Declarations(vars)[i] && ')' !in Declarations(vars)[i]
    {
      var v := vars[i];
      assert PlainVariable(v);
      assert Declaration(v) == v.key + [':'] + v.typ;
    }
  }

  /** A key or type that survives the text: trimmed, and free of the characters that delimit it. */
  predicate PlainPart(s: string)
  {
    IsTrimmed(s) && ',' !in s && ':' !in s && ')' !in s
  }

  predicate PlainVariable(v: Variable)
  {
    PlainPart(v.key) && PlainPart(v.typ) && v.typ != ""
  }

  predicate WellFormed(name: string, vars: seq<Variable>)
  {
    && name != "" && !IsSpace(name[0]) && '(' !in name
    && forall i :: 0 <= i < |vars| ==> PlainVariable(vars[i])
  }

  lemma {:induction false} SegmentRoundTrip(v: Variable)
    requires PlainVariable(v)
    ensures SegmentVariable(Declaration(v)) == Ok(v)
  {
    assert Join([v.key, v.typ], [':']) == v.key + ":" + v.typ;
    SplitJoin([v.key, v.typ], ':');
    TrimTrimmed(v.key);
    TrimTrimmed(v.typ);
  }

  lemma VariablesRoundTrip(vars: seq<Variable>)
    requires forall i :: 0 <= i < |vars| ==> PlainVariable(vars[i])
    ensures VariablesOf(Declarations(vars)) == Ok(vars)
  {
    var rs := Outcomes(SegmentVariable, Declarations(vars));
    forall k | 0 <= k < |rs| ensures rs[k] == Ok(vars[k]) {
      OutcomesAt(SegmentVariable, Declarations(vars), k);
      SegmentRoundTrip(vars[k]);
    }
    AllOkValues(rs, vars);
  }

  lemma {:induction false} JoinFree(parts: seq<string>, sep: string, c: char)
    requires c !in sep && forall i :: 0 <= i < |parts| ==> c !in parts[i]
    ensures c !in Join(parts, sep)
  {
    if |parts| > 1 {
      JoinFree(parts[1..], sep, c);
    }
  }

  /**
   * Parsing the shorthand of a well-formed operation gives back its name and
   * its variables in declared order.
   */
  lemma ShorthandRoundTrip(name: string, vars: seq<Variable>, responseNode: Value, typ: OperationType, variables: Value, isOnlyQuery: bool)
    requires WellFormed(name, vars)
    requires variables.Obj? && responseNode != Undefined && responseNode != Null
    ensures var r := ParsedQuery(Shorthand(name, vars), responseNode, typ, variables, isOnlyQuery);
      r.Ok? && r.value.operationName == name && r.value.variables == vars && r.value.operationType == typ
  {
    ShorthandText(name, vars);
    InteriorRoundTrip(vars);
    assert ParsedQuery(Shorthand(name, vars), responseNode, typ, variables, isOnlyQuery)
        == ParsedGroup(name, Join(Declarations(vars), ","), responseNode, typ, variables, isOnlyQuery);
  }

  /** The shorthand text is trimmed, and its only group is the declaration list. */
  lemma ShorthandText(name: string, vars: seq<Variable>)
    requires WellFormed(name, vars)
    ensures var s := Shorthand(name, vars);
      && Normalized(s) == s
      && GroupMatch(s) == Some((|name|, |s| - 1))
      && s[..|name|] == name
      && s[|name| + 1..|s| - 1] == Join(Declarations(vars), ",")
  {
    var decls := Declarations(vars);
    var s := Shorthand(name, vars);
    DeclarationsPlain(vars);
    JoinFree(decls, ",", ')');
    assert IsTrimmed(s);
    TrimTrimmed(s);
    assert s[..|name|] == name;
    assert s[|name| + 1..|s| - 1] == Join(decls, ",");
    GroupMatchUnique(s, |name|, |s| - 1);
  }

  /** The declaration list of plain variables reads back as those variables. */
  lemma InteriorRoundTrip(vars: seq<Variable>)
    requires forall i :: 0 <= i < |vars| ==> PlainVariable(vars[i])
    ensures DeclaredVariables(Join(Declarations(vars), ",")) == Ok(vars)
  {
    var decls := Declarations(vars);
    if vars != [] {
      DeclarationsPlain(vars);
      assert decls[0] == Declaration(vars[0]);
      assert Join(decls, ",") != "";
      SplitJoin(decls, ',');
      VariablesRoundTrip(vars);
    }
  }

  // -------------------------------------------------------- the loops as run

  /**
   * Lines 209-220 as the source runs them: each segment's variable is
   * pushed and its map entry written, until the first throw.
   */
  method CollectVariables(segments: seq<string>) returns (r: Result<seq<Variable>, CompileError>, variablesMap: map<string, string>)
    ensures r == VariablesOf(segments)
    ensures r.Ok? ==> variablesMap == VariablesMapOf(r.value)
  {
    var vars: seq<Variable> := [];
    variablesMap := map[];
    for i := 0 to |segments|
      invariant VariablesOf(segments[..i]) == Ok(vars)
      invariant variablesMap == VariablesMapOf(vars)
    {
      AllOkStep(SegmentVariable, segments, i);
      var parts := Split(segments[i], ':');
      if |parts| < 2 {
        return Err(RuntimeTypeError), variablesMap;
      }
      var key, t := Trim(parts[0]), Trim(parts[1]);
      if t == "" {
        return Err(MissingVariableType(key)), variablesMap;
      }
      var next := vars + [Variable(key, t)];
      assert next[..i] == vars;
      vars := next;
      if key != "__proto__" {
        variablesMap := variablesMap[key := t];
      }
    }
    assert segments[..|segments|] == segments;
    r := Ok(vars);
  }

  /** `parseQuery` as the source runs it. */
  method ParseQuery(query: string, responseNode: Value, typ: OperationType, variables: Value, isOnlyQuery: bool)
    returns (r: Result<Descriptor, CompileError>)
    ensures r == ParsedQuery(query, responseNode, typ, variables, isOnlyQuery)
  {
    var text := Trim(query);
    var m := GroupMatch(text);
    if m.None? {
      AppendedParensMatch(text);
      text := text + "()";
      m := GroupMatch(text);
      if m.None? {
        // the `syntax error` throw: `()` was just appended, so this cannot happen
        assert false;
      }
    }
    var (open, close) := m.value;
    ParsedQueryAt(query, text, open, close, responseNode, typ, variables, isOnlyQuery);
    r := ParseGroup(text[..open], text[open + 1..close], responseNode, typ, variables, isOnlyQuery);
  }

  /** Lines 200-227 as the source runs them. */
  method ParseGroup(name: string, interior: string, responseNode: Value, typ: OperationType, variables: Value, isOnlyQuery: bool)
    returns (r: Result<Descriptor, CompileError>)
    ensures r == ParsedGroup(name, interior, responseNode, typ, variables, isOnlyQuery)
  {
    if name == "" {
      return Err(MissingOperationName);
    }
    var collected, variablesMap := ReadVariables(interior);
    if collected.Err? {
      return Err(collected.error);
    }
    var vars := collected.value;
    var store := VariablesStore(variables, name, isOnlyQuery);
    if store.Err? {
      return Err(store.error);
    }
    var fragment := Fragment(responseNode, name);
    if fragment.Err? {
      return Err(fragment.error);
    }
    r := Ok(Descriptor(name, vars, variablesMap, store.value, fragment.value, typ));
  }

  /** Lines 209-220: nothing to read from an empty interior, else the segments between commas. */
  method ReadVariables(interior: string) returns (r: Result<seq<Variable>, CompileError>, variablesMap: map<string, string>)
    ensures r == DeclaredVariables(interior)
    ensures r.Ok? ==> variablesMap == VariablesMapOf(r.value)
  {
    if interior == "" {
      r, variablesMap := Ok([]), map[];
    } else {
      r, variablesMap := CollectVariables(Split(interior, ','));
    }
  }

  /** `parse` as the source runs it: a falsy response node becomes `{}` before the strings are read. */
  method Parse(queries: seq<string>, responseNode: Value, typ: OperationType, variables: Value)
    returns (r: Result<seq<Descriptor>, CompileError>)
    ensures r == Parsed(queries, responseNode, typ, variables)
  {
    var node := responseNode;
    if !Truthy(node) {
      node := Obj(map[]);
    }
    r := ParseEach(queries, node, typ, variables, |queries| == 1);
  }

  /** Lines 106-113: one `parseQuery` per string, pushed in order until the first throw. */
  method ParseEach(queries: seq<string>, responseNode: Value, typ: OperationType, variables: Value, isOnlyQuery: bool)
    returns (r: Result<seq<Descriptor>, CompileError>)
    ensures r == ParsedAll(queries, responseNode, typ, variables, isOnlyQuery)
  {
    var resultArr: seq<Descriptor> := [];
    for i := 0 to |queries|
      invariant ParsedAll(queries[..i], responseNode, typ, variables, isOnlyQuery) == Ok(resultArr)
    {
      var d := ParseQuery(queries[i], responseNode, typ, variables, isOnlyQuery);
      AllOkStep(QueryParser(responseNode, typ, variables, isOnlyQuery), queries, i);
      if d.Err? {
        return Err(d.error);
      }
      resultArr := resultArr + [d.value];
    }
    assert queries[..|queries|] == queries;
    return Ok(resultArr);
  }
}
