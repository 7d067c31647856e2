/**
 * The back half of the GraphQL shorthand compiler (request/core/graphQL.js):
 * `gencode` writes one document for a batch of descriptors, and
 * `getVariablesWithScoped` renames every runtime variable after the
 * operation it belongs to.
 */
module GqlCodegen {
  import opened Wrappers
  import opened Text
  import opened JsValues
  import opened GqlParse

  /** The character `createMainStatement` writes after each operation: U+21B5, not a line break. */
  const Return: char := '\U{21B5}'

  /** `${operationName}_${key}`: a variable's name once scoped to its operation. */
  function ScopedName(op: string, key: string): string
  {
    op + "_" + key
  }

  /** The key is what follows the operation name and the `_`. */
  lemma ScopedNameInjective(op: string)
    ensures forall k1, k2 :: ScopedName(op, k1) == ScopedName(op, k2) ==> k1 == k2
  {
    forall k1, k2 | ScopedName(op, k1) == ScopedName(op, k2)
      ensures k1 == k2
    {
      assert ScopedName(op, k1)[|op| + 1..] == k1;
      assert ScopedName(op, k2)[|op| + 1..] == k2;
    }
  }

  // ---------------------------------------------------------------- header

  /** Line 134: `$op_key:type`. */
  function ScopedDeclaration(op: string, v: Variable): string
  {
    "$" + ScopedName(op, v.key) + ":" + v.typ
  }

  /** Lines 133-135: the declarations one operation contributes, in declared order. */
  function OperationDeclarations(op: string, variables: seq<Variable>): seq<string>
  {
    seq(|variables|, j requires 0 <= j < |variables| => ScopedDeclaration(op, variables[j]))
  }

  /** Lines 129-138, `getVariablesScoped`: the declarations of every operation, operation after operation. */
  function ScopedDeclarations(ast: seq<Descriptor>): seq<string>
  {
    if ast == [] then []
    else ScopedDeclarations(ast[..|ast| - 1]) + OperationDeclarations(ast[|ast| - 1].operationName, ast[|ast| - 1].variables)
  }

  /** Line 125: the declarations in parentheses, or nothing at all when there are none. */
  function VariablesStatement(ast: seq<Descriptor>): string
  {
    var declarations := ScopedDeclarations(ast);
    if |declarations| > 0 then "(" + Join(declarations, ",") + ")" else ""
  }

  /** Line 123: the operation names, in batch order. */
  function Names(ast: seq<Descriptor>): (r: seq<string>)
    ensures |r| == |ast|
    ensures forall i :: 0 <= i < |ast| ==> r[i] == ast[i].operationName
  {
    if ast == [] then [] else Names(ast[..|ast| - 1]) + [ast[|ast| - 1].operationName]
  }

  /** There are no declarations exactly when no operation declares a variable. */
  lemma {:induction false} ScopedDeclarationsNone(ast: seq<Descriptor>)
    ensures ScopedDeclarations(ast) == [] <==> forall i :: 0 <= i < |ast| ==> ast[i].variables == []
  {
    if ast != [] {
      var init := ast[..|ast| - 1];
      ScopedDeclarationsNone(init);
      assert forall i :: 0 <= i < |init| ==> init[i] == ast[i];
    }
  }

  /** The parentheses appear exactly when some operation declares a variable. */
  lemma ParenthesesIffVariables(ast: seq<Descriptor>)
    ensures VariablesStatement(ast) == "" <==> forall i :: 0 <= i < |ast| ==> ast[i].variables == []
    ensures VariablesStatement(ast) != "" ==>
      VariablesStatement(ast)[0] == '(' && VariablesStatement(ast)[|VariablesStatement(ast)| - 1] == ')'
  {
    ScopedDeclarationsNone(ast);
  }

  // ------------------------------------------------------------------ body

  /** Line 146: `key:$op_key` for each declared variable. */
  function Bindings(op: string, variables: seq<Variable>): seq<string>
  {
    seq(|variables|, j requires 0 <= j < |variables| => variables[j].key + ":$" + ScopedName(op, variables[j].key))
  }

  /** Lines 143-148: the bindings in parentheses, when the operation declares variables. */
  function Arguments(d: Descriptor): string
  {
    if |d.variables| > 0 then "(" + Join(Bindings(d.operationName, d.variables), ",") + ")" else ""
  }

  /** Lines 149-151: the fragment in braces, when it is truthy. */
  function Selection(d: Descriptor): string
  {
    if Truthy(d.responseNode) then "{" + ToText(d.responseNode) + "}" else ""
  }

  /** What `createMainStatement` writes for one operation, before the `↵`. */
  function OperationBody(d: Descriptor): string
  {
    d.operationName + Arguments(d) + Selection(d)
  }

  /** The bodies of the operations, in batch order. */
  function Bodies(ast: seq<Descriptor>): (r: seq<string>)
    ensures |r| == |ast|
  {
    if ast == [] then [] else Bodies(ast[..|ast| - 1]) + [OperationBody(ast[|ast| - 1])]
  }

  /** Lines 139-155, `createMainStatement`: each operation's body followed by `↵`. */
  function MainStatement(ast: seq<Descriptor>): string
  {
    if ast == [] then ""
    else MainStatement(ast[..|ast| - 1]) + OperationBody(ast[|ast| - 1]) + [Return]
  }

  /** The arguments are omitted exactly when nothing is declared, the selection exactly when the fragment is falsy. */
  lemma OperationBodyParts(d: Descriptor)
    ensures Arguments(d) == "" <==> d.variables == []
    ensures Selection(d) == "" <==> !Truthy(d.responseNode)
    ensures OperationBody(d)[..|d.operationName|] == d.operationName
  {
    assert OperationBody(d) == d.operationName + (Arguments(d) + Selection(d));
  }

  /** The main statement is each operation's body followed by `↵`. */
  lemma {:induction false} MainStatementTerminated(ast: seq<Descriptor>)
    ensures MainStatement(ast) == Terminated(Bodies(ast), Return)
  {
    if ast != [] {
      var init := ast[..|ast| - 1];
      MainStatementTerminated(init);
      assert (Bodies(init) + [OperationBody(ast[|ast| - 1])])[..|ast| - 1] == Bodies(init);
    }
  }

  /** The bodies of the operations, one by one. */
  lemma {:induction false} BodiesAt(ast: seq<Descriptor>, i: nat)
    requires i < |ast|
    ensures Bodies(ast)[i] == OperationBody(ast[i])
  {
    if i < |ast| - 1 {
      BodiesAt(ast[..|ast| - 1], i);
    }
  }

  /**
   * Splitting the main statement on `↵` gives back each operation's body, in
   * order, and the empty text after the last `↵`, provided no body holds a `↵`.
   */
  lemma MainStatementSplits(ast: seq<Descriptor>)
    requires forall i :: 0 <= i < |ast| ==> Return !in OperationBody(ast[i])
    ensures Split(MainStatement(ast), Return) == Bodies(ast) + [""]
    ensures forall i :: 0 <= i < |ast| ==> Split(MainStatement(ast), Return)[i] == OperationBody(ast[i])
  {
    MainStatementTerminated(ast);
    forall i | 0 <= i < |ast|
      ensures Return !in Bodies(ast)[i] && Bodies(ast)[i] == OperationBody(ast[i])
    {
      BodiesAt(ast, i);
    }
    TerminatedSplit(Bodies(ast), Return);
  }

  // -------------------------------------------------------------- document

  /**
   * `gencode(ast)`: the keyword of the first operation, the names joined by
   * `_`, the declarations, and the main statement in braces. An empty batch
   * has no `ast[0]`, and reading its `operationType` throws.
   */
  function Document(ast: seq<Descriptor>): Result<string, CompileError>
  {
    if ast == [] then Err(RuntimeTypeError)
    else Ok(Header(ast) + VariablesStatement(ast) + Braced(MainStatement(ast)))
  }

  /** Line 126 up to the declarations: `type names`. */
  function Header(ast: seq<Descriptor>): string
    requires ast != []
  {
    OperationTypeText(ast[0].operationType) + " " + Join(Names(ast), "_")
  }

  /** Lines 126-128: the main statement on its own line inside the outer braces. */
  function Braced(main: string): (r: string)
    ensures r != [] && r[|r| - 1] == '}'
  {
    "{\n        " + main + "\n    }"
  }

  /**
   * A document is written exactly for a non-empty batch; it starts with the
   * first operation's keyword, a space and the names joined by `_`, and ends
   * with the closing brace.
   */
  lemma DocumentShape(ast: seq<Descriptor>)
    ensures Document(ast).Ok? <==> ast != []
    ensures ast != [] ==> Header(ast) <= Document(ast).value
    ensures ast != [] ==> Document(ast).value[|Document(ast).value| - 1] == '}'
  {
    if ast != [] {
      Framed(Header(ast), VariablesStatement(ast), Braced(MainStatement(ast)));
    }
  }

  /** Two batches that agree on each operation's name, variables and fragment. */
  predicate SameText(a: seq<Descriptor>, b: seq<Descriptor>)
  {
    |a| == |b|
    && forall i :: 0 <= i < |a| ==>
      a[i].operationName == b[i].operationName && a[i].variables == b[i].variables
      && a[i].responseNode == b[i].responseNode
  }

  /** The names, declarations and main statement depend on nothing else. */
  lemma {:induction false} SameTextParts(a: seq<Descriptor>, b: seq<Descriptor>)
    requires SameText(a, b)
    ensures Names(a) == Names(b) && ScopedDeclarations(a) == ScopedDeclarations(b)
    ensures MainStatement(a) == MainStatement(b)
  {
    if a != [] {
      var n := |a| - 1;
      assert SameText(a[..n], b[..n]) by {
        forall i | 0 <= i < n
          ensures a[..n][i] == a[i] && b[..n][i] == b[i]
        {
        }
      }
      SameTextParts(a[..n], b[..n]);
    }
  }

  /** Only the first operation's type is written: the others may be anything. */
  lemma OnlyFirstTypeMatters(a: seq<Descriptor>, b: seq<Descriptor>)
    requires SameText(a, b) && a != [] && a[0].operationType == b[0].operationType
    ensures Document(a) == Document(b)
  {
    SameTextParts(a, b);
  }

  // ------------------------------------------------------ scoped variables

  /**
   * `result[`${operationName}_${key}`] = store[key]` for each own key of one
   * store. A scoped name equal to '__proto__' sets the prototype of `result`
   * instead of creating a property, so it adds no entry.
   */
  function Scoped(op: string, entries: map<string, Value>): map<string, Value>
  {
    ScopedNameInjective(op);
    map key | key in entries && ScopedName(op, key) != "__proto__" :: ScopedName(op, key) := entries[key]
  }

  /** The entries one operation contributes. */
  function Contribution(d: Descriptor): map<string, Value>
  {
    Scoped(d.operationName, OwnEntries(d.variablesStore))
  }

  /**
   * A scoped name is present exactly for a runtime key of the store (not a
   * declared one), and it holds that key's value; nothing else is present.
   */
  lemma ScopedKeys(op: string, entries: map<string, Value>, key: string, k: string)
    ensures ScopedName(op, key) in Scoped(op, entries) <==> key in entries && ScopedName(op, key) != "__proto__"
    ensures ScopedName(op, key) in Scoped(op, entries) ==> Scoped(op, entries)[ScopedName(op, key)] == entries[key]
    ensures k in Scoped(op, entries) ==> exists key' :: key' in entries && k == ScopedName(op, key')
  {
    ScopedNameInjective(op);
  }

  /**
   * Lines 230-241, `getVariablesWithScoped`: the operations' entries in
   * batch order, a later one overwriting an earlier one. `Object.keys` of a
   * null or undefined store throws.
   */
  function ScopedVariables(ast: seq<Descriptor>): Result<map<string, Value>, CompileError>
  {
    if ast == [] then Ok(map[])
    else
      var before :- ScopedVariables(ast[..|ast| - 1]);
      var d := ast[|ast| - 1];
      if Nullish(d.variablesStore) then Err(RuntimeTypeError)
      else Ok(before + Contribution(d))
  }

  /** `Object.keys` throws on this store. */
  predicate Nullish(store: Value)
  {
    store == Undefined || store == Null
  }

  /** Scoping fails exactly when some store is null or undefined, and then with a TypeError. */
  lemma {:induction false} ScopedVariablesErrors(ast: seq<Descriptor>)
    ensures ScopedVariables(ast).Err? <==> exists i :: 0 <= i < |ast| && Nullish(ast[i].variablesStore)
    ensures ScopedVariables(ast).Err? ==> ScopedVariables(ast).error == RuntimeTypeError
  {
    if ast != [] {
      var n := |ast| - 1;
      var init := ast[..n];
      ScopedVariablesErrors(init);
      if ScopedVariables(init).Err? {
        var i :| 0 <= i < n && Nullish(init[i].variablesStore);
        assert ast[i] == init[i];
      } else if !Nullish(ast[n].variablesStore) {
        forall i | 0 <= i < |ast|
          ensures !Nullish(ast[i].variablesStore)
        {
          if i < n {
            assert ast[i] == init[i];
          }
        }
      }
    }
  }

  /** Without an error, the scoped variables are the operations' contributions merged in batch order. */
  lemma {:induction false} ScopedVariablesMerged(ast: seq<Descriptor>)
    requires ScopedVariables(ast).Ok?
    ensures ScopedVariables(ast).value == MergeAll(Outcomes(Contribution, ast))
  {
    if ast != [] {
      var n := |ast| - 1;
      ScopedVariablesMerged(ast[..n]);
      OutcomesPrefix(Contribution, ast, n);
      OutcomesAt(Contribution, ast, n);
    }
  }

  /** The scoped names are exactly those some operation contributes. */
  lemma ScopedVariablesKeys(ast: seq<Descriptor>, k: string)
    requires ScopedVariables(ast).Ok?
    ensures k in ScopedVariables(ast).value <==> exists i :: 0 <= i < |ast| && k in Contribution(ast[i])
  {
    var ms := Outcomes(Contribution, ast);
    ScopedVariablesMerged(ast);
    MergeAllKeys(ms, k);
    forall i | 0 <= i < |ast|
      ensures ms[i] == Contribution(ast[i])
    {
      OutcomesAt(Contribution, ast, i);
    }
  }

  /** On a clash of scoped names the last operation that contributes the name wins. */
  lemma ScopedVariablesLastWins(ast: seq<Descriptor>, i: nat, k: string)
    requires ScopedVariables(ast).Ok? && i < |ast| && k in Contribution(ast[i])
    requires forall j :: i < j < |ast| ==> k !in Contribution(ast[j])
    ensures k in ScopedVariables(ast).value && ScopedVariables(ast).value[k] == Contribution(ast[i])[k]
  {
    var ms := Outcomes(Contribution, ast);
    ScopedVariablesMerged(ast);
    forall j | 0 <= j < |ast|
      ensures ms[j] == Contribution(ast[j])
    {
      OutcomesAt(Contribution, ast, j);
    }
    MergeAllLastWins(ms, i, k);
  }

  /** Taking one more key of a store into account adds its scoped entry, unless that is '__proto__'. */
  lemma ScopedOneMore(op: string, entries: map<string, Value>, todo: set<string>, key: string)
    requires key in todo && todo <= entries.Keys
    ensures Scoped(op, entries - (todo - {key}))
         == if ScopedName(op, key) != "__proto__" then Scoped(op, entries - todo)[ScopedName(op, key) := entries[key]]
            else Scoped(op, entries - todo)
  {
    ScopedNameInjective(op);
    var before, after := Scoped(op, entries - todo), Scoped(op, entries - (todo - {key}));
    var expected := if ScopedName(op, key) != "__proto__" then before[ScopedName(op, key) := entries[key]] else before;
    assert after.Keys == expected.Keys;
    SameMap(after, expected);
  }

  // -------------------------------------------------------- the loops as run

  /** Lines 129-138 as the source runs them: each operation's declarations pushed in turn. */
  method VariablesScoped(ast: seq<Descriptor>) returns (v: seq<string>)
    ensures v == ScopedDeclarations(ast)
  {
    v := [];
    for i := 0 to |ast|
      invariant v == ScopedDeclarations(ast[..i])
    {
      assert ast[..i + 1][..i] == ast[..i];
      v := v + OperationDeclarations(ast[i].operationName, ast[i].variables);
    }
    assert ast[..|ast|] == ast;
  }

  /** Lines 139-155 as the source runs them: `_s` grows by each operation's text in turn. */
  method CreateMainStatement(ast: seq<Descriptor>) returns (s: string)
    ensures s == MainStatement(ast)
  {
    s := "";
    for i := 0 to |ast|
      invariant s == MainStatement(ast[..i])
    {
      var d := ast[i];
      var hasVariables := |d.variables| > 0;
      var arguments := if hasVariables then "(" + Join(Bindings(d.operationName, d.variables), ",") + ")" else "";
      var selection := if Truthy(d.responseNode) then "{" + ToText(d.responseNode) + "}" else "";
      AppendPieces(s, d.operationName, arguments, selection);
      s := s + d.operationName + arguments + selection + [Return];
      assert ast[..i + 1][..i] == ast[..i];
    }
    assert ast[..|ast|] == ast;
  }

  /** `gencode(ast)` as the source runs it. */
  method Gencode(ast: seq<Descriptor>) returns (r: Result<string, CompileError>)
    ensures r == Document(ast)
  {
    if |ast| == 0 {
      // `ast[0].operationType` on an empty array
      return Err(RuntimeTypeError);
    }
    var operationType := OperationTypeText(ast[0].operationType);
    var operationName := Join(Names(ast), "_");
    var variablesScoped := VariablesScoped(ast);
    var variablesStatement := if |variablesScoped| > 0 then "(" + Join(variablesScoped, ",") + ")" else "";
    var main := CreateMainStatement(ast);
    r := Ok(operationType + " " + operationName + variablesStatement + "{\n        " + main + "\n    }");
    assert r.value == Header(ast) + VariablesStatement(ast) + Braced(main);
  }

  /** Line 235-237 as the source runs them: one write per own key of the store, in any key order. */
  method WriteScoped(result: map<string, Value>, op: string, entries: map<string, Value>) returns (r: map<string, Value>)
    ensures r == result + Scoped(op, entries)
  {
    r := result;
    var todo := entries.Keys;
    while todo != {}
      invariant todo <= entries.Keys
      invariant r == result + Scoped(op, entries - todo)
      decreases |todo|
    {
      var key :| key in todo;
      ScopedOneMore(op, entries, todo, key);
      if ScopedName(op, key) != "__proto__" {
        UpdateAfterMerge(result, Scoped(op, entries - todo), ScopedName(op, key), entries[key]);
        r := r[ScopedName(op, key) := entries[key]];
      }
      todo := todo - {key};
    }
    assert entries - todo == entries;
  }

  /** `getVariablesWithScoped(ast)` as the source runs it. */
  method GetVariablesWithScoped(ast: seq<Descriptor>) returns (r: Result<map<string, Value>, CompileError>)
    ensures r == ScopedVariables(ast)
  {
    var result: map<string, Value> := map[];
    for i := 0 to |ast|
      invariant ScopedVariables(ast[..i]) == Ok(result)
    {
      assert ast[..i + 1][..i] == ast[..i];
      var d := ast[i];
      if Nullish(d.variablesStore) {
        // `Object.keys` of null or undefined
        ScopedVariablesErrors(ast);
        return Err(RuntimeTypeError);
      }
      result := WriteScoped(result, d.operationName, OwnEntries(d.variablesStore));
    }
    assert ast[..|ast|] == ast;
    r := Ok(result);
  }
}
