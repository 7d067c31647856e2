/**
 * The configuration every client starts from (request/defaults.js): a GET
 * with no timeout, no base URL and no authorisation, a JSON `Accept` header
 * for every method and a JSON `Content-Type` for the methods that send data.
 */
module Defaults {
  import opened JsValues

  /** The methods whose header block is empty (lines 31-35). */
  const MethodsNoData: seq<string> := ["delete", "get", "head", "options"]

  /** The methods whose header block sets the JSON content type (lines 37-44). */
  const MethodsWithData: seq<string> := ["post", "put", "patch"]

  const JsonContentType: Value := Obj(map["Content-Type" := Str("application/json;charset=utf-8")])

  /** The `common` block of the `headers` default (lines 14-16). */
  const CommonBlock: Value := Obj(map["Accept" := Str("application/json, text/plain, */*")])

  /** The `headers` object once both `forEach` loops have run. */
  function DefaultHeaders(): Value
  {
    Obj(map[
      "common" := CommonBlock,
      "delete" := Obj(map[]), "get" := Obj(map[]), "head" := Obj(map[]), "options" := Obj(map[]),
      "post" := JsonContentType, "put" := JsonContentType, "patch" := JsonContentType])
  }

  /** `defaults`, lines 8-29. */
  function DefaultConfig(): map<string, Value>
  {
    map[
      "method" := Str("GET"),
      "timeout" := Num(0),
      "headers" := DefaultHeaders(),
      "baseURL" := Str(""),
      "auth" := Null,
      "authKey" := Str("Authorization"),
      "authURL" := Obj(map["inclusive" := Null, "exclusive" := Null])]
  }

  /**
   * Lines 31-44 as the source runs them: every method without data gets an
   * empty block, every method with data the JSON content type.
   */
  method AddMethodBlocks(common: map<string, Value>) returns (headers: map<string, Value>)
    ensures forall m :: m in MethodsNoData ==> m in headers && headers[m] == Obj(map[])
    ensures forall m :: m in MethodsWithData ==> m in headers && headers[m] == JsonContentType
    ensures forall k :: k in common && k !in MethodsNoData && k !in MethodsWithData ==> k in headers && headers[k] == common[k]
    ensures forall k :: k in headers ==> k in common || k in MethodsNoData || k in MethodsWithData
  {
    headers := common;
    for i := 0 to |MethodsNoData|
      invariant forall j :: 0 <= j < i ==> MethodsNoData[j] in headers && headers[MethodsNoData[j]] == Obj(map[])
      invariant forall k :: k in common && k !in MethodsNoData[..i] ==> k in headers && headers[k] == common[k]
      invariant forall k :: k in headers ==> k in common || k in MethodsNoData[..i]
    {
      headers := headers[MethodsNoData[i] := Obj(map[])];
    }
    for i := 0 to |MethodsWithData|
      invariant forall m :: m in MethodsNoData ==> m in headers && headers[m] == Obj(map[])
      invariant forall j :: 0 <= j < i ==> MethodsWithData[j] in headers && headers[MethodsWithData[j]] == JsonContentType
      invariant forall k :: k in common && k !in MethodsNoData && k !in MethodsWithData[..i] ==> k in headers && headers[k] == common[k]
      invariant forall k :: k in headers ==> k in common || k in MethodsNoData || k in MethodsWithData[..i]
    {
      headers := headers[MethodsWithData[i] := JsonContentType];
    }
  }

  /**
   * Lines 13-44 as the module runs them: the `headers` default starts with
   * the common block alone, and the two loops turn it into `DefaultHeaders()`.
   */
  method BuildDefaultHeaders() returns (headers: Value)
    ensures headers == DefaultHeaders()
  {
    var blocks := AddMethodBlocks(map["common" := CommonBlock]);
    assert blocks.Keys == DefaultHeaders().fields.Keys;
    headers := Obj(blocks);
  }

  /** The `headers` default holds the common block and exactly the blocks the two loops write. */
  lemma DefaultHeadersBlocks()
    ensures DefaultHeaders().Obj?
    ensures forall m :: m in MethodsNoData ==> m in DefaultHeaders().fields && DefaultHeaders().fields[m] == Obj(map[])
    ensures forall m :: m in MethodsWithData ==> m in DefaultHeaders().fields && DefaultHeaders().fields[m] == JsonContentType
    ensures forall k :: k in DefaultHeaders().fields ==> k == "common" || k in MethodsNoData || k in MethodsWithData
  {
  }
}
