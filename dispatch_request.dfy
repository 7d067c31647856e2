/**
 * Request preparation before sending (request/core/dispatchRequest.js):
 * `transformHeaders` flattens the headers and decides whether to add the
 * auth header, `transformURL` prefixes the base URL, and `procressConfig`
 * writes the three results back into the configuration object, in that
 * order. Sending (`uniRequest`) is not part of this model.
 */
module Dispatch {
  import opened Wrappers
  import opened Text
  import opened JsValues
  import opened Utils

  /** `transformURL(baseURL = '', url)`: `baseURL + url`, the default applying to an undefined base only. */
  function TransformURL(baseURL: Value, url: Value): (r: Value)
    ensures baseURL.Str? && url.Str? ==> r == Str(baseURL.s + url.s)
    ensures baseURL == Undefined && url.Str? ==> r == url
    ensures baseURL == Null && url.Str? ==> r == Str("null" + url.s)
    ensures baseURL.Str? && url == Undefined ==> r == Str(baseURL.s + "undefined")
  {
    Plus(if baseURL == Undefined then Str("") else baseURL, url)
  }

  /** `(method || 'GET').toUpperCase()`: a truthy value that is not a string has no `toUpperCase`. */
  function RequestMethod(verb: Value): (r: Result<Value, JsError>)
    ensures r.Ok? <==> !Truthy(verb) || verb.Str?
    ensures !Truthy(verb) ==> r == Ok(Str("GET"))
    ensures verb.Str? && verb.s != "" ==> r == Ok(Str(ToUpper(verb.s)))
    ensures r.Ok? ==> r.value.Str? && forall i :: 0 <= i < |r.value.s| ==> !('a' <= r.value.s[i] <= 'z')
  {
    if !Truthy(verb) then Ok(Str("GET"))  // 'GET' is already upper case
    else if verb.Str? then Ok(Str(ToUpper(verb.s)))
    else Err(TypeError)
  }

  /** Upper-casing the method a second time changes nothing. */
  lemma RequestMethodIdempotent(verb: Value)
    requires RequestMethod(verb).Ok?
    ensures RequestMethod(RequestMethod(verb).value) == RequestMethod(verb)
  {
    var m := RequestMethod(verb).value;
    assert m.s != "" by {
      if !Truthy(verb) {
        assert m.s == "GET";
      }
    }
    assert ToUpper(m.s) == m.s;
  }

  /** `list.includes(x)`: array membership, substring search in a string, and no such method on anything else. */
  function Includes(list: Value, x: Value): Result<bool, JsError>
  {
    match list
    case Arr(items) => Ok(x in items)
    case Str(s) => Ok(IsSubstring(ToText(x), s))
    case _ => Err(TypeError)
  }

  /**
   * Lines 32-37: whether `authURL` lets the auth header be added for `url`;
   * `authURL` must be an object, and a truthy list without `includes` throws.
   */
  function AuthURLAllows(authURL: Value, url: Value): (r: Result<bool, JsError>)
    ensures authURL == Undefined || authURL == Null ==> r == Err(TypeError)
    ensures var exclusive, inclusive := Prop(authURL, "exclusive"), Prop(authURL, "inclusive");
      authURL != Undefined && authURL != Null
      && (exclusive.Arr? || !Truthy(exclusive)) && (inclusive.Arr? || !Truthy(inclusive)) ==>
        r == Ok(!(exclusive.Arr? && url in exclusive.items) && (inclusive.Arr? ==> url in inclusive.items))
  {
    var exclusive :- GetProp(authURL, "exclusive");
    var excluded :- if Truthy(exclusive) then Includes(exclusive, url) else Ok(false);
    if excluded then Ok(false)
    else
      var inclusive := Prop(authURL, "inclusive");
      if Truthy(inclusive) then Includes(inclusive, url) else Ok(true)
  }

  /** Lines 43-50: the auth string, `auth` itself or what `auth()` returned; anything but a string counts as none. */
  function AuthText(auth: Value, authResult: Value): string
  {
    if auth.Str? then auth.s
    else if auth.Func? && authResult.Str? then authResult.s
    else ""
  }

  /** `v[key] = x`: an object gains the property; writing to a primitive throws in strict code. */
  function SetProp(v: Value, key: string, x: Value): Result<Value, JsError>
  {
    if v.Obj? then Ok(Obj(v.fields[key := x])) else Err(TypeError)
  }

  /** The flattened headers `transformHeaders` starts from, with the method as it is before upper-casing. */
  function BaseHeaders(config: map<string, Value>): Value
  {
    FlattenedHeaders(Get(config, "headers"), Get(config, "method"))
  }

  /**
   * `transformHeaders(config)`: the flattened headers, with `authKey` set to
   * the auth string when `authURL` allows it, `auth` is truthy, `authKey` is
   * a non-empty string and neither `authKey` nor its lower-case form is
   * already set. `authResult` stands for the value `auth()` returns.
   */
  function TransformedHeaders(config: map<string, Value>, authResult: Value): Result<Value, JsError>
  {
    var headers := BaseHeaders(config);
    var auth, authKey := Get(config, "auth"), Get(config, "authKey");
    var allowed :- AuthURLAllows(Get(config, "authURL"), Get(config, "url"));
    if !allowed || !Truthy(auth) || !authKey.Str? || authKey.s == "" then Ok(headers)
    else
      var current :- GetProp(headers, authKey.s);
      if current != Undefined then Ok(headers)
      else
        var lower := Prop(headers, ToLower(authKey.s));
        if lower != Undefined then Ok(headers)
        else
          var authStr := AuthText(auth, authResult);
          if authStr != "" then SetProp(headers, authKey.s, Str(authStr)) else Ok(headers)
  }

  /** A URL listed in `authURL.exclusive` gets the flattened headers and no auth. */
  lemma ExclusiveSkipsAuth(config: map<string, Value>, authResult: Value)
    requires var authURL := Get(config, "authURL");
      authURL != Undefined && authURL != Null && Prop(authURL, "exclusive").Arr?
      && Get(config, "url") in Prop(authURL, "exclusive").items
    ensures TransformedHeaders(config, authResult) == Ok(BaseHeaders(config))
  {
  }

  /** With an `authURL.inclusive` list that lacks the URL, no auth is added. */
  lemma InclusiveRequired(config: map<string, Value>, authResult: Value)
    requires var authURL := Get(config, "authURL");
      authURL != Undefined && authURL != Null && !Truthy(Prop(authURL, "exclusive"))
      && Prop(authURL, "inclusive").Arr? && Get(config, "url") !in Prop(authURL, "inclusive").items
    ensures TransformedHeaders(config, authResult) == Ok(BaseHeaders(config))
  {
  }

  /**
   * Everything besides `authURL` that the auth header needs: a truthy `auth`,
   * a non-empty string `authKey` set under neither spelling on the flattened
   * headers, and a non-empty auth string.
   */
  predicate AuthApplies(config: map<string, Value>, authResult: Value)
  {
    var headers, auth, authKey := BaseHeaders(config), Get(config, "auth"), Get(config, "authKey");
    && Truthy(auth) && authKey.Str? && authKey.s != ""
    && headers.Obj? && Prop(headers, authKey.s) == Undefined && Prop(headers, ToLower(authKey.s)) == Undefined
    && AuthText(auth, authResult) != ""
  }

  /** The headers with the auth header added. */
  function WithAuth(config: map<string, Value>, authResult: Value): Value
    requires AuthApplies(config, authResult)
  {
    var headers := BaseHeaders(config);
    Obj(headers.fields[Get(config, "authKey").s := Str(AuthText(Get(config, "auth"), authResult))])
  }

  /**
   * The headers change only by the auth header, and only when every
   * condition holds: `authURL` allows the URL, `auth` is truthy, `authKey`
   * is a non-empty string set under neither spelling, and the auth string is
   * not empty. An existing header is never overwritten.
   */
  lemma AuthOnlyWhenAllowed(config: map<string, Value>, authResult: Value)
    requires TransformedHeaders(config, authResult).Ok?
    requires TransformedHeaders(config, authResult).value != BaseHeaders(config)
    ensures AuthURLAllows(Get(config, "authURL"), Get(config, "url")) == Ok(true)
    ensures AuthApplies(config, authResult)
    ensures TransformedHeaders(config, authResult).value == WithAuth(config, authResult)
  {
  }

  /** Conversely, when every condition holds the auth header is added. */
  lemma AuthAdded(config: map<string, Value>, authResult: Value)
    requires AuthURLAllows(Get(config, "authURL"), Get(config, "url")) == Ok(true)
    requires AuthApplies(config, authResult)
    ensures TransformedHeaders(config, authResult) == Ok(WithAuth(config, authResult))
  {
  }

  /**
   * `procressConfig(config)` on the fields of `config`: the completion
   * (normal, or the error thrown) and the fields afterwards. A throw while
   * upper-casing the method leaves the new headers and URL in place.
   */
  function Processed(fields: map<string, Value>, authResult: Value): (Result<(), JsError>, map<string, Value>)
  {
    match TransformedHeaders(fields, authResult)
    case Err(e) => (Err(e), fields)
    case Ok(headers) =>
      var withHeaders := fields["headers" := headers];
      var withUrl := withHeaders["url" := TransformURL(Get(withHeaders, "baseURL"), Get(withHeaders, "url"))];
      match RequestMethod(Get(withUrl, "method"))
      case Err(e) => (Err(e), withUrl)
      case Ok(m) => (Ok(()), withUrl["method" := m])
  }

  /**
   * A completed `procressConfig` sets exactly 'headers', 'url' and 'method'
   * and leaves every other field as it was.
   */
  lemma ProcessedFields(fields: map<string, Value>, authResult: Value)
    requires Processed(fields, authResult).0.Ok?
    ensures var after := Processed(fields, authResult).1;
      && after.Keys == fields.Keys + {"headers", "url", "method"}
      && after["headers"] == TransformedHeaders(fields, authResult).value
      && after["url"] == TransformURL(Get(fields, "baseURL"), Get(fields, "url"))
      && after["method"] == RequestMethod(Get(fields, "method")).value
      && forall k :: k in fields && k !in {"headers", "url", "method"} ==> after[k] == fields[k]
  {
  }

  /** `procressConfig` completes exactly when neither the headers nor the method throw. */
  lemma ProcessedCompletes(fields: map<string, Value>, authResult: Value)
    ensures Processed(fields, authResult).0.Ok?
        <==> TransformedHeaders(fields, authResult).Ok? && RequestMethod(Get(fields, "method")).Ok?
  {
    if TransformedHeaders(fields, authResult).Ok? {
      var withHeaders := fields["headers" := TransformedHeaders(fields, authResult).value];
      var withUrl := withHeaders["url" := TransformURL(Get(withHeaders, "baseURL"), Get(withHeaders, "url"))];
      assert Get(withUrl, "method") == Get(fields, "method");
    }
  }

  /**
   * The auth lists see the URL before the base URL is prefixed: listing the
   * full URL (base included) as exclusive does not keep the auth header off
   * a request that otherwise qualifies for it.
   */
  lemma AuthListsSeeRawUrl(fields: map<string, Value>, authResult: Value, base: string, path: string)
    requires base != "" && Get(fields, "baseURL") == Str(base) && Get(fields, "url") == Str(path)
    requires Get(fields, "authURL") == Obj(map["exclusive" := Arr([Str(base + path)])])
    requires RequestMethod(Get(fields, "method")).Ok? && AuthApplies(fields, authResult)
    ensures Processed(fields, authResult).0.Ok?
    ensures Processed(fields, authResult).1["url"] == Str(base + path)
    ensures Processed(fields, authResult).1["headers"] == WithAuth(fields, authResult)
  {
    assert Str(path) != Str(base + path) by {
      assert |path| < |base + path|;
    }
    AuthAdded(fields, authResult);
    ProcessedCompletes(fields, authResult);
    ProcessedFields(fields, authResult);
  }

  /**
   * `procressConfig` as the source runs it: the configuration object's
   * 'headers', then 'url', then 'method' overwritten in place; `done`
   * reports a throw.
   */
  method ProcessConfig(config: JsObject, authResult: Value) returns (done: Result<(), JsError>)
    modifies config
    ensures (done, config.fields) == Processed(old(config.fields), authResult)
  {
    var headers := TransformedHeaders(config.fields, authResult);
    if headers.Err? {
      return Err(headers.error);
    }
    config.fields := config.fields["headers" := headers.value];
    config.fields := config.fields["url" := TransformURL(Get(config.fields, "baseURL"), Get(config.fields, "url"))];
    var verb := RequestMethod(Get(config.fields, "method"));
    if verb.Err? {
      return Err(verb.error);
    }
    config.fields := config.fields["method" := verb.value];
    done := Ok(());
  }
}
