/**
 * The `Request` client (request/core/request.js): its defaults, its two
 * interceptor managers, and the preparation `request` does before the first
 * promise step runs: argument normalisation, the merge over the defaults and
 * the order of the promise chain. Promise evaluation itself is not modelled;
 * the chain is the sequence of steps handed to `.then`, in order.
 */
module RequestCore {
  import opened JsValues
  import opened Interceptors
  import opened MergeConfig

  /** An entry of `promiseChain`: the built-in `dispatchRequest` step or a registered interceptor. */
  datatype Step = DispatchStep | Intercept(interceptor: Interceptor)

  /**
   * The first argument of `request`: a URL string, or anything else, which
   * then is the configuration itself (`null` standing for an undefined
   * argument).
   */
  datatype Target = Url(url: string) | Config(config: JsObject?)

  /**
   * What `request` hands to the promise chain: the merged configuration, the
   * object it was merged from (`originConfig`), and the steps passed to
   * `.then`, in order.
   */
  datatype Prepared = Prepared(config: map<string, Value>, originConfig: JsObject?, steps: seq<Step>)

  function Intercepts(xs: seq<Interceptor>): (r: seq<Step>)
    ensures |r| == |xs| && forall i :: 0 <= i < |xs| ==> r[i] == Intercept(xs[i])
  {
    seq(|xs|, i requires 0 <= i < |xs| => Intercept(xs[i]))
  }

  /** Interceptors registered in two runs give the steps of the first run, then those of the second. */
  lemma InterceptsAppend(a: seq<Interceptor>, b: seq<Interceptor>)
    ensures Intercepts(a + b) == Intercepts(a) + Intercepts(b)
  {
  }

  function Reversed<T>(xs: seq<T>): (r: seq<T>)
    ensures |r| == |xs| && forall i :: 0 <= i < |xs| ==> r[i] == xs[|xs| - 1 - i]
  {
    if xs == [] then [] else [xs[|xs| - 1]] + Reversed(xs[..|xs| - 1])
  }

  /**
   * The chain `request` builds from the live interceptors of the two
   * managers: each request interceptor `unshift`ed in front, then each
   * response interceptor `push`ed behind `dispatchRequest`.
   */
  function Chain(requests: seq<Interceptor>, responses: seq<Interceptor>): seq<Step>
  {
    Reversed(Intercepts(requests)) + [DispatchStep] + Intercepts(responses)
  }

  /**
   * The chain's order and length: request interceptors last-registered
   * first, then `dispatchRequest`, then response interceptors in
   * registration order; one step per live interceptor plus one.
   */
  lemma ChainOrder(requests: seq<Interceptor>, responses: seq<Interceptor>)
    ensures var chain := Chain(requests, responses);
      && |chain| == |requests| + 1 + |responses|
      && chain[|requests|] == DispatchStep
      && (forall i :: 0 <= i < |requests| ==> chain[i] == Intercept(requests[|requests| - 1 - i]))
      && (forall j :: 0 <= j < |responses| ==> chain[|requests| + 1 + j] == Intercept(responses[j]))
  {
  }

  /** `dispatchRequest` runs exactly once per request, whatever interceptors are registered. */
  lemma {:induction false} DispatchOnce(requests: seq<Interceptor>, responses: seq<Interceptor>)
    ensures multiset(Chain(requests, responses))[DispatchStep] == 1
  {
    NoDispatchIn(Reversed(Intercepts(requests)));
    NoDispatchIn(Intercepts(responses));
  }

  lemma {:induction false} NoDispatchIn(steps: seq<Step>)
    requires forall i :: 0 <= i < |steps| ==> steps[i].Intercept?
    ensures multiset(steps)[DispatchStep] == 0
  {
    if steps != [] {
      NoDispatchIn(steps[1..]);
      assert steps == [steps[0]] + steps[1..];
    }
  }

  /**
   * Lines 30-35: `promiseChain` starts as `[dispatchRequest]`; each request
   * interceptor is `unshift`ed, each response interceptor `push`ed.
   */
  method BuildChain(requests: seq<Interceptor>, responses: seq<Interceptor>) returns (chain: seq<Step>)
    ensures chain == Chain(requests, responses)
  {
    chain := [DispatchStep];
    for i := 0 to |requests|
      invariant chain == Reversed(Intercepts(requests[..i])) + [DispatchStep]
    {
      assert requests[..i + 1][..i] == requests[..i];
      assert Intercepts(requests[..i + 1]) == Intercepts(requests[..i]) + [Intercept(requests[i])];
      chain := [Intercept(requests[i])] + chain;
    }
    assert requests[..|requests|] == requests;
    for j := 0 to |responses|
      invariant chain == Reversed(Intercepts(requests)) + [DispatchStep] + Intercepts(responses[..j])
    {
      assert Intercepts(responses[..j + 1]) == Intercepts(responses[..j]) + [Intercept(responses[j])];
      chain := chain + [Intercept(responses[j])];
    }
    assert responses[..|responses|] == responses;
  }

  /**
   * Lines 37-43: the `while`/`shift` loop; `thens` records the step each
   * `.then` receives, so every entry is consumed once, front to back.
   */
  method Drain(promiseChain: seq<Step>) returns (thens: seq<Step>)
    ensures thens == promiseChain
  {
    var chain := promiseChain;
    thens := [];
    while chain != []
      invariant thens + chain == promiseChain
      decreases |chain|
    {
      thens := thens + [chain[0]];
      chain := chain[1..];
    }
  }

  class Request {
    var defaults: map<string, Value>
    const requestInterceptors: InterceptorManager
    const responseInterceptors: InterceptorManager

    /** `new Request(config)`: the defaults and two empty interceptor managers. */
    constructor (config: map<string, Value>)
      ensures defaults == config
      ensures fresh(requestInterceptors) && fresh(responseInterceptors)
      ensures requestInterceptors != responseInterceptors
      ensures requestInterceptors.interceptors == [] && responseInterceptors.interceptors == []
    {
      defaults := config;
      requestInterceptors := new InterceptorManager();
      responseInterceptors := new InterceptorManager();
    }

    /**
     * `request(url, config = {})`: a string `url` is written into `config`
     * (a fresh object when none is given); any other first argument is the
     * configuration. The result is merged over the defaults, and the chain
     * is built and handed to `.then` step by step.
     */
    method Request(target: Target, config: JsObject?) returns (p: Prepared)
      modifies if target.Url? && config != null then {config} else {}
      ensures target.Url? && config != null ==>
        config.fields == old(config.fields)["url" := Str(target.url)] && p.originConfig == config
      ensures target.Url? && config == null ==>
        p.originConfig != null && fresh(p.originConfig) && p.originConfig.fields == map["url" := Str(target.url)]
      ensures target.Config? ==> p.originConfig == target.config
      ensures p.config == MergedConfig(defaults, if p.originConfig == null then map[] else p.originConfig.fields)
      ensures p.steps == Chain(LiveOf(requestInterceptors.interceptors), LiveOf(responseInterceptors.interceptors))
    {
      var origin: JsObject?;
      if target.Url? {
        if config == null {
          origin := new JsObject(map[]);
        } else {
          origin := config;
        }
        origin.fields := origin.fields["url" := Str(target.url)];
      } else {
        origin := target.config;
      }
      var merged := MergedConfig(defaults, if origin == null then map[] else origin.fields);

      var requests := requestInterceptors.ForEach();
      var responses := responseInterceptors.ForEach();
      var chain := BuildChain(requests, responses);
      var thens := Drain(chain);
      p := Prepared(merged, origin, thens);
    }

    /**
     * `_requestMethodWithoutData(method, url, config)`: `method` and `url`
     * assigned into `config` (or a fresh object), which is then the request
     * configuration.
     */
    method RequestWithoutData(verb: string, url: Value, config: JsObject?) returns (p: Prepared)
      modifies if config != null then {config} else {}
      ensures config != null ==>
        config.fields == old(config.fields)["method" := Str(verb)]["url" := url] && p.originConfig == config
      ensures config == null ==>
        p.originConfig != null && fresh(p.originConfig) && p.originConfig.fields == map["method" := Str(verb), "url" := url]
      ensures p.originConfig != null
      ensures p.config == MergedConfig(defaults, p.originConfig.fields)
      ensures p.steps == Chain(LiveOf(requestInterceptors.interceptors), LiveOf(responseInterceptors.interceptors))
    {
      var target: JsObject;
      if config == null {
        target := new JsObject(map[]);
      } else {
        target := config;
      }
      target.fields := target.fields["method" := Str(verb)]["url" := url];
      p := Request(Config(target), null);
    }

    /**
     * `_requestMethodWithData(method, url, data, config)`: `method`, `url`
     * and `data` assigned into `config` (or a fresh object), which is then
     * the request configuration.
     */
    method RequestWithData(verb: string, url: Value, data: Value, config: JsObject?) returns (p: Prepared)
      modifies if config != null then {config} else {}
      ensures config != null ==>
        config.fields == old(config.fields)["method" := Str(verb)]["url" := url]["data" := data]
        && p.originConfig == config
      ensures config == null ==>
        p.originConfig != null && fresh(p.originConfig)
        && p.originConfig.fields == map["method" := Str(verb), "url" := url, "data" := data]
      ensures p.originConfig != null
      ensures p.config == MergedConfig(defaults, p.originConfig.fields)
      ensures p.steps == Chain(LiveOf(requestInterceptors.interceptors), LiveOf(responseInterceptors.interceptors))
    {
      var target: JsObject;
      if config == null {
        target := new JsObject(map[]);
      } else {
        target := config;
      }
      target.fields := target.fields["method" := Str(verb)]["url" := url]["data" := data];
      p := Request(Config(target), null);
    }
  }
}
