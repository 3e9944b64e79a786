/** The interceptor chain: `interceptor` turns optional hooks and a default
    configuration into an applier, `http(...).wrap(...)` stacks appliers
    around a base handler, and the three stock interceptors serialise bodies,
    reject error statuses and parse JSON.

    A client is a value, `Base(handler)` or `Layer(inner, hooks, staticConfig)`,
    standing for the function the source builds; `Invoke` is calling it.
    Every call also returns the trace of the hook events it ran. */
module Client {
  import opened JsValues

  type Config = Record

  /** A fetch `Request`, reduced to its URL and the options it was built from. */
  datatype Request = Request(url: string, init: Record)

  /** `RequestInfo`: a URL, or a request built earlier. */
  datatype RequestInfo = Url(url: string) | Req(request: Request)

  datatype Response = Response(status: int, statusText: string, body: string)

  /** What a deferred result resolves to: a response, or any other value
      (a parsed body, say). */
  datatype Payload = Resp(response: Response) | Value(value: Js)

  /** Why a promise rejected: `new Error(text)` thrown with a message
      value, or the TypeError of reading a property of `null` or
      `undefined`. */
  datatype Failure = Error(text: Js) | TypeError

  /** A settled promise. */
  datatype Deferred = Resolved(payload: Payload) | Rejected(failure: Failure)

  /** `d.then(f)`: rejections pass through untouched. */
  function Then(d: Deferred, f: Payload -> Deferred): (r: Deferred)
    ensures d.Rejected? ==> r == d
    ensures d.Resolved? ==> r == f(d.payload)
  {
    match d
    case Resolved(p) => f(p)
    case Rejected(_) => d
  }

  /** The callable shape of a client: `(req, init?) => result`. */
  type Handler = (RequestInfo, Option<Record>) -> Deferred

  /** The hooks given to `interceptor`; a missing hook is the identity. */
  datatype Interceptor = Interceptor(
    init: Option<Config -> Config>,
    preRequest: Option<(Request, Config, Option<Record>) -> Request>,
    postRequest: Option<(Deferred, Config) -> Deferred>,
    defaultConfig: Option<Config>)

  /** A client: the base handler, or an interceptor applied around an inner
      client together with the configuration it computed when applied. */
  datatype Client =
    | Base(handler: Handler)
    | Layer(inner: Client, hooks: Interceptor, staticConfig: Config)

  /** One hook event of a call. Layers are numbered in wrapping order: the
      first `wrap` is layer 0. */
  datatype Event =
    | PreRequest(layer: nat, request: Request, forwarded: Request, config: Config)
    | Send(info: RequestInfo, init: Option<Record>, outcome: Deferred)
    | PostRequest(layer: nat, settled: Deferred, result: Deferred, config: Config)

  datatype Outcome = Outcome(result: Deferred, trace: seq<Event>)

  function Depth(c: Client): nat {
    match c
    case Base(_) => 0
    case Layer(inner, _, _) => Depth(inner) + 1
  }

  /** The handler at the bottom of the chain. */
  function BaseHandler(c: Client): Handler {
    match c
    case Base(h) => h
    case Layer(inner, _, _) => BaseHandler(inner)
  }

  /** The hooks and static configuration of layer k. */
  function HooksAt(c: Client, k: nat): Interceptor
    requires k < Depth(c)
  {
    match c
    case Layer(inner, ic, _) => if k == Depth(inner) then ic else HooksAt(inner, k)
  }

  function StaticAt(c: Client, k: nat): Config
    requires k < Depth(c)
  {
    match c
    case Layer(inner, _, sc) => if k == Depth(inner) then sc else StaticAt(inner, k)
  }

  // ---------------------------------------------------------------------
  // Building clients

  /** `http(parent?)`: the parent handler, or the platform's fetch. */
  function Http(parent: Option<Handler>, fetch: Handler): (c: Client)
    ensures Depth(c) == 0
    ensures forall info, init :: Invoke(c, info, init).result == parent.GetOr(fetch)(info, init)
  {
    Base(parent.GetOr(fetch))
  }

  /** The applier's first step, run once when it is applied:
      `init({...defaultConfig, ...config})`. */
  function StaticConfig(ic: Interceptor, config: Option<Config>): (r: Config)
    ensures ic.init.Some? ==> r == ic.init.value(Override(ic.defaultConfig.GetOr(map[]), config.GetOr(map[])))
    ensures ic.init.None? ==> r == Override(ic.defaultConfig.GetOr(map[]), config.GetOr(map[]))
  {
    var merged := Override(ic.defaultConfig.GetOr(map[]), config.GetOr(map[]));
    if ic.init.Some? then ic.init.value(merged) else merged
  }

  /** Without an `init` hook the static configuration has every default and
      every wrap-time key, the wrap-time value winning. */
  lemma StaticConfigPrecedence(ic: Interceptor, config: Option<Config>)
    requires ic.init.None?
    ensures var r := StaticConfig(ic, config);
      && r.Keys == ic.defaultConfig.GetOr(map[]).Keys + config.GetOr(map[]).Keys
      && (forall k :: k in config.GetOr(map[]) ==> r[k] == config.GetOr(map[])[k])
      && (forall k :: k in ic.defaultConfig.GetOr(map[]) && k !in config.GetOr(map[]) ==>
            r[k] == ic.defaultConfig.GetOr(map[])[k])
  {
    OverrideMeaning(ic.defaultConfig.GetOr(map[]), config.GetOr(map[]));
  }

  /** `client.wrap(interceptor, config?)`: one more layer outside `c`, whose
      static configuration is fixed now, not at call time. */
  function Wrap(c: Client, ic: Interceptor, config: Option<Config>): (r: Client)
    ensures Depth(r) == Depth(c) + 1 && BaseHandler(r) == BaseHandler(c)
    ensures HooksAt(r, Depth(c)) == ic && StaticAt(r, Depth(c)) == StaticConfig(ic, config)
    ensures forall k: nat :: k < Depth(c) ==> HooksAt(r, k) == HooksAt(c, k) && StaticAt(r, k) == StaticAt(c, k)
  {
    Layer(c, ic, StaticConfig(ic, config))
  }

  // ---------------------------------------------------------------------
  // Calling clients

  /** `reqInfo instanceof Request ? reqInfo : new Request(reqInfo, init)` */
  function Normalize(info: RequestInfo, init: Option<Record>): (r: Request)
    ensures info.Req? ==> r == info.request
    ensures info.Url? ==> r.url == info.url && r.init == init.GetOr(map[])
  {
    match info
    case Req(request) => request
    case Url(url) => Request(url, init.GetOr(map[]))
  }

  /** The configuration a caller passes in `init.config`. */
  function CallTime(init: Option<Record>): Config {
    if init.Some? then Entries(Get(init.value, "config")) else map[]
  }

  /** `Object.assign({}, staticConfig, init?.config)` */
  function CallConfig(staticConfig: Config, init: Option<Record>): (r: Config)
    ensures init.None? ==> r == staticConfig
  {
    Override(staticConfig, CallTime(init))
  }

  /** Call-time keys win over the static configuration, which supplies the
      rest. */
  lemma CallConfigPrecedence(staticConfig: Config, init: Option<Record>)
    ensures var r := CallConfig(staticConfig, init);
      && r.Keys == staticConfig.Keys + CallTime(init).Keys
      && (forall k :: k in CallTime(init) ==> r[k] == CallTime(init)[k])
      && (forall k :: k in staticConfig && k !in CallTime(init) ==> r[k] == staticConfig[k])
  {
    OverrideMeaning(staticConfig, CallTime(init));
  }

  function RunPre(ic: Interceptor, request: Request, config: Config, init: Option<Record>): Request {
    if ic.preRequest.Some? then ic.preRequest.value(request, config, init) else request
  }

  function RunPost(ic: Interceptor, settled: Deferred, config: Config): Deferred {
    if ic.postRequest.Some? then ic.postRequest.value(settled, config) else settled
  }

  /** Calling a client. A layer (`wrappedClient`) normalises the request,
      merges the per-call configuration, runs its pre-hook, calls the inner
      client with the hook's request and the caller's own `init`, and runs
      its post-hook on what comes back. */
  function Invoke(c: Client, info: RequestInfo, init: Option<Record>): (o: Outcome)
    ensures |o.trace| == 2 * Depth(c) + 1
  {
    match c
    case Base(h) =>
      var r := h(info, init);
      Outcome(r, [Send(info, init, r)])
    case Layer(inner, ic, sc) =>
      var k := Depth(inner);
      var request := Normalize(info, init);
      var config := CallConfig(sc, init);
      var forwarded := RunPre(ic, request, config, init);
      var below := Invoke(inner, Req(forwarded), init);
      var result := RunPost(ic, below.result, config);
      Outcome(result, [PreRequest(k, request, forwarded, config)] + below.trace
                      + [PostRequest(k, below.result, result, config)])
  }

  // ---------------------------------------------------------------------
  // Laws of a call

  /** The onion: n pre-hooks from the outermost layer inwards, the base call,
      then n post-hooks from the innermost layer outwards. */
  predicate OnionShaped(tr: seq<Event>, n: nat) {
    && |tr| == 2 * n + 1
    && (forall j :: 0 <= j < n ==> tr[j].PreRequest? && tr[j].layer == n - 1 - j)
    && tr[n].Send?
    && (forall j :: n < j < |tr| ==> tr[j].PostRequest? && tr[j].layer == j - n - 1)
  }

  /** The trace of a call through a layer is the layer's pre-hook event, the
      inner client's trace, and the layer's post-hook event. */
  lemma Unwrapped(c: Client, info: RequestInfo, init: Option<Record>)
    requires c.Layer?
    ensures var config := CallConfig(c.staticConfig, init);
      var request := Normalize(info, init);
      var forwarded := RunPre(c.hooks, request, config, init);
      var o := Invoke(c, info, init);
      var below := Invoke(c.inner, Req(forwarded), init);
      && |o.trace| == |below.trace| + 2
      && o.trace[0] == PreRequest(Depth(c.inner), request, forwarded, config)
      && (forall j :: 0 < j <= |below.trace| ==> o.trace[j] == below.trace[j - 1])
      && o.trace[|o.trace| - 1] == PostRequest(Depth(c.inner), below.result, o.result, config)
      && o.result == RunPost(c.hooks, below.result, config)
  {
    var config := CallConfig(c.staticConfig, init);
    var request := Normalize(info, init);
    var forwarded := RunPre(c.hooks, request, config, init);
    var below := Invoke(c.inner, Req(forwarded), init);
    var k := Depth(c.inner);
    var result := RunPost(c.hooks, below.result, config);
    var tr := [PreRequest(k, request, forwarded, config)] + below.trace + [PostRequest(k, below.result, result, config)];
    assert Invoke(c, info, init) == Outcome(result, tr);
  }

  lemma {:induction false} OnionOrder(c: Client, info: RequestInfo, init: Option<Record>)
    ensures OnionShaped(Invoke(c, info, init).trace, Depth(c))
  {
    match c
    case Base(_) =>
    case Layer(inner, ic, sc) =>
      var forwarded := RunPre(ic, Normalize(info, init), CallConfig(sc, init), init);
      OnionOrder(inner, Req(forwarded), init);
      Unwrapped(c, info, init);
  }

  /** Event j is a pre-hook whose output is what event j + 1 receives. */
  predicate PassesInward(tr: seq<Event>, j: int) {
    && 0 <= j && j + 1 < |tr| && tr[j].PreRequest?
    && ((tr[j + 1].PreRequest? && tr[j + 1].request == tr[j].forwarded) ||
        (tr[j + 1].Send? && tr[j + 1].info == Req(tr[j].forwarded)))
  }

  /** Event j + 1 is a post-hook that receives what event j produced. */
  predicate PassesOutward(tr: seq<Event>, j: int) {
    && 0 <= j && j + 1 < |tr| && tr[j + 1].PostRequest?
    && ((tr[j].Send? && tr[j + 1].settled == tr[j].outcome) ||
        (tr[j].PostRequest? && tr[j + 1].settled == tr[j].result))
  }

  /** Requests travel inwards: the outermost layer sees the normalised
      request, each pre-hook's output is what the next layer (or the base
      handler) receives, and the caller's `init` reaches the base unchanged. */
  predicate RequestsFlowInward(tr: seq<Event>, n: nat, info: RequestInfo, init: Option<Record>)
    requires OnionShaped(tr, n)
  {
    && (if n == 0 then tr[0].info == info else tr[0].request == Normalize(info, init))
    && (forall j :: 0 <= j < n ==> PassesInward(tr, j))
    && tr[n].init == init
  }

  /** Results travel outwards: each post-hook receives what the layer below
      produced, and the call's result is the outermost post-hook's output. */
  predicate ResultsFlowOutward(tr: seq<Event>, n: nat, result: Deferred)
    requires OnionShaped(tr, n)
  {
    && (forall j :: n <= j < 2 * n ==> PassesOutward(tr, j))
    && result == if n == 0 then tr[0].outcome else tr[2 * n].result
  }

  /** Layer k's pre-hook event (position `Depth(c) - 1 - k`) ran layer k's
      pre-hook, with layer k's static configuration overridden by the
      caller's `init.config`. */
  predicate PreHooksOfTheirLayer(tr: seq<Event>, c: Client, init: Option<Record>)
    requires OnionShaped(tr, Depth(c))
  {
    forall k :: 0 <= k < Depth(c) ==>
      && tr[Depth(c) - 1 - k].config == CallConfig(StaticAt(c, k), init)
      && tr[Depth(c) - 1 - k].forwarded
         == RunPre(HooksAt(c, k), tr[Depth(c) - 1 - k].request, tr[Depth(c) - 1 - k].config, init)
  }

  /** Layer k's post-hook event (position `Depth(c) + 1 + k`) ran layer k's
      post-hook, with the same configuration as layer k's pre-hook. */
  predicate PostHooksOfTheirLayer(tr: seq<Event>, c: Client, init: Option<Record>)
    requires OnionShaped(tr, Depth(c))
  {
    forall k :: 0 <= k < Depth(c) ==>
      && tr[Depth(c) + 1 + k].config == CallConfig(StaticAt(c, k), init)
      && tr[Depth(c) + 1 + k].result
         == RunPost(HooksAt(c, k), tr[Depth(c) + 1 + k].settled, tr[Depth(c) + 1 + k].config)
  }

  /** The base event ran the base handler. */
  predicate BaseCalled(tr: seq<Event>, c: Client)
    requires OnionShaped(tr, Depth(c))
  {
    tr[Depth(c)].outcome == BaseHandler(c)(tr[Depth(c)].info, tr[Depth(c)].init)
  }

  predicate HooksOfTheirLayer(tr: seq<Event>, c: Client, init: Option<Record>)
    requires OnionShaped(tr, Depth(c))
  {
    PreHooksOfTheirLayer(tr, c, init) && PostHooksOfTheirLayer(tr, c, init) && BaseCalled(tr, c)
  }

  lemma {:induction false} RequestLaw(c: Client, info: RequestInfo, init: Option<Record>)
    ensures OnionShaped(Invoke(c, info, init).trace, Depth(c))
    ensures RequestsFlowInward(Invoke(c, info, init).trace, Depth(c), info, init)
  {
    OnionOrder(c, info, init);
    match c
    case Base(_) =>
    case Layer(inner, ic, sc) =>
      var forwarded := RunPre(ic, Normalize(info, init), CallConfig(sc, init), init);
      RequestLaw(inner, Req(forwarded), init);
      Unwrapped(c, info, init);
      var tr := Invoke(c, info, init).trace;
      var below := Invoke(inner, Req(forwarded), init).trace;
      var n := Depth(c);
      forall j | 0 <= j < n
        ensures PassesInward(tr, j)
      {
        if j > 0 {
          assert PassesInward(below, j - 1);
        }
      }
  }

  lemma {:induction false} ResultLaw(c: Client, info: RequestInfo, init: Option<Record>)
    ensures OnionShaped(Invoke(c, info, init).trace, Depth(c))
    ensures ResultsFlowOutward(Invoke(c, info, init).trace, Depth(c), Invoke(c, info, init).result)
  {
    OnionOrder(c, info, init);
    match c
    case Base(_) =>
    case Layer(inner, ic, sc) =>
      var forwarded := RunPre(ic, Normalize(info, init), CallConfig(sc, init), init);
      ResultLaw(inner, Req(forwarded), init);
      Unwrapped(c, info, init);
      var tr := Invoke(c, info, init).trace;
      var below := Invoke(inner, Req(forwarded), init).trace;
      var m := Depth(inner);
      forall j | m + 1 <= j < 2 * m + 2
        ensures PassesOutward(tr, j)
      {
        if j < 2 * m + 1 {
          assert PassesOutward(below, j - 1);
          assert tr[j] == below[j - 1] && tr[j + 1] == below[j];
        } else {
          assert tr[j] == below[2 * m];
          assert tr[j + 1].settled == Invoke(inner, Req(forwarded), init).result;
          if m == 0 {
            assert tr[j].Send? && tr[j + 1].settled == tr[j].outcome;
          } else {
            assert tr[j].PostRequest? && tr[j + 1].settled == tr[j].result;
          }
        }
      }
      assert Invoke(c, info, init).result == tr[2 * m + 2].result;
  }

  /** The pre-hook event of layer k. */
  lemma {:induction false} PreHookAt(c: Client, info: RequestInfo, init: Option<Record>, k: nat)
    requires k < Depth(c)
    ensures var e := Invoke(c, info, init).trace[Depth(c) - 1 - k];
      && e.PreRequest? && e.layer == k
      && e.config == CallConfig(StaticAt(c, k), init)
      && e.forwarded == RunPre(HooksAt(c, k), e.request, e.config, init)
  {
    var inner, ic, sc := c.inner, c.hooks, c.staticConfig;
    var forwarded := RunPre(ic, Normalize(info, init), CallConfig(sc, init), init);
    Unwrapped(c, info, init);
    if k < Depth(inner) {
      PreHookAt(inner, Req(forwarded), init, k);
      var j := Depth(c) - 1 - k;
      assert Invoke(c, info, init).trace[j] == Invoke(inner, Req(forwarded), init).trace[j - 1];
    }
  }

  /** The post-hook event of layer k. */
  lemma {:induction false} PostHookAt(c: Client, info: RequestInfo, init: Option<Record>, k: nat)
    requires k < Depth(c)
    ensures var e := Invoke(c, info, init).trace[Depth(c) + 1 + k];
      && e.PostRequest? && e.layer == k
      && e.config == CallConfig(StaticAt(c, k), init)
      && e.result == RunPost(HooksAt(c, k), e.settled, e.config)
  {
    var inner, ic, sc := c.inner, c.hooks, c.staticConfig;
    var forwarded := RunPre(ic, Normalize(info, init), CallConfig(sc, init), init);
    Unwrapped(c, info, init);
    if k < Depth(inner) {
      PostHookAt(inner, Req(forwarded), init, k);
      var j := Depth(c) + 1 + k;
      assert Invoke(c, info, init).trace[j] == Invoke(inner, Req(forwarded), init).trace[j - 1];
    }
  }

  lemma PreHookLaw(c: Client, info: RequestInfo, init: Option<Record>)
    ensures OnionShaped(Invoke(c, info, init).trace, Depth(c))
    ensures PreHooksOfTheirLayer(Invoke(c, info, init).trace, c, init)
  {
    OnionOrder(c, info, init);
    forall k | 0 <= k < Depth(c)
      ensures var tr := Invoke(c, info, init).trace;
        && tr[Depth(c) - 1 - k].config == CallConfig(StaticAt(c, k), init)
        && tr[Depth(c) - 1 - k].forwarded
           == RunPre(HooksAt(c, k), tr[Depth(c) - 1 - k].request, tr[Depth(c) - 1 - k].config, init)
    {
      PreHookAt(c, info, init, k);
    }
  }

  lemma PostHookLaw(c: Client, info: RequestInfo, init: Option<Record>)
    ensures OnionShaped(Invoke(c, info, init).trace, Depth(c))
    ensures PostHooksOfTheirLayer(Invoke(c, info, init).trace, c, init)
  {
    OnionOrder(c, info, init);
    forall k | 0 <= k < Depth(c)
      ensures var tr := Invoke(c, info, init).trace;
        && tr[Depth(c) + 1 + k].config == CallConfig(StaticAt(c, k), init)
        && tr[Depth(c) + 1 + k].result
           == RunPost(HooksAt(c, k), tr[Depth(c) + 1 + k].settled, tr[Depth(c) + 1 + k].config)
    {
      PostHookAt(c, info, init, k);
    }
  }

  lemma {:induction false} BaseLaw(c: Client, info: RequestInfo, init: Option<Record>)
    ensures OnionShaped(Invoke(c, info, init).trace, Depth(c))
    ensures BaseCalled(Invoke(c, info, init).trace, c)
  {
    OnionOrder(c, info, init);
    match c
    case Base(h) =>
      assert Invoke(c, info, init).trace[0] == Send(info, init, h(info, init));
    case Layer(inner, ic, sc) =>
      var forwarded := RunPre(ic, Normalize(info, init), CallConfig(sc, init), init);
      BaseLaw(inner, Req(forwarded), init);
      Unwrapped(c, info, init);
      assert Invoke(c, info, init).trace[Depth(c)] == Invoke(inner, Req(forwarded), init).trace[Depth(inner)];
  }

  /** The whole contract of calling a chain of interceptors, stated on the
      trace of the call. */
  lemma CallLaws(c: Client, info: RequestInfo, init: Option<Record>)
    ensures var o := Invoke(c, info, init);
      && OnionShaped(o.trace, Depth(c))
      && RequestsFlowInward(o.trace, Depth(c), info, init)
      && ResultsFlowOutward(o.trace, Depth(c), o.result)
      && HooksOfTheirLayer(o.trace, c, init)
  {
    RequestLaw(c, info, init);
    ResultLaw(c, info, init);
    PreHookLaw(c, info, init);
    PostHookLaw(c, info, init);
    BaseLaw(c, info, init);
  }

  /** `http(T).wrap(A).wrap(B)` called once runs B.pre, A.pre, T, A.post,
      B.post: layer 1 is B, layer 0 is A. */
  lemma ChainOfTwo(t: Handler, a: Interceptor, ca: Option<Config>, b: Interceptor, cb: Option<Config>,
                   info: RequestInfo, init: Option<Record>)
    ensures var c := Wrap(Wrap(Http(Some(t), t), a, ca), b, cb);
      var tr := Invoke(c, info, init).trace;
      && Depth(c) == 2 && HooksAt(c, 1) == b && HooksAt(c, 0) == a
      && |tr| == 5
      && tr[0].PreRequest? && tr[0].layer == 1
      && tr[1].PreRequest? && tr[1].layer == 0
      && tr[2].Send?
      && tr[3].PostRequest? && tr[3].layer == 0
      && tr[4].PostRequest? && tr[4].layer == 1
  {
    OnionOrder(Wrap(Wrap(Http(Some(t), t), a, ca), b, cb), info, init);
  }

  /** Interceptor default `{a: 0, c: 3}`, wrap-time `{a: 1}` and call-time
      `{b: 2}`: the pre-hook sees `{a: 1, b: 2, c: 3}`. */
  lemma ConfigPrecedence(t: Handler, pre: (Request, Config, Option<Record>) -> Request)
    ensures var ic := Interceptor(None, Some(pre), None, Some(map["a" := Num(0), "c" := Num(3)]));
      var c := Wrap(Http(Some(t), t), ic, Some(map["a" := Num(1)]));
      var o := Invoke(c, Url("/foo"), Some(map["config" := Obj(map["b" := Num(2)])]));
      o.trace[0].config == map["a" := Num(1), "b" := Num(2), "c" := Num(3)]
  {
    var m := map["a" := Num(0), "c" := Num(3)] + map["a" := Num(1)];
    assert m == map["a" := Num(1), "c" := Num(3)];
  }

  /** An interceptor without hooks changes nothing but the request's form:
      the inner client gets the normalised request and returns the result. */
  lemma NoHooksIsIdentity(c: Client, d: Option<Config>, config: Option<Config>,
                          info: RequestInfo, init: Option<Record>)
    ensures Invoke(Wrap(c, Interceptor(None, None, None, d), config), info, init).result
         == Invoke(c, Req(Normalize(info, init)), init).result
  {
  }

  /** The per-call work of a layer depends on the configuration fixed at wrap
      time, never on the `init` hook, which ran once when the layer was made. */
  lemma InitHookRunsOnce(inner: Client, ic: Interceptor, sc: Config, other: Option<Config -> Config>,
                         info: RequestInfo, init: Option<Record>)
    ensures Invoke(Layer(inner, ic, sc), info, init) == Invoke(Layer(inner, ic.(init := other), sc), info, init)
  {
  }

  // ---------------------------------------------------------------------
  // Stock interceptors

  /** `init` carries a `data` field that is neither undefined nor null. */
  predicate HasData(init: Option<Record>) {
    init.Some? && Get(init.value, "data") != Undefined && Get(init.value, "data") != Null
  }

  /** `new Request(req, init)`: the given members replace those of `req`. */
  function Rebuild(req: Request, init: Record): Request {
    Request(req.url, req.init + init)
  }

  /** The headers `httpBodySerialize` sends: `{...(init.headers ?? {}),
      'Content-Type': 'application/json'}` when `appendContentType` is
      `true`, the caller's own headers otherwise. */
  function SerializedHeaders(config: Config, init: Record): Js {
    if Get(config, "appendContentType") == Bool(true)
    then Obj(Override(Entries(NullishOrEmpty(Get(init, "headers"))), map["Content-Type" := Str("application/json")]))
    else Get(init, "headers")
  }

  /** The pre-hook of `httpBodySerialize`. */
  function SerializeBody(b: Builtins, req: Request, config: Config, init: Option<Record>): (r: Request)
    ensures !HasData(init) ==> r == req
    ensures r.url == req.url
  {
    if HasData(init) then
      var i := init.value;
      Rebuild(req, Override(i, map["body" := Str(b.stringify(i["data"])), "headers" := SerializedHeaders(config, i)]))
    else
      req
  }

  /** With data present, the new request carries the stringified data as its
      body, the serialised headers, and otherwise the caller's options over
      the original request's. */
  lemma SerializeBodyWithData(b: Builtins, req: Request, config: Config, init: Option<Record>)
    requires HasData(init)
    ensures var r := SerializeBody(b, req, config, init);
      var i := init.value;
      && r.init.Keys == req.init.Keys + i.Keys + {"body", "headers"}
      && r.init["body"] == Str(b.stringify(i["data"]))
      && r.init["headers"] == SerializedHeaders(config, i)
      && (forall k :: k in i && k != "body" && k != "headers" ==> r.init[k] == i[k])
      && (forall k :: k in req.init && k !in i && k != "body" && k != "headers" ==> r.init[k] == req.init[k])
  {
    var i := init.value;
    var extra := map["body" := Str(b.stringify(i["data"])), "headers" := SerializedHeaders(config, i)];
    var given := Override(i, extra);
    assert given["body"] == Str(b.stringify(i["data"]));
    assert given["headers"] == SerializedHeaders(config, i);
  }

  /** With `appendContentType` on, the content type is JSON and the caller's
      other headers are kept; with it off, the caller's headers are sent as
      they are. */
  lemma SerializedHeadersMeaning(config: Config, init: Record)
    ensures Get(config, "appendContentType") != Bool(true) ==> SerializedHeaders(config, init) == Get(init, "headers")
    ensures Get(config, "appendContentType") == Bool(true) ==>
      var h := SerializedHeaders(config, init);
      var given := Entries(NullishOrEmpty(Get(init, "headers")));
      && h.Obj? && h.fields.Keys == given.Keys + {"Content-Type"}
      && h.fields["Content-Type"] == Str("application/json")
      && forall k :: k in given && k != "Content-Type" ==> h.fields[k] == given[k]
  {
  }

  function HttpBodySerialize(b: Builtins): Interceptor {
    Interceptor(None, Some((req, config, init) => SerializeBody(b, req, config, init)), None,
                Some(map["appendContentType" := Bool(true)]))
  }

  /** How `>=` reads a value as a number: numbers as they are, `null` as 0,
      booleans as 0 or 1. `undefined` and objects read as NaN, and every
      comparison with NaN is false. */
  function Numeric(v: Js): Option<int> {
    match v
    case Num(n) => Some(n)
    case Null => Some(0)
    case Bool(x) => Some(if x then 1 else 0)
    case _ => None
  }

  /** `status >= threshold` */
  predicate Reaches(status: Js, threshold: Js) {
    Numeric(status).Some? && Numeric(threshold).Some? && Numeric(status).value >= Numeric(threshold).value
  }

  /** The callback `httpErrorCode` gives to `then`. It reads `status` and
      `statusText` of whatever the promise resolved to. A response or a
      plain object whose status reaches the threshold throws
      `new Error(statusText)`. Reading from `null` or `undefined` throws a
      TypeError. A boolean, number or string has no `status`, so it
      passes. */
  function StatusCheck(p: Payload, config: Config): Deferred {
    match p
    case Resp(resp) =>
      if Reaches(Num(resp.status), Get(config, "errorCode")) then Rejected(Error(Str(resp.statusText))) else Resolved(p)
    case Value(v) =>
      match v
      case Undefined => Rejected(TypeError)
      case Null => Rejected(TypeError)
      case Obj(fields) =>
        if Reaches(Get(fields, "status"), Get(config, "errorCode")) then Rejected(Error(Get(fields, "statusText")))
        else Resolved(p)
      case _ => Resolved(p)
  }

  /** The post-hook of `httpErrorCode`. */
  function CheckStatus(res: Deferred, config: Config): (r: Deferred)
    ensures res.Rejected? ==> r == res
    ensures res.Resolved? && res.payload.Resp? ==>
      var resp := res.payload.response;
      (r == Rejected(Error(Str(resp.statusText))) <==> Reaches(Num(resp.status), Get(config, "errorCode")))
      && (!Reaches(Num(resp.status), Get(config, "errorCode")) ==> r == res)
    ensures res.Resolved? && res.payload.Value? && res.payload.value.Obj? ==>
      var fields := res.payload.value.fields;
      (r == Rejected(Error(Get(fields, "statusText"))) <==> Reaches(Get(fields, "status"), Get(config, "errorCode")))
      && (!Reaches(Get(fields, "status"), Get(config, "errorCode")) ==> r == res)
    ensures res.Resolved? && res.payload.Value? && res.payload.value in {Undefined, Null} ==> r == Rejected(TypeError)
    ensures res.Resolved? && res.payload.Value? && (res.payload.value.Bool? || res.payload.value.Num? || res.payload.value.Str?) ==>
      r == res
  {
    Then(res, (p: Payload) => StatusCheck(p, config))
  }

  /** A plain object `{status: 500, statusText: "boom"}`, as a handler that
      resolves to parsed bodies might produce, rejects with "boom" against
      the default threshold; `{status: 200}` passes. */
  lemma PlainStatusObject(config: Config)
    requires Get(config, "errorCode") == Num(400)
    ensures var boom := Resolved(Value(Obj(map["status" := Num(500), "statusText" := Str("boom")])));
      CheckStatus(boom, config) == Rejected(Error(Str("boom")))
    ensures var fine := Resolved(Value(Obj(map["status" := Num(200)])));
      CheckStatus(fine, config) == fine
  {
    var boom := map["status" := Num(500), "statusText" := Str("boom")];
    assert Get(boom, "status") == Num(500) && Get(boom, "statusText") == Str("boom");
    var fine := map["status" := Num(200)];
    assert Get(fine, "status") == Num(200);
  }

  function HttpErrorCode(): Interceptor {
    Interceptor(None, None, Some((res, config) => CheckStatus(res, config)), Some(map["errorCode" := Num(400)]))
  }

  /** `httpJsonParser`, with `resp.json()` as a parameter. */
  function HttpJsonParser(json: Payload -> Deferred): Interceptor {
    Interceptor(None, None, Some((res, config) => Then(res, json)), None)
  }

  /** `http.default()`: the parser is wrapped last, so it is outermost. */
  function HttpDefault(fetch: Handler, b: Builtins, json: Payload -> Deferred): Client {
    Wrap(Wrap(Wrap(Http(None, fetch), HttpBodySerialize(b), None), HttpErrorCode(), None), HttpJsonParser(json), None)
  }

  /** The layers of `http.default()`: body serialisation innermost, then
      the status check, then the JSON parser. */
  ghost predicate DefaultStack(c: Client, fetch: Handler, b: Builtins, json: Payload -> Deferred) {
    && Depth(c) == 3 && BaseHandler(c) == fetch
    && HooksAt(c, 0) == HttpBodySerialize(b) && StaticAt(c, 0) == map["appendContentType" := Bool(true)]
    && HooksAt(c, 1) == HttpErrorCode() && StaticAt(c, 1) == map["errorCode" := Num(400)]
    && HooksAt(c, 2) == HttpJsonParser(json)
  }

  lemma DefaultLayers(fetch: Handler, b: Builtins, json: Payload -> Deferred)
    ensures DefaultStack(HttpDefault(fetch, b, json), fetch, b, json)
  {
    var none: Config := map[];
    assert none + map["appendContentType" := Bool(true)] == map["appendContentType" := Bool(true)];
    assert none + map["errorCode" := Num(400)] == map["errorCode" := Num(400)];
  }

  /** In the default stack the body is serialised (layer 0) just before
      fetch is called, with `appendContentType` on unless the caller turns
      it off. */
  lemma StackSerializesBody(c: Client, fetch: Handler, b: Builtins, json: Payload -> Deferred,
                            info: RequestInfo, init: Option<Record>)
    requires DefaultStack(c, fetch, b, json)
    ensures var o := Invoke(c, info, init);
      && |o.trace| == 7 && o.trace[2].PreRequest? && o.trace[3].Send?
      && o.trace[2].forwarded
         == SerializeBody(b, o.trace[2].request, CallConfig(map["appendContentType" := Bool(true)], init), init)
      && o.trace[3] == Send(Req(o.trace[2].forwarded), init, fetch(Req(o.trace[2].forwarded), init))
  {
    RequestLaw(c, info, init);
    PreHookAt(c, info, init, 0);
    BaseLaw(c, info, init);
    assert PassesInward(Invoke(c, info, init).trace, 2);
  }

  /** In the default stack the status is checked (layer 1) before the body
      is parsed (layer 2), against a threshold of 400 unless the caller
      gives another. */
  lemma StackChecksBeforeParsing(c: Client, fetch: Handler, b: Builtins, json: Payload -> Deferred,
                                 info: RequestInfo, init: Option<Record>)
    requires DefaultStack(c, fetch, b, json)
    ensures var o := Invoke(c, info, init);
      && |o.trace| == 7 && o.trace[3].Send?
      && o.result == Then(CheckStatus(o.trace[3].outcome, CallConfig(map["errorCode" := Num(400)], init)), json)
  {
    ResultLaw(c, info, init);
    PostHookAt(c, info, init, 0);
    PostHookAt(c, info, init, 1);
    PostHookAt(c, info, init, 2);
    var tr := Invoke(c, info, init).trace;
    assert PassesOutward(tr, 3) && PassesOutward(tr, 4) && PassesOutward(tr, 5);
  }

  /** A 400 "Bad Request" response rejects with "Bad Request" and is never
      parsed; a 301 passes to the parser. */
  lemma DefaultClientStatus(b: Builtins, json: Payload -> Deferred, info: RequestInfo, body: string)
    ensures var bad := (i: RequestInfo, o: Option<Record>) => Resolved(Resp(Response(400, "Bad Request", body)));
      Invoke(HttpDefault(bad, b, json), info, None).result == Rejected(Error(Str("Bad Request")))
    ensures var moved := (i: RequestInfo, o: Option<Record>) => Resolved(Resp(Response(301, "Moved", body)));
      Invoke(HttpDefault(moved, b, json), info, None).result == json(Resp(Response(301, "Moved", body)))
  {
    var bad := (i: RequestInfo, o: Option<Record>) => Resolved(Resp(Response(400, "Bad Request", body)));
    var moved := (i: RequestInfo, o: Option<Record>) => Resolved(Resp(Response(301, "Moved", body)));
    DefaultLayers(bad, b, json);
    DefaultLayers(moved, b, json);
    StackSerializesBody(HttpDefault(bad, b, json), bad, b, json, info, None);
    StackChecksBeforeParsing(HttpDefault(bad, b, json), bad, b, json, info, None);
    StackSerializesBody(HttpDefault(moved, b, json), moved, b, json, info, None);
    StackChecksBeforeParsing(HttpDefault(moved, b, json), moved, b, json, info, None);
  }
}
