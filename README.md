# ts-rest-client, modelled in Dafny

ts-rest-client describes a REST API as a tree of namespaces and compiles
it into an object of callable members. There are two parts:

- **The REST compiler** (`src/rest.ts`). `rest(options)(path, define)`
  - creates a root `Namespace` at `/path`, and the `define` callback fills
    it with `get`/`post`/`patch`/`put`/`delete`/`member` definitions and
    with child namespaces;
  - `build(ops)` turns it into a table, with one bound callable per member
    and one sub-table per child.
  - Calling a bound callable does four things. It substitutes the `:name`
    tokens of `baseUrl + parentPath + path` with the encoded arguments. It
    merges the member's configuration with the caller's. A GET appends a
    query string built from the arguments left over. Any other method sends
    them as a JSON body. The result goes to the HTTP client.
- **The HTTP client** (`src/client.ts`).
  - `interceptor(hooks)` turns optional `init`/`preRequest`/`postRequest`
    hooks and a default configuration into an applier.
  - `http(parent?).wrap(applier, config?)` stacks appliers around a base
    handler (the parent, or `fetch`).
  - `http.default()` stacks the three stock interceptors:
    `httpBodySerialize`, `httpErrorCode` and `httpJsonParser`.

The model has four modules:

- `JsValues` (`js_values.dfy`): JavaScript values. Plain objects are
  string-keyed records, and object spread `{...a, ...b}` is record
  override.
- `PathTemplate` (`path_template.dfy`): `substituteParams`. The global
  regular expression `/:([^/]+)/g` is a scan into text and token
  segments. Its replace callback is a left-to-right fold that reads from
  and deletes from the residual copy of the arguments. The source's
  imperative pass is a method proved against that fold.
- `Client` (`client.dfy`): the interceptor chain.
  - A client is a value: `Base(handler)`, or
    `Layer(inner, hooks, staticConfig)`, where the static configuration is
    fixed when `wrap` is called.
  - `Invoke` is calling a client. It returns the result and the trace of
    hook events, so the order of the hooks and what each hook sees can be
    stated for a chain of any depth.
- `Rest` (`rest.dfy`): the namespace builder and the bound callables.
  - `Rest.Namespace` is a class with the source's mutable fields
    (`members`, `children`, `parentPath`). Its ghost `model: Tree` mirrors
    the whole subtree.
  - A `define` callback is the list of builder calls it makes (`Decl`).
  - The builder methods state their new state as `Apply` of the old
    `model`. What the source promises about a whole `define` callback is
    proved on `Tree` values, in `DeclareMembers`, `DeclarePaths` and
    `RestTree`.
  - `build` is proved against the pure `BuildTree`.
  - A bound callable is defunctionalised as an `Endpoint`: the options,
    the prefix and the member definition its closure captures. Calling it
    is `Prepare` followed by `Client.Invoke`.

Where the repository's tests expect something the source does not do, the
model follows the source. Three examples:

- A root path given as `'/v1'` gives the prefix `//v1`, because the source
  prepends a slash (proved in `Rest.RestTree`).
- A DELETE never carries a query string; its residual arguments become the
  JSON body.
- For methods other than GET, the caller's `headers` replace the whole
  headers object, `Content-Type` included, because the caller's options are
  spread last. The merge with the JSON content type therefore never changes
  the result (proved in `Rest.OtherOptions`).

Features that appear only in the tests are not in the source and are not
modelled: `r.del`, `schema` transforms, argument defaults, and `data` on a
member call.

## Model

| member | source | states |
|---|---|---|
| `JsValues.Get` | src/rest.ts:32 | reading a missing key of a plain object gives `undefined`, a present key its value |
| `JsValues.Entries` | src/rest.ts:98 | spreading an object copies its own entries; spreading `undefined`, `null`, a boolean or a number copies nothing |
| `JsValues.Override` | src/rest.ts:96-99 | object spread `{...a, ...b}` as record override; `OverrideMeaning` states its keys and values |
| `JsValues.Truthy` | src/rest.ts:103 | JavaScript truthiness as `||` and `qs ? … : …` read it: `undefined`, `null`, `false`, 0 and the empty string are falsy |
| `JsValues.OrEmpty` | src/rest.ts:98 | `v \|\| {}`: the value when it is truthy, else an empty object |
| `JsValues.NullishOrEmpty` | src/client.ts:99 | `v ?? {}`: an empty object for `undefined` and `null` only |
| `JsValues.OverrideMeaning` | src/rest.ts:96-99 | `{...a, ...b}` has exactly the keys of both; `b`'s value wins on a shared key, and `a`'s value survives elsewhere |
| `PathTemplate.RunLength` | src/rest.ts:31 | the greedy `[^/]+` run: the longest prefix without `/`, ending at a `/` or at the end |
| `PathTemplate.Encode` | src/rest.ts:34 | `encodeURIComponent(undefined)` is the literal text "undefined" |
| `PathTemplate.Scan` | src/rest.ts:31 | the left-to-right scan of `/:([^/]+)/g` into text and tokens; `ScanCharacterised` proves it is the unique well-formed reading |
| `PathTemplate.Fill` | src/rest.ts:31-35 | the replace callback as a fold that reads each token's value from the residual copy and deletes it; `FillOutput` and `FillResidual` state its result |
| `PathTemplate.Substitute` | src/rest.ts:24-38 | `substituteParams` as a function; `SubstituteMeaning` states its result and the `SubstituteParams` method is proved equal to it |
| `PathTemplate.Expand` | src/rest.ts:31-35 | the reference reading of the output: a key's first token gets its encoded argument, a repeat gets "undefined" |
| `PathTemplate.ScanRenders` | src/rest.ts:31 | the regular-expression scan loses nothing: its text and tokens read back as the original string |
| `PathTemplate.ScanWellFormed` | src/rest.ts:31 | every token the scan finds has a non-empty key without `/`, and every token and every unmatched colon is followed by `/` or the end (the match is maximal) |
| `PathTemplate.ScanOfRender` | src/rest.ts:31 | any well-formed segmentation is the one the scan finds, so the scan is the unique reading of a string |
| `PathTemplate.ScanCharacterised` | src/rest.ts:31 | both directions: a segmentation is the scan of `s` if and only if it is well formed and reads back as `s` |
| `PathTemplate.ScanParamCons` | src/rest.ts:31 | a colon followed by a slash-free key and then `/` or the end is scanned as one token with that key |
| `PathTemplate.ScanTextCons` | src/rest.ts:31 | any other character starts a literal text segment |
| `PathTemplate.FillResidual` | src/rest.ts:29-35 | the replace callback deletes exactly the token keys from the residual copy |
| `PathTemplate.FillOutput` | src/rest.ts:31-35 | the replace callback's output is the reference expansion. The first token of a key gets its encoded argument, and a repeat gets "undefined" |
| `PathTemplate.SubstituteMeaning` | src/rest.ts:24-38 | `substituteParams` returns the expanded template and the arguments minus exactly the token keys; every other argument keeps its value |
| `PathTemplate.ExpandDistinct` | src/rest.ts:31-35 | with no repeated key, the expansion replaces every token by its encoded argument |
| `PathTemplate.SubstituteDistinct` | src/rest.ts:24-38 | with no repeated key, every token becomes the encoding of its argument, `undefined` included |
| `PathTemplate.ExpandNoToken` | src/rest.ts:31-35 | a segmentation without tokens expands to its own text |
| `PathTemplate.SubstituteNoToken` | src/rest.ts:24-38 | a path in which the regular expression matches no token comes back unchanged, colons included, with all arguments as the residual |
| `PathTemplate.PlainPrefixKeys` | src/rest.ts:31 | colon-free text in front of a string adds no token to it |
| `PathTemplate.ScanNoColon` | src/rest.ts:31 | a string without a colon has no tokens |
| `PathTemplate.BaseUrlWithoutPort` | src/rest.ts:94 | a base URL `http://host` with no port, followed by a colon-free path, has no token and is substituted unchanged |
| `PathTemplate.FillPlainPrefix` | src/rest.ts:31-35 | text before the first colon is copied and consumes no argument |
| `PathTemplate.FillToken` | src/rest.ts:31-35 | a token appends the encoding of the residual's value for its key, then removes that key |
| `PathTemplate.FillColonBeforeSlash` | src/rest.ts:31 | a colon directly followed by `/` is copied as text |
| `PathTemplate.FillEnd` | src/rest.ts:37 | at the end of the template, the output and the residual are what has been accumulated |
| `PathTemplate.UsersById` | src/rest.ts:24-38 | `/users/:id` with `{id: 7, name: 'x'}` gives `/users/` plus the encoding of 7, with residual `{name: 'x'}` |
| `PathTemplate.DottedKey` | src/rest.ts:31 | a token runs to the next `/`, dots included: `:id.json/x` has the key `id.json` |
| `PathTemplate.MissingKey` | src/rest.ts:32-34 | a key missing from the arguments is substituted as "undefined" |
| `PathTemplate.RepeatedKey` | src/rest.ts:29-35 | a key used twice is consumed by its first token, so `/:id/:id` gets the value and then "undefined" |
| `PathTemplate.PortIsAToken` | src/rest.ts:94 | the base URL is substituted too, so the port of `http://host:8080/x` is a token and the colon of `http://` stays literal |
| `PathTemplate.SubstituteParams` | src/rest.ts:24-38 | the imperative single pass returns the reference expansion of the template and the arguments minus the token keys |
| `PathTemplate.ReplaceStep` | src/rest.ts:31-35 | one step of the pass at position `i`. A colon that opens a token `:key` (the greedy `[^/]+` run after it is not empty) moves past the token, appends the encoding of the residual's value for `key` and deletes `key`. Any other character is copied and moves one position. Either way the replacement of the rest of the path is unchanged |
| `PathTemplate.StepKeepsFill` | src/rest.ts:31-35 | any such step moves forward and leaves the replacement of the rest of the path unchanged, which is what makes the pass equal to the fold |
| `PathTemplate.TokenLength` | src/rest.ts:31 | the loop measures exactly the greedy `[^/]+` run |
| `Client.Then` | src/client.ts:119-122 | `.then` passes a rejection through untouched and applies the callback to a resolved value |
| `Client.Http` | src/client.ts:64-72 | `http(parent?)` is a client without layers; calling it directly calls the parent, or `fetch` when there is no parent |
| `Client.StaticConfig` | src/client.ts:50 | when applied, a layer computes `init({...defaultConfig, ...config})`; when there is no `init` hook it is the identity |
| `Client.StaticConfigPrecedence` | src/client.ts:50 | without `init`, the wrap-time configuration overrides the interceptor's defaults key by key and keeps the others |
| `Client.Wrap` | src/client.ts:74-82 | `wrap` adds exactly one outermost layer with the given hooks and its static configuration; the inner layers and the base handler are unchanged |
| `Client.Normalize` | src/client.ts:53 | a `Request` passes as it is; a URL becomes a request built from the URL and the caller's `init` |
| `Client.CallConfig` | src/client.ts:54 | without `init`, a call's configuration is the layer's static configuration |
| `Client.CallConfigPrecedence` | src/client.ts:54 | the caller's `init.config` keys override the static configuration, which supplies the rest |
| `Client.Invoke` | src/client.ts:52-58 | a call through n layers runs 2n + 1 hook events |
| `Client.Unwrapped` | src/client.ts:52-58 | a layer's trace is its own pre-hook event, then the inner client's trace, then its own post-hook event; the result is its post-hook's output |
| `Client.OnionOrder` | src/client.ts:52-58 | pre-hooks run from the last-wrapped layer inwards, then the base handler, then post-hooks from the first-wrapped layer outwards |
| `Client.RequestLaw` | src/client.ts:53-56 | the outermost layer sees the normalised request; each pre-hook's output is what the next layer or the base receives; the caller's `init` reaches the base unchanged |
| `Client.ResultLaw` | src/client.ts:56-57 | each post-hook receives what the layer below produced, and the call returns the outermost post-hook's output |
| `Client.PreHookAt` | src/client.ts:54-55 | layer k's pre-hook event runs layer k's hook with its static configuration overridden by `init.config` |
| `Client.PostHookAt` | src/client.ts:57 | layer k's post-hook event runs layer k's hook with the same configuration as its pre-hook |
| `Client.PreHookLaw` | src/client.ts:54-55 | every layer's pre-hook runs with that layer's own merged configuration |
| `Client.PostHookLaw` | src/client.ts:57 | every layer's post-hook runs with that layer's own merged configuration |
| `Client.BaseLaw` | src/client.ts:56 | the middle event of a call is the base handler applied to what it receives |
| `Client.CallLaws` | src/client.ts:36-85 | the whole contract of a call through any chain: onion order, requests inward, results outward, each hook of its own layer |
| `Client.ChainOfTwo` | src/client.ts:74-82 | `http(t).wrap(A).wrap(B)` runs B's pre-hook, A's pre-hook, t, A's post-hook, B's post-hook |
| `Client.ConfigPrecedence` | src/client.ts:50-54 | defaults `{a: 0, c: 3}`, wrap-time `{a: 1}` and call-time `{b: 2}` give the pre-hook `{a: 1, b: 2, c: 3}` |
| `Client.NoHooksIsIdentity` | src/client.ts:42-44 | an interceptor without hooks forwards the normalised request and returns the inner result unchanged |
| `Client.InitHookRunsOnce` | src/client.ts:46-52 | what a call does depends on the configuration fixed at wrap time, never on the `init` hook again |
| `Client.HasData` | src/client.ts:93 | the guard of `httpBodySerialize`: there is an `init` and its `data` is neither `undefined` nor `null` |
| `Client.SerializeBody` | src/client.ts:92-105 | without `data` (missing, `undefined` or `null`), `httpBodySerialize` leaves the request alone; it never changes the URL |
| `Client.SerializeBodyWithData` | src/client.ts:93-101 | with `data`, the new request's body is the JSON text of `data`, its headers are the serialised headers, and the caller's other options override the original request's |
| `Client.SerializedHeadersMeaning` | src/client.ts:97-100 | with `appendContentType` true, the caller's headers (`{}` when nullish) plus a JSON content type; otherwise the caller's headers as given |
| `Client.CallTime` | src/client.ts:54 | the per-call configuration `init?.config`, `{}` without `init` |
| `Client.RunPre` | src/client.ts:43 | a layer's pre-hook, the identity when the interceptor has none; `PreHookAt` states where it runs |
| `Client.RunPost` | src/client.ts:44 | a layer's post-hook, the identity when the interceptor has none; `PostHookAt` states where it runs |
| `Client.Rebuild` | src/client.ts:94 | `new Request(req, init)`: the given members replace those of the original request, and the URL is kept |
| `Client.SerializedHeaders` | src/client.ts:97-100 | the headers `httpBodySerialize` sends; `SerializedHeadersMeaning` states them |
| `Client.HttpBodySerialize` | src/client.ts:91-109 | the body-serialising interceptor: a pre-hook only, default `appendContentType: true` |
| `Client.Numeric` | src/client.ts:120 | how `>=` reads a value as a number: numbers, `null` as 0, booleans as 0 or 1, and NaN for `undefined` and objects |
| `Client.Reaches` | src/client.ts:120 | `status >= errorCode`, false when either side reads as NaN |
| `Client.StatusCheck` | src/client.ts:119-122 | the callback `httpErrorCode` passes to `then`; `CheckStatus` states its cases |
| `Client.HttpErrorCode` | src/client.ts:117-127 | the status-checking interceptor: a post-hook only, default `errorCode: 400` |
| `Client.HttpJsonParser` | src/client.ts:111-115 | the JSON-parsing interceptor: a post-hook that applies `resp.json()` through `then` |
| `Client.HttpDefault` | src/client.ts:129 | `http().wrap(httpBodySerialize).wrap(httpErrorCode).wrap(httpJsonParser)`; `DefaultLayers` states its layers |
| `Client.CheckStatus` | src/client.ts:118-123 | `httpErrorCode` passes rejections through. A response or a resolved plain object rejects with `new Error(statusText)` if and only if its `status` reaches the threshold, and passes unchanged otherwise. A resolved `null` or `undefined` rejects with a TypeError. Booleans, numbers and strings pass |
| `Client.PlainStatusObject` | src/client.ts:117-127 | a resolved `{status: 500, statusText: "boom"}` rejects with "boom" against the default 400; `{status: 200}` passes |
| `Client.DefaultLayers` | src/client.ts:129 | `http.default()` is body serialisation (default `appendContentType: true`) innermost, then the status check (default `errorCode: 400`), then the JSON parser outermost, over `fetch` |
| `Client.StackSerializesBody` | src/client.ts:129 | in the default stack the body is serialised just before `fetch`, and `fetch` receives the serialised request |
| `Client.StackChecksBeforeParsing` | src/client.ts:129 | in the default stack the result is the status check of `fetch`'s outcome, then parsed as JSON |
| `Client.DefaultClientStatus` | src/client.ts:117-129 | with the default client a 400 response rejects with its status text and is never parsed; a 301 reaches the parser |
| `Rest.ToMemberDef` | src/rest.ts:40-45 | the name and method always come from the arguments; the path is the given one (even an empty string), `/name` only when it is missing; the configuration comes from the options |
| `Rest.Namespace.constructor` | src/rest.ts:52-54 | a new namespace has the given prefix, no members and no children |
| `Rest.Namespace.Defined` | src/rest.ts:81-82 | a namespace created and then filled by a `define` callback holds exactly what the callback's calls declare |
| `Rest.Namespace.Member` | src/rest.ts:56-58 | appends the definition to the members and changes nothing else |
| `Rest.Namespace.Get` | src/rest.ts:60-62 | appends the GET definition `toMemberDef` builds and changes nothing else |
| `Rest.Namespace.Post` | src/rest.ts:64-66 | appends the POST definition `toMemberDef` builds and changes nothing else |
| `Rest.Namespace.Patch` | src/rest.ts:68-70 | appends the PATCH definition `toMemberDef` builds and changes nothing else |
| `Rest.Namespace.Put` | src/rest.ts:72-74 | appends the PUT definition `toMemberDef` builds and changes nothing else |
| `Rest.Namespace.Delete` | src/rest.ts:76-78 | appends the DELETE definition `toMemberDef` builds and changes nothing else |
| `Rest.Namespace.DefineNamespace` | src/rest.ts:80-84 | creates a child at `parentPath/name`, fills it with the callback, and then registers it under `name`, replacing any earlier child of that name; the members are unchanged |
| `Rest.Namespace.Attach` | src/rest.ts:83 | registers the child under its name and keeps every other child, with each child's subtree intact |
| `Rest.Namespace.Define` | src/rest.ts:127 | running a `define` callback applies its builder calls in order |
| `Rest.Apply` | src/rest.ts:56-84 | the effect of one builder call on a namespace's value: a member appended, or a child declared and registered |
| `Rest.Declare` | src/rest.ts:82 | the effect of a `define` callback: its builder calls applied in order |
| `Rest.MembersTable` | src/rest.ts:89-114 | the first loop of `build` as a function; `MembersTableKeys` and `MembersTableLast` state its result |
| `Rest.ChildTables` | src/rest.ts:116-118 | the second loop of `build` as a function: each child's table under its name |
| `Rest.BuildTree` | src/rest.ts:86-121 | `build` as a function on a namespace's value; `BuildKeys`, `LastMemberWins` and `ChildEntry` state its result |
| `Rest.Template` | src/rest.ts:94 | the string a callable substitutes: base URL, namespace prefix and member path, concatenated |
| `Rest.MergedConfig` | src/rest.ts:98 | the merged `config`; `MergedConfigPrecedence` states its keys and values |
| `Rest.FinalConfig` | src/rest.ts:96-99 | the caller's options with `config` replaced by the merged one; `FinalConfigMeaning` states it |
| `Rest.Options` | src/rest.ts:101-112 | the options a callable passes to the client; `OptionsMeaning` and `OtherOptions` state them |
| `Rest.Prepare` | src/rest.ts:90-112 | a bound callable up to the client call; `GetRequest` and `OtherRequest` state its URL and options |
| `Rest.Call` | src/rest.ts:90-113 | calling a bound callable: the client's result for the prepared URL and options; `CallSendsPrepared` and `CallConfigReachesLayer` state what the client sees |
| `Rest.Namespace.Build` | src/rest.ts:86-121 | `build` returns exactly the table of the namespace's tree: the members' callables, with each child's table over them |
| `Rest.AddChildTables` | src/rest.ts:116-118 | the children loop writes each child's built table under the child's name over the members' table and keeps every other entry |
| `Rest.BuiltTable` | src/rest.ts:86-121 | a table with the members' entries and every child's table over them is the built table |
| `Rest.Rest` | src/rest.ts:124-130 | `rest(options)(path, define)` is the built table of the tree the callback declares under the prefix `/path` |
| `Rest.DeclareMembers` | src/rest.ts:56-84 | a callback appends its direct member definitions in call order and never changes the prefix |
| `Rest.DeclarePaths` | src/rest.ts:80-84 | builder calls keep every child's prefix at `parent/name`, at every depth |
| `Rest.ApplyPaths` | src/rest.ts:80-84 | one builder call keeps every child's prefix at `parent/name` |
| `Rest.RestTree` | src/rest.ts:124-130 | the root prefix is `/` plus the path (so `/v1` gives `//v1`), its members are the callback's direct calls, and every child sits at `parent/name` |
| `Rest.MembersTableKeys` | src/rest.ts:89-90 | the members loop makes one entry per distinct member name |
| `Rest.MembersTableLast` | src/rest.ts:89-90 | of several members with one name, the loop keeps the last one's callable |
| `Rest.BuildKeys` | src/rest.ts:86-121 | the built table's keys are the member names plus the child names, and every child name holds that child's table |
| `Rest.LastMemberWins` | src/rest.ts:89-118 | a name held by no child maps to the callable of the last member with that name |
| `Rest.ChildEntry` | src/rest.ts:116-118 | a child's table sits under the child's name, replacing a member of that name |
| `Rest.NestedMember` | src/rest.ts:81-118 | a member of a child is reached through the child's name, and its template is base URL, parent prefix, `/`, child name and member path |
| `Rest.GetRequest` | src/rest.ts:94-104 | a GET goes to the expanded template, followed by `?qs` only when the query string of the residual arguments is not empty, with options built from the residual |
| `Rest.OtherRequest` | src/rest.ts:105-112 | POST, PATCH, PUT and DELETE go to the expanded template with no query string |
| `Rest.OptionsMeaning` | src/rest.ts:96-112 | the options sent keep the caller's own keys; `method` is the member's unless the caller gives one; `config` is always the merged configuration |
| `Rest.OtherOptions` | src/rest.ts:106-111 | other methods send the JSON content type and the JSON text of the residual arguments, unless the caller's `headers` or `body` replace them |
| `Rest.FinalConfigMeaning` | src/rest.ts:96-99 | the final configuration keeps every caller key and replaces only `config` with the merged one |
| `Rest.MergedConfigPrecedence` | src/rest.ts:98 | the merged `config` has the member's and the caller's keys, the caller's value winning; it is the member's configuration when the caller gives none |
| `Rest.CallDefaults` | src/rest.ts:90-93 | a call without arguments or configuration is a call with `{}` and `{}` |
| `Rest.CallSendsPrepared` | src/rest.ts:101-112 | the client's outermost layer receives a request built from the prepared URL and options |
| `Rest.CallConfigReachesLayer` | src/rest.ts:96-99 | every interceptor layer sees its static configuration overridden by the merged member and caller configuration |

## Left out

- I/O: `fetch` is the base handler, a parameter. `Request` and `Response` objects are reduced to their URL and options, and to their status, status text and body.
- Platform functions: `encodeURIComponent`, `JSON.stringify`, `resp.json()` and the caller's `parseArgs` are parameters. Only `encodeURIComponent(undefined) == "undefined"` is fixed, because the model of repeated and missing keys depends on it.
- Key order: records are maps. The order in which `parseArgs` and `JSON.stringify` see keys, and the insertion order of the built table, are not modelled.
- Child order: the children loop visits the children in an arbitrary order. This only matters for key order, because every child has its own key.
- Promises are settled values (`Deferred`), and scheduling is not modelled. `httpJsonParser`'s `isPromise` test is dropped: its result is always treated as a promise, so the branch that returns a non-promise unchanged is not modelled.
- Spread of values that are not plain objects: strings, arrays and `Headers` instances contribute nothing in `Entries`. JavaScript would copy a string's characters or an array's indices.
- Request construction: `new Request(...)` is record override. Its header normalisation and its error for a GET or HEAD with a body are not modelled.
- `Client.CheckStatus`: a status or threshold that is a string is treated as never reached. JavaScript would compare a numeric string as a number, and two strings by their characters.
- `Client.CheckStatus`: the message of `new Error(statusText)` is kept as the `statusText` value, so the string conversion JavaScript applies to it is not computed.
- Numbers are integers (`Js.Num`, `Response.status`). So NaN, the infinities and fractional values cannot be expressed, for example a fractional `errorCode` or `status`.
- Synchronous exceptions are not modelled: every function of the model is total. A call would abort when one of these throws: a hook or an `init` function; `parseArgs`; `JSON.stringify` (on a cycle, say); `encodeURIComponent` (a `URIError` on a lone surrogate); or `new Request(url)` on a URL it cannot parse. These are client.ts lines 50, 53 and 55 and rest.ts lines 34, 102 and 109. Only rejections of promises are modelled.
- `Client.Wrap`: `wrap` accepts any function from a handler and a configuration to a handler. The model takes only appliers built by `interceptor`, described by their hooks and defaults.
- `JsValues.Get`: a key missing from a record reads as `undefined`. In JavaScript, names inherited from `Object.prototype` (`constructor`, `toString`, `__proto__`, ...) read as the inherited value. So `/:constructor` with `{}` substitutes the source text of `Object`, not "undefined".
- `Rest.BuildKeys`: a member or child named `__proto__` sets the prototype of the built table instead of adding a key, because `result[name] = ...` and `children[name] = ...` assign it. The model adds it as an ordinary key.
- Callbacks: a `define` callback is modelled as the list of builder calls it makes. Callbacks that do other work, or keep the namespace after defining it, are not modelled.
- The `.wrap` property that `http` attaches to its client is the `Wrap` function on client values. Functions as objects and aliasing of the parent client are not modelled.
- Types only: `Required<RestOptions>`, the generic parameters and the `as TestCoverage` cast have no run-time effect.
- Test-only features: `r.del`, `schema`, argument defaults, a `data` member option, and a DELETE query string. These are in the tests, not in the source.
