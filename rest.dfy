/** The REST description compiler: a `Namespace` collects member
    definitions and child namespaces, `build` turns them into a table of
    bound callables and sub-tables, and each callable substitutes its path
    template, merges configurations and hands the request to the HTTP
    client.

    A namespace's state is mirrored by the value `model: Tree`; the
    `define` callbacks the source passes to `namespace` and `rest` are the
    lists of builder calls (`Decl`) they make. */
module Rest {
  import opened JsValues
  import opened PathTemplate
  import Client

  datatype HttpMethod = GET | POST | PATCH | PUT | DELETE {
    /** The method name sent in the request options. */
    function Name(): string {
      match this
      case GET => "GET"
      case POST => "POST"
      case PATCH => "PATCH"
      case PUT => "PUT"
      case DELETE => "DELETE"
    }
  }

  /** A member definition: the callable's name, its path template, its
      HTTP method and the configuration it adds to every call. */
  datatype MemberDef = MemberDef(name: string, path: string, verb: HttpMethod, config: Option<Record>)

  /** The optional second argument of `get`, `post`, ...: a path and a
      configuration, each of which may be missing. */
  datatype MethodOptions = MethodOptions(path: Option<string>, config: Option<Record>)

  /** `toMemberDef(name, method, opts)`: the options' fields, the path
      defaulting to `/name` only when it is missing, and the name and method
      always taken from the arguments. */
  function ToMemberDef(name: string, verb: HttpMethod, opts: Option<MethodOptions>): (d: MemberDef)
    ensures d.name == name && d.verb == verb
    ensures opts.Some? && opts.value.path.Some? ==> d.path == opts.value.path.value
    ensures opts.None? || opts.value.path.None? ==> d.path == "/" + name
    ensures opts.Some? ==> d.config == opts.value.config
    ensures opts.None? ==> d.config.None?
  {
    var o := opts.GetOr(MethodOptions(None, None));
    MemberDef(name, o.path.GetOr("/" + name), verb, o.config)
  }

  // ---------------------------------------------------------------------
  // Describing an API

  /** The value of a namespace: its path prefix, its members in declaration
      order and its children by name. */
  datatype Tree = Tree(parentPath: string, members: seq<MemberDef>, children: map<string, Tree>)

  /** One call a `define` callback makes on the namespace it is given. */
  datatype Decl =
    | MemberCall(def: MemberDef)
    | VerbCall(verb: HttpMethod, name: string, opts: Option<MethodOptions>)
    | NamespaceCall(name: string, body: seq<Decl>)

  /** The effect of one builder call on a namespace. */
  function Apply(t: Tree, d: Decl): Tree
    decreases d
  {
    match d
    case MemberCall(def) => t.(members := t.members + [def])
    case VerbCall(verb, name, opts) => t.(members := t.members + [ToMemberDef(name, verb, opts)])
    case NamespaceCall(name, body) =>
      t.(children := t.children[name := Declare(Tree(t.parentPath + "/" + name, [], map[]), body)])
  }

  /** The effect of a `define` callback: its calls, in order. */
  function Declare(t: Tree, ds: seq<Decl>): Tree
    decreases ds
  {
    if ds == [] then t else Apply(Declare(t, ds[..|ds| - 1]), ds[|ds| - 1])
  }

  /** The members a list of builder calls adds directly (not in children). */
  function Declared(ds: seq<Decl>): seq<MemberDef> {
    if ds == [] then []
    else
      var last := ds[|ds| - 1];
      Declared(ds[..|ds| - 1])
      + match last
        case MemberCall(def) => [def]
        case VerbCall(verb, name, opts) => [ToMemberDef(name, verb, opts)]
        case NamespaceCall(_, _) => []
  }

  /** Every child's prefix is its parent's prefix, a slash and its name. */
  predicate PathsConsistent(t: Tree)
    decreases t
  {
    forall n :: n in t.children ==>
      t.children[n].parentPath == t.parentPath + "/" + n && PathsConsistent(t.children[n])
  }

  // ---------------------------------------------------------------------
  // Built tables

  /** What `build` needs at call time. */
  datatype RestOptions = RestOptions(baseUrl: string, http: Client.Client, parseArgs: Record -> string)

  /** A bound callable: the options, the namespace prefix and the member
      definition its closure captures. */
  datatype Endpoint = Endpoint(ops: RestOptions, parentPath: string, def: MemberDef)

  /** An entry of a built table: a callable or a child's table. */
  datatype Node = Method(endpoint: Endpoint) | Group(entries: map<string, Node>)

  /** The first loop of `build`: one callable per member, a later member
      replacing an earlier one of the same name. */
  function MembersTable(ms: seq<MemberDef>, parentPath: string, ops: RestOptions): map<string, Node> {
    if ms == [] then map[]
    else
      var m := ms[|ms| - 1];
      MembersTable(ms[..|ms| - 1], parentPath, ops)[m.name := Method(Endpoint(ops, parentPath, m))]
  }

  /** `build(ops)`: the members' callables, then the children's tables,
      which replace a callable of the same name. */
  function BuildTree(t: Tree, ops: RestOptions): map<string, Node>
    decreases t, 1
  {
    MembersTable(t.members, t.parentPath, ops) + ChildTables(t, ops)
  }

  /** The children's tables, by child name. */
  function ChildTables(t: Tree, ops: RestOptions): (r: map<string, Node>)
    decreases t, 0
  {
    map n | n in t.children :: Group(BuildTree(t.children[n], ops))
  }

  function MemberNames(ms: seq<MemberDef>): set<string> {
    set i | 0 <= i < |ms| :: ms[i].name
  }

  // ---------------------------------------------------------------------
  // The namespace builder

  class Namespace {
    var members: seq<MemberDef>
    var children: map<string, Namespace>
    const parentPath: string
    ghost var model: Tree
    ghost var Repr: set<object>

    ghost predicate Valid()
      reads this, Repr
      decreases Repr
    {
      && this in Repr
      && model.parentPath == parentPath
      && model.members == members
      && model.children.Keys == children.Keys
      && (forall n :: n in children ==>
            && children[n] in Repr
            && children[n].Repr <= Repr
            && this !in children[n].Repr
            && children[n].Valid()
            && model.children[n] == children[n].model)
    }

    /** `new Namespace(parentPath)` */
    constructor (parentPath: string)
      ensures Valid() && fresh(Repr)
      ensures this.parentPath == parentPath && members == [] && children == map[]
      ensures model == Tree(parentPath, [], map[])
    {
      this.parentPath := parentPath;
      members := [];
      children := map[];
      model := Tree(parentPath, [], map[]);
      Repr := {this};
    }

    /** `new Namespace(parentPath)` followed by `define(ns)`. */
    constructor Defined(parentPath: string, body: seq<Decl>)
      ensures Valid() && fresh(Repr)
      ensures this.parentPath == parentPath
      ensures model == Declare(Tree(parentPath, [], map[]), body)
      decreases body, 1
    {
      this.parentPath := parentPath;
      members := [];
      children := map[];
      model := Tree(parentPath, [], map[]);
      Repr := {this};
      new;
      Define(body);
    }

    /** `member(opts)`: appends the definition. */
    method Member(def: MemberDef)
      requires Valid()
      modifies this
      ensures Valid() && Repr == old(Repr)
      ensures members == old(members) + [def] && children == old(children)
      ensures model == Apply(old(model), MemberCall(def))
    {
      members := members + [def];
      model := model.(members := members);
    }

    method Get(name: string, opts: Option<MethodOptions>)
      requires Valid()
      modifies this
      ensures Valid() && Repr == old(Repr)
      ensures members == old(members) + [ToMemberDef(name, GET, opts)] && children == old(children)
      ensures model == Apply(old(model), VerbCall(GET, name, opts))
    {
      Member(ToMemberDef(name, GET, opts));
    }

    method Post(name: string, opts: Option<MethodOptions>)
      requires Valid()
      modifies this
      ensures Valid() && Repr == old(Repr)
      ensures members == old(members) + [ToMemberDef(name, POST, opts)] && children == old(children)
      ensures model == Apply(old(model), VerbCall(POST, name, opts))
    {
      Member(ToMemberDef(name, POST, opts));
    }

    method Patch(name: string, opts: Option<MethodOptions>)
      requires Valid()
      modifies this
      ensures Valid() && Repr == old(Repr)
      ensures members == old(members) + [ToMemberDef(name, PATCH, opts)] && children == old(children)
      ensures model == Apply(old(model), VerbCall(PATCH, name, opts))
    {
      Member(ToMemberDef(name, PATCH, opts));
    }

    method Put(name: string, opts: Option<MethodOptions>)
      requires Valid()
      modifies this
      ensures Valid() && Repr == old(Repr)
      ensures members == old(members) + [ToMemberDef(name, PUT, opts)] && children == old(children)
      ensures model == Apply(old(model), VerbCall(PUT, name, opts))
    {
      Member(ToMemberDef(name, PUT, opts));
    }

    method Delete(name: string, opts: Option<MethodOptions>)
      requires Valid()
      modifies this
      ensures Valid() && Repr == old(Repr)
      ensures members == old(members) + [ToMemberDef(name, DELETE, opts)] && children == old(children)
      ensures model == Apply(old(model), VerbCall(DELETE, name, opts))
    {
      Member(ToMemberDef(name, DELETE, opts));
    }

    /** `namespace(name, define)`: a child at `parentPath/name`, defined
        first and then registered, replacing any child of that name. */
    method DefineNamespace(name: string, body: seq<Decl>)
      requires Valid()
      modifies this
      ensures Valid() && fresh(Repr - old(Repr))
      ensures members == old(members) && children.Keys == old(children).Keys + {name}
      ensures children[name].parentPath == parentPath + "/" + name
      ensures model == Apply(old(model), NamespaceCall(name, body))
      decreases body, 2
    {
      var child := new Namespace.Defined(parentPath + "/" + name, body);
      Attach(name, child);
    }

    /** `this.children[name] = child` */
    method Attach(name: string, child: Namespace)
      requires Valid() && child.Valid() && Repr !! child.Repr
      modifies this
      ensures Valid() && Repr == old(Repr) + child.Repr
      ensures members == old(members) && children == old(children)[name := child]
      ensures model == old(model).(children := old(model).children[name := child.model])
    {
      ghost var before := children;
      children, model, Repr := children[name := child], model.(children := model.children[name := child.model]), Repr + child.Repr;
      forall n | n in children
        ensures && children[n] in Repr
                && children[n].Repr <= Repr
                && this !in children[n].Repr
                && children[n].Valid()
                && model.children[n] == children[n].model
      {
        if n == name {
          Untouched(child);
        } else {
          assert children[n] == before[n];
          Untouched(children[n]);
        }
      }
    }

    /** Running a `define` callback: its builder calls, in order. */
    method Define(ds: seq<Decl>)
      requires Valid()
      modifies this
      ensures Valid() && fresh(Repr - old(Repr))
      ensures model == Declare(old(model), ds)
      decreases ds, 0
    {
      var i := 0;
      while i < |ds|
        invariant 0 <= i <= |ds|
        invariant Valid() && fresh(Repr - old(Repr))
        invariant model == Declare(old(model), ds[..i])
        decreases |ds| - i
      {
        assert ds[..i + 1][..i] == ds[..i];
        match ds[i] {
          case MemberCall(def) => Member(def);
          case VerbCall(verb, name, opts) =>
            match verb {
              case GET => Get(name, opts);
              case POST => Post(name, opts);
              case PATCH => Patch(name, opts);
              case PUT => Put(name, opts);
              case DELETE => Delete(name, opts);
            }
          case NamespaceCall(name, body) => DefineNamespace(name, body);
        }
        i := i + 1;
      }
      assert ds[..|ds|] == ds;
    }

    /** `build(ops)`: one callable per member, later members replacing
        earlier ones, then each child's table under the child's name. */
    method Build(ops: RestOptions) returns (table: map<string, Node>)
      requires Valid()
      ensures table == BuildTree(model, ops)
      decreases Repr, 2
    {
      table := map[];
      var i := 0;
      while i < |members|
        invariant 0 <= i <= |members|
        invariant table == MembersTable(members[..i], parentPath, ops)
      {
        assert members[..i + 1][..i] == members[..i];
        var m := members[i];
        table := table[m.name := Method(Endpoint(ops, parentPath, m))];
        i := i + 1;
      }
      assert members[..i] == members;
      table := AddChildTables(ops, table, children, Repr);
      BuiltTable(model, ops, table);
    }
  }

  /** The second loop of `build`: `child.build(ops)` for every child,
      written over the table `own` the first loop produced. The ghost
      `bound` is a set that strictly contains every child's footprint. */
  method AddChildTables(ops: RestOptions, own: map<string, Node>, children: map<string, Namespace>,
                        ghost bound: set<object>)
    returns (table: map<string, Node>)
    requires forall n :: n in children ==> children[n].Valid() && children[n].Repr < bound
    ensures table.Keys == own.Keys + children.Keys
    ensures forall n :: n in children ==> table[n] == Group(BuildTree(children[n].model, ops))
    ensures forall n :: n in own && n !in children ==> table[n] == own[n]
    decreases bound, 1
  {
    table := own;
    var todo := children.Keys;
    ghost var done: set<string> := {};
    while todo != {}
      invariant todo + done == children.Keys && todo !! done
      invariant table.Keys == own.Keys + done
      invariant forall n :: n in done ==> table[n] == Group(BuildTree(children[n].model, ops))
      invariant forall n :: n in own && n !in done ==> table[n] == own[n]
      decreases todo
    {
      var name :| name in todo;
      var child := children[name];
      var sub := child.Build(ops);
      table := table[name := Group(sub)];
      todo := todo - {name};
      done := done + {name};
    }
  }

  /** A table with the members' callables and, over them, every child's
      table is the built table. */
  lemma BuiltTable(t: Tree, ops: RestOptions, table: map<string, Node>)
    requires table.Keys == MembersTable(t.members, t.parentPath, ops).Keys + t.children.Keys
    requires forall n :: n in t.children ==> table[n] == Group(BuildTree(t.children[n], ops))
    requires forall n :: n in MembersTable(t.members, t.parentPath, ops) && n !in t.children ==>
      table[n] == MembersTable(t.members, t.parentPath, ops)[n]
    ensures table == BuildTree(t, ops)
  {
  }

  /** A namespace whose footprint the heap change left alone keeps its
      validity and its value. */
  twostate lemma Untouched(ns: Namespace)
    requires old(ns.Valid()) && unchanged(old(ns.Repr))
    ensures ns.Valid() && ns.Repr == old(ns.Repr) && ns.model == old(ns.model)
  {
  }

  /** `rest(options)(path, define)`: a root namespace at `/path`, defined by
      the callback and built with the options. */
  method Rest(ops: RestOptions, path: string, define: seq<Decl>) returns (api: map<string, Node>)
    ensures api == BuildTree(Declare(Tree("/" + path, [], map[]), define), ops)
  {
    var root := new Namespace.Defined("/" + path, define);
    api := root.Build(ops);
  }

  // ---------------------------------------------------------------------
  // Calling a bound callable

  /** The template a callable substitutes: base URL, namespace prefix and
      member path, joined as they are. */
  function Template(e: Endpoint): string {
    e.ops.baseUrl + e.parentPath + e.def.path
  }

  /** `{...(m.config || {}), ...(config.config || {})}` */
  function MergedConfig(def: MemberDef, config: Record): Record {
    Override(def.config.GetOr(map[]), Entries(OrEmpty(Get(config, "config"))))
  }

  /** `{...config, config: merged}` */
  function FinalConfig(def: MemberDef, config: Record): Record {
    Override(config, map["config" := Obj(MergedConfig(def, config))])
  }

  /** What a callable hands to `ops.http`: a URL and the request options. */
  datatype Outgoing = Outgoing(url: string, init: Record)

  /** The options a callable sends, given the residual arguments `rest`
      and the caller's options `c`: the member's method, for methods other
      than GET a JSON content type and the residual arguments as a JSON
      body, then the caller's options with the merged `config`, spread
      last. */
  function Options(def: MemberDef, b: Builtins, rest: Record, c: Record): Record {
    if def.verb == GET then
      Override(map["method" := Str(def.verb.Name())], FinalConfig(def, c))
    else
      var headers := Override(map["Content-Type" := Str("application/json")], Entries(OrEmpty(Get(c, "headers"))));
      Override(map["method" := Str(def.verb.Name()),
                   "headers" := Obj(headers),
                   "body" := Str(b.stringify(Obj(rest)))],
               FinalConfig(def, c))
  }

  /** The body of a bound callable up to the client call. Missing `args`
      and `config` are `{}`. The template is substituted; a GET appends
      `?qs` when the query string built from the residual arguments is not
      empty. */
  function Prepare(e: Endpoint, b: Builtins, args: Option<Record>, config: Option<Record>): Outgoing {
    var sub := Substitute(Template(e), args.GetOr(map[]), b);
    var qs := e.ops.parseArgs(sub.1);
    Outgoing(if e.def.verb == GET && qs != "" then sub.0 + "?" + qs else sub.0,
             Options(e.def, b, sub.1, config.GetOr(map[])))
  }

  /** Calling a bound callable: what the HTTP client returns for the
      prepared URL and options. */
  function Call(e: Endpoint, b: Builtins, args: Option<Record>, config: Option<Record>): Client.Deferred {
    var o := Prepare(e, b, args, config);
    Client.Invoke(e.ops.http, Client.Url(o.url), Some(o.init)).result
  }

  // ---------------------------------------------------------------------
  // Laws of the builder

  /** A `define` callback adds its members after the existing ones, in the
      order of its calls, and does not change the prefix. */
  lemma {:induction false} DeclareMembers(t: Tree, ds: seq<Decl>)
    ensures Declare(t, ds).members == t.members + Declared(ds)
    ensures Declare(t, ds).parentPath == t.parentPath
    decreases ds
  {
    if ds != [] {
      DeclareMembers(t, ds[..|ds| - 1]);
    }
  }

  /** Builder calls keep every child's prefix at `parent/name`, at every
      depth. */
  lemma {:induction false} DeclarePaths(t: Tree, ds: seq<Decl>)
    requires PathsConsistent(t)
    ensures PathsConsistent(Declare(t, ds))
    decreases ds
  {
    if ds != [] {
      DeclarePaths(t, ds[..|ds| - 1]);
      ApplyPaths(Declare(t, ds[..|ds| - 1]), ds[|ds| - 1]);
    }
  }

  lemma {:induction false} ApplyPaths(t: Tree, d: Decl)
    requires PathsConsistent(t)
    ensures PathsConsistent(Apply(t, d))
    decreases d
  {
    match d
    case MemberCall(_) =>
    case VerbCall(_, _, _) =>
    case NamespaceCall(name, body) =>
      var start := Tree(t.parentPath + "/" + name, [], map[]);
      DeclarePaths(start, body);
      DeclareMembers(start, body);
  }

  /** `rest(options)(path, define)` describes a tree rooted at `/path`
      (so `"v1"` gives `"/v1"` and `"/v1"` gives `"//v1"`), whose own
      members are the callback's direct calls and whose children all sit
      at `parent/name`. */
  lemma RestTree(path: string, define: seq<Decl>)
    ensures var t := Declare(Tree("/" + path, [], map[]), define);
      && t.parentPath == "/" + path
      && t.members == Declared(define)
      && PathsConsistent(t)
  {
    DeclareMembers(Tree("/" + path, [], map[]), define);
    DeclarePaths(Tree("/" + path, [], map[]), define);
  }

  lemma {:induction false} MembersTableKeys(ms: seq<MemberDef>, parentPath: string, ops: RestOptions)
    ensures MembersTable(ms, parentPath, ops).Keys == MemberNames(ms)
  {
    if ms != [] {
      var init := ms[..|ms| - 1];
      MembersTableKeys(init, parentPath, ops);
      assert MemberNames(ms) == MemberNames(init) + {ms[|ms| - 1].name} by {
        forall x | x in MemberNames(ms) ensures x in MemberNames(init) + {ms[|ms| - 1].name} {
          var i :| 0 <= i < |ms| && ms[i].name == x;
          if i < |ms| - 1 {
            assert init[i] == ms[i];
          }
        }
        forall x | x in MemberNames(init) ensures x in MemberNames(ms) {
          var i :| 0 <= i < |init| && init[i].name == x;
          assert ms[i] == init[i];
        }
      }
    }
  }

  /** The callable kept for a name is the last member of that name. */
  lemma {:induction false} MembersTableLast(ms: seq<MemberDef>, parentPath: string, ops: RestOptions, i: nat)
    requires i < |ms|
    requires forall j :: i < j < |ms| ==> ms[j].name != ms[i].name
    ensures ms[i].name in MembersTable(ms, parentPath, ops)
    ensures MembersTable(ms, parentPath, ops)[ms[i].name] == Method(Endpoint(ops, parentPath, ms[i]))
  {
    if i < |ms| - 1 {
      var init := ms[..|ms| - 1];
      assert init[i] == ms[i];
      forall j | i < j < |init| ensures init[j].name != init[i].name {
        assert init[j] == ms[j];
      }
      MembersTableLast(init, parentPath, ops, i);
    }
  }

  /** The built table has one entry per member name and per child name; a
      child's table replaces a member of the same name. */
  lemma BuildKeys(t: Tree, ops: RestOptions)
    ensures BuildTree(t, ops).Keys == MemberNames(t.members) + t.children.Keys
    ensures forall n :: n in t.children ==> BuildTree(t, ops)[n] == Group(BuildTree(t.children[n], ops))
  {
    MembersTableKeys(t.members, t.parentPath, ops);
  }

  /** Of several members with one name, the table keeps the last, unless a
      child has that name. */
  lemma LastMemberWins(t: Tree, ops: RestOptions, i: nat)
    requires i < |t.members|
    requires t.members[i].name !in t.children
    requires forall j :: i < j < |t.members| ==> t.members[j].name != t.members[i].name
    ensures t.members[i].name in BuildTree(t, ops)
    ensures BuildTree(t, ops)[t.members[i].name] == Method(Endpoint(ops, t.parentPath, t.members[i]))
  {
    MembersTableLast(t.members, t.parentPath, ops, i);
  }

  /** A child's table sits under the child's name. */
  lemma ChildEntry(t: Tree, ops: RestOptions, name: string)
    requires name in t.children
    ensures name in BuildTree(t, ops)
    ensures BuildTree(t, ops)[name] == Group(BuildTree(t.children[name], ops))
  {
    assert name in ChildTables(t, ops);
  }

  /** A member of a child namespace is reached through the child's name,
      and its template is the base URL, the parent's prefix, `/`, the
      child's name and the member's path. */
  lemma NestedMember(t: Tree, ops: RestOptions, name: string, i: nat)
    requires PathsConsistent(t) && name in t.children
    requires i < |t.children[name].members|
    requires var c := t.children[name];
      && c.members[i].name !in c.children
      && forall j :: i < j < |c.members| ==> c.members[j].name != c.members[i].name
    ensures var c := t.children[name]; var m := c.members[i];
      && name in BuildTree(t, ops) && BuildTree(t, ops)[name].Group?
      && m.name in BuildTree(t, ops)[name].entries
      && BuildTree(t, ops)[name].entries[m.name] == Method(Endpoint(ops, t.parentPath + "/" + name, m))
      && Template(Endpoint(ops, t.parentPath + "/" + name, m)) == ops.baseUrl + t.parentPath + "/" + name + m.path
  {
    var c := t.children[name];
    ChildEntry(t, ops, name);
    LastMemberWins(c, ops, i);
    assert c.parentPath == t.parentPath + "/" + name;
  }

  // ---------------------------------------------------------------------
  // Laws of a call

  /** A GET: the URL is the expanded template, followed by `?qs` only when
      the query string of the residual arguments is not empty, and the
      options are built from those residual arguments. */
  lemma GetRequest(e: Endpoint, b: Builtins, args: Option<Record>, config: Option<Record>)
    requires e.def.verb == GET
    ensures var a := args.GetOr(map[]);
      var segs := Scan(Template(e));
      var qs := e.ops.parseArgs(a - ParamKeys(segs));
      var o := Prepare(e, b, args, config);
      && o.url == (if qs == "" then Expand(segs, {}, a, b) else Expand(segs, {}, a, b) + "?" + qs)
      && o.init == Options(e.def, b, a - ParamKeys(segs), config.GetOr(map[]))
  {
    SubstituteMeaning(Template(e), args.GetOr(map[]), b);
  }

  /** Any other method, DELETE included: no query string; the body is the
      JSON text of the residual arguments. */
  lemma OtherRequest(e: Endpoint, b: Builtins, args: Option<Record>, config: Option<Record>)
    requires e.def.verb != GET
    ensures var a := args.GetOr(map[]);
      var segs := Scan(Template(e));
      var o := Prepare(e, b, args, config);
      && o.url == Expand(segs, {}, a, b)
      && o.init == Options(e.def, b, a - ParamKeys(segs), config.GetOr(map[]))
  {
    SubstituteMeaning(Template(e), args.GetOr(map[]), b);
  }

  /** The options of every call: the caller's own keys, `method` defaulting
      to the member's method, and `config` always the merged
      configuration. */
  lemma OptionsMeaning(def: MemberDef, b: Builtins, rest: Record, c: Record)
    ensures var o := Options(def, b, rest, c);
      && o.Keys == c.Keys + (if def.verb == GET then {"method", "config"}
                             else {"method", "headers", "body", "config"})
      && o["method"] == (if "method" in c then c["method"] else Str(def.verb.Name()))
      && o["config"] == Obj(MergedConfig(def, c))
      && (forall k :: k in c && k != "config" ==> o[k] == c[k])
  {
    FinalConfigMeaning(def, c);
  }

  /** For methods other than GET the headers are the JSON content type and
      the body the JSON text of the residual arguments, unless the caller's
      options carry `headers` or `body`: those are spread last and replace
      them. */
  lemma OtherOptions(def: MemberDef, b: Builtins, rest: Record, c: Record)
    requires def.verb != GET
    ensures var o := Options(def, b, rest, c);
      && o["headers"] == (if "headers" in c then c["headers"]
                          else Obj(map["Content-Type" := Str("application/json")]))
      && o["body"] == (if "body" in c then c["body"] else Str(b.stringify(Obj(rest))))
  {
    var headers := Override(map["Content-Type" := Str("application/json")], Entries(OrEmpty(Get(c, "headers"))));
    if "headers" !in c {
      assert headers == map["Content-Type" := Str("application/json")];
    }
    FinalConfigMeaning(def, c);
  }

  /** `{...config, config: merged}` keeps the caller's keys and replaces
      only `config`. */
  lemma FinalConfigMeaning(def: MemberDef, c: Record)
    ensures var f := FinalConfig(def, c);
      && f.Keys == c.Keys + {"config"}
      && f["config"] == Obj(MergedConfig(def, c))
      && (forall k :: k in c && k != "config" ==> f[k] == c[k])
  {
    OverrideMeaning(c, map["config" := Obj(MergedConfig(def, c))]);
  }

  /** The `config` a call sends has every key of the member's configuration
      and of the caller's `config.config`, the caller's value winning. */
  lemma MergedConfigPrecedence(def: MemberDef, config: Record)
    ensures var m := def.config.GetOr(map[]);
      var cc := Entries(OrEmpty(Get(config, "config")));
      var r := MergedConfig(def, config);
      && r.Keys == m.Keys + cc.Keys
      && (forall k :: k in cc ==> r[k] == cc[k])
      && (forall k :: k in m && k !in cc ==> r[k] == m[k])
      && ("config" !in config ==> r == m)
  {
    OverrideMeaning(def.config.GetOr(map[]), Entries(OrEmpty(Get(config, "config"))));
  }

  /** A call without arguments is a call with `{}` and `{}`. */
  lemma CallDefaults(e: Endpoint, b: Builtins)
    ensures Prepare(e, b, None, None) == Prepare(e, b, Some(map[]), Some(map[]))
    ensures Call(e, b, None, None) == Call(e, b, Some(map[]), Some(map[]))
  {
  }

  /** The client's outermost layer receives the prepared URL and options. */
  lemma CallSendsPrepared(e: Endpoint, b: Builtins, args: Option<Record>, config: Option<Record>)
    requires e.ops.http.Layer?
    ensures var o := Prepare(e, b, args, config);
      var tr := Client.Invoke(e.ops.http, Client.Url(o.url), Some(o.init)).trace;
      tr[0].PreRequest? && tr[0].request == Client.Request(o.url, o.init)
  {
    var o := Prepare(e, b, args, config);
    Client.Unwrapped(e.ops.http, Client.Url(o.url), Some(o.init));
  }

  /** Every interceptor layer sees as its configuration its static
      configuration overridden by the merged member and caller
      configuration. */
  lemma CallConfigReachesLayer(e: Endpoint, b: Builtins, args: Option<Record>, config: Option<Record>, k: nat)
    requires k < Client.Depth(e.ops.http)
    ensures var o := Prepare(e, b, args, config);
      var ev := Client.Invoke(e.ops.http, Client.Url(o.url), Some(o.init)).trace[Client.Depth(e.ops.http) - 1 - k];
      && ev.PreRequest?
      && ev.config == Override(Client.StaticAt(e.ops.http, k), MergedConfig(e.def, config.GetOr(map[])))
  {
    var o := Prepare(e, b, args, config);
    OptionsMeaning(e.def, b, Substitute(Template(e), args.GetOr(map[]), b).1, config.GetOr(map[]));
    assert Client.CallTime(Some(o.init)) == MergedConfig(e.def, config.GetOr(map[]));
    Client.PreHookAt(e.ops.http, Client.Url(o.url), Some(o.init), k);
  }
}
