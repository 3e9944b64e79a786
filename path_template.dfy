/** Path templates: `substituteParams` replaces every `:name` token of a
    string by the encoded argument value and removes the key from a copy of
    the argument record. */
module PathTemplate {
  import opened JsValues

  /** One piece of a scanned template: a literal character, or a token
      `:key` matched by the regular expression `/:([^/]+)/g`. */
  datatype Segment = Text(c: char) | Param(key: string)

  /** Length of the longest prefix of `s` that holds no '/': what `[^/]+`
      consumes, greedily. */
  function RunLength(s: string): (n: nat)
    ensures n <= |s|
    ensures forall i :: 0 <= i < n ==> s[i] != '/'
    ensures n == |s| || s[n] == '/'
  {
    if s == [] || s[0] == '/' then 0 else 1 + RunLength(s[1..])
  }

  /** The global regular-expression scan, left to right: a colon followed by
      at least one non-'/' character opens a token running up to the next '/'
      or to the end; any other character is literal text. */
  function Scan(s: string): seq<Segment>
    decreases |s|
  {
    if s == [] then []
    else if s[0] == ':' && RunLength(s[1..]) > 0 then
      var n := RunLength(s[1..]);
      [Param(s[1..1 + n])] + Scan(s[1 + n..])
    else
      [Text(s[0])] + Scan(s[1..])
  }

  /** The template text a sequence of segments reads back as. */
  function Render(segs: seq<Segment>): string {
    if segs == [] then ""
    else match segs[0]
      case Text(c) => [c] + Render(segs[1..])
      case Param(k) => ":" + k + Render(segs[1..])
  }

  /** Segment i is followed by a '/' or is the last one. */
  predicate EndsAtSlash(segs: seq<Segment>, i: nat)
    requires i < |segs|
  {
    i + 1 == |segs| || segs[i + 1] == Text('/')
  }

  /** What makes a segmentation the regular expression's: tokens have a
      non-empty key free of '/', and tokens and unmatched colons are followed
      by a '/' or end the string (the match is maximal). */
  predicate WellFormed(segs: seq<Segment>) {
    forall i :: 0 <= i < |segs| ==> SegmentOk(segs, i)
  }

  predicate SegmentOk(segs: seq<Segment>, i: nat)
    requires i < |segs|
  {
    match segs[i]
    case Param(k) => k != [] && '/' !in k && EndsAtSlash(segs, i)
    case Text(c) => c == ':' ==> EndsAtSlash(segs, i)
  }

  /** The keys of all tokens. */
  function ParamKeys(segs: seq<Segment>): set<string> {
    if segs == [] then {}
    else match segs[0]
      case Text(_) => ParamKeys(segs[1..])
      case Param(k) => {k} + ParamKeys(segs[1..])
  }

  /** `encodeURIComponent(val)`: `undefined` encodes to the literal
      "undefined"; every other value is left to the platform function. */
  function Encode(b: Builtins, v: Js): (r: string)
    ensures v == Undefined ==> r == "undefined"
  {
    if v == Undefined then "undefined" else b.encodeURIComponent(v)
  }

  /** The replace callback, applied left to right: each token reads its value
      from `rest` and then deletes that key from `rest`. */
  function Fill(segs: seq<Segment>, acc: string, rest: Record, b: Builtins): (string, Record) {
    if segs == [] then (acc, rest)
    else match segs[0]
      case Text(c) => Fill(segs[1..], acc + [c], rest, b)
      case Param(k) => Fill(segs[1..], acc + Encode(b, Get(rest, k)), rest - {k}, b)
  }

  /** `substituteParams(path, args)`: the resolved string and the residual. */
  function Substitute(path: string, args: Record, b: Builtins): (string, Record) {
    Fill(Scan(path), "", args, b)
  }

  /** Reference reading of the output: text is copied, a token takes the
      encoding of its argument the first time its key occurs and the encoding
      of `undefined` at every later occurrence (the key is gone by then). */
  function Expand(segs: seq<Segment>, seen: set<string>, args: Record, b: Builtins): string {
    if segs == [] then ""
    else match segs[0]
      case Text(c) => [c] + Expand(segs[1..], seen, args, b)
      case Param(k) =>
        (if k in seen then "undefined" else Encode(b, Get(args, k)))
        + Expand(segs[1..], seen + {k}, args, b)
  }

  /** Reference reading for templates whose keys are distinct: every token
      is replaced by the encoding of its argument. */
  function Plain(segs: seq<Segment>, args: Record, b: Builtins): string {
    if segs == [] then ""
    else match segs[0]
      case Text(c) => [c] + Plain(segs[1..], args, b)
      case Param(k) => Encode(b, Get(args, k)) + Plain(segs[1..], args, b)
  }

  predicate DistinctKeys(segs: seq<Segment>) {
    forall i, j :: 0 <= i < j < |segs| && segs[i].Param? && segs[j].Param? ==>
      segs[i].key != segs[j].key
  }

  // ---------------------------------------------------------------------
  // The scan

  lemma {:induction false} ScanRenders(s: string)
    ensures Render(Scan(s)) == s
    decreases |s|
  {
    if s == [] {
    } else if s[0] == ':' && RunLength(s[1..]) > 0 {
      var n := RunLength(s[1..]);
      ScanRenders(s[1 + n..]);
      assert s == ":" + s[1..1 + n] + s[1 + n..];
    } else {
      ScanRenders(s[1..]);
      assert s == [s[0]] + s[1..];
    }
  }

  lemma {:induction false} ScanFirst(s: string)
    requires s != [] && s[0] == '/'
    ensures Scan(s) != [] && Scan(s)[0] == Text('/')
  {
  }

  lemma {:induction false} ScanWellFormed(s: string)
    ensures WellFormed(Scan(s))
    decreases |s|
  {
    if s == [] {
    } else if s[0] == ':' && RunLength(s[1..]) > 0 {
      var n := RunLength(s[1..]);
      var k := s[1..1 + n];
      ScanWellFormed(s[1 + n..]);
      if 1 + n < |s| {
        ScanFirst(s[1 + n..]);
      }
      assert '/' !in k by {
        forall i | 0 <= i < |k| ensures k[i] != '/' {
          assert k[i] == s[1..][i];
        }
      }
      WellFormedCons(Param(k), Scan(s[1 + n..]));
    } else {
      ScanWellFormed(s[1..]);
      if s[0] == ':' && |s| > 1 {
        assert s[1..][0] == '/';
        ScanFirst(s[1..]);
      }
      WellFormedCons(Text(s[0]), Scan(s[1..]));
    }
  }

  lemma WellFormedCons(x: Segment, tail: seq<Segment>)
    requires WellFormed(tail)
    requires x.Param? ==> x.key != [] && '/' !in x.key
    requires x.Param? || x == Text(':') ==> tail == [] || tail[0] == Text('/')
    ensures WellFormed([x] + tail)
  {
    var segs := [x] + tail;
    forall i | 0 <= i < |segs|
      ensures SegmentOk(segs, i)
    {
      if i > 0 {
        assert segs[i] == tail[i - 1];
        assert SegmentOk(tail, i - 1);
        assert EndsAtSlash(tail, i - 1) ==> EndsAtSlash(segs, i);
      }
    }
  }

  lemma {:induction false} RunLengthOf(k: string, t: string)
    requires '/' !in k
    requires t == [] || t[0] == '/'
    ensures RunLength(k + t) == |k|
    decreases |k|
  {
    if k == [] {
      assert k + t == t;
    } else {
      assert '/' !in k[1..] by {
        forall j | 0 <= j < |k[1..]| ensures k[1..][j] != '/' {
          assert k[1..][j] == k[j + 1];
        }
      }
      assert (k + t)[0] == k[0] && (k + t)[1..] == k[1..] + t;
      RunLengthOf(k[1..], t);
    }
  }

  /** One scan step over a token `:k` followed by `t`. */
  lemma ScanParamCons(k: string, t: string)
    requires k != [] && '/' !in k
    requires t == [] || t[0] == '/'
    ensures Scan(":" + k + t) == [Param(k)] + Scan(t)
  {
    var s := ":" + k + t;
    assert s[1..] == k + t;
    RunLengthOf(k, t);
    assert s[1..1 + |k|] == k;
    assert s[1 + |k|..] == t;
  }

  /** One scan step over a literal character `c` followed by `t`. */
  lemma ScanTextCons(c: char, t: string)
    requires c == ':' ==> t == [] || t[0] == '/'
    ensures Scan([c] + t) == [Text(c)] + Scan(t)
  {
    var s := [c] + t;
    assert s[1..] == t;
  }

  lemma RenderStartsWithSlash(segs: seq<Segment>)
    requires segs != [] && segs[0] == Text('/')
    ensures Render(segs) != [] && Render(segs)[0] == '/'
  {
  }

  /** A well-formed segmentation is the one the scan finds, so the scan is
      the unique reading of a template as tokens and text. */
  lemma {:induction false} ScanOfRender(segs: seq<Segment>)
    requires WellFormed(segs)
    ensures Scan(Render(segs)) == segs
  {
    if segs != [] {
      var tail := segs[1..];
      assert WellFormed(tail) by {
        forall i | 0 <= i < |tail|
          ensures SegmentOk(tail, i)
        {
          assert tail[i] == segs[i + 1];
          assert SegmentOk(segs, i + 1);
          assert EndsAtSlash(segs, i + 1) ==> EndsAtSlash(tail, i);
        }
      }
      ScanOfRender(tail);
      var t := Render(tail);
      assert SegmentOk(segs, 0);
      if tail != [] && tail[0] == Text('/') {
        RenderStartsWithSlash(tail);
      }
      match segs[0]
      case Param(k) =>
        ScanParamCons(k, t);
      case Text(c) =>
        ScanTextCons(c, t);
    }
  }

  /** Both directions: `segs` is the scan of `s` exactly when it reads back
      as `s` and is well formed. */
  lemma ScanCharacterised(s: string, segs: seq<Segment>)
    ensures Scan(s) == segs <==> Render(segs) == s && WellFormed(segs)
  {
    if Scan(s) == segs {
      ScanRenders(s);
      ScanWellFormed(s);
    }
    if Render(segs) == s && WellFormed(segs) {
      ScanOfRender(segs);
    }
  }

  // ---------------------------------------------------------------------
  // The substitution

  lemma {:induction false} FillResidual(segs: seq<Segment>, acc: string, rest: Record, b: Builtins)
    ensures Fill(segs, acc, rest, b).1 == rest - ParamKeys(segs)
  {
    if segs != [] {
      match segs[0]
      case Text(c) =>
        FillResidual(segs[1..], acc + [c], rest, b);
      case Param(k) =>
        FillResidual(segs[1..], acc + Encode(b, Get(rest, k)), rest - {k}, b);
        assert rest - {k} - ParamKeys(segs[1..]) == rest - ParamKeys(segs);
    }
  }

  lemma {:induction false} FillOutput(segs: seq<Segment>, acc: string, args: Record, seen: set<string>, b: Builtins)
    ensures Fill(segs, acc, args - seen, b).0 == acc + Expand(segs, seen, args, b)
  {
    if segs != [] {
      match segs[0]
      case Text(c) =>
        FillOutput(segs[1..], acc + [c], args, seen, b);
      case Param(k) =>
        var v := if k in seen then "undefined" else Encode(b, Get(args, k));
        assert Get(args - seen, k) == if k in seen then Undefined else Get(args, k);
        assert args - seen - {k} == args - (seen + {k});
        FillOutput(segs[1..], acc + v, args, seen + {k}, b);
    }
  }

  /** The contract of `substituteParams`: the output is the template with
      every token expanded (first occurrence of a key: its encoded value;
      a repeat: "undefined"), and the residual is `args` without exactly the
      token keys. */
  lemma SubstituteMeaning(path: string, args: Record, b: Builtins)
    ensures Substitute(path, args, b).0 == Expand(Scan(path), {}, args, b)
    ensures Substitute(path, args, b).1 == args - ParamKeys(Scan(path))
    ensures forall k :: k in args && k !in ParamKeys(Scan(path)) ==>
      k in Substitute(path, args, b).1 && Substitute(path, args, b).1[k] == args[k]
  {
    FillOutput(Scan(path), "", args, {}, b);
    assert args - {} == args;
    FillResidual(Scan(path), "", args, b);
  }

  lemma {:induction false} ExpandDistinct(segs: seq<Segment>, seen: set<string>, args: Record, b: Builtins)
    requires DistinctKeys(segs)
    requires seen !! ParamKeys(segs)
    ensures Expand(segs, seen, args, b) == Plain(segs, args, b)
  {
    if segs != [] {
      var tail := segs[1..];
      assert DistinctKeys(tail) by {
        forall i, j | 0 <= i < j < |tail| && tail[i].Param? && tail[j].Param?
          ensures tail[i].key != tail[j].key
        {
          assert tail[i] == segs[i + 1] && tail[j] == segs[j + 1];
        }
      }
      match segs[0]
      case Text(c) =>
        ExpandDistinct(tail, seen, args, b);
      case Param(k) =>
        assert k !in ParamKeys(tail) by {
          forall j | 0 <= j < |tail| ensures tail[j] != Param(k) {
            assert tail[j] == segs[j + 1];
          }
          KeysHaveTokens(tail, k);
        }
        ExpandDistinct(tail, seen + {k}, args, b);
    }
  }

  lemma {:induction false} KeysHaveTokens(segs: seq<Segment>, k: string)
    ensures k in ParamKeys(segs) ==> exists j :: 0 <= j < |segs| && segs[j] == Param(k)
  {
    if segs != [] {
      KeysHaveTokens(segs[1..], k);
      if k in ParamKeys(segs[1..]) {
        var j :| 0 <= j < |segs[1..]| && segs[1..][j] == Param(k);
        assert segs[j + 1] == Param(k);
      }
    }
  }

  /** When no key repeats, every token becomes the encoding of its argument,
      `undefined` included for a key that `args` lacks. */
  lemma SubstituteDistinct(path: string, args: Record, b: Builtins)
    requires DistinctKeys(Scan(path))
    ensures Substitute(path, args, b).0 == Plain(Scan(path), args, b)
  {
    SubstituteMeaning(path, args, b);
    ExpandDistinct(Scan(path), {}, args, b);
  }

  /** A template free of tokens expands to its own text. */
  lemma {:induction false} ExpandNoToken(segs: seq<Segment>, seen: set<string>, args: Record, b: Builtins)
    requires ParamKeys(segs) == {}
    ensures Expand(segs, seen, args, b) == Render(segs)
  {
    if segs != [] {
      match segs[0]
      case Text(c) =>
        ExpandNoToken(segs[1..], seen, args, b);
    }
  }

  /** A string with no token comes back unchanged, with the whole record as
      residual: colons that open no token (`http://h`, `a:/b`, `x:`) are
      kept as they are. */
  lemma SubstituteNoToken(path: string, args: Record, b: Builtins)
    requires ParamKeys(Scan(path)) == {}
    ensures Substitute(path, args, b) == (path, args)
  {
    SubstituteMeaning(path, args, b);
    ExpandNoToken(Scan(path), {}, args, b);
    ScanRenders(path);
    assert args - {} == args;
  }

  /** Colon-free text in front of a string adds no token. */
  lemma {:induction false} PlainPrefixKeys(p: string, t: string)
    requires ':' !in p
    ensures ParamKeys(Scan(p + t)) == ParamKeys(Scan(t))
    decreases |p|
  {
    if p != [] {
      assert ':' !in p[1..] by {
        forall i | 0 <= i < |p[1..]| ensures p[1..][i] != ':' {
          assert p[1..][i] == p[i + 1];
        }
      }
      assert p + t == [p[0]] + (p[1..] + t);
      ScanTextCons(p[0], p[1..] + t);
      PlainPrefixKeys(p[1..], t);
      var x := Scan(p[1..] + t);
      assert ([Text(p[0])] + x)[0] == Text(p[0]) && ([Text(p[0])] + x)[1..] == x;
      assert ParamKeys([Text(p[0])] + x) == ParamKeys(x);
    } else {
      assert p + t == t;
    }
  }

  /** A string without a colon has no token. */
  lemma ScanNoColon(s: string)
    requires ':' !in s
    ensures ParamKeys(Scan(s)) == {}
  {
    PlainPrefixKeys(s, "");
    assert s + "" == s;
  }

  /** A base URL without a port, followed by a colon-free path, has no token:
      the colon of `http://` is followed by '/'. Its substitution leaves it
      unchanged. */
  lemma BaseUrlWithoutPort(host: string, path: string, args: Record, b: Builtins)
    requires ':' !in host && ':' !in path
    ensures ParamKeys(Scan("http://" + host + path)) == {}
    ensures Substitute("http://" + host + path, args, b) == ("http://" + host + path, args)
  {
    var t := "//" + host + path;
    assert ':' !in t;
    assert "http://" + host + path == "http" + ([':'] + t);
    PlainPrefixKeys("http", [':'] + t);
    ScanTextCons(':', t);
    var x := Scan(t);
    assert ([Text(':')] + x)[0] == Text(':') && ([Text(':')] + x)[1..] == x;
    assert ParamKeys([Text(':')] + x) == ParamKeys(x);
    ScanNoColon(t);
    SubstituteNoToken("http://" + host + path, args, b);
  }

  // ---------------------------------------------------------------------
  // Step laws, and concrete readings built from them

  /** Text before the first colon is copied unchanged and consumes nothing. */
  lemma {:induction false} FillPlainPrefix(p: string, t: string, acc: string, rest: Record, b: Builtins)
    requires ':' !in p
    ensures Fill(Scan(p + t), acc, rest, b) == Fill(Scan(t), acc + p, rest, b)
    decreases |p|
  {
    if p == [] {
      assert p + t == t && acc + p == acc;
    } else {
      assert ':' !in p[1..] by {
        forall i | 0 <= i < |p[1..]| ensures p[1..][i] != ':' {
          assert p[1..][i] == p[i + 1];
        }
      }
      assert p + t == [p[0]] + (p[1..] + t);
      ScanTextCons(p[0], p[1..] + t);
      FillPlainPrefix(p[1..], t, acc + [p[0]], rest, b);
      assert acc + [p[0]] + p[1..] == acc + p;
    }
  }

  /** A token `:k` appends the encoding of what `rest` holds for k, and
      removes k from `rest`. */
  lemma FillToken(k: string, t: string, acc: string, rest: Record, b: Builtins)
    requires k != [] && '/' !in k
    requires t == [] || t[0] == '/'
    ensures Fill(Scan(":" + k + t), acc, rest, b)
         == Fill(Scan(t), acc + Encode(b, Get(rest, k)), rest - {k}, b)
  {
    ScanParamCons(k, t);
  }

  /** A colon followed by '/' is literal text. */
  lemma FillColonBeforeSlash(t: string, acc: string, rest: Record, b: Builtins)
    requires t != [] && t[0] == '/'
    ensures Fill(Scan(":" + t), acc, rest, b) == Fill(Scan(t), acc + ":", rest, b)
  {
    ScanTextCons(':', t);
  }

  lemma FillEnd(acc: string, rest: Record, b: Builtins)
    ensures Fill(Scan(""), acc, rest, b) == (acc, rest)
  {
  }

  /** `/users/:id` with `{id: 7, name: 'x'}` resolves to `/users/7` with
      residual `{name: 'x'}`. */
  lemma UsersById(path: string, b: Builtins)
    requires path == "/users/:id"
    ensures var r := Substitute(path, map["id" := Num(7), "name" := Str("x")], b);
      r.0 == "/users/" + b.encodeURIComponent(Num(7)) && r.1 == map["name" := Str("x")]
  {
    var args := map["id" := Num(7), "name" := Str("x")];
    assert path == "/users/" + (":" + "id" + "");
    FillPlainPrefix("/users/", ":" + "id" + "", "", args, b);
    FillToken("id", "", "/users/", args, b);
    assert args - {"id"} == map["name" := Str("x")];
  }

  /** The token runs to the next '/', dots included: `:id.json` names the
      key "id.json". */
  lemma DottedKey(key: string, path: string)
    requires key == "id" + "." + "json"
    requires path == ":" + key + "/" + "x"
    ensures Scan(path) == [Param(key), Text('/'), Text('x')]
  {
    ScanTextCons('x', "");
    ScanTextCons('/', "x");
    ScanParamCons(key, "/" + "x");
    assert path == ":" + key + ("/" + "x");
  }

  /** A key absent from the record is encoded as the literal "undefined". */
  lemma MissingKey(path: string, b: Builtins)
    requires path == ":id"
    ensures Substitute(path, map[], b) == ("undefined", map[])
  {
    var none: Record := map[];
    assert path == ":" + "id" + "";
    FillToken("id", "", "", none, b);
    var acc := "" + Encode(b, Get(none, "id"));
    assert acc == "undefined";
    assert none - {"id"} == none;
    FillEnd(acc, none, b);
  }

  /** A repeated key is consumed by its first token: the second one reads the
      deleted entry and becomes "undefined" (`/:id/:id` with `{id: 7}` gives
      `7/undefined`). */
  lemma RepeatedKey(k: string, v: Js, b: Builtins)
    requires k != [] && '/' !in k
    ensures Substitute(":" + k + "/:" + k, map[k := v], b).0 == Encode(b, v) + "/" + "undefined"
  {
    var args := map[k := v];
    var left := args - {k};
    var t := ":" + k + "";
    assert ":" + k + "/:" + k == ":" + k + ("/" + t);
    FillToken(k, "/" + t, "", args, b);
    var acc := Encode(b, v);
    assert "" + Encode(b, Get(args, k)) == acc;
    FillPlainPrefix("/", t, acc, left, b);
    assert Get(left, k) == Undefined;
    FillToken(k, "", acc + "/", left, b);
    FillEnd(acc + "/" + "undefined", left - {k}, b);
  }

  /** Substitution runs over the whole URL, so the port of a base address
      is a token: `http://host:8080/x` becomes `http://host` + the encoding of
      `args["8080"]` (usually "undefined") + `/x`, and "8080" leaves the
      residual. The colon of `http://` is followed by '/' and stays literal. */
  lemma PortIsAToken(host: string, port: string, path: string, args: Record, b: Builtins)
    requires ':' !in host && ':' !in path
    requires port != [] && '/' !in port
    requires path == [] || path[0] == '/'
    ensures Substitute("http://" + host + ":" + port + path, args, b)
         == ("http://" + host + Encode(b, Get(args, port)) + path, args - {port})
  {
    var t := ":" + port + path;
    assert "http://" + host + ":" + port + path == "http://" + host + t;
    SchemeAndHost(host, t, args, b);
    var acc := "http://" + host;
    FillToken(port, path, acc, args, b);
    var acc' := acc + Encode(b, Get(args, port));
    assert path == path + "";
    FillPlainPrefix(path, "", acc', args - {port}, b);
    FillEnd(acc' + path, args - {port}, b);
  }

  /** `http://host` in front of the rest of a template is copied as it is:
      the colon of the scheme is followed by '/'. */
  lemma SchemeAndHost(host: string, t: string, args: Record, b: Builtins)
    requires ':' !in host
    ensures Fill(Scan("http://" + host + t), "", args, b) == Fill(Scan(t), "http://" + host, args, b)
  {
    var t2 := "//" + host + t;
    assert "http://" + host + t == "http" + (":" + t2);
    assert "//" + host + t == ("//" + host) + t;
    assert ':' !in "//" + host;
    FillPlainPrefix("http", ":" + t2, "", args, b);
    FillColonBeforeSlash(t2, "" + "http", args, b);
    FillPlainPrefix("//" + host, t, "" + "http" + ":", args, b);
    assert "" + "http" + ":" + ("//" + host) == "http://" + host;
  }

  // ---------------------------------------------------------------------
  // The imperative original

  lemma FillAtText(path: string, i: nat, acc: string, rest: Record, b: Builtins)
    requires i < |path|
    requires path[i] != ':' || RunLength(path[i + 1..]) == 0
    ensures Fill(Scan(path[i..]), acc, rest, b) == Fill(Scan(path[i + 1..]), acc + [path[i]], rest, b)
  {
    assert path[i..][1..] == path[i + 1..];
  }

  lemma FillAtToken(path: string, i: nat, n: nat, acc: string, rest: Record, b: Builtins)
    requires i + 1 + n <= |path| && path[i] == ':' && n > 0
    requires RunLength(path[i + 1..]) == n
    ensures var key := path[i + 1..i + 1 + n];
      Fill(Scan(path[i..]), acc, rest, b)
      == Fill(Scan(path[i + 1 + n..]), acc + Encode(b, Get(rest, key)), rest - {key}, b)
  {
    var s := path[i..];
    assert s[1..] == path[i + 1..];
    assert s[1..1 + n] == path[i + 1..i + 1 + n];
    assert s[1 + n..] == path[i + 1 + n..];
  }

  /** `substituteParams`: one left-to-right pass over `path` that copies text,
      and for each token reads the value from the residual copy, deletes the
      key from it and appends the encoded value. */
  method SubstituteParams(path: string, args: Record, b: Builtins) returns (result: string, rest: Record)
    ensures (result, rest) == Substitute(path, args, b)
    ensures result == Expand(Scan(path), {}, args, b)
    ensures rest == args - ParamKeys(Scan(path))
  {
    result, rest := "", args;
    var i := 0;
    assert path[0..] == path;
    while i < |path|
      invariant 0 <= i <= |path|
      invariant Fill(Scan(path[i..]), result, rest, b) == Substitute(path, args, b)
      decreases |path| - i
    {
      i, result, rest := ReplaceStep(path, i, result, rest, b);
    }
    assert path[i..] == [];
    SubstituteMeaning(path, args, b);
  }

  /** What one step of the pass at position `i` does: a colon that opens a
      token `:key` moves past the token, appends the encoding of the value
      the residual holds for `key` and deletes `key`; any other character is
      copied and moves one position. */
  predicate IsStep(path: string, i: nat, result: string, rest: Record, b: Builtins,
                   next: nat, result': string, rest': Record)
    requires i < |path|
  {
    var n := RunLength(path[i + 1..]);
    if path[i] == ':' && n > 0 then
      var key := path[i + 1..i + 1 + n];
      next == i + 1 + n && result' == result + Encode(b, Get(rest, key)) && rest' == rest - {key}
    else
      next == i + 1 && result' == result + [path[i]] && rest' == rest
  }

  /** One step moves forward and leaves the replacement of the rest of the
      path unchanged. */
  lemma StepKeepsFill(path: string, i: nat, result: string, rest: Record, b: Builtins,
                      next: nat, result': string, rest': Record)
    requires i < |path|
    requires IsStep(path, i, result, rest, b, next, result', rest')
    ensures i < next <= |path|
    ensures Fill(Scan(path[next..]), result', rest', b) == Fill(Scan(path[i..]), result, rest, b)
  {
    var n := RunLength(path[i + 1..]);
    if path[i] == ':' && n > 0 {
      FillAtToken(path, i, n, result, rest, b);
    } else {
      FillAtText(path, i, result, rest, b);
    }
  }

  /** One step of the pass, with the greedy token length measured by a
      loop. */
  method ReplaceStep(path: string, i: nat, result: string, rest: Record, b: Builtins)
    returns (next: nat, result': string, rest': Record)
    requires i < |path|
    ensures IsStep(path, i, result, rest, b, next, result', rest')
    ensures i < next <= |path|
    ensures Fill(Scan(path[next..]), result', rest', b) == Fill(Scan(path[i..]), result, rest, b)
  {
    var n := 0;
    if path[i] == ':' {
      // the regular expression's `[^/]+`, greedy
      n := TokenLength(path, i + 1);
    }
    if n > 0 {
      var key := path[i + 1..i + 1 + n];
      next, result', rest' := i + 1 + n, result + Encode(b, Get(rest, key)), rest - {key};
    } else {
      next, result', rest' := i + 1, result + [path[i]], rest;
    }
    StepKeepsFill(path, i, result, rest, b, next, result', rest');
  }

  /** The length of the run of non-slash characters starting at `from`. */
  method TokenLength(path: string, from: nat) returns (n: nat)
    requires from <= |path|
    ensures n == RunLength(path[from..])
  {
    n := 0;
    while from + n < |path| && path[from + n] != '/'
      invariant 0 <= n <= |path| - from
      invariant forall j :: from <= j < from + n ==> path[j] != '/'
    {
      n := n + 1;
    }
    var t := path[from..];
    forall j | 0 <= j < n ensures t[j] != '/' {
      assert t[j] == path[from + j];
    }
    RunLengthExact(t, n);
  }

  lemma {:induction false} RunLengthExact(s: string, n: nat)
    requires n <= |s|
    requires n == |s| || s[n] == '/'
    requires forall j :: 0 <= j < n ==> s[j] != '/'
    ensures RunLength(s) == n
  {
    if n > 0 {
      RunLengthExact(s[1..], n - 1);
    }
  }
}
