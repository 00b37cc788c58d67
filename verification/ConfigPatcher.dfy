/** The containerd config patcher: which sections it finds missing and what it appends. */
module ConfigPatcher {
  import opened Wrappers
  import opened Sequences
  import opened Toml

  datatype RuntimeEntry = RuntimeEntry(name: string, base: string)

  datatype Params = Params(socketPath: string, runtimes: seq<RuntimeEntry>)

  datatype Missing = ProxyPlugin | Runtime(name: string, base: Option<map<string, Value>>)

  datatype ApplyError = Unparsable

  const PLUGINS := "plugins"
  const CRI_V2 := "io.containerd.grpc.v1.cri"
  const CRI_V3 := "io.containerd.cri.v1.runtime"
  const PROXY_PLUGINS := "proxy_plugins"
  const PV_SNAPSHOTTER := "pv-snapshotter"
  const SNAPSHOTTER := "snapshotter"

  function RuntimesPath(cri: string): seq<string> { [PLUGINS, cri, "containerd", "runtimes"] }

  const PROXY_PATH := [PROXY_PLUGINS, PV_SNAPSHOTTER]

  // The order in which a run visits the keys of a map.
  type Order = set<string> -> seq<string>

  ghost predicate Enumerates(xs: seq<string>, s: set<string>) {
    && (forall k :: k in xs <==> k in s)
    && (forall i, j :: 0 <= i < j < |xs| ==> xs[i] != xs[j])
  }

  ghost predicate LawfulOrder(order: Order) { forall s :: Enumerates(order(s), s) }

  // ------------------------------------------------------------------ lookups

  /** Walks the tree along the segments; true when every one of them exists. */
  method HasKey(tree: Value, path: seq<string>) returns (found: bool)
    requires tree.Table?
    ensures found <==> ValueAt(tree, path).Some?
  {
    var cur := tree;
    var i := 0;
    while i < |path|
      invariant 0 <= i <= |path|
      invariant i < |path| || |path| == 0 ==> cur.Table?
      invariant ValueAt(tree, path) == ValueAt(cur, path[i..])
    {
      assert path[i..][1..] == path[i + 1..];
      if path[i] !in cur.entries {
        return false;
      }
      if i == |path| - 1 {
        return true;
      }
      var next := cur.entries[path[i]];
      if !next.Table? {
        return false;
      }
      cur := next;
      i := i + 1;
    }
    return true;
  }

  function RuntimesIn(tree: Value, cri: string): map<string, Value> {
    var t := ValueAt(tree, RuntimesPath(cri));
    if t.Some? && t.value.Table? then t.value.entries else map[]
  }

  predicate HasRuntimeEntry(tree: Value, name: string) {
    name in RuntimesIn(tree, CRI_V2) || name in RuntimesIn(tree, CRI_V3)
  }

  /** The base runtime's table, version-2 location first. */
  function LookupBaseRuntime(tree: Value, base: string): Option<map<string, Value>> {
    var v2, v3 := RuntimesIn(tree, CRI_V2), RuntimesIn(tree, CRI_V3);
    if base == "" then None
    else if base in v2 && v2[base].Table? then Some(v2[base].entries)
    else if base in v3 && v3[base].Table? then Some(v3[base].entries)
    else None
  }

  function MissingRuntimes(tree: Value, rts: seq<RuntimeEntry>): seq<Missing> {
    if rts == [] then []
    else
      var front, rt := MissingRuntimes(tree, rts[..|rts| - 1]), rts[|rts| - 1];
      if HasRuntimeEntry(tree, rt.name) then front else front + [Runtime(rt.name, LookupBaseRuntime(tree, rt.base))]
  }

  function MissingSections(tree: Value, params: Params): seq<Missing> {
    (if ValueAt(tree, PROXY_PATH).Some? then [] else [ProxyPlugin]) + MissingRuntimes(tree, params.runtimes)
  }

  method CollectMissing(tree: Value, params: Params) returns (missing: seq<Missing>)
    requires tree.Table?
    ensures missing == MissingSections(tree, params)
  {
    missing := [];
    var proxied := HasKey(tree, PROXY_PATH);
    if !proxied {
      missing := [ProxyPlugin];
    }
    ghost var start := missing;
    var i := 0;
    while i < |params.runtimes|
      invariant 0 <= i <= |params.runtimes|
      invariant missing == start + MissingRuntimes(tree, params.runtimes[..i])
    {
      var rt := params.runtimes[i];
      assert params.runtimes[..i + 1][..i] == params.runtimes[..i];
      if !HasRuntimeEntry(tree, rt.name) {
        missing := missing + [Runtime(rt.name, LookupBaseRuntime(tree, rt.base))];
      }
      i := i + 1;
    }
    assert params.runtimes[..|params.runtimes|] == params.runtimes;
  }

  // ------------------------------------------------------------------ snippet

  function Scalars(m: map<string, Value>): map<string, Value> {
    map k | k in m && m[k].Scalar? :: m[k]
  }

  function TableKeys(m: map<string, Value>): set<string> {
    set k | k in m && m[k].Table?
  }

  /** The new entry: a clone of the base, or a minimal runtime, with the snapshotter overridden. */
  function RuntimeConfig(base: Option<map<string, Value>>): map<string, Value> {
    (if base.Some? then base.value else map["runtime_type" := Scalar("io.containerd.runc.v2")])
      [SNAPSHOTTER := Scalar(PV_SNAPSHOTTER)]
  }

  // A name written into a header is read as keys separated by dots.
  function HeaderKeys(name: string): (keys: seq<string>)
    ensures keys != []
  {
    if name == "" then [""]
    else
      var rest := HeaderKeys(name[1..]);
      if name[0] == '.' then [""] + rest else [[name[0]] + rest[0]] + rest[1..]
  }

  predicate IsBareChar(c: char) {
    'a' <= c <= 'z' || 'A' <= c <= 'Z' || '0' <= c <= '9' || c == '_' || c == '-'
  }

  /** A bare key of TOML v1.0.0. */
  predicate IsBareKey(name: string) { name != "" && forall i :: 0 <= i < |name| ==> IsBareChar(name[i]) }

  // toml.Marshal writes tables below the marshalled map under headers of their own,
  // which the enclosing document reads from its root.
  function Nested(v: Value, prefix: seq<string>, keys: seq<string>, order: Order): seq<Section>
    requires v.Table? && forall k :: k in keys ==> k in v.entries && v.entries[k].Table?
    requires LawfulOrder(order)
    decreases v, |keys|
  {
    if keys == [] then []
    else
      var sub := v.entries[keys[0]];
      var path := prefix + [keys[0]];
      var inner := order(TableKeys(sub.entries));
      assert Enumerates(inner, TableKeys(sub.entries));
      [Section(path, Scalars(sub.entries))] + Nested(sub, path, inner, order) + Nested(v, prefix, keys[1..], order)
  }

  function SubSections(prefix: seq<string>, cfg: map<string, Value>, keys: seq<string>, order: Order): seq<Section>
    requires forall k :: k in keys ==> k in cfg && cfg[k].Table?
    requires LawfulOrder(order)
    decreases |keys|
  {
    if keys == [] then []
    else
      var sub := cfg[keys[0]];
      var inner := order(TableKeys(sub.entries));
      assert Enumerates(inner, TableKeys(sub.entries));
      [Section(prefix + HeaderKeys(keys[0]), Scalars(sub.entries))] + Nested(sub, [], inner, order)
      + SubSections(prefix, cfg, keys[1..], order)
  }

  function RuntimeSections(name: string, cfg: map<string, Value>, order: Order): seq<Section>
    requires LawfulOrder(order)
  {
    var path := RuntimesPath(CRI_V2) + HeaderKeys(name);
    var keys := order(TableKeys(cfg));
    assert Enumerates(keys, TableKeys(cfg));
    [Section(path, Scalars(cfg))] + SubSections(path, cfg, keys, order)
  }

  function ProxySection(socketPath: string): Section {
    Section(PROXY_PATH, map["type" := Scalar("snapshot"), "address" := Scalar(socketPath)])
  }

  function SectionsFor(socketPath: string, m: Missing, order: Order): seq<Section>
    requires LawfulOrder(order)
  {
    match m
    case ProxyPlugin => [ProxySection(socketPath)]
    case Runtime(name, base) => RuntimeSections(name, RuntimeConfig(base), order)
  }

  function Snippet(socketPath: string, missing: seq<Missing>, order: Order): seq<Section>
    requires LawfulOrder(order)
  {
    if missing == [] then [] else SectionsFor(socketPath, missing[0], order) + Snippet(socketPath, missing[1..], order)
  }

  /** Separates the scalar fields of a clone from its sub-tables. */
  method SplitConfig(cfg: map<string, Value>) returns (scalars: map<string, Value>, subtables: map<string, Value>)
    ensures scalars == Scalars(cfg)
    ensures subtables.Keys == TableKeys(cfg) && forall k :: k in subtables ==> subtables[k] == cfg[k]
  {
    scalars, subtables := map[], map[];
    var todo := cfg.Keys;
    while todo != {}
      invariant todo <= cfg.Keys
      invariant scalars == map k | k in cfg && k !in todo && cfg[k].Scalar? :: cfg[k]
      invariant subtables == map k | k in cfg && k !in todo && cfg[k].Table? :: cfg[k]
      decreases |todo|
    {
      var k :| k in todo;
      if cfg[k].Table? {
        subtables := subtables[k := cfg[k]];
      } else {
        scalars := scalars[k := cfg[k]];
      }
      todo := todo - {k};
    }
  }

  /** Emits each sub-table of a clone as a section of its own. */
  method EmitSubTables(path: seq<string>, cfg: map<string, Value>, keys: seq<string>, order: Order) returns (sections: seq<Section>)
    requires forall k :: k in keys ==> k in cfg && cfg[k].Table?
    requires LawfulOrder(order)
    ensures sections == SubSections(path, cfg, keys, order)
  {
    sections := [];
    var rest := keys;
    while rest != []
      invariant forall k :: k in rest ==> k in cfg && cfg[k].Table?
      invariant sections + SubSections(path, cfg, rest, order) == SubSections(path, cfg, keys, order)
      decreases |rest|
    {
      var sub := cfg[rest[0]];
      var inner := order(TableKeys(sub.entries));
      assert Enumerates(inner, TableKeys(sub.entries));
      var emitted := [Section(path + HeaderKeys(rest[0]), Scalars(sub.entries))] + Nested(sub, [], inner, order);
      Assoc(sections, emitted, SubSections(path, cfg, rest[1..], order));
      sections := sections + emitted;
      rest := rest[1..];
    }
  }

  /** The sections of one new runtime entry. */
  method RuntimeSnippet(name: string, base: Option<map<string, Value>>, order: Order) returns (sections: seq<Section>)
    requires LawfulOrder(order)
    ensures sections == RuntimeSections(name, RuntimeConfig(base), order)
  {
    var cfg := RuntimeConfig(base);
    var scalars, subtables := SplitConfig(cfg);
    var path := RuntimesPath(CRI_V2) + HeaderKeys(name);
    var keys := order(subtables.Keys);
    assert Enumerates(keys, TableKeys(cfg));
    var subs := EmitSubTables(path, cfg, keys, order);
    sections := [Section(path, scalars)] + subs;
  }

  /** The sections of every missing entry, in order. */
  method BuildSnippet(socketPath: string, missing: seq<Missing>, order: Order) returns (snippet: seq<Section>)
    requires LawfulOrder(order)
    ensures snippet == Snippet(socketPath, missing, order)
  {
    snippet := [];
    var rest := missing;
    while rest != []
      invariant snippet + Snippet(socketPath, rest, order) == Snippet(socketPath, missing, order)
      decreases |rest|
    {
      var sections;
      match rest[0] {
        case ProxyPlugin => sections := [ProxySection(socketPath)];
        case Runtime(name, base) => sections := RuntimeSnippet(name, base, order);
      }
      Assoc(snippet, sections, Snippet(socketPath, rest[1..], order));
      snippet := snippet + sections;
      rest := rest[1..];
    }
  }

  // -------------------------------------------------------------------- Apply

  /** The outcome of one patch run: whether the file changed, and the file afterwards. */
  function Applied(file: File, params: Params, order: Order): Result<(bool, File), ApplyError>
    requires LawfulOrder(order)
  {
    var doc := Parse(file);
    if doc.None? then Err(Unparsable)
    else
      var missing := MissingSections(Erase(doc.value), params);
      if missing == [] then Ok((false, file)) else Ok((true, file + Snippet(params.socketPath, missing, order)))
  }

  method Apply(file: File, params: Params, order: Order) returns (r: Result<bool, ApplyError>, file': File)
    requires LawfulOrder(order)
    ensures Applied(file, params, order) == if r.Err? then Err(Unparsable) else Ok((r.value, file'))
    ensures r.Err? || !r.value ==> file' == file
  {
    file' := file;
    var doc := Parse(file);
    if doc.None? {
      return Err(Unparsable), file;
    }
    RootIsTable(file);
    var missing := CollectMissing(Erase(doc.value), params);
    if missing == [] {
      return Ok(false), file;
    }
    var snippet := BuildSnippet(params.socketPath, missing, order);
    return Ok(true), file + snippet;
  }

  lemma {:induction false} BranchStays(n: Node, file: File)
    requires n.Branch? && ParseFrom(n, file).Some?
    ensures ParseFrom(n, file).value.Branch?
    decreases |file|
  {
    if file != [] {
      BranchStays(Define(n, file[0].path, file[0].body).value, file[1..]);
    }
  }

  lemma {:induction false} RootIsTable(file: File)
    requires Parse(file).Some?
    ensures Erase(Parse(file).value).Table?
  {
    BranchStays(EMPTY, file);
  }
}
