/** What a patched configuration says, key by key and in the file's own words. */
module ConfigReadBack {
  import opened Wrappers
  import opened Toml
  import opened ConfigPatcher
  import opened ConfigTheorems

  // ------------------------------------------------------------ the proxy plugin

  lemma {:induction false} ScalarStays(a: Value, b: Value, path: seq<string>, v: string)
    requires Extends(a, b) && ValueAt(a, path) == Some(Scalar(v))
    ensures ValueAt(b, path) == Some(Scalar(v))
  {
    ExtendsAt(a, b, path);
  }

  // A scalar of a section's body, in the document the section has just been added to.
  lemma {:induction false} BodyReadBack(n: Node, s: Section, k: string, v: string)
    requires Define(n, s.path, s.body).Some? && k in s.body && s.body[k] == Scalar(v)
    ensures ValueAt(Erase(Define(n, s.path, s.body).value), s.path + [k]) == Some(Scalar(v))
  {
    var r := Define(n, s.path, s.body).value;
    DefineReadBack(n, s.path, s.body);
    EraseAt(r, s.path);
    ValueBelow(Erase(r), s.path, k);
    EraseKid(NodeAt(r, s.path).value, k);
  }

  // The first section of a snippet keeps its scalars in the whole document.
  lemma {:induction false} FirstSectionStays(n: Node, s: Section, rest: File, k: string, v: string)
    requires ParseFrom(n, [s] + rest).Some? && k in s.body && s.body[k] == Scalar(v)
    ensures ValueAt(Erase(ParseFrom(n, [s] + rest).value), s.path + [k]) == Some(Scalar(v))
  {
    assert ([s] + rest)[1..] == rest;
    var u := Define(n, s.path, s.body).value;
    BodyReadBack(n, s, k, v);
    ParseFromExtends(u, rest);
    ScalarStays(Erase(u), Erase(ParseFrom(u, rest).value), s.path + [k], v);
  }

  lemma ProxyBody(socketPath: string)
    ensures var s := ProxySection(socketPath);
            && s.path == ["proxy_plugins", "pv-snapshotter"]
            && "type" in s.body && s.body["type"] == Scalar("snapshot")
            && "address" in s.body && s.body["address"] == Scalar(socketPath)
  {
    assert "type"[0] == 't' && "address"[0] == 'a';
  }

  /** A run that finds the proxy plugin missing and leaves a valid file has registered the snapshotter under its socket. */
  lemma {:induction false} ProxyRegistered(file: File, params: Params, order: Order)
    requires LawfulOrder(order) && Parse(file).Some?
    requires ValueAt(Erase(Parse(file).value), ["proxy_plugins", "pv-snapshotter"]).None?
    ensures var r := Applied(file, params, order);
            && r.Ok? && r.value.0
            && (Parse(r.value.1).Some? ==>
                  var tree := Erase(Parse(r.value.1).value);
                  && ValueAt(tree, ["proxy_plugins", "pv-snapshotter"] + ["type"]) == Some(Scalar("snapshot"))
                  && ValueAt(tree, ["proxy_plugins", "pv-snapshotter"] + ["address"]) == Some(Scalar(params.socketPath)))
  {
    var root := Parse(file).value;
    var s, ms := ProxySection(params.socketPath), MissingRuntimes(Erase(root), params.runtimes);
    ProxyBody(params.socketPath);
    var all := [ProxyPlugin] + ms;
    assert MissingSections(Erase(root), params) == all && all[1..] == ms;
    var rest := Snippet(params.socketPath, ms, order);
    assert Snippet(params.socketPath, all, order) == [s] + rest;
    ParseFromAppend(EMPTY, file, [s] + rest);
    if ParseFrom(root, [s] + rest).Some? {
      FirstSectionStays(root, s, rest, "type", "snapshot");
      FirstSectionStays(root, s, rest, "address", params.socketPath);
    }
  }

  // ------------------------------------------------------------- a new runtime entry

  const V2 := ["plugins", "io.containerd.grpc.v1.cri", "containerd", "runtimes"]
  const V3 := ["plugins", "io.containerd.cri.v1.runtime", "containerd", "runtimes"]

  lemma RuntimePaths()
    ensures V2 == RuntimesPath(CRI_V2) && V3 == RuntimesPath(CRI_V3)
  {
  }

  ghost predicate IsTableAt(tree: Value, path: seq<string>, t: map<string, Value>) { ValueAt(tree, path) == Some(Table(t)) }

  ghost predicate SomeTableAt(tree: Value, path: seq<string>) { ValueAt(tree, path).Some? && ValueAt(tree, path).value.Table? }

  /** The base a new entry is cloned from: the version-2 table of that name, or else the version-3 one. */
  ghost predicate IsBase(tree: Value, name: string, t: map<string, Value>) {
    name != "" && if SomeTableAt(tree, V2 + [name]) then IsTableAt(tree, V2 + [name], t) else IsTableAt(tree, V3 + [name], t)
  }

  lemma {:induction false} BaseFound(tree: Value, name: string)
    ensures LookupBaseRuntime(tree, name).Some? ==> IsBase(tree, name, LookupBaseRuntime(tree, name).value)
    ensures LookupBaseRuntime(tree, name).None? ==> forall t :: !IsBase(tree, name, t)
  {
    RuntimePaths();
    ValueBelow(tree, V2, name);
    ValueBelow(tree, V3, name);
  }

  /** What a new entry says under a key: the snapshotter, else what its base says, else the minimal entry's runtime type. */
  ghost predicate EntryValue(tree: Value, base: string, k: string, v: Option<Value>) {
    if k == "snapshotter" then v == Some(Scalar("pv-snapshotter"))
    else if exists t :: IsBase(tree, base, t) then
      exists t :: IsBase(tree, base, t) && v == if k in t then Some(t[k]) else None
    else v == if k == "runtime_type" then Some(Scalar("io.containerd.runc.v2")) else None
  }

  lemma {:induction false} ConfigValue(tree: Value, base: string, k: string)
    ensures var cfg := RuntimeConfig(LookupBaseRuntime(tree, base));
            EntryValue(tree, base, k, if k in cfg then Some(cfg[k]) else None)
  {
    BaseFound(tree, base);
    assert "snapshotter"[0] == 's' && "runtime_type"[0] == 'r';
  }

  /** Every new entry of a valid patched document, key by key. */
  lemma {:induction false} NewEntryReadsBack(root: Node, params: Params, order: Order, j: nat, k: string)
    requires LawfulOrder(order) && BareNames(params) && j < |params.runtimes|
    requires FlatBases(MissingRuntimes(Erase(root), params.runtimes))
    requires ValueAt(Erase(root), V2 + [params.runtimes[j].name]).None? && ValueAt(Erase(root), V3 + [params.runtimes[j].name]).None?
    requires ParseFrom(root, Snippet(params.socketPath, MissingSections(Erase(root), params), order)).Some?
    ensures var r := ParseFrom(root, Snippet(params.socketPath, MissingSections(Erase(root), params), order)).value;
            EntryValue(Erase(root), params.runtimes[j].base, k, ValueAt(Erase(r), V2 + [params.runtimes[j].name] + [k]))
  {
    var tree, rt := Erase(root), params.runtimes[j];
    var r := ParseFrom(root, Snippet(params.socketPath, MissingSections(tree, params), order)).value;
    RuntimePaths();
    RuntimePresence(tree, CRI_V2, rt.name);
    RuntimePresence(tree, CRI_V3, rt.name);
    var i := RequestedIsMissing(tree, params.runtimes, j);
    PatchedValidIff(root, params, order);
    var path := V2 + [rt.name];
    EraseAt(r, path);
    ValueBelow(Erase(r), path, k);
    ConfigValue(tree, rt.base, k);
  }
}
