/** Mount-time resolution of a container's upperdir from its sandbox's annotations. */
module Resolver {
  import opened Wrappers
  import opened Templates
  import opened SnapshotKeys
  import opened Mounts

  datatype PodMeta = PodMeta(name: string, uid: string, namespace: string)

  datatype SandboxConfig = SandboxConfig(meta: Option<PodMeta>, annotations: map<string, string>)

  // What reading the sandbox metadata extension of a container record yields.
  datatype SandboxExtension = Unreadable | Missing | Undecodable | NoConfig | Config(cfg: SandboxConfig)

  datatype ContainerRecord = ContainerRecord(kind: string, sandboxId: string, ext: SandboxExtension)

  // The containerd container store: queries and info reads may fail.
  datatype Containerd = Containerd(
    records: map<(string, string), ContainerRecord>,
    unqueryable: set<(string, string)>,
    infoFails: set<(string, string)>)
  {
    /** Query by exact ID within a namespace. */
    function Find(ns: string, id: string): Result<Option<ContainerRecord>, ResolveError> {
      if (ns, id) in unqueryable then Err(QueryFailed)
      else if (ns, id) in records then Ok(Some(records[(ns, id)]))
      else Ok(None)
    }
  }

  datatype ResolveError = QueryFailed | InfoFailed | BadExtension | BadTemplate(e: TemplateError)

  datatype AnnotationKeys = AnnotationKeys(literal: string, tmpl: string, varPrefix: string)

  const KIND_SANDBOX := "sandbox"
  const KIND_CONTAINER := "container"

  function Key(prefix: string, suffix: string): string { prefix + "/" + suffix }

  function KeysFor(prefix: string): AnnotationKeys {
    AnnotationKeys(Key(prefix, "upperdir-path"), Key(prefix, "upperdir-path-template"), Key(prefix, "var."))
  }

  // ------------------------------------------------------------ template data

  function Builtins(meta: Option<PodMeta>): map<string, string> {
    if meta.None? then map[]
    else map["PodUID" := meta.value.uid, "PodName" := meta.value.name, "PodNamespace" := meta.value.namespace]
  }

  function VarNames(annotations: map<string, string>, prefix: string): set<string> {
    set k | k in annotations && prefix <= k :: k[|prefix|..]
  }

  lemma VarNameIffAnnotated(annotations: map<string, string>, prefix: string, n: string)
    ensures n in VarNames(annotations, prefix) <==> prefix + n in annotations
  {
    assert (prefix + n)[|prefix|..] == n;
    if n in VarNames(annotations, prefix) {
      var k :| k in annotations && prefix <= k && k[|prefix|..] == n;
      assert k == prefix + n;
    }
  }

  /** Pod identity, overridden by every `var.` annotation. */
  function TemplateData(cfg: SandboxConfig, prefix: string): map<string, string> {
    Builtins(cfg.meta) + map n | n in VarNames(cfg.annotations, prefix) && prefix + n in cfg.annotations :: cfg.annotations[prefix + n]
  }

  /** Collects the template data by visiting the annotations in an arbitrary order. */
  method AssembleData(cfg: SandboxConfig, prefix: string) returns (data: map<string, string>)
    ensures data == TemplateData(cfg, prefix)
  {
    data := Builtins(cfg.meta);
    var todo := cfg.annotations.Keys;
    ghost var vars: map<string, string> := map[];
    while todo != {}
      invariant todo <= cfg.annotations.Keys
      invariant data == Builtins(cfg.meta) + vars
      invariant forall n :: n in vars <==> prefix + n in cfg.annotations && prefix + n !in todo
      invariant forall n :: n in vars ==> vars[n] == cfg.annotations[prefix + n]
      decreases |todo|
    {
      var k :| k in todo;
      todo := todo - {k};
      if prefix <= k {
        var name := k[|prefix|..];
        assert k == prefix + name;
        assert forall n :: prefix + n == k ==> (prefix + n)[|prefix|..] == name && (prefix + n)[|prefix|..] == n;
        data := data[name := cfg.annotations[k]];
        vars := vars[name := cfg.annotations[k]];
      } else {
        assert forall n :: prefix <= prefix + n;
      }
    }
    forall n ensures n in vars <==> n in VarNames(cfg.annotations, prefix) {
      VarNameIffAnnotated(cfg.annotations, prefix, n);
    }
    assert vars == map n | n in VarNames(cfg.annotations, prefix) && prefix + n in cfg.annotations :: cfg.annotations[prefix + n];
  }

  // --------------------------------------------------------------- resolution

  function Annotation(cfg: SandboxConfig, key: string): string {
    if key in cfg.annotations then cfg.annotations[key] else ""
  }

  /** The upperdir root a sandbox's annotations ask for; "" when they ask for none. */
  function FromConfig(cfg: SandboxConfig, keys: AnnotationKeys): Result<string, ResolveError> {
    var literal, tmpl := Annotation(cfg, keys.literal), Annotation(cfg, keys.tmpl);
    if literal != "" then Ok(literal)
    else if tmpl == "" then Ok("")
    else
      var r := Render(tmpl, Dict(TemplateData(cfg, keys.varPrefix)));
      if r.Err? then Err(BadTemplate(r.error)) else Ok(r.value)
  }

  function FromSandbox(ext: SandboxExtension, keys: AnnotationKeys): Result<string, ResolveError> {
    match ext
    case Unreadable => Err(BadExtension)
    case Missing => Ok("")
    case Undecodable => Err(BadExtension)
    case NoConfig => Ok("")
    case Config(cfg) => FromConfig(cfg, keys)
  }

  function FromSandboxId(c: Containerd, ns: string, sandboxId: string, keys: AnnotationKeys): Result<string, ResolveError> {
    var found := c.Find(ns, sandboxId);
    if found.Err? then Err(found.error)
    else if found.value.None? then Ok("")
    else FromSandbox(found.value.value.ext, keys)
  }

  /** The upperdir root for a snapshot key; "" means pass-through. */
  function ResolveAtMountsTime(c: Containerd, keys: AnnotationKeys, key: string): Result<string, ResolveError> {
    var parsed := ParseSnapshotKey(key);
    if parsed.None? then Ok("")
    else
      var ns, id := parsed.value.ns, parsed.value.id;
      var found := c.Find(ns, id);
      if found.Err? then Err(found.error)
      else if found.value.None? then Ok("")
      else if (ns, id) in c.infoFails then Err(InfoFailed)
      else
        var info := found.value.value;
        if info.kind == KIND_CONTAINER && info.sandboxId != "" then FromSandboxId(c, ns, info.sandboxId, keys)
        else Ok("")
  }

  /** The root Mounts redirects to: a failed resolution falls back to the native overlay. */
  function RedirectRoot(c: Containerd, keys: AnnotationKeys, key: string): string {
    var r := ResolveAtMountsTime(c, keys, key);
    if r.Ok? then r.value else ""
  }

  // -------------------------------------------------- what the resolution means

  /** A workload container whose record and sandbox containerd knows. */
  ghost predicate RunsUnder(c: Containerd, key: string, cfg: SandboxConfig) {
    && ParseSnapshotKey(key).Some?
    && var p := ParseSnapshotKey(key).value;
    && (p.ns, p.id) in c.records && (p.ns, p.id) !in c.unqueryable && (p.ns, p.id) !in c.infoFails
    && var info := c.records[(p.ns, p.id)];
    && info.kind == "container" && info.sandboxId != ""
    && (p.ns, info.sandboxId) in c.records && (p.ns, info.sandboxId) !in c.unqueryable
    && c.records[(p.ns, info.sandboxId)].ext == Config(cfg)
  }

  ghost predicate IsWorkload(c: Containerd, key: string) { exists cfg :: RunsUnder(c, key, cfg) }

  // An annotation that is there and not empty.
  ghost predicate Asks(cfg: SandboxConfig, key: string, v: string) {
    v != "" && key in cfg.annotations && cfg.annotations[key] == v
  }

  ghost predicate AsksNothing(cfg: SandboxConfig, key: string) { key !in cfg.annotations || cfg.annotations[key] == "" }

  /** The values a mount-time template sees: every `var.` annotation, and the sandbox's own identity where none overrides it. */
  ghost predicate SandboxValues(cfg: SandboxConfig, varPrefix: string, data: map<string, string>) {
    && (forall n :: varPrefix + n in cfg.annotations ==> n in data && data[n] == cfg.annotations[varPrefix + n])
    && (forall n :: n in data && varPrefix + n !in cfg.annotations ==>
          cfg.meta.Some? && n in {"PodUID", "PodName", "PodNamespace"})
    && (cfg.meta.Some? ==>
          && (varPrefix + "PodUID" !in cfg.annotations ==> "PodUID" in data && data["PodUID"] == cfg.meta.value.uid)
          && (varPrefix + "PodName" !in cfg.annotations ==> "PodName" in data && data["PodName"] == cfg.meta.value.name)
          && (varPrefix + "PodNamespace" !in cfg.annotations ==> "PodNamespace" in data && data["PodNamespace"] == cfg.meta.value.namespace))
  }

  lemma {:induction false} TemplateDataAt(cfg: SandboxConfig, varPrefix: string, n: string)
    ensures var data, own := TemplateData(cfg, varPrefix), Builtins(cfg.meta);
            if varPrefix + n in cfg.annotations then n in data && data[n] == cfg.annotations[varPrefix + n]
            else (n in data <==> n in own) && (n in own ==> data[n] == own[n])
  {
    VarNameIffAnnotated(cfg.annotations, varPrefix, n);
  }

  lemma BuiltinsExactly(meta: Option<PodMeta>)
    ensures meta.None? ==> Builtins(meta) == map[]
    ensures meta.Some? ==>
              var own := Builtins(meta);
              && own.Keys == {"PodUID", "PodName", "PodNamespace"}
              && own["PodUID"] == meta.value.uid && own["PodName"] == meta.value.name && own["PodNamespace"] == meta.value.namespace
  {
    IdentityNames();
  }

  lemma {:induction false} DataOfSandbox(cfg: SandboxConfig, varPrefix: string)
    ensures SandboxValues(cfg, varPrefix, TemplateData(cfg, varPrefix))
  {
    var data := TemplateData(cfg, varPrefix);
    BuiltinsExactly(cfg.meta);
    forall n | varPrefix + n in cfg.annotations ensures n in data && data[n] == cfg.annotations[varPrefix + n] {
      TemplateDataAt(cfg, varPrefix, n);
    }
    forall n | n in data && varPrefix + n !in cfg.annotations ensures cfg.meta.Some? && n in {"PodUID", "PodName", "PodNamespace"} {
      TemplateDataAt(cfg, varPrefix, n);
    }
    TemplateDataAt(cfg, varPrefix, "PodUID");
    TemplateDataAt(cfg, varPrefix, "PodName");
    TemplateDataAt(cfg, varPrefix, "PodNamespace");
  }

  lemma IdentityNames()
    ensures "PodUID" != "PodName" && "PodUID" != "PodNamespace" && "PodName" != "PodNamespace"
  {
    assert "PodUID"[3] == 'U' && "PodName"[3] == 'N' && "PodNamespace"[3] == 'N';
    assert |"PodName"| != |"PodNamespace"|;
  }

  /**
   What a workload's annotations mean for its mounts.  A literal path wins over any template;
   without either there is no redirection; a template is rendered with the sandbox's values, and
   a template that does not render leaves the native overlay.
   */
  lemma {:induction false} WorkloadRedirection(c: Containerd, keys: AnnotationKeys, key: string, cfg: SandboxConfig)
    requires RunsUnder(c, key, cfg)
    ensures forall v :: Asks(cfg, keys.literal, v) ==> RedirectRoot(c, keys, key) == v
    ensures AsksNothing(cfg, keys.literal) && AsksNothing(cfg, keys.tmpl) ==> RedirectRoot(c, keys, key) == ""
    ensures AsksNothing(cfg, keys.literal) ==>
              forall t :: Asks(cfg, keys.tmpl, t) ==>
                exists data :: SandboxValues(cfg, keys.varPrefix, data)
                               && RedirectRoot(c, keys, key) == var r := Render(t, Dict(data)); if r.Ok? then r.value else ""
  {
    if AsksNothing(cfg, keys.literal) {
      forall t | Asks(cfg, keys.tmpl, t)
        ensures exists data :: SandboxValues(cfg, keys.varPrefix, data)
                               && RedirectRoot(c, keys, key) == var r := Render(t, Dict(data)); if r.Ok? then r.value else ""
      {
        var data := TemplateData(cfg, keys.varPrefix);
        DataOfSandbox(cfg, keys.varPrefix);
        assert RedirectRoot(c, keys, key) == var r := Render(t, Dict(data)); if r.Ok? then r.value else "";
      }
    }
  }

  /** Nothing but a workload under a known sandbox is ever redirected: not other keys, unknown or unreadable records, other kinds. */
  lemma {:induction false} OnlyWorkloadsRedirected(c: Containerd, keys: AnnotationKeys, key: string)
    ensures RedirectRoot(c, keys, key) != "" ==> IsWorkload(c, key)
  {
    if RedirectRoot(c, keys, key) != "" {
      var p := ParseSnapshotKey(key).value;
      var ext := c.records[(p.ns, c.records[(p.ns, p.id)].sandboxId)].ext;
      assert RunsUnder(c, key, ext.cfg);
    }
  }

  // ------------------------------------------------------------------- Mounts

  datatype MountsOutcome = Failed | Crashed | Served(mounts: array<MountSlice>)

  /**
   Serves a Mounts call.  A root that is not ready aborts the call; without a root the
   native mounts are returned as they are.  With a ready root and no native mount the
   process crashes, because the last log line reads the first mount's options.
   */
  method ServeMounts(native: Option<array<MountSlice>>, c: Containerd, keys: AnnotationKeys, key: string,
                     device: string -> Option<int>, canCreate: string -> bool)
    returns (r: MountsOutcome)
    ensures var root := RedirectRoot(c, keys, key);
            && (r == Failed <==> native.None? || (root != "" && !ReadyRoot(root, device, canCreate)))
            && (r == Crashed <==> native.Some? && native.value.Length == 0 && root != "" && ReadyRoot(root, device, canCreate))
            && (r.Served? ==> Value(r.mounts) == if root == "" then old(Value(native.value)) else Redirect(old(Value(native.value)), root))
  {
    if native.None? {
      return Failed;
    }
    var resolved := ResolveAtMountsTime(c, keys, key);
    var root := if resolved.Ok? then resolved.value else "";
    if root == "" {
      return Served(native.value);
    }
    var ready := EnsureUpperdirReady(root, device, canCreate);
    if ready.Err? {
      return Failed;
    }
    var redirected := ReplaceUpperdirOptions(native.value, root);
    if redirected.Length == 0 {
      return Crashed;
    }
    return Served(redirected);
  }

  /** A sandbox's own container is never redirected, whatever its annotations say. */
  lemma {:induction false} SandboxNeverRedirected(c: Containerd, keys: AnnotationKeys, key: string)
    requires ParseSnapshotKey(key).Some?
    requires var p := ParseSnapshotKey(key).value;
             (p.ns, p.id) in c.records && c.records[(p.ns, p.id)].kind == KIND_SANDBOX
    ensures RedirectRoot(c, keys, key) == ""
  {
    assert KIND_SANDBOX[0] != KIND_CONTAINER[0];
  }
}
