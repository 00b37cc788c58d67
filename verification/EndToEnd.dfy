/** Admission and mount time joined: where a workload's writes end up. */
module EndToEnd {
  import opened Wrappers
  import opened Templates
  import opened Staging
  import opened JsonPatch
  import opened Pods
  import opened PodPatch
  import opened BoundWait
  import opened Admission
  import opened SnapshotKeys
  import opened Mounts
  import Resolver

  const DEFAULT_PREFIX := "pv-snapshotter.humble-mun.io"

  const KUBELET_PODS := "/var/lib/kubelet/pods/"
  const CSI_VOLUMES := "/volumes/kubernetes.io~csi/"
  const MOUNT_DIR := "/mount"
  const PV_NAME := "PVName"

  /** The default upperdir-path template. */
  function DefaultUpperdir(): string {
    KUBELET_PODS + (ActionText(POD_UID) + (CSI_VOLUMES + (ActionText(PV_NAME) + MOUNT_DIR)))
  }

  /** The kubelet's mount path of a CSI volume. */
  function CsiPath(uid: string, pv: string): string {
    KUBELET_PODS + (uid + (CSI_VOLUMES + (pv + MOUNT_DIR)))
  }

  function TemplateKey(): string { Resolver.Key(DEFAULT_PREFIX, "upperdir-path-template") }
  function LiteralKey(): string { Resolver.Key(DEFAULT_PREFIX, "upperdir-path") }
  function VarKey(name: string): string { Resolver.Key(DEFAULT_PREFIX, "var.") + name }

  /** The out-of-the-box annotation templates. */
  ghost predicate DefaultTemplates(ts: map<string, Template>) {
    && ts.Keys == {TemplateKey(), VarKey(PV_NAME)}
    && Parse(DefaultUpperdir()) == Ok(ts[TemplateKey()])
    && Parse(ActionText(PV_NAME)) == Ok(ts[VarKey(PV_NAME)])
  }

  /** The annotation keys, written out. */
  lemma KeysInWords()
    ensures TemplateKey() == "pv-snapshotter.humble-mun.io/upperdir-path-template"
    ensures LiteralKey() == "pv-snapshotter.humble-mun.io/upperdir-path"
    ensures VarKey(PV_NAME) == "pv-snapshotter.humble-mun.io/var.PVName"
  {
  }

  lemma {:induction false} FiveParts(a: string, b: string, c: string, d: string, e: string)
    ensures a + (b + (c + (d + e))) == a + b + c + d + e
  {
  }

  /** The default template and the kubelet's path, written out. */
  lemma DefaultsInWords(uid: string, pv: string)
    ensures DefaultUpperdir() == "/var/lib/kubelet/pods/" + "{{.PodUID}}" + "/volumes/kubernetes.io~csi/" + "{{.PVName}}" + "/mount"
    ensures CsiPath(uid, pv) == "/var/lib/kubelet/pods/" + uid + "/volumes/kubernetes.io~csi/" + pv + "/mount"
  {
    FiveParts(KUBELET_PODS, ActionText(POD_UID), CSI_VOLUMES, ActionText(PV_NAME), MOUNT_DIR);
    FiveParts(KUBELET_PODS, uid, CSI_VOLUMES, pv, MOUNT_DIR);
    assert ActionText(POD_UID) == "{{.PodUID}}" && ActionText(PV_NAME) == "{{.PVName}}";
  }

  // ---------------------------------------------------------- default template

  lemma BraceFreeIsInert(s: string)
    requires forall i :: 0 <= i < |s| ==> s[i] != '{'
    ensures Inert(s)
  {
    OpenAtUnique(s, |s|);
  }

  lemma KubeletInert() ensures Inert(KUBELET_PODS) { BraceFreeIsInert(KUBELET_PODS); }
  lemma CsiInert() ensures Inert(CSI_VOLUMES) { BraceFreeIsInert(CSI_VOLUMES); }
  lemma MountInert() ensures Inert(MOUNT_DIR) { BraceFreeIsInert(MOUNT_DIR); }

  // Text, a part that renders to u, text, a part that renders to w, text.
  lemma {:induction false} RenderSegments(a: string, x: string, u: string, b: string, y: string, w: string, c: string, d: Data)
    requires Inert(a) && Inert(b) && Inert(c)
    requires Render(x + (b + (y + c)), d) == Prepend(u, Render(b + (y + c), d))
    requires Render(y + c, d) == Prepend(w, Render(c, d))
    ensures Render(a + (x + (b + (y + c))), d) == Ok(a + (u + (b + (w + c))))
  {
    RenderPlainText(c, d);
    RenderInertPrefix(b, y + c, d);
    RenderInertPrefix(a, x + (b + (y + c)), d);
  }

  lemma FieldNames() ensures IsFieldName(POD_UID) && IsFieldName(PV_NAME) {}

  // A template `a{{.f}}b{{.g}}c`.
  lemma {:induction false} RenderTwoFields(a: string, f: string, b: string, g: string, c: string, d: Data)
    requires Inert(a) && Inert(b) && Inert(c) && IsFieldName(f) && IsFieldName(g)
    requires Lookup(d, f).Ok? && Lookup(d, g).Ok?
    ensures Render(a + (ActionText(f) + (b + (ActionText(g) + c))), d) == Ok(a + (Lookup(d, f).value + (b + (Lookup(d, g).value + c))))
  {
    RenderActionText(f, b + (ActionText(g) + c), d);
    RenderActionText(g, c, d);
    RenderSegments(a, ActionText(f), Lookup(d, f).value, b, ActionText(g), Lookup(d, g).value, c, d);
  }

  // The text `a{{.f}}bvc` for an inert v.
  lemma {:induction false} RenderFieldAndText(a: string, f: string, b: string, v: string, c: string, d: Data)
    requires Inert(a) && Inert(b) && Inert(v) && Inert(c) && IsFieldName(f) && Lookup(d, f).Ok?
    ensures Render(a + (ActionText(f) + (b + (v + c))), d) == Ok(a + (Lookup(d, f).value + (b + (v + c))))
  {
    RenderActionText(f, b + (v + c), d);
    RenderInertPrefix(v, c, d);
    RenderSegments(a, ActionText(f), Lookup(d, f).value, b, v, v, c, d);
  }

  lemma {:induction false} WebhookLookup(base: map<string, string>, f: string)
    requires f in base && !PassThrough(f)
    ensures Lookup(WebhookData(base), f) == Ok(base[f])
    ensures Lookup(WebhookData(base), POD_UID) == Ok(ActionText(POD_UID))
  {
  }

  /** Layer 2: the annotation keeps the pod UID action and holds the volume's name. */
  lemma {:induction false} DefaultAtAdmission(base: map<string, string>)
    requires PV_NAME in base && !PassThrough(PV_NAME)
    ensures Render(DefaultUpperdir(), WebhookData(base)) == Ok(CsiPath(ActionText(POD_UID), base[PV_NAME]))
  {
    KubeletInert();
    CsiInert();
    MountInert();
    FieldNames();
    WebhookLookup(base, PV_NAME);
    RenderTwoFields(KUBELET_PODS, POD_UID, CSI_VOLUMES, PV_NAME, MOUNT_DIR, WebhookData(base));
  }

  /** Layer 3: the annotation renders to the path of the real pod. */
  lemma {:induction false} DefaultAtMountTime(pv: string, resolved: map<string, string>)
    requires Inert(pv) && POD_UID in resolved
    ensures Render(CsiPath(ActionText(POD_UID), pv), Dict(resolved)) == Ok(CsiPath(resolved[POD_UID], pv))
  {
    KubeletInert();
    CsiInert();
    MountInert();
    FieldNames();
    RenderFieldAndText(KUBELET_PODS, POD_UID, CSI_VOLUMES, pv, MOUNT_DIR, Dict(resolved));
  }

  lemma {:induction false} UpperdirParses()
    ensures Parse(DefaultUpperdir()).Ok?
  {
    DefaultAtAdmission(map[PV_NAME := ""]);
  }

  lemma {:induction false} ActionParses(f: string)
    requires IsFieldName(f)
    ensures Parse(ActionText(f)).Ok?
  {
    var d := Dict(map[]);
    RenderActionText(f, "", d);
    RenderPlainText("", d);
    assert ActionText(f) + "" == ActionText(f);
  }

  /** The default templates parse, so the theorem below is about something. */
  lemma {:induction false} DefaultTemplatesParse()
    ensures exists ts :: DefaultTemplates(ts)
  {
    UpperdirParses();
    FieldNames();
    ActionParses(PV_NAME);
    TemplateIsNotVar();
    var ts := TwoEntries(TemplateKey(), Parse(DefaultUpperdir()).value, VarKey(PV_NAME), Parse(ActionText(PV_NAME)).value);
    assert DefaultTemplates(ts);
  }

  lemma {:induction false} TwoEntries(k: string, a: Template, l: string, b: Template) returns (ts: map<string, Template>)
    requires k != l
    ensures ts.Keys == {k, l} && ts[k] == a && ts[l] == b
  {
    ts := map[k := a, l := b];
  }

  lemma {:induction false} TemplateIsNotVar()
    ensures TemplateKey() != VarKey(PV_NAME)
  {
    VarKeyIsKey(PV_NAME);
    KeyInjective(DEFAULT_PREFIX, "upperdir-path-template", "var." + PV_NAME);
  }

  // -------------------------------------------------------- annotation passing

  /** A pod document's annotations, as the kubelet hands them to the sandbox. */
  function PodAnnotations(doc: Json): map<string, string>
    requires IsTextMap(Member(Member(doc, "metadata"), "annotations"))
  {
    OwnText(Member(Member(doc, "metadata"), "annotations"))
  }

  function OwnText(j: Json): map<string, string>
    requires IsTextMap(j)
  {
    var a := TextMap(j);
    if a.Some? then a.value else map[]
  }

  lemma {:induction false} MergedText(j: Json, rendered: map<string, string>)
    requires IsTextMap(j)
    ensures var o := Object(MembersOf(j) + Strings(rendered));
            IsTextMap(o) && TextMap(o) == Some(OwnText(j) + rendered)
  {
    var o := Object(MembersOf(j) + Strings(rendered));
    assert TextMap(o).value == OwnText(j) + rendered;
  }

  lemma {:induction false} MutatedAnnotations(doc: Json, h: PatchConfig, rendered: map<string, string>, claim: string)
    requires WellTyped(doc) && Patchable(doc)
    ensures var d := Mutated(doc, h, rendered, claim);
            && IsTextMap(Member(Member(d, "metadata"), "annotations"))
            && PodAnnotations(d) == PodAnnotations(doc) + rendered
  {
    AnnotatedParts(doc, rendered);
    assert Member(Mutated(doc, h, rendered, claim), "metadata") == Member(Annotated(doc, rendered), "metadata");
    MergedText(Member(Member(doc, "metadata"), "annotations"), rendered);
  }

  lemma {:induction false} KeyInjective(prefix: string, a: string, b: string)
    ensures Resolver.Key(prefix, a) == Resolver.Key(prefix, b) ==> a == b
  {
    assert Resolver.Key(prefix, a)[|prefix| + 1..] == a;
    assert Resolver.Key(prefix, b)[|prefix| + 1..] == b;
  }

  lemma {:induction false} VarKeyIsKey(name: string)
    ensures VarKey(name) == Resolver.Key(DEFAULT_PREFIX, "var." + name)
  {
  }

  /** The four annotation keys involved are different. */
  lemma KeysDistinct()
    ensures LiteralKey() !in {TemplateKey(), VarKey(PV_NAME)}
    ensures VarKey(POD_UID) !in {TemplateKey(), VarKey(PV_NAME)}
  {
    VarKeyIsKey(PV_NAME);
    VarKeyIsKey(POD_UID);
    KeyInjective(DEFAULT_PREFIX, "upperdir-path", "upperdir-path-template");
    KeyInjective(DEFAULT_PREFIX, "upperdir-path", "var." + PV_NAME);
    KeyInjective(DEFAULT_PREFIX, "var." + POD_UID, "upperdir-path-template");
    KeyInjective(DEFAULT_PREFIX, "var." + POD_UID, "var." + PV_NAME);
    assert ("var." + POD_UID)[5] == 'o' && ("var." + PV_NAME)[5] == 'V';
  }

  // ------------------------------------------------------------- mount time

  /** The configuration of a sandbox running a pod with the given identity and annotations. */
  function SandboxOf(meta: Resolver.PodMeta, annotations: map<string, string>): Resolver.SandboxConfig {
    Resolver.SandboxConfig(Some(meta), annotations)
  }

  /** The pod UID the template sees is the real one unless an annotation overrides it. */
  lemma {:induction false} RealPodUid(cfg: Resolver.SandboxConfig, prefix: string)
    requires cfg.meta.Some? && prefix + POD_UID !in cfg.annotations
    ensures POD_UID in Resolver.TemplateData(cfg, prefix)
    ensures Resolver.TemplateData(cfg, prefix)[POD_UID] == cfg.meta.value.uid
  {
    Resolver.VarNameIffAnnotated(cfg.annotations, prefix, POD_UID);
  }

  lemma {:induction false} ConfigResolves(cfg: Resolver.SandboxConfig, pv: string)
    requires cfg.meta.Some? && Inert(pv)
    requires Resolver.Annotation(cfg, LiteralKey()) == "" && VarKey(POD_UID) !in cfg.annotations
    requires Resolver.Annotation(cfg, TemplateKey()) == CsiPath(ActionText(POD_UID), pv)
    ensures Resolver.FromConfig(cfg, Resolver.KeysFor(DEFAULT_PREFIX)) == Ok(CsiPath(cfg.meta.value.uid, pv))
  {
    var prefix := Resolver.Key(DEFAULT_PREFIX, "var.");
    RealPodUid(cfg, prefix);
    DefaultAtMountTime(pv, Resolver.TemplateData(cfg, prefix));
    CsiPathNonEmpty(ActionText(POD_UID), pv);
  }

  lemma {:induction false} CsiPathNonEmpty(uid: string, pv: string)
    ensures CsiPath(uid, pv) != ""
  {
    assert CsiPath(uid, pv)[0] == '/';
  }

  lemma {:induction false} WorkloadRoot(c: Resolver.Containerd, keys: Resolver.AnnotationKeys, key: string, cfg: Resolver.SandboxConfig)
    requires Resolver.RunsUnder(c, key, cfg)
    ensures Resolver.ResolveAtMountsTime(c, keys, key) == Resolver.FromConfig(cfg, keys)
  {
  }

  /**
   With the default templates, a workload container of an admitted pod is redirected to
   the CSI mount of the volume its claim was observed bound to, under the pod's real UID:
   `RedirectRoot` is what every Mounts call uses, and every upperdir and workdir of a
   writable overlay then lies below it.
   */
  lemma {:induction false} WorkloadWritesGoToItsVolume(
      h: HandlerConfig, api: Api, reqName: string, doc: Json, owner: string, chosen: Claim, observed: Claim, patch: seq<Op>,
      c: Resolver.Containerd, key: string, meta: Resolver.PodMeta, mounts: seq<Mount>)
    requires WellTyped(doc) && Patchable(doc) && DefaultTemplates(h.patch.annotationTemplates)
    // The webhook allowed the pod.
    requires Justifies(h, api, reqName, View(doc), owner, chosen, observed)
    requires PatchFollows(h, api, reqName, doc, owner, observed, patch)
    // Volume names are DNS names; all that matters here is that they hold no template action.
    requires Inert(observed.volumeName)
    // The pod brings no literal path and no PodUID override.
    requires LiteralKey() in PodAnnotations(doc) ==> PodAnnotations(doc)[LiteralKey()] == ""
    requires VarKey(POD_UID) !in PodAnnotations(doc)
    // The admitted pod runs.
    requires IsTextMap(Member(Member(ApplyAll(doc, patch).value, "metadata"), "annotations"))
    requires Resolver.RunsUnder(c, key, SandboxOf(meta, PodAnnotations(ApplyAll(doc, patch).value)))
    ensures var root := Resolver.RedirectRoot(c, Resolver.KeysFor(DEFAULT_PREFIX), key);
            && root == CsiPath(meta.uid, observed.volumeName) && root != ""
            && (mounts != [] && Writable(mounts[0]) ==>
                  var opts := Redirect(mounts, root)[0].options;
                  && UpperdirFromMounts(Redirect(mounts, root)) == Ok(root + "/upper")
                  && (forall i :: 0 <= i < |opts| && UPPERDIR <= opts[i] ==> opts[i] == UPPERDIR + root + "/upper")
                  && (forall i :: 0 <= i < |opts| && WORKDIR <= opts[i] ==> opts[i] == WORKDIR + root + "/work"))
  {
    var cfg := SandboxOf(meta, PodAnnotations(ApplyAll(doc, patch).value));
    AdmittedAnnotations(h, api, reqName, doc, owner, observed, patch);
    ConfigResolves(cfg, observed.volumeName);
    WorkloadRoot(c, Resolver.KeysFor(DEFAULT_PREFIX), key, cfg);
    CsiPathNonEmpty(meta.uid, observed.volumeName);
    if mounts != [] && Writable(mounts[0]) {
      RedirectShape(mounts, CsiPath(meta.uid, observed.volumeName));
      RedirectedUpperdir(mounts, CsiPath(meta.uid, observed.volumeName));
    }
  }

  /**
   A Mounts call for such a container fails exactly when the volume is not ready, crashes
   exactly when it is and there is no native mount, and otherwise returns the native mounts
   redirected to the volume.
   */
  method MountWorkload(
      h: HandlerConfig, api: Api, reqName: string, doc: Json, owner: string, chosen: Claim, observed: Claim, patch: seq<Op>,
      c: Resolver.Containerd, key: string, meta: Resolver.PodMeta, native: array<MountSlice>,
      device: string -> Option<int>, canCreate: string -> bool)
    returns (r: Resolver.MountsOutcome)
    requires WellTyped(doc) && Patchable(doc) && DefaultTemplates(h.patch.annotationTemplates)
    requires Justifies(h, api, reqName, View(doc), owner, chosen, observed)
    requires PatchFollows(h, api, reqName, doc, owner, observed, patch)
    requires Inert(observed.volumeName)
    requires LiteralKey() in PodAnnotations(doc) ==> PodAnnotations(doc)[LiteralKey()] == ""
    requires VarKey(POD_UID) !in PodAnnotations(doc)
    requires IsTextMap(Member(Member(ApplyAll(doc, patch).value, "metadata"), "annotations"))
    requires Resolver.RunsUnder(c, key, SandboxOf(meta, PodAnnotations(ApplyAll(doc, patch).value)))
    ensures var root := CsiPath(meta.uid, observed.volumeName);
            && (r == Resolver.Failed <==> !ReadyRoot(root, device, canCreate))
            && (r == Resolver.Crashed <==> ReadyRoot(root, device, canCreate) && native.Length == 0)
            && (r.Served? ==> Value(r.mounts) == Redirect(old(Value(native)), root))
  {
    WorkloadWritesGoToItsVolume(h, api, reqName, doc, owner, chosen, observed, patch, c, key, meta, []);
    r := Resolver.ServeMounts(Some(native), c, Resolver.KeysFor(DEFAULT_PREFIX), key, device, canCreate);
  }

  // The annotations of the admitted pod that matter at mount time.
  lemma {:induction false} AdmittedAnnotations(
      h: HandlerConfig, api: Api, reqName: string, doc: Json, owner: string, observed: Claim, patch: seq<Op>)
    requires WellTyped(doc) && Patchable(doc) && DefaultTemplates(h.patch.annotationTemplates)
    requires observed.volumeName in api.volumes && PatchFollows(h, api, reqName, doc, owner, observed, patch)
    ensures ApplyAll(doc, patch).Ok?
    ensures IsTextMap(Member(Member(ApplyAll(doc, patch).value, "metadata"), "annotations"))
    ensures var a := PodAnnotations(ApplyAll(doc, patch).value);
            && TemplateKey() in a && a[TemplateKey()] == CsiPath(ActionText(POD_UID), observed.volumeName)
            && (VarKey(POD_UID) in a ==> VarKey(POD_UID) in PodAnnotations(doc))
            && (LiteralKey() in a ==> LiteralKey() in PodAnnotations(doc) && a[LiteralKey()] == PodAnnotations(doc)[LiteralKey()])
  {
    var bound := BoundVolume(observed.volumeName, api.volumes[observed.volumeName].handle);
    var base := Values(owner, reqName, View(doc), bound).Fields();
    var rendered := Rendered(h.patch.annotationTemplates, WebhookData(base));
    MutatedAnnotations(doc, h.patch, rendered, observed.name);
    RenderedDefaults(h.patch.annotationTemplates, base);
    KeysDistinct();
    OwnKeysStay(PodAnnotations(doc), rendered, TemplateKey(), VarKey(PV_NAME), VarKey(POD_UID));
    OwnKeysStay(PodAnnotations(doc), rendered, TemplateKey(), VarKey(PV_NAME), LiteralKey());
  }

  // Merging two keys over the pod's own annotations leaves every other key as it was.
  lemma {:induction false} OwnKeysStay(own: map<string, string>, rendered: map<string, string>, a: string, b: string, k: string)
    requires rendered.Keys == {a, b} && k !in {a, b}
    ensures (k in own + rendered <==> k in own) && (k in own ==> (own + rendered)[k] == own[k])
    ensures a in own + rendered && (own + rendered)[a] == rendered[a]
  {
  }

  // What the default templates render to at admission.
  lemma {:induction false} RenderedDefaults(ts: map<string, Template>, base: map<string, string>)
    requires DefaultTemplates(ts) && PV_NAME in base && !PassThrough(PV_NAME) && AllRender(ts, WebhookData(base))
    ensures var rendered := Rendered(ts, WebhookData(base));
            && rendered.Keys == {TemplateKey(), VarKey(PV_NAME)}
            && rendered[TemplateKey()] == CsiPath(ActionText(POD_UID), base[PV_NAME])
  {
    DefaultAtAdmission(base);
  }
}
