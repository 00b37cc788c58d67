/** Construction of the webhook's patch and what applying it does to the pod. */
module PodPatch {
  import opened Wrappers
  import opened Sequences
  import opened Templates
  import opened JsonPointer
  import opened JsonPatch
  import opened Pods

  const STATE_VOLUME := "pv-snapshotter--state"

  datatype PatchConfig = PatchConfig(
    annotationTemplates: map<string, Template>,
    stateMountPath: string,
    defaultRuntimeClass: string,
    runtimeClassSuffix: string)

  function StateVolume(claim: string): Json {
    Object(map["name" := String(STATE_VOLUME), "persistentVolumeClaim" := Object(map["claimName" := String(claim)])])
  }

  function StateMount(path: string): Json {
    Object(map["name" := String(STATE_VOLUME), "mountPath" := String(path)])
  }

  // ------------------------------------------------- the intended document

  function Strings(m: map<string, string>): map<string, Json> {
    map k | k in m :: String(m[k])
  }

  function MembersOf(j: Json): map<string, Json> {
    if j.Object? then j.members else map[]
  }

  function ItemsOf(j: Json): seq<Json> {
    if j.Array? then j.items else []
  }

  /** The pod with the given annotations merged over its own. */
  function Annotated(doc: Json, rendered: map<string, string>): Json
    requires Member(doc, "metadata").Object?
  {
    var meta := Member(doc, "metadata");
    SetMember(doc, "metadata",
      SetMember(meta, "annotations", Object(MembersOf(Member(meta, "annotations")) + Strings(rendered))))
  }

  function WithVolume(spec: Json, claim: string): Json
    requires spec.Object?
  {
    SetMember(spec, "volumes", Array(ItemsOf(Member(spec, "volumes")) + [StateVolume(claim)]))
  }

  predicate PrimaryContainerIsObject(spec: Json) {
    var cs := ItemsOf(Member(spec, "containers"));
    |cs| > 0 ==> cs[0].Object?
  }

  function WithMount(spec: Json, path: string): Json
    requires spec.Object? && PrimaryContainerIsObject(spec)
  {
    var cs := ItemsOf(Member(spec, "containers"));
    if cs == [] then spec
    else
      var c := SetMember(cs[0], "volumeMounts", Array(ItemsOf(Member(cs[0], "volumeMounts")) + [StateMount(path)]));
      SetMember(spec, "containers", Array([c] + cs[1..]))
  }

  function BaseRuntimeClass(spec: Json, h: PatchConfig): string {
    var rc := Member(spec, "runtimeClassName");
    if rc.String? && rc.text != "" then rc.text else h.defaultRuntimeClass
  }

  function WithRuntimeClass(spec: Json, h: PatchConfig): Json
    requires spec.Object?
  {
    var base := BaseRuntimeClass(spec, h);
    if base == "" then spec else SetMember(spec, "runtimeClassName", String(base + h.runtimeClassSuffix))
  }

  /** What the patch must produce from a pod document. */
  function Mutated(doc: Json, h: PatchConfig, rendered: map<string, string>, claim: string): Json
    requires Patchable(doc)
  {
    var spec := Member(doc, "spec");
    SetMember(Annotated(doc, rendered), "spec",
      WithRuntimeClass(WithMount(WithVolume(spec, claim), h.stateMountPath), h))
  }

  /** The documents a patch can be applied to. */
  predicate Patchable(doc: Json) {
    && Member(doc, "metadata").Object?
    && Member(doc, "spec").Object?
    && PrimaryContainerIsObject(Member(doc, "spec"))
  }

  // ---------------------------------------------------------------- pointers

  /** A token that needs no escaping. */
  predicate IsPlain(s: string) { forall i :: 0 <= i < |s| ==> s[i] != '/' && s[i] != '~' }

  /** `/a/b/...`: a pointer written out by hand. */
  function Path(names: seq<string>): string {
    if names == [] then "" else "/" + names[0] + Path(names[1..])
  }

  const ANNOTATIONS_PATH := Path(["metadata", "annotations"])
  const VOLUMES_PATH := Path(["spec", "volumes"])
  const VOLUMES_END_PATH := Path(["spec", "volumes", "-"])
  const MOUNTS_PATH := Path(["spec", "containers", "0", "volumeMounts"])
  const MOUNTS_END_PATH := Path(["spec", "containers", "0", "volumeMounts", "-"])
  const RUNTIME_CLASS_PATH := Path(["spec", "runtimeClassName"])

  lemma {:induction false} PathIsPointer(names: seq<string>)
    requires forall i :: 0 <= i < |names| ==> IsPlain(names[i])
    ensures Pointer(names) == Path(names)
  {
    if names != [] {
      EscapePlain(names[0]);
      PathIsPointer(names[1..]);
    }
  }

  lemma {:induction false} PathTokens(names: seq<string>)
    requires forall i :: 0 <= i < |names| ==> IsPlain(names[i])
    ensures Tokens(Path(names)) == Ok(names)
  {
    PathIsPointer(names);
    PointerRoundTrip(names);
  }

  lemma {:induction false} PointerAppend(xs: seq<string>, y: string)
    ensures Pointer(xs + [y]) == Pointer(xs) + ("/" + Escape(y))
  {
    if xs == [] {
      assert xs + [y] == [y];
      assert Pointer([y][1..]) == "";
      assert Pointer([y]) == "/" + Escape(y) + "" == "/" + Escape(y);
    } else {
      PointerAppend(xs[1..], y);
      assert (xs + [y])[1..] == xs[1..] + [y];
      Assoc("/" + Escape(xs[0]), Pointer(xs[1..]), "/" + Escape(y));
    }
  }

  /** A key, escaped as the webhook does, addresses exactly the member it names. */
  lemma {:induction false} EscapedKeyTokens(names: seq<string>, key: string)
    requires forall i :: 0 <= i < |names| ==> IsPlain(names[i])
    ensures Tokens(Path(names) + "/" + EscapeTwoPass(key)) == Ok(names + [key])
  {
    PathIsPointer(names);
    TwoPassIsSinglePass(key);
    PointerAppend(names, key);
    Assoc(Path(names), "/", EscapeTwoPass(key));
    PointerRoundTrip(names + [key]);
  }

  // --------------------------------------------------------- the operations

  function VolumeOps(pod: Pod, claim: string): seq<Op> {
    (if pod.hasVolumes then [] else [Add(VOLUMES_PATH, Array([]))])
    + [Add(VOLUMES_END_PATH, StateVolume(claim))]
  }

  function MountOps(pod: Pod, path: string): seq<Op> {
    if pod.containers == [] then []
    else if pod.containers[0].hasMounts then [Add(MOUNTS_END_PATH, StateMount(path))]
    else [Add(MOUNTS_PATH, Array([StateMount(path)]))]
  }

  function RuntimeClassOps(pod: Pod, h: PatchConfig): seq<Op> {
    var own := if pod.runtimeClass.Some? then pod.runtimeClass.value else "";
    var base := if own == "" then h.defaultRuntimeClass else own;
    var value := String(base + h.runtimeClassSuffix);
    if base == "" then []
    else if pod.runtimeClass.None? then [Add(RUNTIME_CLASS_PATH, value)]
    else [Replace(RUNTIME_CLASS_PATH, value)]
  }

  // ------------------------------------------------- effect of one operation

  function Lift(j: Json, name: string, r: Result<Json, PatchError>): Result<Json, PatchError>
    requires j.Object?
  {
    if r.Err? then r else Ok(SetMember(j, name, r.value))
  }

  lemma {:induction false} AddUnderMember(j: Json, name: string, rest: seq<string>, v: Json)
    requires j.Object? && rest != []
    ensures AddAt(j, [name] + rest, v) == Lift(j, name, AddAt(Member(j, name), rest, v))
  {
    assert ([name] + rest)[1..] == rest;
  }

  lemma {:induction false} AddUnderNothing(j: Json, tokens: seq<string>, v: Json)
    requires !j.Object? && !j.Array? && tokens != []
    ensures AddAt(j, tokens, v) == Err(NoTarget)
  {
  }

  lemma {:induction false} ApplyAllOne(j: Json, op: Op)
    ensures ApplyAll(j, [op]) == Apply(j, op)
  {
    assert [op][..0] == [];
  }

  lemma {:induction false} ApplyAllAppend(j: Json, xs: seq<Op>, ys: seq<Op>)
    ensures ApplyAll(j, xs + ys) == if ApplyAll(j, xs).Err? then ApplyAll(j, xs) else ApplyAll(ApplyAll(j, xs).value, ys)
  {
    if ys == [] {
      assert xs + ys == xs;
    } else {
      var k := |ys| - 1;
      ApplyAllAppend(j, xs, ys[..k]);
      assert xs + ys == (xs + ys[..k]) + [ys[k]];
      ApplyAllSnoc(j, xs + ys[..k], ys[k]);
    }
  }

  /** Adding below a top-level member. */
  lemma {:induction false} ApplyAddBelow(j: Json, name: string, rest: seq<string>, v: Json)
    requires rest != [] && IsPlain(name) && forall i :: 0 <= i < |rest| ==> IsPlain(rest[i])
    requires !j.Array?
    ensures Apply(j, Add(Path([name] + rest), v))
         == if j.Object? then Lift(j, name, AddAt(Member(j, name), rest, v)) else Err(NoTarget)
  {
    PathTokens([name] + rest);
    if j.Object? {
      AddUnderMember(j, name, rest, v);
    } else {
      AddUnderNothing(j, [name] + rest, v);
    }
  }

  // ------------------------------------------------------------- annotations

  lemma AnnotationNamesPlain()
    ensures IsPlain("metadata") && IsPlain("annotations")
  {
  }

  lemma {:induction false} AnnotationsCreated(doc: Json)
    requires WellTyped(doc) && View(doc).annotations.None?
    ensures Apply(doc, Add(ANNOTATIONS_PATH, Object(map[])))
         == if Member(doc, "metadata").Object? then Ok(Annotated(doc, map[])) else Err(NoTarget)
  {
    AnnotationNamesPlain();
    var meta := Member(doc, "metadata");
    assert ["metadata"] + ["annotations"] == ["metadata", "annotations"];
    ApplyAddBelow(doc, "metadata", ["annotations"], Object(map[]));
    AddLast(meta, "annotations", Object(map[]));
    assert map[] + Strings(map[]) == map[];
  }

  lemma {:induction false} AnnotationsKept(doc: Json)
    requires WellTyped(doc) && View(doc).annotations.Some?
    ensures Member(doc, "metadata").Object? && Annotated(doc, map[]) == doc
  {
    var meta := Member(doc, "metadata");
    var own := Member(meta, "annotations");
    assert MembersOf(own) + Strings(map[]) == own.members;
    assert SetMember(meta, "annotations", own).members == meta.members;
    assert SetMember(doc, "metadata", meta).members == doc.members;
  }

  lemma {:induction false} AnnotatedParts(doc: Json, done: map<string, string>)
    requires Member(doc, "metadata").Object?
    ensures var d := Annotated(doc, done);
            && d.Object? && Member(d, "metadata").Object?
            && Member(Member(d, "metadata"), "annotations")
               == Object(MembersOf(Member(Member(doc, "metadata"), "annotations")) + Strings(done))
            && Member(d, "spec") == Member(doc, "spec")
  {
  }

  lemma {:induction false} AnnotationAdded(doc: Json, done: map<string, string>, key: string, v: string)
    requires Member(doc, "metadata").Object?
    ensures Apply(Annotated(doc, done), Add(ANNOTATIONS_PATH + "/" + EscapeTwoPass(key), String(v)))
         == Ok(Annotated(doc, done[key := v]))
  {
    AnnotationNamesPlain();
    EscapedKeyTokens(["metadata", "annotations"], key);
    AnnotatedParts(doc, done);
    var d := Annotated(doc, done);
    var meta := Member(d, "metadata");
    var ann := Member(meta, "annotations");
    assert ["metadata", "annotations"] + [key] == ["metadata"] + (["annotations"] + [key]);
    AddUnderMember(d, "metadata", ["annotations"] + [key], String(v));
    AddUnderMember(meta, "annotations", [key], String(v));
    AddLast(ann, key, String(v));
    AnnotatedUpdate(doc, done, key, v);
  }

  lemma {:induction false} AnnotatedUpdate(doc: Json, done: map<string, string>, key: string, v: string)
    requires Member(doc, "metadata").Object?
    ensures var d := Annotated(doc, done);
            var meta := Member(d, "metadata");
            var ann := Member(meta, "annotations");
            && ann.Object?
            && SetMember(d, "metadata", SetMember(meta, "annotations", SetMember(ann, key, String(v)))) == Annotated(doc, done[key := v])
  {
    var own := MembersOf(Member(Member(doc, "metadata"), "annotations"));
    assert (own + Strings(done))[key := String(v)] == own + Strings(done[key := v]);
    var d, d' := Annotated(doc, done), Annotated(doc, done[key := v]);
    var meta, meta' := Member(d, "metadata"), Member(d', "metadata");
    var ann := Member(meta, "annotations");
    assert SetMember(meta, "annotations", SetMember(ann, key, String(v))).members == meta'.members;
    assert SetMember(d, "metadata", meta').members == d'.members;
  }

  // -------------------------------------------------------------------- spec

  lemma SpecNamesPlain()
    ensures IsPlain("spec") && IsPlain("volumes") && IsPlain("-")
  {
  }

  lemma {:induction false} VolumePhase(d: Json, pod: Pod, claim: string)
    requires !d.Array? && IsStruct(Member(d, "spec")) && IsList(Member(Member(d, "spec"), "volumes"))
    requires pod.hasVolumes == !Member(Member(d, "spec"), "volumes").Null?
    ensures ApplyAll(d, VolumeOps(pod, claim))
         == if Member(d, "spec").Object? then Ok(SetMember(d, "spec", WithVolume(Member(d, "spec"), claim))) else Err(NoTarget)
  {
    var last := Add(VOLUMES_END_PATH, StateVolume(claim));
    if pod.hasVolumes {
      assert VolumeOps(pod, claim) == [last];
      ApplyAllOne(d, last);
      VolumeAppended(d, Member(d, "spec"), claim);
    } else {
      var first := Add(VOLUMES_PATH, Array([]));
      ApplyAllAppend(d, [first], [last]);
      ApplyAllOne(d, first);
      VolumesCreated(d, Member(d, "spec"));
      if Member(d, "spec").Object? {
        VolumeAppendedToNew(d, Member(d, "spec"), claim, last);
      }
    }
  }

  lemma {:induction false} VolumesCreated(d: Json, spec: Json)
    requires !d.Array? && spec == Member(d, "spec") && IsStruct(spec)
    ensures Apply(d, Add(VOLUMES_PATH, Array([])))
         == if spec.Object? then Ok(SetMember(d, "spec", SetMember(spec, "volumes", Array([])))) else Err(NoTarget)
  {
    SpecNamesPlain();
    assert ["spec"] + ["volumes"] == ["spec", "volumes"];
    ApplyAddBelow(d, "spec", ["volumes"], Array([]));
    AddLast(spec, "volumes", Array([]));
  }

  lemma {:induction false} SetTwice(j: Json, name: string, v: Json, w: Json)
    requires j.Object?
    ensures SetMember(SetMember(j, name, v), name, w) == SetMember(j, name, w)
  {
    assert j.members[name := v][name := w] == j.members[name := w];
  }

  lemma {:induction false} VolumeAppendedToNew(d: Json, spec: Json, claim: string, op: Op)
    requires d.Object? && spec.Object? && Member(spec, "volumes").Null? && op == Add(VOLUMES_END_PATH, StateVolume(claim))
    ensures ApplyAll(SetMember(d, "spec", SetMember(spec, "volumes", Array([]))), [op])
         == Ok(SetMember(d, "spec", WithVolume(spec, claim)))
  {
    var spec1 := SetMember(spec, "volumes", Array([]));
    var d1 := SetMember(d, "spec", spec1);
    ApplyAllOne(d1, op);
    VolumeAppended(d1, spec1, claim);
    SetTwice(spec, "volumes", Array([]), Array([] + [StateVolume(claim)]));
    SetTwice(d, "spec", spec1, WithVolume(spec, claim));
  }

  lemma {:induction false} VolumeAppended(d: Json, spec: Json, claim: string)
    requires d.Object? && spec == Member(d, "spec") && spec.Object? && Member(spec, "volumes").Array?
    ensures Apply(d, Add(VOLUMES_END_PATH, StateVolume(claim))) == Ok(SetMember(d, "spec", WithVolume(spec, claim)))
  {
    SpecNamesPlain();
    assert ["spec"] + ["volumes", "-"] == ["spec", "volumes", "-"];
    assert ["volumes", "-"] == ["volumes"] + ["-"];
    ApplyAddBelow(d, "spec", ["volumes", "-"], StateVolume(claim));
    AddUnderMember(spec, "volumes", ["-"], StateVolume(claim));
    AddLast(Member(spec, "volumes"), "-", StateVolume(claim));
  }

  lemma MountNamesPlain()
    ensures IsPlain("spec") && IsPlain("containers") && IsPlain("0")
    ensures IsPlain("volumeMounts") && IsPlain("-")
  {
  }

  /** Adding inside the first element of a non-empty array. */
  lemma {:induction false} AddInFirst(items: seq<Json>, rest: seq<string>, v: Json)
    requires items != [] && rest != []
    ensures AddAt(Array(items), ["0"] + rest, v)
         == var r := AddAt(items[0], rest, v); if r.Err? then r else Ok(Array([r.value] + items[1..]))
  {
    AddDescends(Array(items), "0", rest, v);
    var r := AddAt(items[0], rest, v);
    if r.Ok? {
      assert items[0 := r.value] == [r.value] + items[1..];
    }
  }

  // The mount operation, seen from the containers array.
  lemma {:induction false} MountInContainer(c: Json, path: string)
    requires IsContainer(c)
    ensures Member(c, "volumeMounts").Null? ==>
              AddAt(c, ["volumeMounts"], Array([StateMount(path)]))
              == if c.Object? then Ok(SetMember(c, "volumeMounts", Array(ItemsOf(Member(c, "volumeMounts")) + [StateMount(path)]))) else Err(NoTarget)
    ensures !Member(c, "volumeMounts").Null? ==>
              c.Object? && AddAt(c, ["volumeMounts"] + ["-"], StateMount(path))
                           == Ok(SetMember(c, "volumeMounts", Array(ItemsOf(Member(c, "volumeMounts")) + [StateMount(path)])))
  {
    if Member(c, "volumeMounts").Null? {
      AddLast(c, "volumeMounts", Array([StateMount(path)]));
      assert [] + [StateMount(path)] == [StateMount(path)];
    } else {
      AddUnderMember(c, "volumeMounts", ["-"], StateMount(path));
      AddLast(Member(c, "volumeMounts"), "-", StateMount(path));
    }
  }

  lemma {:induction false} MountPhase(d: Json, pod: Pod, path: string)
    requires d.Object? && Member(d, "spec").Object? && IsList(Member(Member(d, "spec"), "containers"))
    requires var cs := Items(Member(Member(d, "spec"), "containers"));
             && (forall i :: 0 <= i < |cs| ==> IsContainer(cs[i])) && pod.containers == Containers(cs)
    ensures var spec := Member(d, "spec");
            ApplyAll(d, MountOps(pod, path))
            == if PrimaryContainerIsObject(spec) then Ok(SetMember(d, "spec", WithMount(spec, path))) else Err(NoTarget)
  {
    var spec := Member(d, "spec");
    var cs := Items(Member(spec, "containers"));
    if cs == [] {
      assert SetMember(d, "spec", spec).members == d.members;
    } else {
      MountNamesPlain();
      MountInContainer(cs[0], path);
      var hasMounts := !Member(cs[0], "volumeMounts").Null?;
      var inner := if hasMounts then ["volumeMounts"] + ["-"] else ["volumeMounts"];
      var v := if hasMounts then StateMount(path) else Array([StateMount(path)]);
      var names := ["containers"] + (["0"] + inner);
      var op := Add(Path(["spec"] + names), v);
      assert ["spec"] + names == if hasMounts then ["spec", "containers", "0", "volumeMounts", "-"] else ["spec", "containers", "0", "volumeMounts"];
      assert MountOps(pod, path) == [op];
      ApplyAllOne(d, op);
      ApplyAddBelow(d, "spec", names, v);
      AddUnderMember(spec, "containers", ["0"] + inner, v);
      AddInFirst(cs, inner, v);
    }
  }

  lemma RuntimeClassNamesPlain()
    ensures IsPlain("spec") && IsPlain("runtimeClassName")
  {
  }

  lemma {:induction false} RuntimeClassPhase(d: Json, pod: Pod, h: PatchConfig)
    requires d.Object? && Member(d, "spec").Object? && IsText(Member(Member(d, "spec"), "runtimeClassName"))
    requires var rc := Member(Member(d, "spec"), "runtimeClassName");
             pod.runtimeClass == if rc.Null? then None else Some(rc.text)
    ensures ApplyAll(d, RuntimeClassOps(pod, h)) == Ok(SetMember(d, "spec", WithRuntimeClass(Member(d, "spec"), h)))
  {
    var spec := Member(d, "spec");
    var base := BaseRuntimeClass(spec, h);
    var v := String(base + h.runtimeClassSuffix);
    if base == "" {
      assert SetMember(d, "spec", spec).members == d.members;
    } else {
      RuntimeClassNamesPlain();
      assert ["spec"] + ["runtimeClassName"] == ["spec", "runtimeClassName"];
      if pod.runtimeClass.None? {
        ApplyAllOne(d, Add(RUNTIME_CLASS_PATH, v));
        ApplyAddBelow(d, "spec", ["runtimeClassName"], v);
        AddLast(spec, "runtimeClassName", v);
      } else {
        ApplyAllOne(d, Replace(RUNTIME_CLASS_PATH, v));
        PathTokens(["spec", "runtimeClassName"]);
        ReplaceUnder(d, "spec", ["runtimeClassName"], v);
        assert ["runtimeClassName"] == ["runtimeClassName"] + [];
        ReplaceUnder(spec, "runtimeClassName", [], v);
      }
    }
  }

  // ------------------------------------------------------- the whole patch

  lemma {:induction false} VolumeKeepsOthers(spec: Json, claim: string)
    requires spec.Object?
    ensures var s := WithVolume(spec, claim);
            && Member(s, "containers") == Member(spec, "containers")
            && Member(s, "runtimeClassName") == Member(spec, "runtimeClassName")
  {
  }

  lemma {:induction false} MountKeepsOthers(spec: Json, path: string)
    requires spec.Object? && PrimaryContainerIsObject(spec)
    ensures Member(WithMount(spec, path), "runtimeClassName") == Member(spec, "runtimeClassName")
  {
  }

  // The mount and runtime-class phases after the volume phase.
  lemma {:induction false} LaterPhases(d: Json, spec: Json, pod: Pod, h: PatchConfig, ms: seq<Op>, rs: seq<Op>)
    requires d.Object? && spec == Member(d, "spec") && spec.Object?
    requires IsList(Member(spec, "containers")) && IsText(Member(spec, "runtimeClassName"))
    requires var cs := Items(Member(spec, "containers"));
             && (forall i :: 0 <= i < |cs| ==> IsContainer(cs[i])) && pod.containers == Containers(cs)
    requires var rc := Member(spec, "runtimeClassName");
             pod.runtimeClass == if rc.Null? then None else Some(rc.text)
    requires ms == MountOps(pod, h.stateMountPath) && rs == RuntimeClassOps(pod, h)
    ensures ApplyAll(d, ms + rs)
         == if PrimaryContainerIsObject(spec)
            then Ok(SetMember(d, "spec", WithRuntimeClass(WithMount(spec, h.stateMountPath), h)))
            else Err(NoTarget)
  {
    ApplyAllAppend(d, ms, rs);
    MountPhase(d, pod, h.stateMountPath);
    if PrimaryContainerIsObject(spec) {
      var spec2 := WithMount(spec, h.stateMountPath);
      MountKeepsOthers(spec, h.stateMountPath);
      RuntimeClassPhase(SetMember(d, "spec", spec2), pod, h);
      SetTwice(d, "spec", spec2, WithRuntimeClass(spec2, h));
    }
  }

  // All spec phases on a document with a given spec.
  lemma {:induction false} SpecPhases(d: Json, spec: Json, pod: Pod, h: PatchConfig, claim: string, vs: seq<Op>, later: seq<Op>)
    requires d.Object? && spec == Member(d, "spec") && IsStruct(spec)
    requires IsList(Member(spec, "volumes")) && pod.hasVolumes == !Member(spec, "volumes").Null?
    requires IsList(Member(spec, "containers")) && IsText(Member(spec, "runtimeClassName"))
    requires var cs := Items(Member(spec, "containers"));
             && (forall i :: 0 <= i < |cs| ==> IsContainer(cs[i])) && pod.containers == Containers(cs)
    requires var rc := Member(spec, "runtimeClassName");
             pod.runtimeClass == if rc.Null? then None else Some(rc.text)
    requires vs == VolumeOps(pod, claim) && later == MountOps(pod, h.stateMountPath) + RuntimeClassOps(pod, h)
    ensures ApplyAll(d, vs + later)
         == if spec.Object? && PrimaryContainerIsObject(spec)
            then Ok(SetMember(d, "spec", WithRuntimeClass(WithMount(WithVolume(spec, claim), h.stateMountPath), h)))
            else Err(NoTarget)
  {
    ApplyAllAppend(d, vs, later);
    VolumePhase(d, pod, claim);
    if spec.Object? {
      var spec1 := WithVolume(spec, claim);
      var d1 := SetMember(d, "spec", spec1);
      VolumeKeepsOthers(spec, claim);
      LaterPhases(d1, spec1, pod, h, MountOps(pod, h.stateMountPath), RuntimeClassOps(pod, h));
      if PrimaryContainerIsObject(spec) {
        SetTwice(d, "spec", spec1, WithRuntimeClass(WithMount(spec1, h.stateMountPath), h));
      }
    }
  }

  /** The operations after the annotations finish the patch, or fail where it cannot apply. */
  lemma {:induction false} PatchFinished(doc: Json, ops: seq<Op>, done: map<string, string>, h: PatchConfig, claim: string)
    requires WellTyped(doc) && AnnotationsApplied(doc, ops, done)
    ensures var pod := View(doc);
            var tail := VolumeOps(pod, claim) + (MountOps(pod, h.stateMountPath) + RuntimeClassOps(pod, h));
            ApplyAll(doc, ops + tail) == if Patchable(doc) then Ok(Mutated(doc, h, done, claim)) else Err(NoTarget)
  {
    var pod := View(doc);
    var vs, later := VolumeOps(pod, claim), MountOps(pod, h.stateMountPath) + RuntimeClassOps(pod, h);
    ApplyAllAppend(doc, ops, vs + later);
    if Member(doc, "metadata").Object? {
      AnnotatedParts(doc, done);
      SpecPhases(Annotated(doc, done), Member(doc, "spec"), pod, h, claim, vs, later);
    }
  }

  ghost predicate AllRender(templates: map<string, Template>, data: Data) {
    forall k :: k in templates ==> Exec(templates[k], data).Ok?
  }

  /** The annotation values the templates render to. */
  ghost function Rendered(templates: map<string, Template>, data: Data): map<string, string>
    requires AllRender(templates, data)
  {
    map k | k in templates :: Exec(templates[k], data).value
  }

  // What the operations emitted so far do to the document.
  ghost predicate AnnotationsApplied(doc: Json, ops: seq<Op>, done: map<string, string>) {
    ApplyAll(doc, ops)
    == if Member(doc, "metadata").Object? then Ok(Annotated(doc, done)) else Err(NoTarget)
  }

  lemma {:induction false} AnnotationsStart(doc: Json, ops: seq<Op>)
    requires WellTyped(doc)
    requires ops == if View(doc).annotations.None? then [Add(ANNOTATIONS_PATH, Object(map[]))] else []
    ensures AnnotationsApplied(doc, ops, map[])
  {
    if View(doc).annotations.None? {
      AnnotationsCreated(doc);
      ApplyAllOne(doc, Add(ANNOTATIONS_PATH, Object(map[])));
    } else {
      AnnotationsKept(doc);
    }
  }

  lemma {:induction false} AnnotationsStep(doc: Json, ops: seq<Op>, done: map<string, string>, key: string, v: string)
    requires AnnotationsApplied(doc, ops, done)
    ensures AnnotationsApplied(doc, ops + [Add(ANNOTATIONS_PATH + "/" + EscapeTwoPass(key), String(v))], done[key := v])
  {
    var op := Add(ANNOTATIONS_PATH + "/" + EscapeTwoPass(key), String(v));
    ApplyAllSnoc(doc, ops, op);
    if Member(doc, "metadata").Object? {
      AnnotationAdded(doc, done, key, v);
    }
  }

  // A pod whose one container is null.
  function NullContainerPod(meta: map<string, Json>): Json {
    Object(map["metadata" := Object(meta), "spec" := Object(map["containers" := Array([Null])])])
  }

  /**
   Object metadata and spec are not enough: a null first container decodes to an empty one,
   gets its mount operation, and that operation has no target.
   */
  lemma {:induction false} NullContainerFails(ops: seq<Op>, done: map<string, string>, h: PatchConfig, claim: string)
    ensures var doc := NullContainerPod(map[]);
            && WellTyped(doc) && Member(doc, "metadata").Object? && Member(doc, "spec").Object?
            && View(doc).containers == [Container(false)] && !Patchable(doc)
            && (AnnotationsApplied(doc, ops, done) ==>
                  var tail := VolumeOps(View(doc), claim) + (MountOps(View(doc), h.stateMountPath) + RuntimeClassOps(View(doc), h));
                  ApplyAll(doc, ops + tail) == Err(NoTarget))
  {
    var doc := NullContainerPod(map[]);
    assert Member(doc, "spec") == Object(map["containers" := Array([Null])]);
    assert Member(doc, "metadata") == Object(map[]);
    assert Member(Member(doc, "spec"), "containers") == Array([Null]);
    if AnnotationsApplied(doc, ops, done) { PatchFinished(doc, ops, done, h, claim); }
  }

  // ------------------------------------------------------- what the patch means

  // Two objects agree on every member but the named ones.
  ghost predicate AgreeBut(a: Json, b: Json, names: set<string>) {
    && a.Object? && b.Object?
    && forall k :: k !in names ==> (k in a.members <==> k in b.members) && (k in a.members ==> b.members[k] == a.members[k])
  }

  /** The volume of the claim, under the name the mount uses. */
  ghost predicate IsStateVolume(v: Json, claim: string) {
    && v.Object? && v.members.Keys == {"name", "persistentVolumeClaim"}
    && Member(v, "name") == String("pv-snapshotter--state")
    && Member(v, "persistentVolumeClaim") == Object(map["claimName" := String(claim)])
  }

  ghost predicate IsStateMount(m: Json, path: string) {
    && m.Object? && m.members.Keys == {"name", "mountPath"}
    && Member(m, "name") == String("pv-snapshotter--state") && Member(m, "mountPath") == String(path)
  }

  // The list grew by one item at its end.
  ghost predicate GrewByOne(before: Json, after: Json) {
    after.Array? && |after.items| == |ItemsOf(before)| + 1 && after.items[..|ItemsOf(before)|] == ItemsOf(before)
  }

  ghost predicate AnnotationsMerged(before: Json, after: Json, rendered: map<string, string>) {
    && after.Object? && after.members.Keys == MembersOf(before).Keys + rendered.Keys
    && (forall k :: k in rendered ==> after.members[k] == String(rendered[k]))
    && (forall k :: k in MembersOf(before) && k !in rendered ==> after.members[k] == MembersOf(before)[k])
  }

  ghost predicate VolumeAttached(before: Json, after: Json, claim: string) {
    GrewByOne(before, after) && IsStateVolume(after.items[|after.items| - 1], claim)
  }

  ghost predicate MountAttached(before: Json, after: Json, path: string) {
    if ItemsOf(before) == [] then after == before
    else
      && after.Array? && |after.items| == |ItemsOf(before)| && after.items[1..] == ItemsOf(before)[1..]
      && var c, d := ItemsOf(before)[0], after.items[0];
      && AgreeBut(c, d, {"volumeMounts"})
      && var ms := Member(d, "volumeMounts");
         GrewByOne(Member(c, "volumeMounts"), ms) && IsStateMount(ms.items[|ms.items| - 1], path)
  }

  ghost predicate ClassSuffixed(before: Json, after: Json, h: PatchConfig) {
    if before.String? && before.text != "" then after == String(before.text + h.runtimeClassSuffix)
    else if h.defaultRuntimeClass != "" then after == String(h.defaultRuntimeClass + h.runtimeClassSuffix)
    else after == before
  }

  /** The pod the webhook is for, field by field. */
  ghost predicate IsIntended(doc: Json, d: Json, h: PatchConfig, rendered: map<string, string>, claim: string) {
    && AgreeBut(doc, d, {"metadata", "spec"})
    && AgreeBut(Member(doc, "metadata"), Member(d, "metadata"), {"annotations"})
    && AnnotationsMerged(Member(Member(doc, "metadata"), "annotations"), Member(Member(d, "metadata"), "annotations"), rendered)
    && AgreeBut(Member(doc, "spec"), Member(d, "spec"), {"volumes", "containers", "runtimeClassName"})
    && VolumeAttached(Member(Member(doc, "spec"), "volumes"), Member(Member(d, "spec"), "volumes"), claim)
    && MountAttached(Member(Member(doc, "spec"), "containers"), Member(Member(d, "spec"), "containers"), h.stateMountPath)
    && ClassSuffixed(Member(Member(doc, "spec"), "runtimeClassName"), Member(Member(d, "spec"), "runtimeClassName"), h)
  }

  lemma {:induction false} SetAgrees(j: Json, name: string, v: Json)
    requires j.Object?
    ensures AgreeBut(j, SetMember(j, name, v), {name}) && Member(SetMember(j, name, v), name) == v
    ensures forall k :: k != name ==> Member(SetMember(j, name, v), k) == Member(j, k)
  {
  }

  lemma SpecNames()
    ensures "volumes" != "containers" && "volumes" != "runtimeClassName" && "containers" != "runtimeClassName" && "metadata" != "spec"
  {
    assert "volumes"[0] == 'v' && "containers"[0] == 'c' && "runtimeClassName"[0] == 'r' && "metadata"[0] == 'm' && "spec"[0] == 's';
  }

  lemma {:induction false} VolumeIsIntended(spec: Json, claim: string)
    requires spec.Object?
    ensures VolumeAttached(Member(spec, "volumes"), Member(WithVolume(spec, claim), "volumes"), claim)
  {
    SetAgrees(spec, "volumes", Member(WithVolume(spec, claim), "volumes"));
  }

  lemma {:induction false} MountIsIntended(spec: Json, path: string)
    requires spec.Object? && PrimaryContainerIsObject(spec)
    ensures MountAttached(Member(spec, "containers"), Member(WithMount(spec, path), "containers"), path)
    ensures forall k :: k != "containers" ==> Member(WithMount(spec, path), k) == Member(spec, k)
    ensures AgreeBut(spec, WithMount(spec, path), {"containers"})
  {
    var cs := ItemsOf(Member(spec, "containers"));
    if cs != [] {
      var ms := Array(ItemsOf(Member(cs[0], "volumeMounts")) + [StateMount(path)]);
      SetAgrees(cs[0], "volumeMounts", ms);
      SetAgrees(spec, "containers", Array([SetMember(cs[0], "volumeMounts", ms)] + cs[1..]));
    }
  }

  lemma {:induction false} ClassIsIntended(spec: Json, h: PatchConfig)
    requires spec.Object? && IsText(Member(spec, "runtimeClassName"))
    ensures ClassSuffixed(Member(spec, "runtimeClassName"), Member(WithRuntimeClass(spec, h), "runtimeClassName"), h)
    ensures forall k :: k != "runtimeClassName" ==> Member(WithRuntimeClass(spec, h), k) == Member(spec, k)
    ensures AgreeBut(spec, WithRuntimeClass(spec, h), {"runtimeClassName"})
  {
  }

  lemma {:induction false} SpecIsIntended(spec: Json, h: PatchConfig, claim: string)
    requires spec.Object? && PrimaryContainerIsObject(spec) && IsText(Member(spec, "runtimeClassName"))
    ensures var d := WithRuntimeClass(WithMount(WithVolume(spec, claim), h.stateMountPath), h);
            && AgreeBut(spec, d, {"volumes", "containers", "runtimeClassName"})
            && VolumeAttached(Member(spec, "volumes"), Member(d, "volumes"), claim)
            && MountAttached(Member(spec, "containers"), Member(d, "containers"), h.stateMountPath)
            && ClassSuffixed(Member(spec, "runtimeClassName"), Member(d, "runtimeClassName"), h)
  {
    SpecNames();
    var a := WithVolume(spec, claim);
    SetAgrees(spec, "volumes", Member(a, "volumes"));
    VolumeIsIntended(spec, claim);
    MountIsIntended(a, h.stateMountPath);
    ClassIsIntended(WithMount(a, h.stateMountPath), h);
  }

  lemma {:induction false} MetadataIsIntended(doc: Json, rendered: map<string, string>)
    requires doc.Object? && Member(doc, "metadata").Object?
    ensures var meta, d := Member(doc, "metadata"), Member(Annotated(doc, rendered), "metadata");
            AgreeBut(meta, d, {"annotations"}) && AnnotationsMerged(Member(meta, "annotations"), Member(d, "annotations"), rendered)
    ensures AgreeBut(doc, Annotated(doc, rendered), {"metadata"})
  {
  }

  /** The document the patch is proved to produce is the intended pod. */
  lemma {:induction false} MutatedIsIntended(doc: Json, h: PatchConfig, rendered: map<string, string>, claim: string)
    requires WellTyped(doc) && Patchable(doc)
    ensures IsIntended(doc, Mutated(doc, h, rendered, claim), h, rendered, claim)
  {
    SpecNames();
    var spec := Member(doc, "spec");
    var a := Annotated(doc, rendered);
    var s := WithRuntimeClass(WithMount(WithVolume(spec, claim), h.stateMountPath), h);
    MetadataIsIntended(doc, rendered);
    SpecIsIntended(spec, h, claim);
    SetAgrees(a, "spec", s);
  }

  // ------------------------------------------------------------------ the methods

  /** Appends one `add` per annotation template, visiting the templates in an arbitrary order. */
  method AppendAnnotationOps(templates: map<string, Template>, data: Data, start: seq<Op>, ghost doc: Json)
    returns (r: Result<seq<Op>, TemplateError>)
    requires AnnotationsApplied(doc, start, map[])
    ensures r.Ok? <==> AllRender(templates, data)
    ensures r.Ok? ==> AnnotationsApplied(doc, r.value, Rendered(templates, data))
  {
    var ops := start;
    var todo := templates.Keys;
    ghost var done: map<string, string> := map[];
    while todo != {}
      invariant todo <= templates.Keys
      invariant done.Keys == templates.Keys - todo
      invariant forall k :: k in done ==> Exec(templates[k], data) == Ok(done[k])
      invariant AnnotationsApplied(doc, ops, done)
      decreases |todo|
    {
      var key :| key in todo;
      var val := Exec(templates[key], data);
      if val.Err? {
        return Err(val.error);
      }
      AnnotationsStep(doc, ops, done, key, val.value);
      ops := ops + [Add(ANNOTATIONS_PATH + "/" + EscapeTwoPass(key), String(val.value))];
      done := done[key := val.value];
      todo := todo - {key};
    }
    assert done == Rendered(templates, data);
    r := Ok(ops);
  }

  /**
   Builds the patch for a decoded pod.  Whatever order the templates are visited in,
   applying the operations to any document the pod was decoded from gives the
   intended pod, and fails exactly on the documents that cannot be patched.
   */
  method BuildPatch(h: PatchConfig, pod: Pod, claim: string, data: Data, ghost doc: Json)
    returns (r: Result<seq<Op>, TemplateError>)
    requires WellTyped(doc) && View(doc) == pod
    ensures r.Ok? <==> AllRender(h.annotationTemplates, data)
    ensures r.Ok? ==> (ApplyAll(doc, r.value).Ok? <==> Patchable(doc))
    ensures r.Ok? ==>
              ApplyAll(doc, r.value)
              == if Patchable(doc) then Ok(Mutated(doc, h, Rendered(h.annotationTemplates, data), claim)) else Err(NoTarget)
    ensures r.Ok? && Patchable(doc) ==>
              IsIntended(doc, ApplyAll(doc, r.value).value, h, Rendered(h.annotationTemplates, data), claim)
  {
    var start: seq<Op> := [];
    if pod.annotations.None? {
      start := [Add(ANNOTATIONS_PATH, Object(map[]))];
    }
    AnnotationsStart(doc, start);
    var annotated := AppendAnnotationOps(h.annotationTemplates, data, start, doc);
    if annotated.Err? {
      return annotated;
    }
    PatchFinished(doc, annotated.value, Rendered(h.annotationTemplates, data), h, claim);
    r := Ok(annotated.value + (VolumeOps(pod, claim) + (MountOps(pod, h.stateMountPath) + RuntimeClassOps(pod, h))));
    if Patchable(doc) { MutatedIsIntended(doc, h, Rendered(h.annotationTemplates, data), claim); }
  }
}
