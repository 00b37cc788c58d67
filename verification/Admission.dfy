/** The admission decision: owner, claim, bound wait, patch. */
module Admission {
  import opened Wrappers
  import opened Templates
  import opened Staging
  import opened JsonPatch
  import opened Pods
  import opened PodPatch
  import opened OwnerWalk
  import opened BoundWait

  const POD_INDEX_LABEL := "apps.kubernetes.io/pod-index"

  datatype HandlerConfig = HandlerConfig(
    patch: PatchConfig,
    pvcName: Template,
    pvcSelector: Template,
    overrideKey: string,
    maxOwnerDepth: int,
    boundTimeout: int)

  // The API server's answers during one admission.  `selectClaims` is None when the
  // selector does not parse or the list call fails.
  datatype Api = Api(
    cluster: Cluster,
    claims: map<string, Claim>,
    selectClaims: string -> Option<seq<Claim>>,
    refetch: (string, nat) -> Option<Claim>,
    volumes: map<string, Volume>,
    drift: nat -> nat,
    cancelled: nat -> bool)
  {
    /** Objects fetched by name carry that name. */
    ghost predicate Lawful() {
      && (forall n :: n in claims ==> claims[n].name == n)
      && (forall n, k :: refetch(n, k).Some? ==> refetch(n, k).value.name == n)
    }
  }

  datatype PvcError =
    | BadTemplate(e: TemplateError)
    | EmptyOverride
    | FetchFailed
    | NothingRendered
    | SelectFailed
    | NothingSelected

  datatype Denial = BadPod | NoOwner | NoClaim(e: PvcError) | NotBound(w: WaitError) | NoPatch(t: TemplateError)

  datatype Response = Denied(reason: Denial) | Allowed(patch: seq<Op>)

  // --------------------------------------------------------- claim selection

  function Fetch(api: Api, name: string): Result<Claim, PvcError> {
    if name in api.claims then Ok(api.claims[name]) else Err(FetchFailed)
  }

  function ClaimFromOverride(api: Api, text: string, data: Data): Result<Claim, PvcError> {
    var name := Render(text, data);
    if name.Err? then Err(BadTemplate(name.error))
    else if name.value == "" then Err(EmptyOverride)
    else Fetch(api, name.value)
  }

  function ClaimFromSelector(h: HandlerConfig, api: Api, data: Data): Result<Claim, PvcError> {
    var selector := Exec(h.pvcSelector, data);
    if selector.Err? then Err(BadTemplate(selector.error))
    else if selector.value == "" then Err(NothingRendered)
    else
      var list := api.selectClaims(selector.value);
      if list.None? then Err(SelectFailed)
      else if list.value == [] then Err(NothingSelected)
      else Ok(list.value[0])
  }

  predicate HasOverride(h: HandlerConfig, pod: Pod) {
    h.overrideKey != "" && pod.annotations.Some? && h.overrideKey in pod.annotations.value
  }

  /** The claim for a pod: its override annotation, else the name template, else the selector. */
  function ResolvePVC(h: HandlerConfig, api: Api, pod: Pod, data: Data): Result<Claim, PvcError> {
    if HasOverride(h, pod) then ClaimFromOverride(api, pod.annotations.value[h.overrideKey], data)
    else
      var name := Exec(h.pvcName, data);
      if name.Err? then Err(BadTemplate(name.error))
      else if name.value != "" then Fetch(api, name.value)
      else ClaimFromSelector(h, api, data)
  }

  /** With an override present the global templates have no say, not even as a fallback. */
  lemma OverrideNeverFallsBack(h: HandlerConfig, api: Api, pod: Pod, data: Data, name: Template, selector: Template)
    requires HasOverride(h, pod)
    ensures ResolvePVC(h, api, pod, data) == ResolvePVC(h.(pvcName := name, pvcSelector := selector), api, pod, data)
    ensures var r := ResolvePVC(h, api, pod, data);
            r.Ok? ==> var text := Render(pod.annotations.value[h.overrideKey], data);
                      text.Ok? && text.value != "" && text.value in api.claims && r.value == api.claims[text.value]
  {
  }

  // ---------------------------------------------------------------- admission

  function PodIndex(pod: Pod): string {
    if POD_INDEX_LABEL in pod.labels then pod.labels[POD_INDEX_LABEL] else ""
  }

  /** The deepest controlling owner within the configured depth. */
  function OwnerOfPod(h: HandlerConfig, api: Api, pod: Pod): Result<string, OwnerError> {
    var w := Walk(api.cluster, Owned(pod.name, pod.owners), Max0(h.maxOwnerDepth));
    if w.Ok? then Ok(w.value.name) else Err(w.error)
  }

  /** The values webhook templates see once the claim is bound. */
  function Values(owner: string, reqName: string, pod: Pod, v: BoundVolume): WebhookValues {
    WebhookValues(owner, reqName, v.pvName, v.handle, PodIndex(pod))
  }

  /** The claim as it was selected, or as a later fetch found it. */
  ghost predicate Observed(api: Api, chosen: Claim, observed: Claim) {
    observed == chosen || exists k :: api.refetch(chosen.name, k) == Some(observed)
  }

  /**
   A claim justifies an admission when it is the one the precedence selects and it was
   observed bound to a named, existing volume.
   */
  ghost predicate Justifies(h: HandlerConfig, api: Api, reqName: string, pod: Pod, owner: string,
                            chosen: Claim, observed: Claim)
  {
    && OwnerOfPod(h, api, pod) == Ok(owner)
    && ResolvePVC(h, api, pod, WebhookData(Values(owner, reqName, pod, BoundVolume("", "")).Fields())) == Ok(chosen)
    && observed.name == chosen.name
    && observed.phase == BOUND && observed.volumeName != "" && observed.volumeName in api.volumes
    && Observed(api, chosen, observed)
  }

  /** The patch does to the pod what the observed claim calls for, wherever it can be applied. */
  ghost predicate PatchFollows(h: HandlerConfig, api: Api, reqName: string, doc: Json, owner: string,
                               observed: Claim, patch: seq<Op>)
    requires WellTyped(doc) && observed.volumeName in api.volumes
  {
    var bound := BoundVolume(observed.volumeName, api.volumes[observed.volumeName].handle);
    var data := WebhookData(Values(owner, reqName, View(doc), bound).Fields());
    && AllRender(h.patch.annotationTemplates, data)
    && (ApplyAll(doc, patch).Ok? <==> Patchable(doc))
    && (Patchable(doc) ==>
          ApplyAll(doc, patch) == Ok(Mutated(doc, h.patch, Rendered(h.patch.annotationTemplates, data), observed.name))
          && IsIntended(doc, ApplyAll(doc, patch).value, h.patch, Rendered(h.patch.annotationTemplates, data), observed.name))
  }

  /** A refusal states something true about the request. */
  ghost predicate Warranted(h: HandlerConfig, api: Api, reqName: string, pod: Pod, reason: Denial, chosen: Claim, observed: Claim) {
    match reason
    case BadPod => false
    case NoOwner => OwnerOfPod(h, api, pod).Err?
    case NoClaim(e) =>
      && OwnerOfPod(h, api, pod).Ok?
      && ResolvePVC(h, api, pod, WebhookData(Values(OwnerOfPod(h, api, pod).value, reqName, pod, BoundVolume("", "")).Fields())) == Err(e)
    case NotBound(w) =>
      && OwnerOfPod(h, api, pod).Ok?
      && ResolvePVC(h, api, pod, WebhookData(Values(OwnerOfPod(h, api, pod).value, reqName, pod, BoundVolume("", "")).Fields())) == Ok(chosen)
      && (if w == RefetchFailed then exists k :: api.refetch(chosen.name, k).None?
          else Explains(w, observed, api.volumes) && Observed(api, chosen, observed))
    case NoPatch(t) =>
      && OwnerOfPod(h, api, pod).Ok?
      && Justifies(h, api, reqName, pod, OwnerOfPod(h, api, pod).value, chosen, observed)
      && var v := BoundVolume(observed.volumeName, api.volumes[observed.volumeName].handle);
         !AllRender(h.patch.annotationTemplates, WebhookData(Values(OwnerOfPod(h, api, pod).value, reqName, pod, v).Fields()))
  }

  // ------------------------------------------------- what templates say at admission

  lemma FieldNamesDiffer()
    ensures "OwnerName" != "PodName" && "OwnerName" != "PVName" && "OwnerName" != "VolumeHandle" && "OwnerName" != "PodIndex"
    ensures "PodName" != "PVName" && "PodName" != "VolumeHandle" && "PodName" != "PodIndex"
    ensures "PVName" != "VolumeHandle" && "PVName" != "PodIndex" && "VolumeHandle" != "PodIndex"
  {
    assert |"OwnerName"| == 9 && |"PodName"| == 7 && |"PVName"| == 6 && |"VolumeHandle"| == 12 && |"PodIndex"| == 8 && |"PodUID"| == 6;
    assert "PVName"[1] == 'V' && "PodUID"[1] == 'o' && |"PodNamespace"| == 12 && "PodNamespace"[0] == 'P' && "VolumeHandle"[0] == 'V';
  }

  /** The label that holds a pod's ordinal, "" without it. */
  ghost predicate IsPodIndex(pod: Pod, v: string) {
    if "apps.kubernetes.io/pod-index" in pod.labels then v == pod.labels["apps.kubernetes.io/pod-index"] else v == ""
  }

  /** The value a webhook template sees under each field name. */
  ghost predicate FieldValue(name: string, owner: string, reqName: string, pod: Pod, pvName: string, handle: string, v: string) {
    || (name == "OwnerName" && v == owner)
    || (name == "PodName" && v == reqName)
    || (name == "PVName" && v == pvName)
    || (name == "VolumeHandle" && v == handle)
    || (name == "PodIndex" && IsPodIndex(pod, v))
    || (name == "PodUID" && v == "{{.PodUID}}")
    || (name == "PodNamespace" && v == "{{.PodNamespace}}")
  }

  lemma {:induction false} FieldsMean(owner: string, reqName: string, pod: Pod, b: BoundVolume, name: string, v: string)
    requires FieldValue(name, owner, reqName, pod, b.pvName, b.handle, v)
    ensures Lookup(WebhookData(Values(owner, reqName, pod, b).Fields()), name) == Ok(v)
  {
    FieldNamesDiffer();
    PassedThrough(name);
  }

  lemma PassedThrough(name: string)
    ensures PassThrough(name) <==> name == "PodUID" || name == "PodNamespace"
    ensures ActionText("PodUID") == "{{.PodUID}}" && ActionText("PodNamespace") == "{{.PodNamespace}}"
    ensures name in {"OwnerName", "PodName", "PVName", "VolumeHandle", "PodIndex"} ==> !PassThrough(name)
  {
    FieldNamesDiffer();
    assert "PodNamespace"[3] == 'N' && "PodUID"[0] == 'P';
  }

  // A template that is one field.
  lemma {:induction false} OneField(name: string, d: Data)
    requires Lookup(d, name).Ok?
    ensures Exec([Field(name)], d) == Lookup(d, name)
  {
    assert [Field(name)][1..] == [];
    assert Lookup(d, name).value + "" == Lookup(d, name).value;
  }

  /**
   The claim of a justified admission whose name template is one field: the claim of the
   field's value, whatever the selector.
   */
  lemma {:induction false} ClaimOfField(h: HandlerConfig, api: Api, reqName: string, pod: Pod, owner: string,
                                        chosen: Claim, observed: Claim, name: string, v: string)
    requires Justifies(h, api, reqName, pod, owner, chosen, observed)
    requires h.overrideKey == "" || pod.annotations.None? || h.overrideKey !in pod.annotations.value
    requires h.pvcName == [Field(name)] && FieldValue(name, owner, reqName, pod, "", "", v) && v != ""
    ensures v in api.claims && chosen == api.claims[v]
  {
    FieldsMean(owner, reqName, pod, BoundVolume("", ""), name, v);
    OneField(name, WebhookData(Values(owner, reqName, pod, BoundVolume("", "")).Fields()));
  }

  /** With the template `{{.OwnerName}}` the claim is the one named like the object at the end of the pod's path of controllers. */
  lemma {:induction false} OwnerNamedClaim(h: HandlerConfig, api: Api, reqName: string, pod: Pod, owner: string,
                                           chosen: Claim, observed: Claim, path: seq<Owned>)
    requires Justifies(h, api, reqName, pod, owner, chosen, observed)
    requires h.overrideKey == "" || pod.annotations.None? || h.overrideKey !in pod.annotations.value
    requires h.pvcName == [Field("OwnerName")]
    requires IsWalkPath(api.cluster, Owned(pod.name, pod.owners), if h.maxOwnerDepth > 0 then h.maxOwnerDepth else 0, path)
    ensures var n := path[|path| - 1].name; n != "" ==> n in api.claims && chosen == api.claims[n]
  {
    WalkEndsItsPath(api.cluster, Owned(pod.name, pod.owners), if h.maxOwnerDepth > 0 then h.maxOwnerDepth else 0, path);
    if path[|path| - 1].name != "" {
      ClaimOfField(h, api, reqName, pod, owner, chosen, observed, "OwnerName", path[|path| - 1].name);
    }
  }

  /** With the template `{{.PodName}}` the claim is the one named like the request. */
  lemma {:induction false} PodNamedClaim(h: HandlerConfig, api: Api, reqName: string, pod: Pod, owner: string, chosen: Claim, observed: Claim)
    requires Justifies(h, api, reqName, pod, owner, chosen, observed) && reqName != ""
    requires h.overrideKey == "" || pod.annotations.None? || h.overrideKey !in pod.annotations.value
    requires h.pvcName == [Field("PodName")]
    ensures reqName in api.claims && chosen == api.claims[reqName]
  {
    ClaimOfField(h, api, reqName, pod, owner, chosen, observed, "PodName", reqName);
  }

  /**
   The precedence.  An override decides alone; else the name template, if it renders to
   something; else the first claim the rendered selector lists.
   */
  ghost predicate Precedence(h: HandlerConfig, api: Api, pod: Pod, data: Data, chosen: Claim) {
    if h.overrideKey != "" && pod.annotations.Some? && h.overrideKey in pod.annotations.value then
      exists n :: Render(pod.annotations.value[h.overrideKey], data) == Ok(n) && n != "" && n in api.claims && chosen == api.claims[n]
    else
      exists n :: Exec(h.pvcName, data) == Ok(n)
                  && if n != "" then n in api.claims && chosen == api.claims[n]
                     else exists l :: Exec(h.pvcSelector, data) == Ok(l) && l != ""
                                      && api.selectClaims(l).Some? && api.selectClaims(l).value != [] && chosen == api.selectClaims(l).value[0]
  }

  /** A claim is resolved exactly when the precedence finds it. */
  lemma {:induction false} ResolvedByPrecedence(h: HandlerConfig, api: Api, pod: Pod, data: Data, chosen: Claim)
    ensures ResolvePVC(h, api, pod, data) == Ok(chosen) <==> Precedence(h, api, pod, data, chosen)
  {
  }

  lemma {:induction false} MergedHolds(before: Json, after: Json, rendered: map<string, string>, k: string)
    requires AnnotationsMerged(before, after, rendered) && k in rendered
    ensures Member(after, k) == String(rendered[k])
  {
    assert k in after.members.Keys;
  }

  /** An annotation whose template is one field holds that field's value in the admitted pod. */
  lemma {:induction false} AnnotationOfField(h: HandlerConfig, api: Api, reqName: string, doc: Json, owner: string, observed: Claim,
                                             patch: seq<Op>, k: string, name: string, v: string)
    requires WellTyped(doc) && Patchable(doc) && observed.volumeName in api.volumes
    requires PatchFollows(h, api, reqName, doc, owner, observed, patch)
    requires k in h.patch.annotationTemplates && h.patch.annotationTemplates[k] == [Field(name)]
    requires FieldValue(name, owner, reqName, View(doc), observed.volumeName, api.volumes[observed.volumeName].handle, v)
    ensures ApplyAll(doc, patch).Ok?
    ensures var all := Member(Member(ApplyAll(doc, patch).value, "metadata"), "annotations"); Member(all, k) == String(v)
  {
    var b := BoundVolume(observed.volumeName, api.volumes[observed.volumeName].handle);
    FieldsMean(owner, reqName, View(doc), b, name, v);
    OneField(name, WebhookData(Values(owner, reqName, View(doc), b).Fields()));
    var rendered := Rendered(h.patch.annotationTemplates, WebhookData(Values(owner, reqName, View(doc), b).Fields()));
    var meta := Member(doc, "metadata");
    MergedHolds(Member(meta, "annotations"), Member(Member(ApplyAll(doc, patch).value, "metadata"), "annotations"), rendered, k);
  }

  datatype Grant = Grant(owner: string, claimName: string, volume: BoundVolume)

  /** Owner, claim and bound volume for a pod, or the reason there is none. */
  method FindBoundClaim(h: HandlerConfig, api: Api, reqName: string, pod: Pod)
    returns (r: Result<Grant, Denial>, ghost chosen: Claim, ghost observed: Claim)
    requires api.Lawful()
    ensures r.Ok? ==>
              && Justifies(h, api, reqName, pod, r.value.owner, chosen, observed)
              && r.value.claimName == observed.name
              && r.value.volume == BoundVolume(observed.volumeName, api.volumes[observed.volumeName].handle)
    ensures r.Err? ==> Warranted(h, api, reqName, pod, r.error, chosen, observed)
  {
    chosen, observed := Claim("", "", ""), Claim("", "", "");
    var owner, _ := ResolveOwner(api.cluster, Owned(pod.name, pod.owners), h.maxOwnerDepth);
    if owner.Err? {
      return Err(NoOwner), chosen, observed;
    }
    var data := WebhookData(Values(owner.value, reqName, pod, BoundVolume("", "")).Fields());
    var pvc := ResolvePVC(h, api, pod, data);
    if pvc.Err? {
      return Err(NoClaim(pvc.error)), chosen, observed;
    }
    chosen := pvc.value;
    var name := pvc.value.name;
    var refetch := api.refetch;
    var bound, _, polls, last := WaitBound(pvc.value, h.boundTimeout, api.drift, api.cancelled, (k: nat) => refetch(name, k), api.volumes);
    observed := last;
    if bound == Err(RefetchFailed) {
      assert api.refetch(chosen.name, polls - 1).None?;
      return Err(NotBound(RefetchFailed)), chosen, observed;
    }
    assert polls > 0 ==> api.refetch(chosen.name, polls - 1) == Some(observed);
    if bound.Err? {
      return Err(NotBound(bound.error)), chosen, observed;
    }
    r := Ok(Grant(owner.value, name, bound.value));
  }

  /** Handles one admission request. */
  method Mutate(h: HandlerConfig, api: Api, reqName: string, doc: Json)
    returns (r: Response, ghost owner: string, ghost chosen: Claim, ghost observed: Claim)
    requires api.Lawful()
    ensures r.Allowed? ==>
              && WellTyped(doc)
              && Justifies(h, api, reqName, View(doc), owner, chosen, observed)
              && PatchFollows(h, api, reqName, doc, owner, observed, r.patch)
    ensures r == Denied(BadPod) <==> !WellTyped(doc)
    ensures r.Denied? && r.reason != BadPod ==> Warranted(h, api, reqName, View(doc), r.reason, chosen, observed)
  {
    owner, chosen, observed := "", Claim("", "", ""), Claim("", "", "");
    var decoded := Decode(doc);
    if decoded.Err? {
      return Denied(BadPod), owner, chosen, observed;
    }
    var pod := decoded.value;
    var grant;
    grant, chosen, observed := FindBoundClaim(h, api, reqName, pod);
    if grant.Err? {
      return Denied(grant.error), owner, chosen, observed;
    }
    owner := grant.value.owner;
    var data := WebhookData(Values(grant.value.owner, reqName, pod, grant.value.volume).Fields());
    var patch := BuildPatch(h.patch, pod, grant.value.claimName, data, doc);
    if patch.Err? {
      return Denied(NoPatch(patch.error)), owner, chosen, observed;
    }
    r := Allowed(patch.value);
  }
}
