/**
 The pod fields the webhook reads, decoded from the admission request's raw JSON.
 As in Go, an absent or null member leaves the zero value: a nil map, a nil slice,
 a nil pointer, an empty string, or a zero container.
 */
module Pods {
  import opened Wrappers
  import opened JsonPatch

  datatype OwnerRef = OwnerRef(kind: string, name: string, controller: bool)

  datatype Container = Container(hasMounts: bool)

  datatype Pod = Pod(
    name: string,
    labels: map<string, string>,
    annotations: Option<map<string, string>>,
    owners: seq<OwnerRef>,
    hasVolumes: bool,
    containers: seq<Container>,
    runtimeClass: Option<string>)

  datatype DecodeError = WrongType

  // ------------------------------------------------------- expected shapes

  predicate IsText(j: Json) { j.Null? || j.String? }
  predicate IsStruct(j: Json) { j.Null? || j.Object? }
  predicate IsList(j: Json) { j.Null? || j.Array? }
  predicate IsTextMap(j: Json) {
    j.Null? || (j.Object? && forall k :: k in j.members ==> IsText(j.members[k]))
  }
  predicate IsOwnerRef(j: Json) {
    IsStruct(j) && IsText(Member(j, "kind")) && IsText(Member(j, "name"))
    && (Member(j, "controller").Null? || Member(j, "controller").Bool?)
  }
  predicate IsContainer(j: Json) { IsStruct(j) && IsList(Member(j, "volumeMounts")) }

  function Items(j: Json): seq<Json>
    requires IsList(j)
  {
    if j.Null? then [] else j.items
  }

  /** Decoding succeeds: every field the webhook reads has the type it expects. */
  predicate WellTyped(doc: Json) {
    var meta, spec := Member(doc, "metadata"), Member(doc, "spec");
    && IsStruct(doc) && IsStruct(meta) && IsStruct(spec)
    && IsText(Member(meta, "name"))
    && IsTextMap(Member(meta, "labels"))
    && IsTextMap(Member(meta, "annotations"))
    && IsList(Member(meta, "ownerReferences"))
    && (forall i :: 0 <= i < |Items(Member(meta, "ownerReferences"))| ==> IsOwnerRef(Items(Member(meta, "ownerReferences"))[i]))
    && IsList(Member(spec, "volumes"))
    && IsList(Member(spec, "containers"))
    && (forall i :: 0 <= i < |Items(Member(spec, "containers"))| ==> IsContainer(Items(Member(spec, "containers"))[i]))
    && IsText(Member(spec, "runtimeClassName"))
  }

  // --------------------------------------------------------------- decoding

  function TextOf(j: Json): string
    requires IsText(j)
  {
    if j.Null? then "" else j.text
  }

  function TextMap(j: Json): Option<map<string, string>>
    requires IsTextMap(j)
  {
    if j.Null? then None else Some(map k | k in j.members :: TextOf(j.members[k]))
  }

  function OwnerOf(j: Json): OwnerRef
    requires IsOwnerRef(j)
  {
    OwnerRef(TextOf(Member(j, "kind")), TextOf(Member(j, "name")), Member(j, "controller") == Bool(true))
  }

  function Owners(js: seq<Json>): seq<OwnerRef>
    requires forall i :: 0 <= i < |js| ==> IsOwnerRef(js[i])
  {
    seq(|js|, i requires 0 <= i < |js| => OwnerOf(js[i]))
  }

  function Containers(js: seq<Json>): seq<Container>
    requires forall i :: 0 <= i < |js| ==> IsContainer(js[i])
  {
    seq(|js|, i requires 0 <= i < |js| => Container(!Member(js[i], "volumeMounts").Null?))
  }

  function View(doc: Json): Pod
    requires WellTyped(doc)
  {
    var meta, spec := Member(doc, "metadata"), Member(doc, "spec");
    var labels, rc := TextMap(Member(meta, "labels")), Member(spec, "runtimeClassName");
    Pod(
      TextOf(Member(meta, "name")),
      if labels.Some? then labels.value else map[],
      TextMap(Member(meta, "annotations")),
      Owners(Items(Member(meta, "ownerReferences"))),
      !Member(spec, "volumes").Null?,
      Containers(Items(Member(spec, "containers"))),
      if rc.Null? then None else Some(rc.text))
  }

  function Decode(doc: Json): Result<Pod, DecodeError> {
    if WellTyped(doc) then Ok(View(doc)) else Err(WrongType)
  }

  // ------------------------------------------------------------------ encoding

  function Texts(m: map<string, string>): Json { Object(map k | k in m :: String(m[k])) }

  function EncodeOwner(o: OwnerRef): Json {
    Object(map["kind" := String(o.kind), "name" := String(o.name), "controller" := Bool(o.controller)])
  }

  function EncodeContainer(c: Container): Json { Object(if c.hasMounts then map["volumeMounts" := Array([])] else map[]) }

  function EncodeMeta(pod: Pod): map<string, Json> {
    map["name" := String(pod.name), "labels" := Texts(pod.labels),
        "ownerReferences" := Array(seq(|pod.owners|, i requires 0 <= i < |pod.owners| => EncodeOwner(pod.owners[i]))),
        "annotations" := if pod.annotations.Some? then Texts(pod.annotations.value) else Null]
  }

  function EncodeSpec(pod: Pod): map<string, Json> {
    map["volumes" := if pod.hasVolumes then Array([]) else Null,
        "containers" := Array(seq(|pod.containers|, i requires 0 <= i < |pod.containers| => EncodeContainer(pod.containers[i]))),
        "runtimeClassName" := if pod.runtimeClass.Some? then String(pod.runtimeClass.value) else Null]
  }

  /** A document that says what the pod says, in the API's field names. */
  function Encode(pod: Pod): Json { Object(map["metadata" := Object(EncodeMeta(pod)), "spec" := Object(EncodeSpec(pod))]) }

  lemma {:induction false} TextsRoundTrip(m: map<string, string>)
    ensures IsTextMap(Texts(m)) && TextMap(Texts(m)) == Some(m)
  {
    assert (map k | k in Texts(m).members :: TextOf(Texts(m).members[k])) == m;
  }

  lemma {:induction false} OwnerRoundTrip(o: OwnerRef)
    ensures IsOwnerRef(EncodeOwner(o)) && OwnerOf(EncodeOwner(o)) == o
  {
    assert "kind"[0] == 'k' && "name"[0] == 'n' && "controller"[0] == 'c';
  }

  lemma {:induction false} ContainerRoundTrip(c: Container)
    ensures IsContainer(EncodeContainer(c)) && Container(!Member(EncodeContainer(c), "volumeMounts").Null?) == c
  {
  }

  lemma {:induction false} MetaMembers(pod: Pod)
    ensures var meta := Object(EncodeMeta(pod));
            && Member(meta, "name") == String(pod.name) && Member(meta, "labels") == Texts(pod.labels)
            && Member(meta, "ownerReferences") == EncodeMeta(pod)["ownerReferences"]
            && Member(meta, "annotations") == if pod.annotations.Some? then Texts(pod.annotations.value) else Null
  {
    assert "name"[0] == 'n' && "labels"[0] == 'l' && "ownerReferences"[0] == 'o' && "annotations"[0] == 'a';
  }

  lemma {:induction false} SpecMembers(pod: Pod)
    ensures var spec := Object(EncodeSpec(pod));
            && Member(spec, "volumes") == (if pod.hasVolumes then Array([]) else Null)
            && Member(spec, "containers") == EncodeSpec(pod)["containers"]
            && Member(spec, "runtimeClassName") == if pod.runtimeClass.Some? then String(pod.runtimeClass.value) else Null
  {
    assert "volumes"[0] == 'v' && "containers"[0] == 'c' && "runtimeClassName"[0] == 'r';
  }

  /** Decoding inverts encoding: every field is read from its own place. */
  lemma {:induction false} DecodeInvertsEncode(pod: Pod)
    ensures Decode(Encode(pod)) == Ok(pod)
  {
    var doc := Encode(pod);
    assert "metadata"[0] == 'm' && "spec"[0] == 's';
    assert Member(doc, "metadata") == Object(EncodeMeta(pod)) && Member(doc, "spec") == Object(EncodeSpec(pod));
    MetaMembers(pod);
    SpecMembers(pod);
    TextsRoundTrip(pod.labels);
    if pod.annotations.Some? { TextsRoundTrip(pod.annotations.value); }
    forall i | 0 <= i < |pod.owners| ensures var j := EncodeOwner(pod.owners[i]); IsOwnerRef(j) && OwnerOf(j) == pod.owners[i] {
      OwnerRoundTrip(pod.owners[i]);
    }
    forall i | 0 <= i < |pod.containers|
      ensures var j := EncodeContainer(pod.containers[i]); IsContainer(j) && Container(!Member(j, "volumeMounts").Null?) == pod.containers[i]
    {
      ContainerRoundTrip(pod.containers[i]);
    }
    assert View(doc).owners == pod.owners;
    assert View(doc).containers == pod.containers;
  }
}
