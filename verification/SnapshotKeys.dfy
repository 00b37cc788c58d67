/** Snapshot keys and chain IDs: which keys name containers, which name image layers. */
module SnapshotKeys {
  import opened Wrappers
  import opened Sequences

  const SHA256 := "sha256:"
  const EXTRACT := "extract-"
  const K8S := "k8s.io"

  datatype Parsed = Parsed(ns: string, id: string)

  predicate HasSpace(s: string) { exists i :: 0 <= i < |s| && s[i] == ' ' }

  predicate IsHex(c: char) { '0' <= c <= '9' || 'a' <= c <= 'f' }

  /** `sha256:` followed by 64 lower-case hex digits. */
  predicate IsChainId(s: string) {
    SHA256 <= s && |s| == |SHA256| + 64 && forall i :: |SHA256| <= i < |s| ==> IsHex(s[i])
  }

  const HEX := "0123456789abcdef"

  lemma {:induction false} HexDigits(c: char)
    ensures IsHex(c) <==> c in HEX
  {
    assert forall i :: 0 <= i < 10 ==> HEX[i] == '0' + i as char;
    assert forall i :: 10 <= i < 16 ==> HEX[i] == 'a' + (i - 10) as char;
    if '0' <= c <= '9' { assert HEX[(c - '0') as int] == c; }
    if 'a' <= c <= 'f' { assert HEX[(c - 'a') as int + 10] == c; }
  }

  /** A chain ID is `sha256:` and 64 lower-case hex digits, and nothing else. */
  lemma {:induction false} ChainIdExactly(s: string)
    ensures IsChainId(s) <==>
            exists hex: string :: |hex| == 64 && (forall i :: 0 <= i < |hex| ==> hex[i] in "0123456789abcdef") && s == "sha256:" + hex
  {
    if IsChainId(s) {
      var hex := s[7..];
      assert s == "sha256:" + hex;
      forall i | 0 <= i < |hex| ensures hex[i] in "0123456789abcdef" { HexDigits(hex[i]); assert hex[i] == s[7 + i]; }
    }
    if hex: string :| |hex| == 64 && (forall i :: 0 <= i < |hex| ==> hex[i] in "0123456789abcdef") && s == "sha256:" + hex {
      forall i | 7 <= i < |s| ensures IsHex(s[i]) { HexDigits(hex[i - 7]); }
    }
  }

  /** Keys whose ID holds a blank or starts with `extract-` name no container. */
  lemma {:induction false} ContainerIdExactly(id: string)
    ensures IsContainerId(id) <==> ' ' !in id && !("extract-" <= id)
  {
  }

  // Position of the first slash, |s| when there is none.
  function FirstSlash(s: string): (i: nat)
    ensures i <= |s| && SlashFree(s[..i])
    ensures i < |s| ==> s[i] == '/'
  {
    if s == "" || s[0] == '/' then 0
    else
      var i := 1 + FirstSlash(s[1..]);
      assert forall k :: 1 <= k < i ==> s[k] == s[1..][k - 1];
      assert forall k :: 0 <= k < i ==> s[..i][k] == s[k];
      i
  }

  /** strings.SplitN(key, "/", 3). */
  function SplitThree(key: string): seq<string> {
    var i := FirstSlash(key);
    if i == |key| then [key]
    else
      var rest := key[i + 1..];
      var j := FirstSlash(rest);
      if j == |rest| then [key[..i], rest] else [key[..i], rest[..j], rest[j + 1..]]
  }

  /** An ID that belongs to a container or a layer, not to an image unpack in progress. */
  predicate IsContainerId(id: string) { !HasSpace(id) && !(EXTRACT <= id) }

  /** Namespace and ID of a `<namespace>/<sequence>/<id>` key. */
  function ParseSnapshotKey(key: string): Option<Parsed> {
    var parts := SplitThree(key);
    if |parts| != 3 || !IsContainerId(parts[2]) then None else Some(Parsed(parts[0], parts[2]))
  }

  function BuildKey(ns: string, seqNo: string, id: string): string { ns + "/" + seqNo + "/" + id }

  lemma {:induction false} FirstSlashAt(head: string, tail: string)
    requires SlashFree(head)
    ensures FirstSlash(head + "/" + tail) == |head|
    ensures (head + "/" + tail)[..|head|] == head
    ensures (head + "/" + tail)[|head| + 1..] == tail
  {
    var s := head + "/" + tail;
    var i := FirstSlash(s);
    assert s[|head|] == '/' && forall k :: 0 <= k < |head| ==> s[k] == head[k];
    assert i <= |head| by {
      assert forall k :: 0 <= k < i ==> s[..i][k] == s[k];
    }
  }

  /** Parsing inverts building: slashes in the ID are kept. */
  lemma {:induction false} ParseInvertsBuild(ns: string, seqNo: string, id: string)
    requires SlashFree(ns) && SlashFree(seqNo)
    ensures ParseSnapshotKey(BuildKey(ns, seqNo, id)) == if IsContainerId(id) then Some(Parsed(ns, id)) else None
  {
    var rest := seqNo + "/" + id;
    assert BuildKey(ns, seqNo, id) == ns + "/" + rest;
    FirstSlashAt(ns, rest);
    FirstSlashAt(seqNo, id);
  }

  lemma {:induction false} SplitAtSlash(s: string, i: nat)
    requires i < |s| && s[i] == '/'
    ensures s == s[..i] + "/" + s[i + 1..]
  {
  }

  lemma {:induction false} JoinThree(a: string, b: string, c: string)
    ensures a + "/" + (b + "/" + c) == BuildKey(a, b, c)
  {
  }

  /** Only built keys parse. */
  lemma {:induction false} ParsedKeysAreBuilt(key: string)
    requires ParseSnapshotKey(key).Some?
    ensures var p := ParseSnapshotKey(key).value;
            SlashFree(p.ns) && IsContainerId(p.id)
            && exists seqNo :: SlashFree(seqNo) && key == BuildKey(p.ns, seqNo, p.id)
  {
    var i := FirstSlash(key);
    var rest := key[i + 1..];
    var j := FirstSlash(rest);
    SplitAtSlash(key, i);
    SplitAtSlash(rest, j);
    JoinThree(key[..i], rest[..j], rest[j + 1..]);
    assert SlashFree(rest[..j]);
  }

  // ------------------------------------------------------------------ pinning

  // A layer of the host's overlayfs snapshotter, per namespace.
  datatype Layer = Layer(ns: string, chain: string)

  datatype Pin = Pin(ns: string, chain: string)

  /** What Prepare pins for a key and parent, if anything. */
  function PinFor(key: string, parent: string): Option<Pin> {
    var k, p := ParseSnapshotKey(key), ParseSnapshotKey(parent);
    if k.Some? && !IsChainId(k.value.id) && p.Some? && IsChainId(p.value.id)
    then Some(Pin(k.value.ns, p.value.id))
    else None
  }

  /** The namespace Remove searches for a key's leases, if it searches at all. */
  function UnpinNamespace(key: string): Option<string> {
    var k := ParseSnapshotKey(key);
    if k.Some? then Some(k.value.ns) else None
  }

  lemma {:induction false} ChainIdIsContainerId(c: string)
    requires IsChainId(c)
    ensures IsContainerId(c)
  {
    forall i | 0 <= i < |c| ensures c[i] != ' ' {
      if i < |SHA256| {
        assert c[i] == SHA256[i];
      }
    }
    assert c[0] == 's';
  }

  ghost predicate IsLayerKey(parent: string, chain: string) {
    IsChainId(chain) && exists ns, seqNo :: SlashFree(ns) && SlashFree(seqNo) && parent == BuildKey(ns, seqNo, chain)
  }

  /** Prepare pins exactly container keys over a wrapped chain ID, in the key's own namespace. */
  lemma {:induction false} PinExactly(key: string, parent: string, ns: string, chain: string)
    ensures PinFor(key, parent) == Some(Pin(ns, chain)) <==>
            && (exists seqNo, id :: SlashFree(ns) && SlashFree(seqNo) && IsContainerId(id) && !IsChainId(id)
                                    && key == BuildKey(ns, seqNo, id))
            && IsLayerKey(parent, chain)
  {
    if PinFor(key, parent) == Some(Pin(ns, chain)) {
      ParsedKeysAreBuilt(key);
      ParsedKeysAreBuilt(parent);
    }
    if (exists seqNo, id :: SlashFree(ns) && SlashFree(seqNo) && IsContainerId(id) && !IsChainId(id)
                            && key == BuildKey(ns, seqNo, id))
       && IsLayerKey(parent, chain)
    {
      var seqNo, id :| SlashFree(ns) && SlashFree(seqNo) && IsContainerId(id) && !IsChainId(id)
                       && key == BuildKey(ns, seqNo, id);
      var pns, pseq :| SlashFree(pns) && SlashFree(pseq) && parent == BuildKey(pns, pseq, chain);
      ParseInvertsBuild(ns, seqNo, id);
      ChainIdIsContainerId(chain);
      ParseInvertsBuild(pns, pseq, chain);
    }
  }

  /** A pinned key is always searched for, and in the namespace it was pinned in. */
  lemma PinAndUnpinAgree(key: string, parent: string)
    requires PinFor(key, parent).Some?
    ensures UnpinNamespace(key) == Some(PinFor(key, parent).value.ns)
  {
  }
}
