/** Resolution of a pod's controlling owner by following owner references. */
module OwnerWalk {
  import opened Wrappers
  import opened Pods

  datatype Gvr = Gvr(group: string, version: string, resource: string)

  // An object in the cluster, as far as the walk looks at it.
  datatype Owned = Owned(name: string, owners: seq<OwnerRef>)

  // Objects the API server returns; a key that is absent is a failed Get.
  type Cluster = map<(Gvr, string), Owned>

  datatype OwnerError = GetFailed

  function GvrOf(kind: string): Option<Gvr> {
    if kind == "ReplicaSet" then Some(Gvr("apps", "v1", "replicasets"))
    else if kind == "StatefulSet" then Some(Gvr("apps", "v1", "statefulsets"))
    else if kind == "Deployment" then Some(Gvr("apps", "v1", "deployments"))
    else if kind == "DaemonSet" then Some(Gvr("apps", "v1", "daemonsets"))
    else if kind == "Job" then Some(Gvr("batch", "v1", "jobs"))
    else if kind == "CronJob" then Some(Gvr("batch", "v1", "cronjobs"))
    else None
  }

  /** The kinds the walk follows, each to its own resource, and no other kind. */
  lemma {:induction false} FollowedKinds(kind: string)
    ensures GvrOf(kind) == Some(Gvr("apps", "v1", "replicasets")) <==> kind == "ReplicaSet"
    ensures GvrOf(kind) == Some(Gvr("apps", "v1", "statefulsets")) <==> kind == "StatefulSet"
    ensures GvrOf(kind) == Some(Gvr("apps", "v1", "deployments")) <==> kind == "Deployment"
    ensures GvrOf(kind) == Some(Gvr("apps", "v1", "daemonsets")) <==> kind == "DaemonSet"
    ensures GvrOf(kind) == Some(Gvr("batch", "v1", "jobs")) <==> kind == "Job"
    ensures GvrOf(kind) == Some(Gvr("batch", "v1", "cronjobs")) <==> kind == "CronJob"
    ensures GvrOf(kind).Some? <==> kind in {"ReplicaSet", "StatefulSet", "Deployment", "DaemonSet", "Job", "CronJob"}
  {
    KindsDiffer();
    assert "replicasets"[0] == 'r' && "statefulsets"[0] == 's' && |"deployments"| == 11 && "deployments"[1] == 'e'
           && "daemonsets"[1] == 'a' && "jobs"[0] == 'j' && "cronjobs"[0] == 'c' && |"daemonsets"| == 10;
  }

  lemma KindsDiffer()
    ensures "ReplicaSet"[0] == 'R' && "StatefulSet"[0] == 'S' && "Deployment"[1] == 'e' && "DaemonSet"[1] == 'a' && "Job"[0] == 'J' && "CronJob"[0] == 'C'
    ensures "Deployment"[0] == 'D' && "DaemonSet"[0] == 'D'
  {
  }

  /** The controller references, in order. */
  method ControllerRefs(refs: seq<OwnerRef>) returns (out: seq<OwnerRef>)
    ensures out == Controllers(refs)
  {
    out := [];
    var i := 0;
    while i < |refs|
      invariant 0 <= i <= |refs|
      invariant out == Controllers(refs[..i])
    {
      assert refs[..i + 1][..i] == refs[..i];
      if refs[i].controller {
        out := out + [refs[i]];
      }
      i := i + 1;
    }
    assert refs[..|refs|] == refs;
  }

  function Controllers(refs: seq<OwnerRef>): seq<OwnerRef> {
    if refs == [] then []
    else
      var front := Controllers(refs[..|refs| - 1]);
      if refs[|refs| - 1].controller then front + [refs[|refs| - 1]] else front
  }

  // ---------------------------------------------------------- specification

  datatype Hop = Stop | Broken | To(next: Owned)

  /** One hop: the object the first controller reference of a known kind leads to. */
  function HopFrom(c: Cluster, o: Owned): Hop {
    var cs := Controllers(o.owners);
    if cs == [] then Stop
    else
      var gvr := GvrOf(cs[0].kind);
      if gvr.None? then Stop
      else if (gvr.value, cs[0].name) in c then To(c[(gvr.value, cs[0].name)])
      else Broken
  }

  /** At most n hops. */
  function Walk(c: Cluster, o: Owned, n: nat): Result<Owned, OwnerError>
    decreases n
  {
    if n == 0 then Ok(o)
    else
      match HopFrom(c, o)
      case Stop => Ok(o)
      case Broken => Err(GetFailed)
      case To(next) => Walk(c, next, n - 1)
  }

  /** A path of the ownership graph along first controllers; it may revisit objects. */
  ghost predicate IsPath(c: Cluster, path: seq<Owned>) {
    && path != []
    && forall i :: 0 <= i < |path| - 1 ==> HopFrom(c, path[i]) == To(path[i + 1])
  }

  /** The path a walk of at most n hops takes: it stops only where it must. */
  ghost predicate IsWalkPath(c: Cluster, o: Owned, n: nat, path: seq<Owned>) {
    && IsPath(c, path) && path[0] == o && |path| - 1 <= n
    && (|path| - 1 == n || !HopFrom(c, path[|path| - 1]).To?)
  }

  ghost function EndOf(c: Cluster, n: nat, path: seq<Owned>): Result<Owned, OwnerError>
    requires path != []
  {
    var last := path[|path| - 1];
    if |path| - 1 < n && HopFrom(c, last).Broken? then Err(GetFailed) else Ok(last)
  }

  /** Every path that goes as far as it can ends where the walk ends. */
  lemma {:induction false} WalkEndsItsPath(c: Cluster, o: Owned, n: nat, path: seq<Owned>)
    requires IsWalkPath(c, o, n, path)
    ensures Walk(c, o, n) == EndOf(c, n, path)
    decreases n
  {
    if |path| > 1 {
      assert HopFrom(c, path[0]) == To(path[1]);
      var rest := path[1..];
      forall i | 0 <= i < |rest| - 1 ensures HopFrom(c, rest[i]) == To(rest[i + 1]) {
        assert HopFrom(c, path[i + 1]) == To(path[i + 2]);
      }
      WalkEndsItsPath(c, path[1], n - 1, rest);
    }
  }

  /** Such a path exists on every graph, cyclic ones included. */
  lemma {:induction false} WalkPathExists(c: Cluster, o: Owned, n: nat) returns (path: seq<Owned>)
    ensures IsWalkPath(c, o, n, path)
    decreases n
  {
    if n == 0 || !HopFrom(c, o).To? {
      path := [o];
    } else {
      var rest := WalkPathExists(c, HopFrom(c, o).next, n - 1);
      path := [o] + rest;
      forall i | 0 <= i < |path| - 1 ensures HopFrom(c, path[i]) == To(path[i + 1]) {
        if i > 0 {
          assert path[i] == rest[i - 1] && path[i + 1] == rest[i];
        }
      }
    }
  }

  /** Walking a + b hops is walking a hops and going on for b. */
  lemma {:induction false} WalkComposes(c: Cluster, o: Owned, a: nat, b: nat)
    ensures Walk(c, o, a + b)
         == if Walk(c, o, a).Err? then Walk(c, o, a) else Walk(c, Walk(c, o, a).value, b)
    decreases a
  {
    if a > 0 {
      match HopFrom(c, o)
      case Stop =>
      case Broken =>
      case To(next) => WalkComposes(c, next, a - 1, b);
    }
  }

  // -------------------------------------------------------------------- loop

  /**
   The traversal loop.  A depth that is not positive returns the pod's own name; no
   run makes more fetches than the depth allows.
   */
  method ResolveOwner(c: Cluster, pod: Owned, maxDepth: int) returns (r: Result<string, OwnerError>, fetches: nat)
    ensures var n := if maxDepth > 0 then maxDepth else 0;
            && fetches <= n
            && r == if Walk(c, pod, n).Ok? then Ok(Walk(c, pod, n).value.name) else Err(GetFailed)
  {
    fetches := 0;
    if maxDepth == 0 {
      return Ok(pod.name), 0;
    }
    var current := pod;
    var depth := 0;
    ghost var n := if maxDepth > 0 then maxDepth else 0;
    while depth < maxDepth
      invariant 0 <= depth <= n && fetches == depth
      invariant Walk(c, pod, n) == Walk(c, current, n - depth)
    {
      var cs := ControllerRefs(current.owners);
      if cs == [] {
        break;
      }
      var gvr := GvrOf(cs[0].kind);
      if gvr.None? {
        break;
      }
      fetches := fetches + 1;
      if (gvr.value, cs[0].name) !in c {
        return Err(GetFailed), fetches;
      }
      current := c[(gvr.value, cs[0].name)];
      depth := depth + 1;
    }
    r := Ok(current.name);
  }
}
