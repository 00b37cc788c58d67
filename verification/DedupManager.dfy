/**
 The dedup manager's methods as they run one at a time, with every failure of the services
 they call as a parameter: a `...Ok` flag per call, and the set of leases whose delete is
 refused.
 */
module DedupManager {
  import opened Wrappers
  import opened SnapshotKeys
  import opened LeaseProtocol
  import M = Materialise
  import T = MaterialiseTheorems

  datatype DedupError = NotFound | NotChainId | Miss | HostError | LocalError | LeaseError

  // ---------------------------------------------------------- specification

  predicate LiveKey(local: map<M.Name, M.Snapshot>, key: string) { M.NameOf(key) in local }

  /** Managed leases of a namespace whose labelled owner is gone. */
  function Orphans(leases: map<LeaseId, Lease>, local: map<M.Name, M.Snapshot>, ns: string): set<LeaseId> {
    set id | id in leases && leases[id].managed && leases[id].ns == ns && leases[id].owner != "" && !LiveKey(local, leases[id].owner)
  }

  function ManagedIn(leases: map<LeaseId, Lease>, ns: string): set<LeaseId> {
    set id | id in leases && leases[id].managed && leases[id].ns == ns
  }

  function Swept(leases: map<LeaseId, Lease>, local: map<M.Name, M.Snapshot>, ns: string, refused: set<LeaseId>): map<LeaseId, Lease> {
    leases - (Orphans(leases, local, ns) - refused)
  }

  function Unpinned(leases: map<LeaseId, Lease>, ns: string, key: string, refused: set<LeaseId>): map<LeaseId, Lease> {
    leases - (OwnerListing(leases, ns, key) - refused)
  }

  predicate CanPrepareOn(local: map<M.Name, M.Snapshot>, parent: string) {
    parent == "" || (M.Named(parent) in local && !local[M.Named(parent)].active)
  }

  /** A reference can be made: over a committed parent, under free names. */
  predicate CanMaterialise(local: map<M.Name, M.Snapshot>, chain: string, parent: string) {
    parent != "" && CanPrepareOn(local, parent) && M.Temp(chain) !in local && M.Named(chain) !in local
  }

  // Which of a Stat's calls fail: the three local Stats, the host's calls, the build's.
  // `viewMounts` stands for unusable mounts of the probe view.
  datatype Faults = Faults(stat: bool, hostStat: bool, view: bool, viewMounts: bool, unview: bool, recheck: bool, parent: bool,
                           prepare: bool, mounts: bool, symlink: bool, commit: bool, cleanup: bool, final: bool)

  function HostLayerOf(ns: string, chain: string): Layer { Layer(if ns == "" then K8S else ns, chain) }

  /** A Stat that has not been answered from the local store gets as far as the lock. */
  predicate ReachesLock(host: map<Layer, M.HostLayer>, views: set<Layer>, ns: string, key: string, f: Faults) {
    && IsChainId(key) && HostLayerOf(ns, key) in host && HostLayerOf(ns, key) !in views
    && !f.hostStat && !f.view && !f.viewMounts
  }

  predicate BuildSucceeds(local: map<M.Name, M.Snapshot>, chain: string, parent: string, f: Faults) {
    CanMaterialise(local, chain, parent) && !f.prepare && !f.mounts && !f.symlink && !f.commit
  }

  // --------------------------------------------------------------- the class

  class Dedup {
    var local: map<M.Name, M.Snapshot>
    var leases: map<LeaseId, Lease>
    var issued: nat
    var gauge: int
    var unpinFailures: nat
    var created: nat
    var host: map<Layer, M.HostLayer>
    var views: set<Layer>
    var locked: bool

    predicate Valid()
      reads this
    {
      forall id :: id in leases ==> id < issued
    }

    constructor ()
      ensures Valid() && local == map[] && leases == map[] && gauge == 0 && unpinFailures == 0
      ensures host == map[] && views == {} && !locked
    {
      local, leases, issued, gauge, unpinFailures := map[], map[], 0, 0, 0;
      created, host, views, locked := 0, map[], {}, false;
    }

    /** A new lease on the layer, or none: only a failed cleanup leaves an empty one behind. */
    method PinLayer(ns: string, chain: string, owner: string, createOk: bool, addOk: bool, cleanupOk: bool)
      returns (r: Result<LeaseId, DedupError>)
      requires Valid()
      modifies this`leases, this`issued, this`gauge
      ensures Valid()
      ensures r.Ok? <==> createOk && addOk
      ensures r.Ok? ==> r.value == old(issued) && r.value !in old(leases) && gauge == old(gauge) + 1
                        && leases == old(leases)[r.value := Lease(ns, true, owner, Some(Layer(ns, chain)), None)]
      ensures r.Err? ==> gauge == old(gauge)
      ensures r.Err? && (!createOk || cleanupOk) ==> leases == old(leases)
      ensures r.Err? && createOk && !cleanupOk ==>
                old(issued) !in old(leases) && leases == old(leases)[old(issued) := Lease(ns, true, owner, None, None)]
    {
      if !createOk {
        return Err(LeaseError);
      }
      var id := issued;
      issued := issued + 1;
      leases := leases[id := Lease(ns, true, owner, None, None)];
      if !addOk {
        if cleanupOk {
          leases := leases - {id};
          assert leases == old(leases);
        }
        return Err(LeaseError);
      }
      leases := leases[id := leases[id].(resource := Some(Layer(ns, chain)))];
      gauge := gauge + 1;
      return Ok(id);
    }

    /** Deletes every lease of the key that the service does not refuse to delete. */
    method UnpinByActiveKey(ns: string, key: string, listOk: bool, refused: set<LeaseId>)
      requires Valid()
      modifies this`leases, this`gauge, this`unpinFailures
      ensures Valid()
      ensures leases == if listOk then Unpinned(old(leases), ns, key, refused) else old(leases)
      ensures listOk ==>
                forall id :: id in leases <==>
                  id in old(leases) && !(old(leases)[id].ns == ns && old(leases)[id].owner == key && id !in refused)
      ensures gauge == old(gauge) - |old(leases).Keys - leases.Keys|
      ensures unpinFailures == old(unpinFailures) + if listOk then |OwnerListing(old(leases), ns, key) * refused| else 0
    {
      if !listOk {
        assert leases.Keys - leases.Keys == {};
        return;
      }
      var all := ListOf(OwnerListing(leases, ns, key));
      ghost var was := leases;
      DeleteListed(all, refused);
      EachDeleted(was, all, OwnerListing(was, ns, key), refused);
      GoneKeys(was, OwnerListing(was, ns, key) - refused);
    }

    // The unpin's loop over what was listed.
    method DeleteListed(all: seq<LeaseId>, refused: set<LeaseId>)
      modifies this`leases, this`gauge, this`unpinFailures
      ensures leases == DeleteEach(old(leases), all, refused)
      ensures gauge == old(gauge) - Deletions(all, refused)
      ensures unpinFailures == old(unpinFailures) + |all| - Deletions(all, refused)
    {
      ghost var was := leases;
      var i := 0;
      while i < |all|
        invariant 0 <= i <= |all|
        invariant leases == DeleteEach(was, all[..i], refused)
        invariant gauge == old(gauge) - Deletions(all[..i], refused)
        invariant unpinFailures == old(unpinFailures) + i - Deletions(all[..i], refused)
      {
        assert all[..i + 1][..i] == all[..i];
        if all[i] in refused {
          unpinFailures := unpinFailures + 1;
        } else {
          leases := leases - {all[i]};
          gauge := gauge - 1;
        }
        i := i + 1;
      }
      assert all[..i] == all;
    }

    method DeleteLease(ns: string, id: LeaseId, ok: bool) returns (r: Result<(), DedupError>)
      requires Valid()
      modifies this`leases, this`gauge
      ensures Valid()
      ensures r.Ok? <==> ok && id in old(leases) && old(leases)[id].ns == ns
      ensures r.Ok? ==> leases == old(leases) - {id} && gauge == old(gauge) - 1
      ensures r.Err? ==> leases == old(leases) && gauge == old(gauge)
    {
      if !ok || id !in leases || leases[id].ns != ns {
        return Err(LeaseError);
      }
      leases := leases - {id};
      gauge := gauge - 1;
      return Ok(());
    }

    method CountOrphanLeases(ns: string, listOk: bool) returns (count: nat)
      ensures count == if listOk then |Orphans(leases, local, ns)| else 0
    {
      count := 0;
      if !listOk {
        return;
      }
      var all := ListOf(ManagedIn(leases, ns));
      count := CountAmong(all, ns);
      CountsOrphans(leases, all, local, ns);
    }

    // The count's loop over what was listed.
    method CountAmong(all: seq<LeaseId>, ns: string) returns (count: nat)
      requires forall i :: 0 <= i < |all| ==> all[i] in ManagedIn(leases, ns)
      ensures count == Deletions(all, SweepSpares(leases, local, ns, {}))
    {
      count := 0;
      ghost var spared := SweepSpares(leases, local, ns, {});
      var i := 0;
      while i < |all|
        invariant 0 <= i <= |all|
        invariant count == Deletions(all[..i], spared)
      {
        assert all[..i + 1][..i] == all[..i];
        SparedExactly(leases, local, ns, {}, all[i]);
        if leases[all[i]].owner != "" && !LiveKey(local, leases[all[i]].owner) {
          count := count + 1;
        }
        i := i + 1;
      }
      assert all[..i] == all;
    }

    /** Deletes every orphan the service does not refuse to delete, and counts them. */
    method GcOrphanLeases(ns: string, listOk: bool, refused: set<LeaseId>) returns (deleted: nat)
      requires Valid()
      modifies this`leases, this`gauge
      ensures Valid()
      ensures leases == if listOk then Swept(old(leases), local, ns, refused) else old(leases)
      ensures listOk ==>
                forall id :: id in leases <==>
                  id in old(leases)
                  && !(var l := old(leases)[id];
                       l.managed && l.ns == ns && l.owner != "" && M.NameOf(l.owner) !in local && id !in refused)
      ensures deleted == if listOk then |Orphans(old(leases), local, ns) - refused| else 0
      ensures gauge == old(gauge) - deleted
    {
      deleted := 0;
      if !listOk {
        return;
      }
      var all := ListOf(ManagedIn(leases, ns));
      ghost var was := leases;
      deleted := DeleteOrphansAmong(all, ns, refused);
      SweptByEach(was, all, local, ns, refused);
    }

    // The sweep's loop over what was listed.
    method DeleteOrphansAmong(all: seq<LeaseId>, ns: string, refused: set<LeaseId>) returns (deleted: nat)
      requires forall i :: 0 <= i < |all| ==> all[i] in ManagedIn(leases, ns)
      modifies this`leases, this`gauge
      ensures leases == DeleteEach(old(leases), all, SweepSpares(old(leases), local, ns, refused))
      ensures deleted == Deletions(all, SweepSpares(old(leases), local, ns, refused))
      ensures gauge == old(gauge) - deleted
    {
      deleted := 0;
      var listed := leases;
      ghost var spared := SweepSpares(listed, local, ns, refused);
      var i := 0;
      while i < |all|
        invariant 0 <= i <= |all|
        invariant leases == DeleteEach(listed, all[..i], spared)
        invariant deleted == Deletions(all[..i], spared) && gauge == old(gauge) - deleted
      {
        assert all[..i + 1][..i] == all[..i];
        SparedExactly(listed, local, ns, refused, all[i]);
        if listed[all[i]].owner != "" && !LiveKey(local, listed[all[i]].owner) && all[i] !in refused {
          leases := leases - {all[i]};
          gauge := gauge - 1;
          deleted := deleted + 1;
        }
        i := i + 1;
      }
      assert all[..i] == all;
    }

    /** Remove drops the key and then its leases, whatever became of the key. */
    method Remove(key: string, removeOk: bool, listOk: bool, refused: set<LeaseId>) returns (r: Result<(), DedupError>)
      requires Valid()
      modifies this`local, this`leases, this`gauge, this`unpinFailures
      ensures Valid()
      ensures r.Ok? <==> removeOk && LiveKey(old(local), key)
      ensures local == if r.Ok? then old(local) - {M.NameOf(key)} else old(local)
      ensures leases == if UnpinNamespace(key).Some? && listOk
                        then Unpinned(old(leases), UnpinNamespace(key).value, key, refused) else old(leases)
      ensures gauge == old(gauge) - |old(leases).Keys - leases.Keys|
      ensures unpinFailures == old(unpinFailures)
                               + if UnpinNamespace(key).Some? && listOk
                                 then |OwnerListing(old(leases), UnpinNamespace(key).value, key) * refused| else 0
    {
      if removeOk && M.NameOf(key) in local {
        local := local - {M.NameOf(key)};
        r := Ok(());
      } else {
        r := Err(LocalError);
      }
      if UnpinNamespace(key).Some? {
        UnpinByActiveKey(UnpinNamespace(key).value, key, listOk, refused);
      } else {
        assert leases.Keys - leases.Keys == {};
      }
    }

    /** Prepare creates the key, and pins the parent's layer whether or not that worked. */
    method Prepare(key: string, parent: string, prepareOk: bool, createOk: bool, addOk: bool, cleanupOk: bool)
      returns (r: Result<(), DedupError>)
      requires Valid()
      modifies this`local, this`created, this`leases, this`issued, this`gauge
      ensures Valid()
      ensures r.Ok? <==> prepareOk && !LiveKey(old(local), key) && CanPrepareOn(old(local), parent)
      ensures local == if r.Ok? then old(local)[M.NameOf(key) := M.Snapshot(true, parent, M.Dir, old(created))] else old(local)
      ensures PinFor(key, parent).None? || !createOk ==> leases == old(leases) && gauge == old(gauge)
      ensures PinFor(key, parent).Some? && createOk && addOk ==>
                var pin := PinFor(key, parent).value;
                && old(issued) !in old(leases) && gauge == old(gauge) + 1
                && leases == old(leases)[old(issued) := Lease(pin.ns, true, key, Some(Layer(pin.ns, pin.chain)), None)]
      ensures PinFor(key, parent).Some? && createOk && !addOk ==>
                && gauge == old(gauge)
                && leases == if cleanupOk then old(leases)
                             else old(leases)[old(issued) := Lease(PinFor(key, parent).value.ns, true, key, None, None)]
    {
      if prepareOk && !LiveKey(local, key) && CanPrepareOn(local, parent) {
        local := local[M.NameOf(key) := M.Snapshot(true, parent, M.Dir, created)];
        created := created + 1;
        r := Ok(());
      } else {
        r := Err(LocalError);
      }
      var pin := PinFor(key, parent);
      if pin.Some? {
        var _ := PinLayer(pin.value.ns, pin.value.chain, key, createOk, addOk, cleanupOk);
      }
    }

    /** The layer's directory, read from a probe view that is removed again. */
    method OverlayfsLayerPath(layer: Layer, f: Faults) returns (r: Result<Option<M.Path>, DedupError>)
      modifies this`views
      ensures r == (if layer !in host || f.hostStat then Ok(None)
                    else if f.view || layer in old(views) || f.viewMounts then Err(HostError)
                    else Ok(Some(host[layer].dir)))
      ensures !f.unview ==> views == old(views)
      ensures views - {layer} == old(views) - {layer}
    {
      if layer !in host || f.hostStat {
        return Ok(None);
      }
      if f.view || layer in views {
        return Err(HostError);
      }
      views := views + {layer};
      r := if f.viewMounts then Err(HostError) else Ok(Some(host[layer].dir));
      if !f.unview {
        views := views - {layer};
      }
    }

    /** The reference committed, or the store as it was unless the cleanup fails too. */
    method MaterializeReference(chain: string, parent: string, path: M.Path, f: Faults) returns (r: Result<(), DedupError>)
      requires locked
      modifies this`local, this`created
      ensures r.Ok? <==> BuildSucceeds(old(local), chain, parent, f)
      ensures r.Ok? ==> exists n :: old(created) <= n < created
                                    && local == old(local)[M.Named(chain) := M.Snapshot(false, parent, M.Link(path), n)]
      ensures r.Err? && !f.cleanup ==> local == old(local)
      ensures r.Err? ==> local - {M.Temp(chain)} == old(local) - {M.Temp(chain)}
    {
      var tmp := M.Temp(chain);
      if f.prepare || tmp in local || !CanPrepareOn(local, parent) {
        return Err(LocalError);
      }
      local := local[tmp := M.Snapshot(true, parent, M.Dir, created)];
      created := created + 1;
      // A snapshot without a parent is a bind mount, which has no upperdir.
      var linked := !f.mounts && parent != "" && !f.symlink;
      if linked {
        local := local[tmp := local[tmp].(fs := M.Link(path))];
      }
      if linked && !f.commit && M.Named(chain) !in local {
        var n := created;
        local := (local - {tmp})[M.Named(chain) := local[tmp].(active := false, serial := n)];
        created := created + 1;
        assert local == old(local)[M.Named(chain) := M.Snapshot(false, parent, M.Link(path), n)];
        return Ok(());
      }
      if !f.cleanup {
        local := local - {tmp};
        assert local == old(local);
      }
      return Err(LocalError);
    }

    /**
     Stat with lazy materialisation.  It answers from the local store if the key is there and
     a local Stat says so, the first one or the one under the lock; otherwise it answers only
     with a reference it has just committed.
     */
    method Stat(ns: string, key: string, f: Faults) returns (r: Result<M.Info, DedupError>)
      requires !locked
      modifies this`local, this`created, this`views, this`locked
      ensures !locked
      ensures var live, lock := LiveKey(old(local), key), ReachesLock(host, old(views), ns, key, f);
              if live && (!f.stat || (lock && !f.recheck)) then r == Ok(M.InfoOf(old(local)[M.NameOf(key)])) && local == old(local)
              else if !lock then r.Err? && local == old(local)
              else
                var x := host[HostLayerOf(ns, key)];
                if !f.parent && BuildSucceeds(old(local), key, x.parent, f) then
                  exists n :: local == old(local)[M.Named(key) := M.Snapshot(false, x.parent, M.Link(x.dir), n)]
                              && r == if f.final then Err(NotFound) else Ok(M.Info(false, x.parent, n))
                else r.Err? && (!f.cleanup ==> local == old(local)) && local - {M.Temp(key)} == old(local) - {M.Temp(key)}
      ensures !f.unview ==> views == old(views)
      ensures views - {HostLayerOf(ns, key)} == old(views) - {HostLayerOf(ns, key)}
    {
      if LiveKey(local, key) && !f.stat {
        return Ok(M.InfoOf(local[M.NameOf(key)]));
      }
      if !IsChainId(key) {
        return Err(NotChainId);
      }
      T.NamesAreKeys(M.Named(key), key);
      var layer := HostLayerOf(ns, key);
      var path := OverlayfsLayerPath(layer, f);
      if path.Err? {
        return Err(path.error);
      }
      if path.value.None? {
        return Err(Miss);
      }
      locked := true;
      if LiveKey(local, key) && !f.recheck {
        locked := false;
        return Ok(M.InfoOf(local[M.NameOf(key)]));
      }
      // The swallowed lookup error: an unknown parent counts as none.
      var parent := if f.parent then "" else host[layer].parent;
      var made := MaterializeReference(key, parent, path.value.value, f);
      if made.Err? {
        r := Err(made.error);
      } else if f.final {
        r := Err(NotFound);
      } else {
        r := Ok(M.InfoOf(local[M.Named(key)]));
      }
      locked := false;
    }
  }

  // ------------------------------------------------------------------ listings

  ghost predicate Lists(all: seq<LeaseId>, ids: set<LeaseId>) {
    && (forall i, j :: 0 <= i < j < |all| ==> all[i] != all[j])
    && (forall id :: id in all <==> id in ids)
  }

  /** The service lists each lease once, in some order. */
  method ListOf(ids: set<LeaseId>) returns (all: seq<LeaseId>)
    ensures Lists(all, ids)
  {
    all := [];
    var todo := ids;
    while todo != {}
      invariant Lists(all, ids - todo) && todo <= ids
      decreases |todo|
    {
      var id :| id in todo;
      all := all + [id];
      todo := todo - {id};
    }
  }

  function DeleteEach(leases: map<LeaseId, Lease>, all: seq<LeaseId>, spared: set<LeaseId>): map<LeaseId, Lease> {
    if all == [] then leases
    else
      var n := |all| - 1;
      var rest := DeleteEach(leases, all[..n], spared);
      if all[n] in spared then rest else rest - {all[n]}
  }

  function Deletions(all: seq<LeaseId>, spared: set<LeaseId>): (n: nat)
    ensures n <= |all|
  {
    if all == [] then 0
    else Deletions(all[..|all| - 1], spared) + if all[|all| - 1] in spared then 0 else 1
  }

  ghost function SweepSpares(leases: map<LeaseId, Lease>, local: map<M.Name, M.Snapshot>, ns: string, refused: set<LeaseId>): (r: set<LeaseId>)
    ensures ManagedIn(leases, ns) - r == Orphans(leases, local, ns) - refused
  {
    leases.Keys - (Orphans(leases, local, ns) - refused)
  }

  lemma {:induction false} SparedExactly(leases: map<LeaseId, Lease>, local: map<M.Name, M.Snapshot>, ns: string, refused: set<LeaseId>, id: LeaseId)
    requires id in ManagedIn(leases, ns)
    ensures id in leases
    ensures id in SweepSpares(leases, local, ns, refused) <==>
            leases[id].owner == "" || LiveKey(local, leases[id].owner) || id in refused
  {
  }

  lemma {:induction false} ListsButLast(all: seq<LeaseId>, ids: set<LeaseId>)
    requires Lists(all, ids) && all != []
    ensures all[|all| - 1] in ids && Lists(all[..|all| - 1], ids - {all[|all| - 1]})
  {
    var last := all[|all| - 1];
    assert forall id :: id in all <==> id == last || id in all[..|all| - 1];
  }

  lemma {:induction false} OneMore(ids: set<LeaseId>, spared: set<LeaseId>, id: LeaseId)
    requires id in ids
    ensures id in spared ==> ids - spared == ids - {id} - spared && |ids * spared| == |(ids - {id}) * spared| + 1
    ensures id !in spared ==> |ids - spared| == |ids - {id} - spared| + 1 && ids * spared == (ids - {id}) * spared
  {
    if id in spared {
      assert ids * spared == (ids - {id}) * spared + {id};
    } else {
      assert ids - spared == (ids - {id} - spared) + {id};
    }
  }

  lemma {:induction false} DropOne(leases: map<LeaseId, Lease>, ids: set<LeaseId>, spared: set<LeaseId>, id: LeaseId)
    requires id in ids && id !in spared
    ensures leases - (ids - {id} - spared) - {id} == leases - (ids - spared)
  {
  }

  lemma {:induction false} GoneKeys(leases: map<LeaseId, Lease>, gone: set<LeaseId>)
    requires gone <= leases.Keys
    ensures leases.Keys - (leases - gone).Keys == gone && (leases - gone).Keys <= leases.Keys
  {
  }

  /** One delete per listed lease, in any order, is the removal of the set. */
  lemma {:induction false} EachDeleted(leases: map<LeaseId, Lease>, all: seq<LeaseId>, ids: set<LeaseId>, spared: set<LeaseId>)
    requires Lists(all, ids)
    ensures DeleteEach(leases, all, spared) == leases - (ids - spared)
    ensures Deletions(all, spared) == |ids - spared|
    ensures |all| - Deletions(all, spared) == |ids * spared|
    decreases |all|
  {
    if all == [] {
      assert ids == {} && ids - spared == {} && ids * spared == {};
    } else {
      var last := all[|all| - 1];
      ListsButLast(all, ids);
      EachDeleted(leases, all[..|all| - 1], ids - {last}, spared);
      OneMore(ids, spared, last);
      if last !in spared { DropOne(leases, ids, spared, last); }
    }
  }

  lemma {:induction false} SweptByEach(leases: map<LeaseId, Lease>, all: seq<LeaseId>, local: map<M.Name, M.Snapshot>, ns: string, refused: set<LeaseId>)
    requires Lists(all, ManagedIn(leases, ns))
    ensures var spared := SweepSpares(leases, local, ns, refused);
            && DeleteEach(leases, all, spared) == Swept(leases, local, ns, refused)
            && Deletions(all, spared) == |Orphans(leases, local, ns) - refused|
            && Swept(leases, local, ns, refused).Keys <= leases.Keys
  {
    EachDeleted(leases, all, ManagedIn(leases, ns), SweepSpares(leases, local, ns, refused));
  }

  lemma {:induction false} CountsOrphans(leases: map<LeaseId, Lease>, all: seq<LeaseId>, local: map<M.Name, M.Snapshot>, ns: string)
    requires Lists(all, ManagedIn(leases, ns))
    ensures Deletions(all, SweepSpares(leases, local, ns, {})) == |Orphans(leases, local, ns)|
  {
    SweptByEach(leases, all, local, ns, {});
    assert Orphans(leases, local, ns) - {} == Orphans(leases, local, ns);
  }

  // ------------------------------------------------------------------- theorems

  lemma {:induction false} RefusedRemain(leases: map<LeaseId, Lease>, local: map<M.Name, M.Snapshot>, ns: string, refused: set<LeaseId>)
    ensures Orphans(Swept(leases, local, ns, refused), local, ns) == Orphans(leases, local, ns) * refused
  {
  }

  /**
   A sweep lowers the orphan count by exactly what it deletes, to zero when no delete is
   refused, and keeps every lease whose owner is live.
   */
  lemma {:induction false} SweepLowersCount(leases: map<LeaseId, Lease>, local: map<M.Name, M.Snapshot>, ns: string, refused: set<LeaseId>)
    ensures var after := Swept(leases, local, ns, refused); var orphans := Orphans(leases, local, ns);
            && |Orphans(after, local, ns)| == |orphans| - |orphans - refused|
            && (orphans !! refused <==> Orphans(after, local, ns) == {})
            && (forall id :: id in leases && LiveKey(local, leases[id].owner) ==> id in after && after[id] == leases[id])
  {
    var orphans := Orphans(leases, local, ns);
    RefusedRemain(leases, local, ns, refused);
    assert orphans == (orphans - refused) + orphans * refused && (orphans - refused) !! (orphans * refused);
  }

  /**
   A clean sweep after a Remove with refused deletes leaves what it leaves after a faultless
   Remove, exactly when every refused lease is one the sweep can see as an orphan.
   */
  lemma {:induction false} SweepRepairsRemove(leases: map<LeaseId, Lease>, local: map<M.Name, M.Snapshot>, ns: string, key: string, refused: set<LeaseId>)
    requires UnpinNamespace(key) == Some(ns)
    ensures Swept(Unpinned(leases, ns, key, refused), local, K8S, {}) == Swept(Unpinned(leases, ns, key, {}), local, K8S, {})
            <==> forall id :: id in OwnerListing(leases, ns, key) * refused ==> ns == K8S && leases[id].managed && !LiveKey(local, key)
  {
    var faulty, clean := Unpinned(leases, ns, key, refused), Unpinned(leases, ns, key, {});
    var a, b := Swept(faulty, local, K8S, {}), Swept(clean, local, K8S, {});
    assert key != "";
    forall id | id in OwnerListing(leases, ns, key) * refused
      ensures id !in b && (id !in a <==> ns == K8S && leases[id].managed && !LiveKey(local, key))
    {
    }
    forall id | id !in OwnerListing(leases, ns, key) * refused
      ensures id in a <==> id in b
    {
    }
    if forall id :: id in OwnerListing(leases, ns, key) * refused ==> id !in a {
      assert a.Keys == b.Keys;
      assert a == b;
    }
  }
}
