/**
 The manager's methods are uninterrupted runs of the lease protocol: taken alone, with the
 outcomes its flags name, each call does to the leases and the gauge what the method states.
 */
module SequentialRuns {
  import opened Wrappers
  import opened SnapshotKeys
  import opened LeaseProtocol
  import P = PinLifetime
  import D = DedupManager
  import M = Materialise

  // Nothing changes but leases, gauge, calls and bookkeeping.
  predicate SameStores(s: State, t: State) {
    t.local == s.local && t.created == s.created && t.issued == s.issued && t.host == s.host
  }

  // The outcome of deleting some leases while call p moves to c.
  predicate Deleted(s: State, t: State, p: Pid, gone: set<LeaseId>, c: Call) {
    && SameStores(s, t) && gone <= s.leases.Keys && t.leases == s.leases - gone && t.gauge == s.gauge - |gone|
    && t.calls == s.calls[p := c]
  }

  lemma {:induction false} DropTwice(leases: map<LeaseId, Lease>, a: set<LeaseId>, b: set<LeaseId>)
    requires a <= leases.Keys && b <= (leases - a).Keys
    ensures leases - a - b == leases - (a + b) && a + b <= leases.Keys
  {
  }

  lemma {:induction false} CountTwice(leases: map<LeaseId, Lease>, a: set<LeaseId>, b: set<LeaseId>)
    requires b <= (leases - a).Keys
    ensures |a + b| == |a| + |b|
  {
    assert a !! b;
  }

  lemma {:induction false} MoveTwice(calls: map<Pid, Call>, p: Pid, c: Call, d: Call)
    ensures calls[p := c][p := d] == calls[p := d]
  {
  }

  lemma {:induction false} DeletedThen(s: State, t: State, u: State, p: Pid, a: set<LeaseId>, b: set<LeaseId>, c: Call, d: Call)
    requires Deleted(s, t, p, a, c) && Deleted(t, u, p, b, d)
    ensures Deleted(s, u, p, a + b, d)
  {
    DropTwice(s.leases, a, b);
    CountTwice(s.leases, a, b);
    MoveTwice(s.calls, p, c, d);
  }

  lemma {:induction false} NothingDeleted(s: State, p: Pid)
    requires p in s.calls
    ensures Deleted(s, s, p, {}, s.calls[p])
  {
    assert s.leases - {} == s.leases && s.calls[p := s.calls[p]] == s.calls;
  }

  lemma {:induction false} RunOne(s: State, l: Label)
    requires Step(s, l).Some?
    ensures Run(s, [l]) == Step(s, l)
  {
    P.RunCons(s, l, []);
    assert [l] + [] == [l];
  }

  // -------------------------------------------------------------------- Remove

  function DeleteOne(p: Pid, id: LeaseId, refused: set<LeaseId>): seq<Label> {
    if id in refused then [DoRemoveDelete(p, id, false)] else [DoRemoveDelete(p, id, true), DoRemoveDec(p)]
  }

  function DeleteAll(p: Pid, all: seq<LeaseId>, refused: set<LeaseId>): seq<Label> {
    if all == [] then [] else DeleteOne(p, all[0], refused) + DeleteAll(p, all[1..], refused)
  }

  lemma {:induction false} DeletesOne(s: State, p: Pid, key: string, todo: set<LeaseId>, id: LeaseId, refused: set<LeaseId>)
    requires p in s.calls && s.calls[p] == RemoveDelete(key, todo) && id in todo && id in s.leases
    ensures var t := Run(s, DeleteOne(p, id, refused));
            t.Some? && Deleted(s, t.value, p, {id} - refused, RemoveDelete(key, todo - {id}))
  {
    var c := RemoveDelete(key, todo - {id});
    if id in refused {
      RunOne(s, DoRemoveDelete(p, id, false));
      assert {id} - refused == {} && s.leases - {} == s.leases;
    } else {
      var t := Step(s, DoRemoveDelete(p, id, true)).value;
      P.RunTwo(s, DoRemoveDelete(p, id, true), DoRemoveDec(p), t, Step(t, DoRemoveDec(p)).value);
      assert {id} - refused == {id};
      MoveTwice(s.calls, p, t.calls[p], c);
    }
  }

  lemma {:induction false} ListsTail(all: seq<LeaseId>, ids: set<LeaseId>)
    requires D.Lists(all, ids) && all != []
    ensures all[0] in ids && D.Lists(all[1..], ids - {all[0]})
  {
    assert forall id :: id in all <==> id == all[0] || id in all[1..];
  }

  lemma {:induction false} RestPresent(leases: map<LeaseId, Lease>, todo: set<LeaseId>, id: LeaseId, refused: set<LeaseId>)
    requires todo <= leases.Keys && id in todo
    ensures todo - {id} <= (leases - ({id} - refused)).Keys
    ensures ({id} - refused) + (todo - {id} - refused) == todo - refused
  {
  }

  lemma {:induction false} DeletesAll(s: State, p: Pid, key: string, todo: set<LeaseId>, all: seq<LeaseId>, refused: set<LeaseId>)
    requires p in s.calls && s.calls[p] == RemoveDelete(key, todo) && D.Lists(all, todo) && todo <= s.leases.Keys
    ensures var t := Run(s, DeleteAll(p, all, refused)); t.Some? && Deleted(s, t.value, p, todo - refused, RemoveDelete(key, {}))
    decreases |all|
  {
    if all == [] {
      assert todo == {} && todo - refused == {};
      NothingDeleted(s, p);
    } else {
      var id := all[0];
      ListsTail(all, todo);
      DeletesOne(s, p, key, todo, id, refused);
      var t := Run(s, DeleteOne(p, id, refused)).value;
      RestPresent(s.leases, todo, id, refused);
      DeletesAll(t, p, key, todo - {id}, all[1..], refused);
      P.RunAppend(s, DeleteOne(p, id, refused), DeleteAll(p, all[1..], refused));
      DeletedThen(s, t, Run(s, DeleteAll(p, all, refused)).value, p, {id} - refused, todo - {id} - refused,
                  RemoveDelete(key, todo - {id}), RemoveDelete(key, {}));
    }
  }

  // Whether the local store lets the Remove have its key.
  function Removed(s: State, key: string, removeOk: bool): bool { removeOk && key in s.local }

  function DropKey(s: State, p: Pid, key: string, removeOk: bool): seq<Label> {
    [StartRemove(p, key), DoRemoveLocal(p, Removed(s, key, removeOk))]
  }

  /** A Remove on its own: the key, the listing and one delete per listed lease. */
  function RemoveRun(s: State, p: Pid, key: string, removeOk: bool, listOk: bool, all: seq<LeaseId>, refused: set<LeaseId>): seq<Label> {
    DropKey(s, p, key, removeOk)
    + if UnpinNamespace(key).None? then []
      else if !listOk then [DoRemoveList(p, false)]
      else [DoRemoveList(p, true)] + (DeleteAll(p, all, refused) + [Finish(p)])
  }

  // The state once the key is gone, if it goes.
  function AfterDrop(s: State, key: string, removeOk: bool): State {
    if Removed(s, key, removeOk) then s.(local := s.local - {key}) else s
  }

  lemma {:induction false} EndAfterMove(calls: map<Pid, Call>, p: Pid, c: Call)
    requires p !in calls
    ensures calls[p := c] - {p} == calls
  {
  }

  lemma {:induction false} DropsAt(s: State, p: Pid, key: string, removeOk: bool)
    requires p in s.calls && s.calls[p] == RemoveLocal(key)
    ensures var u, ns := AfterDrop(s, key, removeOk), UnpinNamespace(key);
            Step(s, DoRemoveLocal(p, Removed(s, key, removeOk))) == Some(if ns.Some? then With(u, p, RemoveList(key, ns.value)) else End(u, p))
  {
  }

  lemma {:induction false} DropsKey(s: State, p: Pid, key: string, removeOk: bool)
    requires p !in s.calls
    ensures var u, ns := AfterDrop(s, key, removeOk), UnpinNamespace(key);
            Run(s, DropKey(s, p, key, removeOk)) == Some(if ns.Some? then With(u, p, RemoveList(key, ns.value)) else u)
  {
    var t, u, ns := With(s, p, RemoveLocal(key)), AfterDrop(s, key, removeOk), UnpinNamespace(key);
    var l := DoRemoveLocal(p, Removed(s, key, removeOk));
    DropsAt(t, p, key, removeOk);
    if ns.Some? { MoveTwice(s.calls, p, RemoveLocal(key), RemoveList(key, ns.value)); } else { EndAfterMove(s.calls, p, RemoveLocal(key)); }
    P.RunTwo(s, StartRemove(p, key), l, t, if ns.Some? then With(u, p, RemoveList(key, ns.value)) else u);
  }

  lemma {:induction false} ListsLeases(s: State, p: Pid, key: string, ns: string)
    ensures Step(With(s, p, RemoveList(key, ns)), DoRemoveList(p, true))
            == Some(With(s, p, RemoveDelete(key, OwnerListing(s.leases, ns, key))))
  {
    MoveTwice(s.calls, p, RemoveList(key, ns), RemoveDelete(key, OwnerListing(s.leases, ns, key)));
  }

  // The state after the last delete of a call that began without one.
  lemma {:induction false} Finishes(s: State, t: State, p: Pid, gone: set<LeaseId>, c: Call, d: Call)
    requires p !in s.calls && Deleted(With(s, p, c), t, p, gone, d)
    requires (d.SweepScan? && d.seen == map[]) || (d.RemoveDelete? && d.todo == {})
    ensures var u := Run(t, [Finish(p)]);
            && u.Some? && SameStores(s, u.value) && u.value.calls == s.calls
            && u.value.leases == s.leases - gone && u.value.gauge == s.gauge - |gone|
  {
    RunOne(t, Finish(p));
    MoveTwice(s.calls, p, c, d);
    EndAfterMove(s.calls, p, d);
  }

  // The listing, the deletes and the return.
  lemma {:induction false} Unpins(s: State, p: Pid, key: string, ns: string, all: seq<LeaseId>, refused: set<LeaseId>)
    requires p !in s.calls && D.Lists(all, OwnerListing(s.leases, ns, key))
    ensures var t := Run(With(s, p, RemoveList(key, ns)), [DoRemoveList(p, true)] + (DeleteAll(p, all, refused) + [Finish(p)]));
            && t.Some? && SameStores(s, t.value) && t.value.calls == s.calls
            && t.value.leases == D.Unpinned(s.leases, ns, key, refused)
            && t.value.gauge == s.gauge - |OwnerListing(s.leases, ns, key) - refused|
  {
    var todo := OwnerListing(s.leases, ns, key);
    var start, listed, deletes := With(s, p, RemoveList(key, ns)), With(s, p, RemoveDelete(key, todo)), DeleteAll(p, all, refused);
    ListsLeases(s, p, key, ns);
    DeletesAll(listed, p, key, todo, all, refused);
    Finishes(s, Run(listed, deletes).value, p, todo - refused, RemoveDelete(key, todo), RemoveDelete(key, {}));
    P.RunAppend(listed, deletes, [Finish(p)]);
    P.RunCons(start, DoRemoveList(p, true), deletes + [Finish(p)]);
  }

  lemma {:induction false} ListFails(s: State, p: Pid, key: string, ns: string)
    requires p !in s.calls
    ensures Run(With(s, p, RemoveList(key, ns)), [DoRemoveList(p, false)]) == Some(s)
  {
    RunOne(With(s, p, RemoveList(key, ns)), DoRemoveList(p, false));
    EndAfterMove(s.calls, p, RemoveList(key, ns));
  }

  /** `Dedup.Remove` is an uninterrupted Remove of the protocol. */
  lemma {:induction false} RemoveIsARun(s: State, p: Pid, key: string, removeOk: bool, listOk: bool, all: seq<LeaseId>, refused: set<LeaseId>)
    requires p !in s.calls
    requires UnpinNamespace(key).Some? ==> D.Lists(all, OwnerListing(s.leases, UnpinNamespace(key).value, key))
    ensures var t := Run(s, RemoveRun(s, p, key, removeOk, listOk, all, refused));
            && t.Some? && t.value.calls == s.calls
            && t.value.local == (if Removed(s, key, removeOk) then s.local - {key} else s.local)
            && t.value.leases == (if UnpinNamespace(key).Some? && listOk
                                  then D.Unpinned(s.leases, UnpinNamespace(key).value, key, refused) else s.leases)
            && t.value.gauge == s.gauge - (if UnpinNamespace(key).Some? && listOk
                                           then |OwnerListing(s.leases, UnpinNamespace(key).value, key) - refused| else 0)
  {
    var first := DropKey(s, p, key, removeOk);
    var u := AfterDrop(s, key, removeOk);
    DropsKey(s, p, key, removeOk);
    if UnpinNamespace(key).None? {
      assert first + [] == first;
    } else {
      var ns := UnpinNamespace(key).value;
      if listOk {
        Unpins(u, p, key, ns, all, refused);
        P.RunAppend(s, first, [DoRemoveList(p, true)] + (DeleteAll(p, all, refused) + [Finish(p)]));
      } else {
        ListFails(u, p, key, ns);
        P.RunAppend(s, first, [DoRemoveList(p, false)]);
      }
    }
  }

  // --------------------------------------------------------------------- sweep

  predicate Orphaned(s: State, owner: string) { owner != "" && owner !in s.local }

  function SweepOne(s: State, p: Pid, id: LeaseId, owner: string, refused: set<LeaseId>): seq<Label> {
    [DoSweepStat(p, id)]
    + if !Orphaned(s, owner) then []
      else if id in refused then [DoSweepDelete(p, false)]
      else [DoSweepDelete(p, true), DoSweepDec(p)]
  }

  function SweepAll(s: State, p: Pid, seen: map<LeaseId, string>, all: seq<LeaseId>, refused: set<LeaseId>): seq<Label>
    requires forall id :: id in all ==> id in seen
  {
    if all == [] then [] else SweepOne(s, p, all[0], seen[all[0]], refused) + SweepAll(s, p, seen, all[1..], refused)
  }

  // What one listed lease contributes.
  function SweptIds(s: State, seen: map<LeaseId, string>, refused: set<LeaseId>): set<LeaseId> {
    set id | id in seen && Orphaned(s, seen[id]) && id !in refused
  }

  lemma {:induction false} SweepsOne(s: State, p: Pid, seen: map<LeaseId, string>, id: LeaseId, refused: set<LeaseId>)
    requires p in s.calls && s.calls[p] == SweepScan(seen) && id in seen && id in s.leases
    ensures var t := Run(s, SweepOne(s, p, id, seen[id], refused));
            var gone := if Orphaned(s, seen[id]) && id !in refused then {id} else {};
            t.Some? && Deleted(s, t.value, p, gone, SweepScan(seen - {id}))
  {
    var rest := seen - {id};
    var stat := DoSweepStat(p, id);
    var t := Step(s, stat).value;
    if !Orphaned(s, seen[id]) {
      RunOne(s, stat);
      assert SweepOne(s, p, id, seen[id], refused) == [stat];
      assert s.leases - {} == s.leases;
    } else if id in refused {
      P.RunTwo(s, stat, DoSweepDelete(p, false), t, Step(t, DoSweepDelete(p, false)).value);
      assert SweepOne(s, p, id, seen[id], refused) == [stat, DoSweepDelete(p, false)];
      MoveTwice(s.calls, p, SweepDelete(id, rest), SweepScan(rest));
      assert s.leases - {} == s.leases;
    } else {
      SweepsOrphan(t, p, id, rest);
      P.RunCons(s, stat, [DoSweepDelete(p, true), DoSweepDec(p)]);
      MoveTwice(s.calls, p, SweepDelete(id, rest), SweepScan(rest));
    }
  }

  lemma {:induction false} SweepsOrphan(s: State, p: Pid, id: LeaseId, rest: map<LeaseId, string>)
    requires p in s.calls && s.calls[p] == SweepDelete(id, rest) && id in s.leases
    ensures var t := Run(s, [DoSweepDelete(p, true), DoSweepDec(p)]); t.Some? && Deleted(s, t.value, p, {id}, SweepScan(rest))
  {
    var t := Step(s, DoSweepDelete(p, true)).value;
    P.RunTwo(s, DoSweepDelete(p, true), DoSweepDec(p), t, Step(t, DoSweepDec(p)).value);
    MoveTwice(s.calls, p, SweepDec(rest), SweepScan(rest));
  }

  lemma {:induction false} SweptCons(s: State, seen: map<LeaseId, string>, id: LeaseId, refused: set<LeaseId>)
    requires id in seen
    ensures (if Orphaned(s, seen[id]) && id !in refused then {id} else {}) + SweptIds(s, seen - {id}, refused) == SweptIds(s, seen, refused)
  {
  }

  lemma {:induction false} SweepAllSame(s: State, t: State, p: Pid, seen: map<LeaseId, string>, more: map<LeaseId, string>, all: seq<LeaseId>, refused: set<LeaseId>)
    requires s.local == t.local && forall id :: id in all ==> id in seen && id in more && more[id] == seen[id]
    ensures SweepAll(s, p, seen, all, refused) == SweepAll(t, p, more, all, refused)
    decreases |all|
  {
    if all != [] { SweepAllSame(s, t, p, seen, more, all[1..], refused); }
  }

  // The first lease and then the rest.
  lemma {:induction false} SweepJoins(s: State, t: State, u: State, p: Pid, seen: map<LeaseId, string>, id: LeaseId, refused: set<LeaseId>)
    requires id in seen && Deleted(s, t, p, if Orphaned(s, seen[id]) && id !in refused then {id} else {}, SweepScan(seen - {id}))
    requires Deleted(t, u, p, SweptIds(t, seen - {id}, refused), SweepScan(map[]))
    ensures Deleted(s, u, p, SweptIds(s, seen, refused), SweepScan(map[]))
  {
    var gone := if Orphaned(s, seen[id]) && id !in refused then {id} else {};
    assert SweptIds(t, seen - {id}, refused) == SweptIds(s, seen - {id}, refused);
    DeletedThen(s, t, u, p, gone, SweptIds(t, seen - {id}, refused), SweepScan(seen - {id}), SweepScan(map[]));
    SweptCons(s, seen, id, refused);
  }

  lemma {:induction false} SweepsAll(s: State, p: Pid, seen: map<LeaseId, string>, all: seq<LeaseId>, refused: set<LeaseId>)
    requires p in s.calls && s.calls[p] == SweepScan(seen) && D.Lists(all, seen.Keys) && seen.Keys <= s.leases.Keys
    ensures var t := Run(s, SweepAll(s, p, seen, all, refused));
            t.Some? && Deleted(s, t.value, p, SweptIds(s, seen, refused), SweepScan(map[]))
    decreases |all|
  {
    if all == [] {
      assert seen == map[] && SweptIds(s, seen, refused) == {};
      NothingDeleted(s, p);
    } else {
      var id, rest := all[0], seen - {all[0]};
      ListsTail(all, seen.Keys);
      assert rest.Keys == seen.Keys - {id};
      SweepsOne(s, p, seen, id, refused);
      var first := SweepOne(s, p, id, seen[id], refused);
      var t := Run(s, first).value;
      SweepsAll(t, p, rest, all[1..], refused);
      SweepAllSame(s, t, p, seen, rest, all[1..], refused);
      P.RunAppend(s, first, SweepAll(s, p, seen, all[1..], refused));
      SweepJoins(s, t, Run(s, SweepAll(s, p, seen, all, refused)).value, p, seen, id, refused);
    }
  }

  /** A sweep on its own: the listing, and per lease the Stat of its owner and perhaps a delete. */
  function SweepRun(s: State, p: Pid, listOk: bool, all: seq<LeaseId>, refused: set<LeaseId>): seq<Label>
    requires forall id :: id in all ==> id in ManagedListing(s)
  {
    [StartSweep(p), DoSweepList(p, listOk)]
    + if listOk then SweepAll(s, p, ManagedListing(s), all, refused) + [Finish(p)] else []
  }

  // The local stores of the protocol and of the class hold the same keys.
  ghost predicate SameKeys(s: State, local: map<M.Name, M.Snapshot>) { forall k :: k in s.local <==> D.LiveKey(local, k) }

  lemma {:induction false} SweptAlike(s: State, local: map<M.Name, M.Snapshot>, refused: set<LeaseId>)
    requires SameKeys(s, local)
    ensures SweptIds(s, ManagedListing(s), refused) == D.Orphans(s.leases, local, K8S) - refused
  {
  }

  lemma {:induction false} StartsSweep(s: State, p: Pid, listOk: bool)
    requires p !in s.calls
    ensures Run(s, [StartSweep(p), DoSweepList(p, listOk)]) == Some(if listOk then With(s, p, SweepScan(ManagedListing(s))) else s)
  {
    var t, l := Step(s, StartSweep(p)).value, DoSweepList(p, listOk);
    assert ManagedListing(t) == ManagedListing(s);
    if listOk { MoveTwice(s.calls, p, SweepList, SweepScan(ManagedListing(s))); } else { EndAfterMove(s.calls, p, SweepList); }
    P.RunTwo(s, StartSweep(p), l, t, Step(t, l).value);
  }

  lemma {:induction false} FinishesSweep(s: State, p: Pid, all: seq<LeaseId>, refused: set<LeaseId>)
    requires p !in s.calls && D.Lists(all, ManagedListing(s).Keys)
    ensures var seen := ManagedListing(s);
            var t := Run(With(s, p, SweepScan(seen)), SweepAll(s, p, seen, all, refused) + [Finish(p)]);
            && t.Some? && SameStores(s, t.value) && t.value.calls == s.calls
            && t.value.leases == s.leases - SweptIds(s, seen, refused) && t.value.gauge == s.gauge - |SweptIds(s, seen, refused)|
  {
    var seen := ManagedListing(s);
    var u := With(s, p, SweepScan(seen));
    SweepsAll(u, p, seen, all, refused);
    SweepAllSame(s, u, p, seen, seen, all, refused);
    assert SweptIds(u, seen, refused) == SweptIds(s, seen, refused);
    Finishes(s, Run(u, SweepAll(s, p, seen, all, refused)).value, p, SweptIds(s, seen, refused), SweepScan(seen), SweepScan(map[]));
    P.RunAppend(u, SweepAll(s, p, seen, all, refused), [Finish(p)]);
  }

  /** `Dedup.GcOrphanLeases` is an uninterrupted sweep of the protocol. */
  lemma {:induction false} SweepIsARun(s: State, p: Pid, local: map<M.Name, M.Snapshot>, listOk: bool, all: seq<LeaseId>, refused: set<LeaseId>)
    requires p !in s.calls && D.Lists(all, ManagedListing(s).Keys) && SameKeys(s, local)
    ensures var t := Run(s, SweepRun(s, p, listOk, all, refused));
            && t.Some? && SameStores(s, t.value) && t.value.calls == s.calls
            && t.value.leases == (if listOk then D.Swept(s.leases, local, K8S, refused) else s.leases)
            && t.value.gauge == s.gauge - (if listOk then |D.Orphans(s.leases, local, K8S) - refused| else 0)
  {
    var first := [StartSweep(p), DoSweepList(p, listOk)];
    StartsSweep(s, p, listOk);
    if listOk {
      SweptAlike(s, local, refused);
      FinishesSweep(s, p, all, refused);
      P.RunAppend(s, first, SweepAll(s, p, ManagedListing(s), all, refused) + [Finish(p)]);
    } else {
      assert first + [] == first;
    }
  }

  // ------------------------------------------------------------------- Prepare

  /** A Prepare on its own, with the outcomes its flags name. */
  function PrepareLabels(p: Pid, key: string, parent: string, created: bool, createOk: bool, addOk: bool, cleanupOk: bool): seq<Label> {
    [StartPrepare(p, key, parent), DoPrepareLocal(p, created)]
    + if PinFor(key, parent).None? then []
      else if !createOk then [DoCreate(p, false)]
      else [DoCreate(p, true), DoAdd(p, addOk)] + if addOk then [DoInc(p)] else [DoCleanup(p, cleanupOk)]
  }

  // The leases without the protocol's bookkeeping.
  function Plain(leases: map<LeaseId, Lease>): map<LeaseId, Lease> { map id | id in leases :: leases[id].(origin := None) }

  lemma {:induction false} PlainUpdate(leases: map<LeaseId, Lease>, id: LeaseId, l: Lease)
    ensures Plain(leases[id := l]) == Plain(leases)[id := l.(origin := None)]
    ensures Plain(leases - {id}) == Plain(leases) - {id}
  {
  }

  // The state once the local store has answered.
  function Answered(s: State, p: Pid, key: string, pin: Option<Pin>, created: bool): State {
    var u := if created then CreateKey(s, key) else s;
    if pin.Some? then With(u, p, PrepareCreate(key, pin.value, if created then Some(s.created) else None)) else u
  }

  lemma {:induction false} LocalAnswers(s: State, p: Pid, key: string, parent: string, pin: Option<Pin>, created: bool)
    requires p in s.calls && s.calls[p] == PrepareLocal(key, parent) && (created ==> key !in s.local) && PinFor(key, parent) == pin
    ensures var t := Answered(s, p, key, pin, created);
            Step(s, DoPrepareLocal(p, created)) == Some(if pin.Some? then t else End(t, p))
  {
  }

  lemma {:induction false} AnsweredOver(s: State, p: Pid, key: string, pin: Option<Pin>, created: bool, c: Call)
    requires p !in s.calls
    ensures var t := Answered(With(s, p, c), p, key, pin, created);
            (if pin.Some? then t else End(t, p)) == Answered(s, p, key, pin, created)
  {
    if pin.Some? {
      MoveTwice(s.calls, p, c, PrepareCreate(key, pin.value, if created then Some(s.created) else None));
    } else {
      EndAfterMove(s.calls, p, c);
    }
  }

  lemma {:induction false} StartsPrepare(s: State, p: Pid, key: string, parent: string, pin: Option<Pin>, created: bool)
    requires p !in s.calls && (created ==> key !in s.local) && PinFor(key, parent) == pin
    ensures Run(s, [StartPrepare(p, key, parent), DoPrepareLocal(p, created)]) == Some(Answered(s, p, key, pin, created))
  {
    var t := With(s, p, PrepareLocal(key, parent));
    LocalAnswers(t, p, key, parent, pin, created);
    AnsweredOver(s, p, key, pin, created, PrepareLocal(key, parent));
    P.StartsAlone(s, p, key, parent);
    P.RunTwo(s, StartPrepare(p, key, parent), DoPrepareLocal(p, created), t, Answered(s, p, key, pin, created));
  }

  lemma {:induction false} CreatesLease(s: State, p: Pid, key: string, pin: Pin, origin: Option<nat>)
    ensures var lease := Lease(pin.ns, true, key, None, origin);
            Step(With(s, p, PrepareCreate(key, pin, origin)), DoCreate(p, true))
            == Some(With(s.(leases := s.leases[s.issued := lease], issued := s.issued + 1), p, PrepareAdd(s.issued, Layer(pin.ns, pin.chain))))
  {
    MoveTwice(s.calls, p, PrepareCreate(key, pin, origin), PrepareAdd(s.issued, Layer(pin.ns, pin.chain)));
  }

  // The resource is added and counted, or it is not and the lease is cleaned up if it can be.
  lemma {:induction false} AddsOrNot(s: State, p: Pid, id: LeaseId, layer: Layer, addOk: bool, cleanupOk: bool)
    requires p !in s.calls && id in s.leases
    ensures var start, add := With(s, p, PrepareAdd(id, layer)), DoAdd(p, addOk);
            var last := if addOk then DoInc(p) else DoCleanup(p, cleanupOk);
            var u := Step(start, add);
            && u.Some? && var v := Step(u.value, last);
            && v.Some? && v.value.calls == s.calls && v.value.local == s.local && v.value.gauge == s.gauge + (if addOk then 1 else 0)
            && v.value.leases == if addOk then s.leases[id := s.leases[id].(resource := Some(layer))]
                                 else if cleanupOk then s.leases - {id} else s.leases
  {
    var start := With(s, p, PrepareAdd(id, layer));
    var u := Step(start, DoAdd(p, addOk)).value;
    MoveTwice(s.calls, p, PrepareAdd(id, layer), u.calls[p]);
    EndAfterMove(s.calls, p, u.calls[p]);
  }

  // The lease's part of a Prepare.
  lemma {:induction false} PinsOrNot(s: State, p: Pid, key: string, pin: Pin, origin: Option<nat>, addOk: bool, cleanupOk: bool)
    requires p !in s.calls && s.issued !in s.leases
    ensures var start := With(s, p, PrepareCreate(key, pin, origin));
            var t := Run(start, [DoCreate(p, true), DoAdd(p, addOk)] + if addOk then [DoInc(p)] else [DoCleanup(p, cleanupOk)]);
            && t.Some? && t.value.calls == s.calls && t.value.local == s.local
            && t.value.gauge == s.gauge + (if addOk then 1 else 0)
            && t.value.leases == if addOk then s.leases[s.issued := Lease(pin.ns, true, key, Some(Layer(pin.ns, pin.chain)), origin)]
                                 else if cleanupOk then s.leases
                                 else s.leases[s.issued := Lease(pin.ns, true, key, None, origin)]
  {
    var start, layer, lease := With(s, p, PrepareCreate(key, pin, origin)), Layer(pin.ns, pin.chain), Lease(pin.ns, true, key, None, origin);
    var create, add := DoCreate(p, true), DoAdd(p, addOk);
    var last := if addOk then DoInc(p) else DoCleanup(p, cleanupOk);
    var mid := s.(leases := s.leases[s.issued := lease], issued := s.issued + 1);
    CreatesLease(s, p, key, pin, origin);
    AddsOrNot(mid, p, s.issued, layer, addOk, cleanupOk);
    var t := With(mid, p, PrepareAdd(s.issued, layer));
    var u := Step(t, add).value;
    P.RunTwo(start, create, add, t, u);
    RunOne(u, last);
    P.RunAppend(start, [create, add], [last]);
    assert mid.leases[s.issued := lease.(resource := Some(layer))] == s.leases[s.issued := lease.(resource := Some(layer))];
    assert mid.leases - {s.issued} == s.leases;
  }

  lemma {:induction false} CreateFails(s: State, p: Pid, key: string, pin: Pin, origin: Option<nat>)
    requires p !in s.calls
    ensures Run(With(s, p, PrepareCreate(key, pin, origin)), [DoCreate(p, false)]) == Some(s)
  {
    RunOne(With(s, p, PrepareCreate(key, pin, origin)), DoCreate(p, false));
    EndAfterMove(s.calls, p, PrepareCreate(key, pin, origin));
  }

  /** `Dedup.Prepare` is an uninterrupted Prepare of the protocol, up to the protocol's bookkeeping. */
  lemma {:induction false} PrepareIsARun(s: State, p: Pid, key: string, parent: string, created: bool, createOk: bool, addOk: bool, cleanupOk: bool)
    requires p !in s.calls && (created ==> key !in s.local) && s.issued !in s.leases
    ensures var t := Run(s, PrepareLabels(p, key, parent, created, createOk, addOk, cleanupOk));
            var pin := PinFor(key, parent);
            && t.Some? && t.value.calls == s.calls
            && t.value.local == (if created then s.local[key := s.created] else s.local)
            && t.value.gauge == s.gauge + (if pin.Some? && createOk && addOk then 1 else 0)
            && Plain(t.value.leases)
               == if pin.None? || !createOk || (!addOk && cleanupOk) then Plain(s.leases)
                  else if addOk then Plain(s.leases)[s.issued := Lease(pin.value.ns, true, key, Some(Layer(pin.value.ns, pin.value.chain)), None)]
                  else Plain(s.leases)[s.issued := Lease(pin.value.ns, true, key, None, None)]
  {
    var pin := PinFor(key, parent);
    var first, u := [StartPrepare(p, key, parent), DoPrepareLocal(p, created)], if created then CreateKey(s, key) else s;
    var origin := if created then Some(s.created) else None;
    StartsPrepare(s, p, key, parent, pin, created);
    if pin.None? {
      assert first + [] == first;
    } else if !createOk {
      CreateFails(u, p, key, pin.value, origin);
      P.RunAppend(s, first, [DoCreate(p, false)]);
    } else {
      PinsOrNot(u, p, key, pin.value, origin, addOk, cleanupOk);
      P.RunAppend(s, first, [DoCreate(p, true), DoAdd(p, addOk)] + if addOk then [DoInc(p)] else [DoCleanup(p, cleanupOk)]);
      PlainUpdate(s.leases, s.issued, Lease(pin.value.ns, true, key, if addOk then Some(Layer(pin.value.ns, pin.value.chain)) else None, origin));
    }
  }

  // ---------------------------------------------------------- the operator's delete

  // Whether the service deletes the lease.
  function CanDelete(s: State, id: LeaseId, ok: bool): bool { ok && id in s.leases && s.leases[id].ns == K8S }

  function ApiRun(s: State, p: Pid, id: LeaseId, ok: bool): seq<Label> {
    [StartApi(p, id), DoApiDelete(p, CanDelete(s, id, ok))] + if CanDelete(s, id, ok) then [DoApiDec(p)] else []
  }

  /** `Dedup.DeleteLease` in namespace `k8s.io` is an uninterrupted delete of the protocol. */
  lemma {:induction false} DeleteIsARun(s: State, p: Pid, id: LeaseId, ok: bool)
    requires p !in s.calls
    ensures var t := Run(s, ApiRun(s, p, id, ok));
            && t.Some? && SameStores(s, t.value) && t.value.calls == s.calls
            && t.value.leases == (if CanDelete(s, id, ok) then s.leases - {id} else s.leases)
            && t.value.gauge == s.gauge - (if CanDelete(s, id, ok) then 1 else 0)
  {
    var l, first := DoApiDelete(p, CanDelete(s, id, ok)), [StartApi(p, id), DoApiDelete(p, CanDelete(s, id, ok))];
    var t := Step(s, StartApi(p, id)).value;
    var u := Step(t, l).value;
    P.RunTwo(s, StartApi(p, id), l, t, u);
    if CanDelete(s, id, ok) {
      MoveTwice(s.calls, p, ApiDelete(id), u.calls[p]);
      EndAfterMove(s.calls, p, u.calls[p]);
      RunOne(u, DoApiDec(p));
      P.RunAppend(s, first, [DoApiDec(p)]);
    } else {
      EndAfterMove(s.calls, p, ApiDelete(id));
      assert first + [] == first;
    }
  }

  // ------------------------------------------------------------------- successes

  /** No step of a call succeeds where the store or the lease service would have to refuse. */
  lemma {:induction false} SuccessesAreReal(s: State, l: Label)
    requires Step(s, l).Some?
    ensures l.DoPrepareLocal? && l.ok ==> l.p in s.calls && s.calls[l.p].PrepareLocal? && s.calls[l.p].key !in s.local
    ensures (l.DoAdd? && l.ok) || (l.DoCleanup? && l.ok) ==>
              l.p in s.calls && (s.calls[l.p].PrepareAdd? || s.calls[l.p].PrepareCleanup?) && s.calls[l.p].id in s.leases
    ensures l.DoRemoveLocal? && l.ok ==> l.p in s.calls && s.calls[l.p].RemoveLocal? && s.calls[l.p].key in s.local
    ensures l.DoRemoveDelete? && l.ok ==> l.p in s.calls && s.calls[l.p].RemoveDelete? && l.id in s.calls[l.p].todo && l.id in s.leases
    ensures l.DoSweepDelete? && l.ok ==> l.p in s.calls && s.calls[l.p].SweepDelete? && s.calls[l.p].id in s.leases
    ensures l.DoApiDelete? && l.ok ==>
              l.p in s.calls && s.calls[l.p].ApiDelete? && s.calls[l.p].id in s.leases && s.leases[s.calls[l.p].id].ns == "k8s.io"
    ensures l.Finish? ==>
              l.p in s.calls && (s.calls[l.p] == SweepScan(map[]) || (s.calls[l.p].RemoveDelete? && s.calls[l.p].todo == {}))
  {
  }
}
