/**
 How long a pin lasts: from the Prepare that created a live key to the first Remove of that
 key, whatever else runs in between.
 */
module PinLifetime {
  import opened Wrappers
  import opened SnapshotKeys
  import opened LeaseProtocol
  import opened LeaseTheorems

  // The key of a Remove that has not listed that key's leases yet.
  function Listing(c: Call): Option<string> {
    if c.RemoveLocal? || c.RemoveList? then Some(c.key) else None
  }

  // What a Remove has listed and not handled yet.
  function Todo(c: Call): set<LeaseId> {
    if c.RemoveDelete? || c.RemoveDec? then c.todo else {}
  }

  /** No Remove of the key is still to list its leases. */
  predicate NoListing(s: State, key: string) {
    forall p :: p in s.calls ==> Listing(s.calls[p]) != Some(key)
  }

  /** No Remove has the lease on its list. */
  predicate Unlisted(s: State, id: LeaseId) {
    forall p :: p in s.calls ==> id !in Todo(s.calls[p])
  }

  /** No Remove in progress can still delete the lease. */
  predicate Safe(s: State, id: LeaseId, key: string) { NoListing(s, key) && Unlisted(s, id) }

  /** The step ends neither the key nor the lease: no Remove of the key starts, no commit renames it, no operator deletes the lease. */
  predicate Spares(s: State, l: Label, id: LeaseId, key: string) {
    && (l.StartRemove? ==> l.key != key)
    && (l.CommitAway? ==> l.key != key)
    && (l.DoApiDelete? && l.ok && l.p in s.calls && s.calls[l.p].ApiDelete? ==> s.calls[l.p].id != id)
  }

  /** Every step of the run spares the key and the lease. */
  ghost predicate Quiet(s: State, run: seq<Label>, id: LeaseId, key: string)
    decreases |run|
  {
    run == [] || (Spares(s, run[0], id, key) && Step(s, run[0]).Some? && Quiet(Step(s, run[0]).value, run[1..], id, key))
  }

  /** The lease of creation n of the key, while that creation lives. */
  predicate Alive(s: State, id: LeaseId, key: string, n: nat) {
    && id in s.leases && s.leases[id].managed && s.leases[id].owner == key && s.leases[id].origin == Some(n)
    && Live(s, key, n)
  }

  predicate Owned(s: State, id: LeaseId, key: string, n: nat) { Alive(s, id, key, n) && Safe(s, id, key) }

  /** The lease pins the layer for a creation that lives. */
  predicate Pinned(s: State, id: LeaseId, key: string, n: nat, layer: Layer) {
    Alive(s, id, key, n) && s.leases[id].resource == Some(layer)
  }

  predicate Held(s: State, id: LeaseId, key: string, n: nat, layer: Layer) {
    Pinned(s, id, key, n, layer) && Safe(s, id, key)
  }

  // ----------------------------------------------------------- one step, the lease

  // The lease is kept, and keeps what it pins.
  predicate Kept(s: State, t: State, id: LeaseId, key: string, n: nat) {
    Alive(t, id, key, n) && (id in s.leases && s.leases[id].resource.Some? ==> t.leases[id] == s.leases[id])
  }

  lemma {:induction false} PrepareKeeps(s: State, l: Label, id: LeaseId, key: string, n: nat)
    requires Alive(s, id, key, n) && PrepareStep(s, l).Some?
    ensures Kept(s, PrepareStep(s, l).value, id, key, n)
  {
  }

  lemma {:induction false} PinKeeps(s: State, l: Label, id: LeaseId, key: string, n: nat)
    requires Alive(s, id, key, n) && PinStep(s, l).Some? && id < s.issued
    requires l.DoCleanup? ==> s.calls[l.p].id != id
    requires l.DoAdd? && s.calls[l.p].id == id ==> s.leases[id].resource.None?
    ensures Kept(s, PinStep(s, l).value, id, key, n)
  {
  }

  lemma {:induction false} RemoveKeeps(s: State, l: Label, id: LeaseId, key: string, n: nat)
    requires Alive(s, id, key, n) && RemoveStep(s, l).Some?
    requires l.p in s.calls ==> Listing(s.calls[l.p]) != Some(key) && id !in Todo(s.calls[l.p])
    ensures Kept(s, RemoveStep(s, l).value, id, key, n)
  {
  }

  lemma {:induction false} SweepKeeps(s: State, l: Label, id: LeaseId, key: string, n: nat)
    requires Alive(s, id, key, n) && SweepStep(s, l).Some?
    requires l.DoSweepDelete? ==> Doomed(s, s.calls[l.p].id)
    ensures Kept(s, SweepStep(s, l).value, id, key, n)
  {
  }

  lemma {:induction false} ApiKeeps(s: State, l: Label, id: LeaseId, key: string, n: nat)
    requires Alive(s, id, key, n) && ApiStep(s, l).Some? && Spares(s, l, id, key)
    ensures Kept(s, ApiStep(s, l).value, id, key, n)
  {
  }

  lemma {:induction false} EnvKeeps(s: State, l: Label, id: LeaseId, key: string, n: nat)
    requires Alive(s, id, key, n) && EnvStep(s, l).Some? && Spares(s, l, id, key)
    requires id < s.issued && ParseSnapshotKey(key).Some?
    ensures Kept(s, EnvStep(s, l).value, id, key, n)
  {
  }

  lemma {:induction false} StepKeeps(s: State, l: Label, id: LeaseId, key: string, n: nat)
    requires Inv(s) && Owned(s, id, key, n) && Step(s, l).Some? && Spares(s, l, id, key)
    requires l.DoCleanup? && l.p in s.calls ==> s.calls[l.p] != PrepareCleanup(id)
    ensures Kept(s, Step(s, l).value, id, key, n)
  {
    if PrepareStep(s, l).Some? { PrepareKeeps(s, l, id, key, n); }
    else if PinStep(s, l).Some? {
      assert Completing(s.calls[l.p]).Some? ==> CallOk(s, s.calls[l.p]);
      PinKeeps(s, l, id, key, n);
    }
    else if RemoveStep(s, l).Some? { RemoveKeeps(s, l, id, key, n); }
    else if SweepStep(s, l).Some? {
      assert l.DoSweepDelete? ==> CallOk(s, s.calls[l.p]);
      SweepKeeps(s, l, id, key, n);
    }
    else if ApiStep(s, l).Some? { ApiKeeps(s, l, id, key, n); }
    else { EnvKeeps(s, l, id, key, n); }
  }

  // ------------------------------------------------------- one step, the Removes

  // The step is not taken by call p, and does not kill it.
  predicate LeavesAlone(l: Label, p: Pid) {
    l.CommitAway? || l.LocalAdd? || l.LocalDrop? || l.ForeignLease? || l.ForeignDrop? || l.HostAdd? || l.HostGc?
    || (!l.Restart? && l.p != p)
  }

  lemma {:induction false} MovedAside(s: State, t: State, q: Pid, p: Pid)
    requires MovesOne(s, t, q) && p != q
    ensures (p in t.calls <==> p in s.calls) && (p in s.calls ==> t.calls[p] == s.calls[p])
  {
  }

  lemma {:induction false} CallStays(s: State, l: Label, p: Pid)
    requires Step(s, l).Some? && LeavesAlone(l, p)
    ensures var t := Step(s, l).value; (p in t.calls <==> p in s.calls) && (p in s.calls ==> t.calls[p] == s.calls[p])
  {
    if EnvStep(s, l).None? {
      if PrepareStep(s, l).Some? { PrepareMovesOne(s, l); }
      else if PinStep(s, l).Some? { PinMovesOne(s, l); }
      else if RemoveStep(s, l).Some? { RemoveMovesOne(s, l); }
      else if SweepStep(s, l).Some? { SweepMovesOne(s, l); }
      else { ApiMovesOne(s, l); }
      MovedAside(s, Step(s, l).value, l.p, p);
    }
  }

  // Only a Remove's own step moves it on, and it lists nothing but its key's leases.
  lemma {:induction false} RemoveMovesOn(s: State, l: Label)
    requires RemoveStep(s, l).Some? && l.p in RemoveStep(s, l).value.calls
    ensures var c := RemoveStep(s, l).value.calls[l.p];
            && (Listing(c).Some? ==> l == StartRemove(l.p, c.key) || (l.p in s.calls && Listing(c) == Listing(s.calls[l.p])))
            && (forall id :: id in Todo(c) ==>
                  l.p in s.calls && (id in Todo(s.calls[l.p])
                                     || (id in s.leases && Listing(s.calls[l.p]) == Some(s.leases[id].owner))))
  {
  }

  lemma {:induction false} OthersRemoveNothing(s: State, l: Label, p: Pid)
    requires Step(s, l).Some? && !LeavesAlone(l, p) && p in Step(s, l).value.calls && RemoveStep(s, l).None?
    ensures var c := Step(s, l).value.calls[p]; Listing(c) == None && Todo(c) == {}
  {
  }

  lemma {:induction false} NoListingAt(s: State, l: Label, key: string, p: Pid)
    requires NoListing(s, key) && Step(s, l).Some? && (l.StartRemove? ==> l.key != key) && p in Step(s, l).value.calls
    ensures Listing(Step(s, l).value.calls[p]) != Some(key)
  {
    if !LeavesAlone(l, p) {
      if RemoveStep(s, l).Some? { RemoveMovesOn(s, l); } else { OthersRemoveNothing(s, l, p); }
    } else { CallStays(s, l, p); }
  }

  lemma {:induction false} NoListingStays(s: State, l: Label, key: string)
    requires NoListing(s, key) && Step(s, l).Some? && (l.StartRemove? ==> l.key != key)
    ensures NoListing(Step(s, l).value, key)
  {
    var t := Step(s, l).value;
    forall q | q in t.calls ensures Listing(t.calls[q]) != Some(key) { NoListingAt(s, l, key, q); }
  }

  lemma {:induction false} UnlistedAt(s: State, l: Label, id: LeaseId, key: string, p: Pid)
    requires Safe(s, id, key) && (id in s.leases ==> s.leases[id].owner == key)
    requires Step(s, l).Some? && p in Step(s, l).value.calls
    ensures id !in Todo(Step(s, l).value.calls[p])
  {
    if !LeavesAlone(l, p) {
      if RemoveStep(s, l).Some? { RemoveMovesOn(s, l); } else { OthersRemoveNothing(s, l, p); }
    } else { CallStays(s, l, p); }
  }

  lemma {:induction false} SafeStays(s: State, l: Label, id: LeaseId, key: string)
    requires Safe(s, id, key) && (id in s.leases ==> s.leases[id].owner == key)
    requires Step(s, l).Some? && Spares(s, l, id, key)
    ensures Safe(Step(s, l).value, id, key)
  {
    var t := Step(s, l).value;
    NoListingStays(s, l, key);
    forall q | q in t.calls ensures id !in Todo(t.calls[q]) { UnlistedAt(s, l, id, key, q); }
  }

  // ---------------------------------------------------------------- host chains

  // The layers of a chain are on the host, and their parents have not changed.
  predicate SameLayers(s: State, t: State, chain: seq<Layer>) {
    forall i :: 0 <= i < |chain| ==> chain[i] in s.host && chain[i] in t.host && t.host[chain[i]] == s.host[chain[i]]
  }

  lemma {:induction false} LeasedChainProtected(s: State, id: LeaseId, chain: seq<Layer>, i: nat)
    requires id in s.leases && IsChain(s.host, chain) && i < |chain| && s.leases[id].resource == Some(chain[0])
    ensures Protected(s, chain[i])
  {
    var upTo := chain[..i + 1];
    assert IsChain(s.host, upTo) && upTo[0] == chain[0] && upTo[|upTo| - 1] == chain[i];
  }

  lemma {:induction false} RemoveLeavesHost(s: State, l: Label)
    requires RemoveStep(s, l).Some?
    ensures RemoveStep(s, l).value.host == s.host
  {
  }

  lemma {:induction false} SweepLeavesHost(s: State, l: Label)
    requires SweepStep(s, l).Some?
    ensures SweepStep(s, l).value.host == s.host
  {
  }

  lemma {:induction false} CallsLeaveHost(s: State, l: Label)
    requires Step(s, l).Some? && EnvStep(s, l).None?
    ensures Step(s, l).value.host == s.host
  {
    if RemoveStep(s, l).Some? { RemoveLeavesHost(s, l); }
    else if SweepStep(s, l).Some? { SweepLeavesHost(s, l); }
  }

  /** While a layer is leased, host garbage collection spares its whole chain. */
  lemma {:induction false} StepKeepsChain(s: State, l: Label, id: LeaseId, chain: seq<Layer>)
    requires id in s.leases && IsChain(s.host, chain) && chain != [] && s.leases[id].resource == Some(chain[0])
    requires Step(s, l).Some?
    ensures SameLayers(s, Step(s, l).value, chain)
  {
    if EnvStep(s, l).None? { CallsLeaveHost(s, l); }
    else if l.HostGc? {
      forall i | 0 <= i < |chain| ensures chain[i] !in l.gone { LeasedChainProtected(s, id, chain, i); }
    }
  }

  // -------------------------------------------------------------- over whole runs

  // A chain from the layer downwards; empty when the layer is not on the host.
  ghost predicate ChainFrom(s: State, layer: Layer, chain: seq<Layer>) {
    IsChain(s.host, chain) && (chain != [] ==> chain[0] == layer)
  }

  /** A held pin survives every quiet run, and so does the host chain below it. */
  lemma {:induction false} HeldOverRun(s: State, run: seq<Label>, id: LeaseId, key: string, n: nat, layer: Layer, chain: seq<Layer>)
    requires Inv(s) && Held(s, id, key, n, layer) && ChainFrom(s, layer, chain)
    requires Quiet(s, run, id, key)
    ensures Run(s, run).Some?
    ensures var t := Run(s, run).value; Held(t, id, key, n, layer) && SameLayers(s, t, chain)
    decreases |run|
  {
    if run != [] {
      var l := run[0];
      var u := Step(s, l).value;
      StepKeepsInv(s, l);
      assert l.DoCleanup? && l.p in s.calls ==> Completing(s.calls[l.p]) != Some(id);
      StepKeeps(s, l, id, key, n);
      SafeStays(s, l, id, key);
      if chain != [] { StepKeepsChain(s, l, id, chain); }
      HeldOverRun(u, run[1..], id, key, n, layer, chain);
    }
  }

  /** No sweep, however delayed, deletes the lease of a creation that is still live, even when keys are reused. */
  lemma {:induction false} SweepSparesLivePins(start: State, run: seq<Label>, l: Label, id: LeaseId)
    requires Inv(start) && Run(start, run).Some?
    requires l.DoSweepDelete? && Step(Run(start, run).value, l).Some?
    requires id in Run(start, run).value.leases && id !in Step(Run(start, run).value, l).value.leases
    ensures Doomed(Run(start, run).value, id)
  {
    var s := Run(start, run).value;
    RunKeepsInv(start, run);
    assert CallOk(s, s.calls[l.p]);
  }

  // -------------------------------------------------- exactly when a pin survives

  // What a Remove that threatens the lease does next.
  ghost function Finishing(s: State, p: Pid, id: LeaseId): seq<Label>
    requires p in s.calls
  {
    var delete := [DoRemoveDelete(p, id, true)];
    match s.calls[p]
    case RemoveLocal(_) => [DoRemoveLocal(p, true), DoRemoveList(p, true)] + delete
    case RemoveList(_, _) => [DoRemoveList(p, true)] + delete
    case RemoveDec(_, _, _) => [DoRemoveDec(p)] + delete
    case _ => delete
  }

  // A run that deletes the lease.
  ghost predicate Loses(s: State, run: seq<Label>, id: LeaseId, key: string) {
    Quiet(s, run, id, key) && Run(s, run).Some? && id !in Run(s, run).value.leases
  }

  lemma {:induction false} LosesAfter(s: State, l: Label, rest: seq<Label>, id: LeaseId, key: string)
    requires Step(s, l).Some? && Spares(s, l, id, key) && Loses(Step(s, l).value, rest, id, key)
    ensures Loses(s, [l] + rest, id, key)
  {
    assert ([l] + rest)[1..] == rest;
  }

  lemma {:induction false} DeleteLoses(s: State, p: Pid, id: LeaseId, key: string)
    requires p in s.calls && s.calls[p].RemoveDelete? && id in s.calls[p].todo && id in s.leases
    ensures Loses(s, [DoRemoveDelete(p, id, true)], id, key)
  {
    var l := DoRemoveDelete(p, id, true);
    assert Loses(Step(s, l).value, [], id, key);
    LosesAfter(s, l, [], id, key);
    assert [l] + [] == [l];
  }

  lemma {:induction false} ListLoses(s: State, p: Pid, id: LeaseId, key: string, ns: string)
    requires p in s.calls && s.calls[p] == RemoveList(key, ns)
    requires id in s.leases && s.leases[id].owner == key && s.leases[id].ns == ns
    ensures Loses(s, [DoRemoveList(p, true)] + [DoRemoveDelete(p, id, true)], id, key)
  {
    DeleteLoses(Step(s, DoRemoveList(p, true)).value, p, id, key);
    LosesAfter(s, DoRemoveList(p, true), [DoRemoveDelete(p, id, true)], id, key);
  }

  lemma {:induction false} DropLoses(s: State, p: Pid, id: LeaseId, key: string, n: nat)
    requires Numbered(s) && Alive(s, id, key, n) && p in s.calls && s.calls[p] == RemoveLocal(key)
    ensures Loses(s, Finishing(s, p, id), id, key)
  {
    var first, rest := DoRemoveLocal(p, true), [DoRemoveList(p, true)] + [DoRemoveDelete(p, id, true)];
    ListLoses(Step(s, first).value, p, id, key, UnpinNamespace(key).value);
    LosesAfter(s, first, rest, id, key);
    assert Finishing(s, p, id) == [first] + rest;
  }

  lemma {:induction false} ThreatLoses(s: State, p: Pid, id: LeaseId, key: string, n: nat)
    requires Inv(s) && Alive(s, id, key, n) && p in s.calls
    requires Listing(s.calls[p]) == Some(key) || id in Todo(s.calls[p])
    ensures Loses(s, Finishing(s, p, id), id, key)
  {
    assert CallOk(s, s.calls[p]);
    var delete := [DoRemoveDelete(p, id, true)];
    match s.calls[p]
    case RemoveLocal(_) => DropLoses(s, p, id, key, n);
    case RemoveList(_, ns) => ListLoses(s, p, id, key, ns);
    case RemoveDec(_, _, _) =>
      DeleteLoses(Step(s, DoRemoveDec(p)).value, p, id, key);
      LosesAfter(s, DoRemoveDec(p), delete, id, key);
    case RemoveDelete(_, _) => DeleteLoses(s, p, id, key);
    case _ =>
  }

  /**
   The exact condition: the pin of a live creation survives every run that spares it if and
   only if no Remove in progress is still to list the key's leases or has this one on its list.
   */
  lemma {:induction false} PinSurvivesIffSafe(s: State, id: LeaseId, key: string, n: nat, layer: Layer)
    requires Inv(s) && Pinned(s, id, key, n, layer)
    ensures (forall run :: Quiet(s, run, id, key) ==> Run(s, run).Some? && id in Run(s, run).value.leases) <==> Safe(s, id, key)
  {
    if Safe(s, id, key) {
      forall run | Quiet(s, run, id, key) ensures Run(s, run).Some? && id in Run(s, run).value.leases {
        HeldOverRun(s, run, id, key, n, layer, []);
      }
    } else {
      var p :| p in s.calls && (Listing(s.calls[p]) == Some(key) || id in Todo(s.calls[p]));
      ThreatLoses(s, p, id, key, n);
      var run := Finishing(s, p, id);
      assert Quiet(s, run, id, key) && id !in Run(s, run).value.leases;
    }
  }

  // ---------------------------------------------------- the Prepare that pins

  lemma {:induction false} LiveStaysHere(s: State, l: Label, key: string, n: nat)
    requires NoListing(s, key) && Live(s, key, n) && (PrepareStep(s, l).Some? || RemoveStep(s, l).Some?)
    ensures Live(Step(s, l).value, key, n)
  {
    assert l.p in s.calls ==> Listing(s.calls[l.p]) != Some(key);
  }

  lemma {:induction false} LocalUntouched(s: State, l: Label)
    requires PinStep(s, l).Some? || SweepStep(s, l).Some? || ApiStep(s, l).Some?
    ensures Step(s, l).value.local == s.local
  {
  }

  lemma {:induction false} LiveStays(s: State, l: Label, key: string, n: nat)
    requires NoListing(s, key) && Live(s, key, n) && ParseSnapshotKey(key).Some?
    requires Step(s, l).Some? && (l.CommitAway? ==> l.key != key)
    ensures Live(Step(s, l).value, key, n)
  {
    if PrepareStep(s, l).Some? || RemoveStep(s, l).Some? { LiveStaysHere(s, l, key, n); }
    else if PinStep(s, l).Some? || SweepStep(s, l).Some? || ApiStep(s, l).Some? { LocalUntouched(s, l); }
  }

  /** Where the Prepare that will pin for creation n of the key stands. */
  predicate Underway(s: State, p: Pid, c: Call, key: string, n: nat) {
    && p in s.calls && s.calls[p] == c && NoListing(s, key)
    && (c.PrepareCreate? ==> c.key == key && c.origin == Some(n) && Live(s, key, n))
    && (c.PrepareAdd? ==> Owned(s, c.id, key, n))
  }

  /** A quiet run in which call p takes no step and the process does not restart. */
  ghost predicate Waiting(s: State, run: seq<Label>, id: LeaseId, key: string, p: Pid) {
    Quiet(s, run, id, key) && forall i :: 0 <= i < |run| ==> LeavesAlone(run[i], p)
  }

  lemma {:induction false} UnderwayStep(s: State, l: Label, p: Pid, c: Call, id: LeaseId, key: string, n: nat)
    requires Inv(s) && Underway(s, p, c, key, n) && ParseSnapshotKey(key).Some? && (c.PrepareAdd? ==> c.id == id)
    requires Step(s, l).Some? && Spares(s, l, id, key) && LeavesAlone(l, p)
    ensures Underway(Step(s, l).value, p, c, key, n)
  {
    CallStays(s, l, p);
    NoListingStays(s, l, key);
    if c.PrepareCreate? { LiveStays(s, l, key, n); }
    if c.PrepareAdd? {
      assert Completing(s.calls[p]) == Some(c.id);
      assert l.DoCleanup? && l.p in s.calls ==> Completing(s.calls[l.p]) != Some(c.id);
      StepKeeps(s, l, c.id, key, n);
      SafeStays(s, l, c.id, key);
    }
  }

  lemma {:induction false} UnderwayOverRun(s: State, run: seq<Label>, p: Pid, c: Call, id: LeaseId, key: string, n: nat)
    requires Inv(s) && Underway(s, p, c, key, n) && ParseSnapshotKey(key).Some? && (c.PrepareAdd? ==> c.id == id)
    requires Waiting(s, run, id, key, p)
    ensures Run(s, run).Some? && Inv(Run(s, run).value) && Underway(Run(s, run).value, p, c, key, n)
    decreases |run|
  {
    if run != [] {
      UnderwayStep(s, run[0], p, c, id, key, n);
      StepKeepsInv(s, run[0]);
      UnderwayOverRun(Step(s, run[0]).value, run[1..], p, c, id, key, n);
    }
  }

  lemma {:induction false} PrepareStarts(s: State, p: Pid, key: string, parent: string, n: nat)
    requires NoListing(s, key) && Step(s, StartPrepare(p, key, parent)).Some?
    ensures Underway(Step(s, StartPrepare(p, key, parent)).value, p, PrepareLocal(key, parent), key, n)
  {
  }

  lemma {:induction false} PrepareCreates(s: State, p: Pid, key: string, parent: string)
    requires PinFor(key, parent).Some? && Underway(s, p, PrepareLocal(key, parent), key, s.created)
    requires Step(s, DoPrepareLocal(p, true)).Some?
    ensures Underway(Step(s, DoPrepareLocal(p, true)).value, p, PrepareCreate(key, PinFor(key, parent).value, Some(s.created)), key, s.created)
  {
  }

  // A number not handed out yet is on no list.
  lemma {:induction false} FreshUnlisted(s: State)
    requires Inv(s)
    ensures Unlisted(s, s.issued)
  {
    forall p | p in s.calls ensures s.issued !in Todo(s.calls[p]) {
      assert CallOk(s, s.calls[p]);
      assert s.issued in Todo(s.calls[p]) ==> Listed(s, s.issued, s.calls[p].key);
    }
  }

  lemma {:induction false} PrepareLeases(s: State, p: Pid, key: string, pin: Pin, n: nat)
    requires Underway(s, p, PrepareCreate(key, pin, Some(n)), key, n) && Unlisted(s, s.issued) && Step(s, DoCreate(p, true)).Some?
    ensures Underway(Step(s, DoCreate(p, true)).value, p, PrepareAdd(s.issued, Layer(pin.ns, pin.chain)), key, n)
  {
  }

  lemma {:induction false} PreparePins(s: State, p: Pid, id: LeaseId, layer: Layer, key: string, n: nat)
    requires Underway(s, p, PrepareAdd(id, layer), key, n) && Step(s, DoAdd(p, true)).Some?
    ensures Held(Step(s, DoAdd(p, true)).value, id, key, n, layer)
  {
  }

  /**
   Pin lifetime.  A Prepare that starts while no Remove of its key is still to list leases,
   creates the key and pins its parent layer holds that pin after every later run that ends
   neither the key nor the lease: sweeps, restarts, other Prepares and Removes, Removes of the
   same key that are past their listing, reused keys and failing calls included.  Every chain
   of layers below the pinned one that was on the host when it was pinned is still there.
   */
  lemma {:induction false} PinLasts(
    start: State, before: seq<Label>, p: Pid, key: string, parent: string, pin: Pin,
    run1: seq<Label>, run2: seq<Label>, run3: seq<Label>, run4: seq<Label>,
    s0: State, s1: State, s2: State, s3: State, s4: State, s5: State, s6: State, s7: State, chain: seq<Layer>)
    requires Init(start) && Run(start, before) == Some(s0)
    requires NoListing(s0, key) && PinFor(key, parent) == Some(pin)
    requires Step(s0, StartPrepare(p, key, parent)) == Some(s1)
    requires Waiting(s1, run1, s4.issued, key, p) && Run(s1, run1) == Some(s2) && Step(s2, DoPrepareLocal(p, true)) == Some(s3)
    requires Waiting(s3, run2, s4.issued, key, p) && Run(s3, run2) == Some(s4) && Step(s4, DoCreate(p, true)) == Some(s5)
    requires Waiting(s5, run3, s4.issued, key, p) && Run(s5, run3) == Some(s6) && Step(s6, DoAdd(p, true)) == Some(s7)
    requires Quiet(s7, run4, s4.issued, key) && ChainFrom(s7, Layer(pin.ns, pin.chain), chain)
    ensures Run(s7, run4).Some?
    ensures var t := Run(s7, run4).value;
            Held(t, s4.issued, key, s2.created, Layer(pin.ns, pin.chain)) && SameLayers(s7, t, chain)
  {
    var n, id, layer := s2.created, s4.issued, Layer(pin.ns, pin.chain);
    InitHasInv(start);
    RunKeepsInv(start, before);
    StepKeepsInv(s0, StartPrepare(p, key, parent));
    PrepareStarts(s0, p, key, parent, n);
    UnderwayOverRun(s1, run1, p, PrepareLocal(key, parent), id, key, n);
    StepKeepsInv(s2, DoPrepareLocal(p, true));
    PrepareCreates(s2, p, key, parent);
    UnderwayOverRun(s3, run2, p, PrepareCreate(key, pin, Some(n)), id, key, n);
    StepKeepsInv(s4, DoCreate(p, true));
    FreshUnlisted(s4);
    PrepareLeases(s4, p, key, pin, n);
    UnderwayOverRun(s5, run3, p, PrepareAdd(id, layer), id, key, n);
    StepKeepsInv(s6, DoAdd(p, true));
    PreparePins(s6, p, id, layer, key, n);
    HeldOverRun(s7, run4, id, key, n, layer, chain);
  }

  // ------------------------------------------------------ pins that happen, and are lost

  lemma {:induction false} RunCons(s: State, l: Label, rest: seq<Label>)
    requires Step(s, l).Some?
    ensures Run(s, [l] + rest) == Run(Step(s, l).value, rest)
  {
    assert ([l] + rest)[1..] == rest;
  }

  lemma {:induction false} RunTwo(s: State, l: Label, m: Label, t: State, u: State)
    requires Step(s, l) == Some(t) && Step(t, m) == Some(u)
    ensures Run(s, [l, m]) == Some(u)
  {
    assert [l, m] == [l] + ([m] + []);
    RunCons(s, l, [m] + []);
    RunCons(t, m, []);
  }

  lemma {:induction false} RunAppend(s: State, first: seq<Label>, second: seq<Label>)
    requires Run(s, first).Some?
    ensures Run(s, first + second) == Run(Run(s, first).value, second)
    decreases |first|
  {
    if first == [] {
      assert first + second == second;
    } else {
      assert (first + second)[1..] == first[1..] + second;
      RunAppend(Step(s, first[0]).value, first[1..], second);
    }
  }

  /** A Prepare that nothing disturbs. */
  function PrepareRun(p: Pid, key: string, parent: string): seq<Label> {
    [StartPrepare(p, key, parent), DoPrepareLocal(p, true)] + [DoCreate(p, true), DoAdd(p, true)]
  }

  lemma {:induction false} StartsAlone(s: State, p: Pid, key: string, parent: string)
    requires p !in s.calls
    ensures Step(s, StartPrepare(p, key, parent)) == Some(With(s, p, PrepareLocal(key, parent)))
  {
  }

  // The state once the key has been created for the Prepare.
  function Created(s: State, p: Pid, key: string, pin: Pin): State {
    With(CreateKey(s, key), p, PrepareCreate(key, pin, Some(s.created)))
  }

  lemma {:induction false} CreatedOver(s: State, p: Pid, key: string, pin: Pin, c: Call)
    ensures Created(With(s, p, c), p, key, pin) == Created(s, p, key, pin)
  {
    var d := PrepareCreate(key, pin, Some(s.created));
    assert s.calls[p := c][p := d] == s.calls[p := d];
  }

  lemma {:induction false} LocalAlone(s: State, p: Pid, key: string, parent: string)
    requires p in s.calls && s.calls[p] == PrepareLocal(key, parent) && key !in s.local && PinFor(key, parent).Some?
    ensures Step(s, DoPrepareLocal(p, true)) == Some(Created(s, p, key, PinFor(key, parent).value))
  {
  }

  lemma {:induction false} CreatesAlone(s: State, p: Pid, key: string, parent: string)
    requires p !in s.calls && key !in s.local && PinFor(key, parent).Some?
    ensures Run(s, [StartPrepare(p, key, parent), DoPrepareLocal(p, true)]) == Some(Created(s, p, key, PinFor(key, parent).value))
  {
    var c, pin := PrepareLocal(key, parent), PinFor(key, parent).value;
    StartsAlone(s, p, key, parent);
    LocalAlone(With(s, p, c), p, key, parent);
    CreatedOver(s, p, key, pin, c);
    RunTwo(s, StartPrepare(p, key, parent), DoPrepareLocal(p, true), With(s, p, c), Created(s, p, key, pin));
  }

  // The state once the Prepare has leased and pinned.
  function Leased(s: State, p: Pid, key: string, pin: Pin, n: nat): State {
    var lease := Lease(pin.ns, true, key, Some(Layer(pin.ns, pin.chain)), Some(n));
    With(s.(leases := s.leases[s.issued := lease], issued := s.issued + 1), p, PrepareInc)
  }

  lemma {:induction false} PinsAlone(s: State, p: Pid, key: string, pin: Pin, n: nat)
    requires p in s.calls && s.calls[p] == PrepareCreate(key, pin, Some(n))
    ensures Run(s, [DoCreate(p, true), DoAdd(p, true)]) == Some(Leased(s, p, key, pin, n))
  {
    var empty := Lease(pin.ns, true, key, None, Some(n));
    var lease := empty.(resource := Some(Layer(pin.ns, pin.chain)));
    assert s.leases[s.issued := empty][s.issued := lease] == s.leases[s.issued := lease];
    assert s.calls[p := PrepareAdd(s.issued, Layer(pin.ns, pin.chain))][p := PrepareInc] == s.calls[p := PrepareInc];
    RunTwo(s, DoCreate(p, true), DoAdd(p, true), Step(s, DoCreate(p, true)).value, Leased(s, p, key, pin, n));
  }

  lemma {:induction false} LeasedIsPinned(s: State, p: Pid, key: string, pin: Pin)
    requires key !in s.local
    ensures var t := Leased(Created(s, p, key, pin), p, key, pin, s.created);
            Pinned(t, s.issued, key, s.created, Layer(pin.ns, pin.chain)) && t.calls == s.calls[p := PrepareInc]
  {
  }

  /** Such pins happen: an undisturbed Prepare of a new key that pins goes through, whatever other calls there are. */
  lemma {:induction false} PinHappens(s: State, p: Pid, key: string, parent: string)
    requires p !in s.calls && key !in s.local && PinFor(key, parent).Some?
    ensures var pin, t := PinFor(key, parent).value, Run(s, PrepareRun(p, key, parent));
            && t.Some? && Pinned(t.value, s.issued, key, s.created, Layer(pin.ns, pin.chain))
            && t.value.calls == s.calls[p := PrepareInc]
  {
    var pin := PinFor(key, parent).value;
    CreatesAlone(s, p, key, parent);
    PinsAlone(Created(s, p, key, pin), p, key, pin, s.created);
    RunAppend(s, [StartPrepare(p, key, parent), DoPrepareLocal(p, true)], [DoCreate(p, true), DoAdd(p, true)]);
    LeasedIsPinned(s, p, key, pin);
  }

  // The Remove's own drop of the key, if it is still to come.
  function DropFirst(s: State, q: Pid): seq<Label>
    requires q in s.calls
  {
    if s.calls[q].RemoveLocal? then [DoRemoveLocal(q, s.calls[q].key in s.local)] else []
  }

  lemma {:induction false} DropHappens(s: State, q: Pid, key: string, ns: string)
    requires q in s.calls && UnpinNamespace(key) == Some(ns)
    requires s.calls[q] == RemoveLocal(key) || (s.calls[q] == RemoveList(key, ns) && key !in s.local)
    ensures var t := Run(s, DropFirst(s, q));
            t.Some? && key !in t.value.local && t.value.calls == s.calls[q := RemoveList(key, ns)]
            && t.value.issued == s.issued && t.value.created == s.created
  {
    if s.calls[q].RemoveLocal? {
      var l := DoRemoveLocal(q, key in s.local);
      RunCons(s, l, []);
      assert [l] + [] == [l];
    } else {
      assert s.calls[q := RemoveList(key, ns)] == s.calls;
    }
  }

  /**
   The condition on Removes is needed, for every key that pins and in every state: while a
   Remove is still to list the key's leases, a Prepare that creates the key and pins loses its
   pin to that Remove, in a run that spares key and lease.
   */
  lemma {:induction false} RacingRemoveUnpins(s: State, p: Pid, q: Pid, key: string, parent: string)
    requires Inv(s) && p !in s.calls && q in s.calls && PinFor(key, parent).Some?
    requires s.calls[q] == RemoveLocal(key) || (s.calls[q].RemoveList? && s.calls[q].key == key && key !in s.local)
    ensures var pin, held := PinFor(key, parent).value, Run(s, DropFirst(s, q) + PrepareRun(p, key, parent));
            && held.Some? && Pinned(held.value, s.issued, key, s.created, Layer(pin.ns, pin.chain))
            && q in held.value.calls && Loses(held.value, Finishing(held.value, q, s.issued), s.issued, key)
  {
    var pin := PinFor(key, parent).value;
    assert CallOk(s, s.calls[q]);
    var first, rest := DropFirst(s, q), PrepareRun(p, key, parent);
    DropHappens(s, q, key, pin.ns);
    var u := Run(s, first).value;
    PinHappens(u, p, key, parent);
    RunAppend(s, first, rest);
    var held := Run(s, first + rest).value;
    RunKeepsInv(s, first + rest);
    ThreatLoses(held, q, s.issued, key, s.created);
  }
}
