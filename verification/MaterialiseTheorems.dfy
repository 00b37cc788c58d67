/** What materialisation guarantees over every run. */
module MaterialiseTheorems {
  import opened Wrappers
  import opened SnapshotKeys
  import opened Materialise
  import opened MaterialiseInv

  /** The text of a key and its classification determine each other. */
  lemma {:induction false} NamesAreKeys(n: Name, key: string)
    ensures Text(NameOf(key)) == key
    ensures n.Temp? || !(TEMP <= n.key) ==> NameOf(Text(n)) == n
    ensures IsChainId(key) ==> NameOf(key) == Named(key)
    ensures n.Temp? ==> Text(n) == "pv-snapshotter-ref-tmp-" + n.chain
  {
    if TEMP <= key {
      assert key[0] == TEMP[0];
    }
  }

  /** No step of a call succeeds where the snapshotter it asks would have to refuse. */
  lemma {:induction false} SuccessesAreReal(s: State, p: Pid, bad: bool)
    requires CallStep(s, p, true, bad).Some?
    ensures var c := s.calls[p];
            if c.Entry? then c.key in s.local
            else
              var tmp, name := Temp(c.layer.chain), Named(c.layer.chain);
              match c.pc
              case HostStat => c.layer in s.host
              case View => c.layer in s.host && c.layer !in s.views
              case Unview => c.layer in s.views
              case UnviewBad => c.layer in s.views
              case Lock => s.lock == None
              case Recheck => name in s.local
              case Parent => c.layer in s.host
              case Prepare => tmp !in s.local && (c.parent == "" || (Named(c.parent) in s.local && !s.local[Named(c.parent)].active))
              case Mounts => tmp in s.local && s.local[tmp].parent != ""
              case Symlink => tmp in s.local
              case Commit => tmp in s.local && name !in s.local
              case Cleanup => tmp in s.local
              case Final => name in s.local
  {
  }

  // ------------------------------------------------------------- exclusive use

  /** No two calls are past the lock at once, so no two calls own a temporary key. */
  lemma {:induction false} TempHasOneOwner(start: State, run: seq<Label>, p: Pid, q: Pid)
    requires Init(start) && Run(start, run).Some?
    requires p in Run(start, run).value.calls && q in Run(start, run).value.calls
    requires Holds(Run(start, run).value.calls[p]) && Holds(Run(start, run).value.calls[q])
    ensures p == q
  {
    InitHasInv(start);
    RunKeepsInv(start, run);
  }

  /** A call that is past Prepare finds its temporary key in place: nobody else removes or commits it. */
  lemma {:induction false} OwnedTempPresent(start: State, run: seq<Label>, p: Pid)
    requires Init(start) && Run(start, run).Some?
    requires p in Run(start, run).value.calls && OwnsTemp(Run(start, run).value.calls[p])
    ensures var s := Run(start, run).value; var tmp := Temp(s.calls[p].layer.chain);
            tmp in s.local && s.local[tmp].active && s.local[tmp].parent == s.calls[p].parent
  {
    InitHasInv(start);
    RunKeepsInv(start, run);
    var s := Run(start, run).value;
    assert CallOk(s, s.calls[p]);
  }

  /** Every call between its View and its Remove owns the view it made. */
  predicate ViewsOwned(s: State) {
    forall p :: p in s.calls && OwnsView(s.calls[p]) ==> s.calls[p].layer in s.views && s.views[s.calls[p].layer] == p
  }

  // The step collects no probe view that a call is still using.
  predicate SparesViews(s: State, l: Label) {
    l.ViewGc? ==> forall p :: p in s.calls && OwnsView(s.calls[p]) ==> s.calls[p].layer != l.layer
  }

  predicate AllSpareViews(s: State, run: seq<Label>)
    decreases |run|
  {
    run == [] || (SparesViews(s, run[0]) && (Step(s, run[0]).Some? ==> AllSpareViews(Step(s, run[0]).value, run[1..])))
  }

  // A probing call changes only its own layer's view, and only its own.
  lemma {:induction false} ProbeViews(s: State, p: Pid, c: Call, ok: bool, bad: bool)
    requires Probing(c) && ProbeStep(s, p, c, ok, bad).Some?
    requires OwnsView(c) ==> c.layer in s.views && s.views[c.layer] == p
    ensures var e := ProbeStep(s, p, c, ok, bad).value;
            && (forall x :: x in s.views && s.views[x] != p ==> x in e.views && e.views[x] == s.views[x])
            && (e.next.Some? && OwnsView(e.next.value) ==> e.next.value.layer in e.views && e.views[e.next.value.layer] == p)
  {
  }

  lemma {:induction false} OthersLeaveViews(s: State, p: Pid, c: Call, ok: bool, bad: bool)
    requires !Probing(c) && CallEffect(s, p, c, ok, bad).Some?
    ensures var e := CallEffect(s, p, c, ok, bad).value; e.views == s.views && (e.next.Some? ==> !OwnsView(e.next.value))
  {
  }

  lemma {:induction false} MoveKeepsViews(s: State, p: Pid, e: Effect)
    requires ViewsOwned(s) && p in s.calls
    requires forall x :: x in s.views && s.views[x] != p ==> x in e.views && e.views[x] == s.views[x]
    requires e.next.Some? && OwnsView(e.next.value) ==> e.next.value.layer in e.views && e.views[e.next.value.layer] == p
    ensures ViewsOwned(After(s, p, e))
  {
  }

  lemma {:induction false} CallKeepsViews(s: State, p: Pid, ok: bool, bad: bool)
    requires ViewsOwned(s) && CallStep(s, p, ok, bad).Some?
    ensures ViewsOwned(CallStep(s, p, ok, bad).value)
  {
    var c := s.calls[p];
    if Probing(c) { ProbeViews(s, p, c, ok, bad); } else { OthersLeaveViews(s, p, c, ok, bad); }
    MoveKeepsViews(s, p, CallEffect(s, p, c, ok, bad).value);
  }

  /** A step keeps the ownership of views exactly when it collects none in use. */
  lemma {:induction false} StepKeepsViews(s: State, l: Label)
    requires ViewsOwned(s) && Step(s, l).Some?
    ensures ViewsOwned(Step(s, l).value) <==> SparesViews(s, l)
  {
    if l.Go? { CallKeepsViews(s, l.p, l.ok, l.bad); }
  }

  /** Only a view's creator removes it, as long as host collection spares views in use. */
  lemma {:induction false} ViewHasOneOwner(s: State, run: seq<Label>)
    requires ViewsOwned(s) && Run(s, run).Some? && AllSpareViews(s, run)
    ensures ViewsOwned(Run(s, run).value)
    decreases |run|
  {
    if run != [] {
      StepKeepsViews(s, run[0]);
      ViewHasOneOwner(Step(s, run[0]).value, run[1..]);
    }
  }

  lemma {:induction false} OnlyCreatorRemoves(start: State, run: seq<Label>, l: Label, layer: Layer)
    requires Init(start) && Run(start, run).Some? && AllSpareViews(start, run)
    requires l.Go? && Step(Run(start, run).value, l).Some?
    requires layer in Run(start, run).value.views && layer !in Step(Run(start, run).value, l).value.views
    ensures Run(start, run).value.views[layer] == l.p
  {
    var s := Run(start, run).value;
    ViewHasOneOwner(start, run);
    var c := s.calls[l.p];
    if Probing(c) { ProbeViews(s, l.p, c, l.ok, l.bad); } else { OthersLeaveViews(s, l.p, c, l.ok, l.bad); }
  }

  // ------------------------------------------------------- a view left behind

  /** A probe view that no call will remove. */
  predicate StaleView(s: State, layer: Layer) {
    layer in s.views && forall p :: p in s.calls && OwnsView(s.calls[p]) ==> s.calls[p].layer != layer
  }

  lemma {:induction false} ProbeKeepsStale(s: State, p: Pid, c: Call, ok: bool, bad: bool, layer: Layer)
    requires Probing(c) && ProbeStep(s, p, c, ok, bad).Some? && layer in s.views && (OwnsView(c) ==> c.layer != layer)
    ensures var e := ProbeStep(s, p, c, ok, bad).value;
            layer in e.views && (e.next.Some? && OwnsView(e.next.value) ==> e.next.value.layer != layer)
  {
  }

  lemma {:induction false} CallKeepsStale(s: State, p: Pid, ok: bool, bad: bool, layer: Layer)
    requires StaleView(s, layer) && CallStep(s, p, ok, bad).Some?
    ensures StaleView(CallStep(s, p, ok, bad).value, layer)
  {
    var c := s.calls[p];
    if Probing(c) { ProbeKeepsStale(s, p, c, ok, bad, layer); } else { OthersLeaveViews(s, p, c, ok, bad); }
  }

  /** Only the host's collection clears a stale view. */
  lemma {:induction false} StepKeepsStale(s: State, l: Label, layer: Layer)
    requires StaleView(s, layer) && Step(s, l).Some?
    ensures StaleView(Step(s, l).value, layer) <==> l != ViewGc(layer)
  {
    if l.Go? { CallKeepsStale(s, l.p, l.ok, l.bad, layer); }
  }

  /** Until it is collected, no later probe of its layer gets a view. */
  lemma {:induction false} StaleViewBlocks(s: State, run: seq<Label>, layer: Layer)
    requires StaleView(s, layer) && Run(s, run).Some? && forall i :: 0 <= i < |run| ==> run[i] != ViewGc(layer)
    ensures StaleView(Run(s, run).value, layer)
    decreases |run|
  {
    if run != [] {
      StepKeepsStale(s, run[0], layer);
      StaleViewBlocks(Step(s, run[0]).value, run[1..], layer);
    }
  }

  /** Stale views arise from a failed removal, and from a restart while a view is in use. */
  lemma {:induction false} StaleViewArises(s: State, l: Label, p: Pid)
    requires ViewsOwned(s) && p in s.calls && OwnsView(s.calls[p])
    requires l.Restart? || (l.Go? && l.p == p && !l.ok)
    ensures Step(s, l).Some? && StaleView(Step(s, l).value, s.calls[p].layer)
  {
    forall q | q in s.calls && q != p && OwnsView(s.calls[q]) ensures s.calls[q].layer != s.calls[p].layer {
      assert s.views[s.calls[q].layer] == q && s.views[s.calls[p].layer] == p;
    }
  }

  // ------------------------------------------------- one commit between removals

  predicate CommitsAs(s: State, l: Label, chain: string) {
    || (l.CommitTo? && l.name == chain)
    || (l.Go? && l.ok && l.p in s.calls && s.calls[l.p].Work? && s.calls[l.p].pc.Commit? && s.calls[l.p].layer.chain == chain)
  }

  function Bit(b: bool): int { if b then 1 else 0 }

  /** Commits of a chain ID in a run, by any Stat call or unpack. */
  function Commits(s: State, run: seq<Label>, chain: string): int
    decreases |run|
  {
    if run == [] || Step(s, run[0]).None? then 0
    else Bit(CommitsAs(s, run[0], chain)) + Commits(Step(s, run[0]).value, run[1..], chain)
  }

  // The name leaves the store: removed, or an active snapshot of that key committed under another name.
  predicate Leaves(l: Label, name: string) { l == Drop(name) || (l.CommitTo? && l.key == name) }

  function Departures(run: seq<Label>, name: string): int {
    if run == [] then 0 else Bit(Leaves(run[0], name)) + Departures(run[1..], name)
  }

  // An active snapshot made under the name itself.
  function Unpacks(run: seq<Label>, name: string): int {
    if run == [] then 0 else Bit(run[0].Unpack? && run[0].key == name) + Unpacks(run[1..], name)
  }

  lemma {:induction false} BuildLedger(s: State, l: Label, chain: string)
    requires l.Go? && l.p in s.calls && Building(s.calls[l.p]) && Step(s, l).Some?
    ensures Bit(Named(chain) in Step(s, l).value.local) == Bit(Named(chain) in s.local) + Bit(CommitsAs(s, l, chain))
  {
  }

  lemma {:induction false} CommitLedgerStep(s: State, l: Label, chain: string)
    requires Step(s, l).Some?
    ensures Bit(Named(chain) in Step(s, l).value.local)
            == Bit(Named(chain) in s.local) + Bit(CommitsAs(s, l, chain)) + Bit(l.Unpack? && l.key == chain) - Bit(Leaves(l, chain))
  {
    if l.Go? && Building(s.calls[l.p]) { BuildLedger(s, l, chain); }
  }

  /** Commits and unpacks of a name minus its departures is its presence: between two commits of a chain ID it has left. */
  lemma {:induction false} CommitLedger(s: State, run: seq<Label>, chain: string)
    requires Run(s, run).Some?
    ensures Commits(s, run, chain) + Unpacks(run, chain) - Departures(run, chain)
            == Bit(Named(chain) in Run(s, run).value.local) - Bit(Named(chain) in s.local)
    decreases |run|
  {
    if run != [] {
      CommitLedgerStep(s, run[0], chain);
      CommitLedger(Step(s, run[0]).value, run[1..], chain);
    }
  }

  // --------------------------------------------------------- agreeing answers

  /** Over every run, two successful Stats of one snapshot gave the same answer. */
  lemma {:induction false} StatsAgree(start: State, run: seq<Label>, a: Answer, b: Answer)
    requires Init(start) && Run(start, run).Some?
    requires a in Run(start, run).value.answers && b in Run(start, run).value.answers
    requires a.key == b.key && a.info.serial == b.info.serial
    ensures a == b
  {
    InitHasInv(start);
    RunKeepsInv(start, run);
  }

  // New answers about the key are the ones its snapshot gives, and the snapshot stays.
  predicate Steady(s: State, t: State, key: Name) {
    && key in s.local && key in t.local && InfoOf(t.local[key]) == InfoOf(s.local[key])
    && s.answers <= t.answers
    && forall a :: a in t.answers && a.key == key ==> a in s.answers || a.info == InfoOf(s.local[key])
  }

  lemma {:induction false} BuildSteady(s: State, p: Pid, c: Call, ok: bool, bad: bool, key: string)
    requires Named(key) in s.local && Building(c) && BuildStep(s, c, ok, bad).Some?
    ensures Steady(s, After(s, p, BuildStep(s, c, ok, bad).value), Named(key))
  {
  }

  lemma {:induction false} ReadSteady(s: State, p: Pid, c: Call, ok: bool, bad: bool, key: string)
    requires Named(key) in s.local && !Building(c) && CallEffect(s, p, c, ok, bad).Some?
    ensures Steady(s, After(s, p, CallEffect(s, p, c, ok, bad).value), Named(key))
  {
  }

  lemma {:induction false} StepSteady(s: State, l: Label, key: string)
    requires Named(key) in s.local && Step(s, l).Some? && !Leaves(l, key)
    ensures Steady(s, Step(s, l).value, Named(key))
  {
    if l.Go? {
      var c := s.calls[l.p];
      if Building(c) { BuildSteady(s, l.p, c, l.ok, l.bad, key); } else { ReadSteady(s, l.p, c, l.ok, l.bad, key); }
    }
  }

  /** While a snapshot is neither removed nor renamed, every successful Stat of its key answers what the first one did. */
  lemma {:induction false} StatsAgreeUntilDrop(s: State, run: seq<Label>, key: string)
    requires Named(key) in s.local && Run(s, run).Some? && forall i :: 0 <= i < |run| ==> !Leaves(run[i], key)
    ensures Steady(s, Run(s, run).value, Named(key))
    decreases |run|
  {
    if run != [] {
      StepSteady(s, run[0], key);
      StatsAgreeUntilDrop(Step(s, run[0]).value, run[1..], key);
    }
  }

  // ------------------------------------------------------------ failed attempts

  // Call p is building over the store `base`: its temporary key is all that differs.
  predicate BuildsOver(s: State, p: Pid, base: map<Name, Snapshot>) {
    && p in s.calls && Building(s.calls[p])
    && (s.calls[p].pc.Prepare? ==> s.local == base)
    && (OwnsTemp(s.calls[p]) ==> DifferInTemp(s.local, Temp(s.calls[p].layer.chain), base))
  }

  // Call p neither commits nor fails to clean up, and the process lives on.
  predicate AttemptFails(s: State, l: Label, p: Pid) {
    && !l.Restart?
    && (l.Go? && l.p == p && p in s.calls && s.calls[p].Work? ==>
          (s.calls[p].pc.Commit? ==> !l.ok) && (s.calls[p].pc.Cleanup? ==> l.ok))
  }

  lemma {:induction false} PrepareOverBase(s: State, p: Pid, ok: bool, bad: bool, base: map<Name, Snapshot>)
    requires BuildsOver(s, p, base) && s.calls[p].pc.Prepare? && CallStep(s, p, ok, bad).Some?
    ensures var t := CallStep(s, p, ok, bad).value; if p in t.calls then BuildsOver(t, p, base) else t.local == base
  {
    if ok { assert CallStep(s, p, ok, bad).value.local - {Temp(s.calls[p].layer.chain)} == s.local; }
  }

  lemma {:induction false} OwnStepOverBase(s: State, p: Pid, ok: bool, bad: bool, base: map<Name, Snapshot>)
    requires BuildsOver(s, p, base) && CallStep(s, p, ok, bad).Some? && AttemptFails(s, Go(p, ok, bad), p)
    ensures var t := CallStep(s, p, ok, bad).value; if p in t.calls then BuildsOver(t, p, base) else t.local == base
  {
    if s.calls[p].pc.Prepare? {
      PrepareOverBase(s, p, ok, bad, base);
    } else if s.calls[p].pc.Symlink? {
      var tmp := Temp(s.calls[p].layer.chain);
      assert CallStep(s, p, ok, bad).value.local - {tmp} == s.local - {tmp};
    }
  }

  lemma {:induction false} ReadsLeaveStore(s: State, p: Pid, c: Call, ok: bool, bad: bool)
    requires !Building(c) && CallEffect(s, p, c, ok, bad).Some?
    ensures CallEffect(s, p, c, ok, bad).value.local == s.local
  {
  }

  // A step by containerd on the local store.
  predicate Outside(l: Label) { l.Unpack? || l.CommitTo? || l.Drop? }

  /** What a step makes of the store `base` when the attempt is not there: containerd's steps act on it, calls leave it alone. */
  function AloneStep(s: State, l: Label, base: map<Name, Snapshot>): map<Name, Snapshot> {
    var t := EnvStep(s.(local := base), l);
    if Outside(l) && t.Some? then t.value.local else base
  }

  // The store and `base` differ in the temporary key only.
  predicate DifferInTemp(local: map<Name, Snapshot>, tmp: Name, base: map<Name, Snapshot>) {
    tmp.Temp? && tmp in local && tmp !in base && local - {tmp} == base
  }

  lemma {:induction false} SameElsewhere(local: map<Name, Snapshot>, tmp: Name, base: map<Name, Snapshot>, k: Name)
    requires DifferInTemp(local, tmp, base) && k != tmp
    ensures (k in local <==> k in base) && (k in base ==> local[k] == base[k])
  {
  }

  lemma {:induction false} UnpackAside(s: State, l: Label, tmp: Name, base: map<Name, Snapshot>)
    requires l.Unpack? && Step(s, l).Some? && DifferInTemp(s.local, tmp, base)
    ensures EnvStep(s.(local := base), l).Some? && DifferInTemp(Step(s, l).value.local, tmp, AloneStep(s, l, base))
  {
    SameElsewhere(s.local, tmp, base, Named(l.key));
    SameElsewhere(s.local, tmp, base, Named(l.parent));
    assert s.local[Named(l.key) := NewSnapshot(s, l.parent)] - {tmp} == base[Named(l.key) := NewSnapshot(s, l.parent)];
  }

  lemma {:induction false} CommitAside(s: State, l: Label, tmp: Name, base: map<Name, Snapshot>)
    requires l.CommitTo? && Step(s, l).Some? && DifferInTemp(s.local, tmp, base)
    ensures EnvStep(s.(local := base), l).Some? && DifferInTemp(Step(s, l).value.local, tmp, AloneStep(s, l, base))
  {
    SameElsewhere(s.local, tmp, base, Named(l.key));
    SameElsewhere(s.local, tmp, base, Named(l.name));
    assert Committed(s, Named(l.name), Named(l.key)) - {tmp} == Committed(s.(local := base), Named(l.name), Named(l.key));
  }

  lemma {:induction false} DropAside(s: State, l: Label, tmp: Name, base: map<Name, Snapshot>)
    requires l.Drop? && Step(s, l).Some? && DifferInTemp(s.local, tmp, base)
    ensures EnvStep(s.(local := base), l).Some? && DifferInTemp(Step(s, l).value.local, tmp, AloneStep(s, l, base))
  {
    SameElsewhere(s.local, tmp, base, Named(l.key));
    forall k | k in base ensures base[k].parent != l.key { SameElsewhere(s.local, tmp, base, k); }
    assert s.local - {Named(l.key)} - {tmp} == base - {Named(l.key)};
  }

  // Containerd's step is possible with and without the temporary key, and to the same effect.
  lemma {:induction false} OutsideStep(s: State, l: Label, tmp: Name, base: map<Name, Snapshot>)
    requires Outside(l) && Step(s, l).Some? && DifferInTemp(s.local, tmp, base)
    ensures EnvStep(s.(local := base), l).Some? && DifferInTemp(Step(s, l).value.local, tmp, AloneStep(s, l, base))
  {
    if l.Unpack? { UnpackAside(s, l, tmp, base); }
    else if l.CommitTo? { CommitAside(s, l, tmp, base); }
    else { DropAside(s, l, tmp, base); }
  }

  lemma {:induction false} SameBase(s: State, l: Label)
    requires Outside(l) && Step(s, l).Some?
    ensures EnvStep(s.(local := s.local), l) == Step(s, l)
  {
    assert s.(local := s.local) == s;
  }

  lemma {:induction false} StepOverBase(s: State, l: Label, p: Pid, base: map<Name, Snapshot>)
    requires Inv(s) && BuildsOver(s, p, base) && Step(s, l).Some? && AttemptFails(s, l, p)
    ensures var t, alone := Step(s, l).value, AloneStep(s, l, base);
            if p in t.calls then BuildsOver(t, p, alone) else t.local == alone
    ensures Outside(l) ==> EnvStep(s.(local := base), l).Some?
  {
    var t := Step(s, l).value;
    if l.Go? && l.p == p {
      OwnStepOverBase(s, p, l.ok, l.bad, base);
    } else if l.Go? {
      assert !Building(s.calls[l.p]);
      ReadsLeaveStore(s, l.p, s.calls[l.p], l.ok, l.bad);
      assert p in t.calls && t.calls[p] == s.calls[p];
    } else if Outside(l) {
      if s.calls[p].pc.Prepare? { SameBase(s, l); } else { OutsideStep(s, l, Temp(s.calls[p].layer.chain), base); }
    }
  }

  predicate AttemptRuns(s: State, run: seq<Label>, p: Pid)
    decreases |run|
  {
    run == [] || (p in s.calls && AttemptFails(s, run[0], p) && Step(s, run[0]).Some? && AttemptRuns(Step(s, run[0]).value, run[1..], p))
  }

  /** What the run makes of the store `base` without the attempt. */
  function AloneRun(s: State, run: seq<Label>, base: map<Name, Snapshot>): map<Name, Snapshot>
    decreases |run|
  {
    if run == [] || Step(s, run[0]).None? then base
    else AloneRun(Step(s, run[0]).value, run[1..], AloneStep(s, run[0], base))
  }

  /** Each of containerd's steps in the run could also be taken without the attempt. */
  ghost predicate AllAlone(s: State, run: seq<Label>, base: map<Name, Snapshot>)
    decreases |run|
  {
    run == [] || Step(s, run[0]).None?
    || ((Outside(run[0]) ==> EnvStep(s.(local := base), run[0]).Some?) && AllAlone(Step(s, run[0]).value, run[1..], AloneStep(s, run[0], base)))
  }

  /**
   A failed attempt leaves the local store as it would be without it: from a call's Prepare to
   its return without a commit, with a cleanup that works if one is needed, and with any
   Stat calls, unpacks, commits, removals and host changes in between.
   */
  lemma {:induction false} FailedAttemptRestores(s: State, run: seq<Label>, p: Pid, base: map<Name, Snapshot>)
    requires Inv(s) && BuildsOver(s, p, base) && AttemptRuns(s, run, p)
    ensures Run(s, run).Some?
    ensures var t, alone := Run(s, run).value, AloneRun(s, run, base);
            if p in t.calls then BuildsOver(t, p, alone) else t.local == alone
    ensures AllAlone(s, run, base)
    decreases |run|
  {
    if run != [] {
      var t := Step(s, run[0]).value;
      StepKeepsInv(s, run[0]);
      StepOverBase(s, run[0], p, base);
      if p in t.calls {
        FailedAttemptRestores(t, run[1..], p, AloneStep(s, run[0], base));
      } else {
        assert run[1..] == [];
      }
    }
  }

  /** Every temporary key belongs to the call that holds the lock. */
  predicate TempsOwned(s: State) {
    forall k :: k in s.local && k.Temp? ==>
      s.lock.Some? && s.lock.value in s.calls && OwnsTemp(s.calls[s.lock.value]) && s.calls[s.lock.value].layer.chain == k.chain
  }

  predicate HasTemp(s: State) { exists k :: k in s.local && k.Temp? }

  /** The step abandons a temporary key: a cleanup that fails, or a restart while there is one. */
  predicate LeavesTemp(s: State, l: Label) {
    || (l.Restart? && HasTemp(s))
    || (l.Go? && !l.ok && l.p in s.calls && s.calls[l.p].Work? && s.calls[l.p].pc.Cleanup?)
  }

  lemma {:induction false} BuildKeepsTemps(s: State, p: Pid, ok: bool, bad: bool)
    requires LockOk(s) && TempsOwned(s) && p in s.calls && Building(s.calls[p]) && CallStep(s, p, ok, bad).Some?
    requires s.calls[p].pc.Cleanup? ==> ok
    ensures TempsOwned(CallStep(s, p, ok, bad).value)
  {
    var c, t := s.calls[p], CallStep(s, p, ok, bad).value;
    BuildTemps(s, p, c, ok, bad);
    forall k | k in t.local && k.Temp?
      ensures t.lock.Some? && t.lock.value in t.calls && OwnsTemp(t.calls[t.lock.value]) && t.calls[t.lock.value].layer.chain == k.chain
    {
    }
  }

  // What a building call does to temporary keys: it has its own as long as it goes on past Prepare, and touches no other.
  lemma {:induction false} BuildTemps(s: State, p: Pid, c: Call, ok: bool, bad: bool)
    requires Building(c) && BuildStep(s, c, ok, bad).Some? && (c.pc.Cleanup? ==> ok)
    ensures var e := BuildStep(s, c, ok, bad).value;
            && (forall k :: k in e.local && k.Temp? && k != Temp(c.layer.chain) ==> k in s.local)
            && (e.next.Some? ==> e.lock == s.lock && e.next.value.Work? && e.next.value.layer == c.layer)
            && (Temp(c.layer.chain) in e.local && (OwnsTemp(c) || Temp(c.layer.chain) !in s.local) ==>
                  e.next.Some? && OwnsTemp(e.next.value))
            && (Temp(c.layer.chain) in s.local && c.pc.Prepare? ==> e.local == s.local)
  {
  }

  // A call that reads moves the lock only when no temporary key is owned.
  lemma {:induction false} ReadKeepsTemps(s: State, p: Pid, ok: bool, bad: bool)
    requires Inv(s) && TempsOwned(s) && p in s.calls && !Building(s.calls[p]) && CallStep(s, p, ok, bad).Some?
    ensures TempsOwned(CallStep(s, p, ok, bad).value)
  {
    assert CallOk(s, s.calls[p]);
    if Probing(s.calls[p]) { ProbePosition(s, p, s.calls[p], ok, bad); } else { LockPosition(s, p, s.calls[p], ok); }
  }

  /** A temporary key without an owner. */
  predicate Blocked(s: State, chain: string) {
    Temp(chain) in s.local && forall p :: p in s.calls && OwnsTemp(s.calls[p]) ==> s.calls[p].layer.chain != chain
  }

  /** Exactly such steps strand a key: each leaves one blocked, and no other step does. */
  lemma {:induction false} StepKeepsTemps(s: State, l: Label)
    requires Inv(s) && TempsOwned(s) && Step(s, l).Some?
    ensures TempsOwned(Step(s, l).value) <==> !LeavesTemp(s, l)
    ensures LeavesTemp(s, l) ==> exists chain :: Blocked(Step(s, l).value, chain)
  {
    if LeavesTemp(s, l) {
      var chain := LeftoverArises(s, l);
    } else if l.Go? {
      if Building(s.calls[l.p]) { BuildKeepsTemps(s, l.p, l.ok, l.bad); } else { ReadKeepsTemps(s, l.p, l.ok, l.bad); }
    }
  }

  lemma {:induction false} LeftoverArises(s: State, l: Label) returns (chain: string)
    requires Inv(s) && Step(s, l).Some? && LeavesTemp(s, l)
    ensures Blocked(Step(s, l).value, chain) && !TempsOwned(Step(s, l).value)
  {
    if l.Restart? {
      var k :| k in s.local && k.Temp?;
      chain := k.chain;
    } else {
      assert CallOk(s, s.calls[l.p]);
      chain := s.calls[l.p].layer.chain;
    }
    assert Temp(chain) in Step(s, l).value.local;
  }

  lemma {:induction false} BuildStaysBlocked(s: State, p: Pid, ok: bool, bad: bool, chain: string)
    requires Blocked(s, chain) && p in s.calls && Building(s.calls[p]) && CallStep(s, p, ok, bad).Some?
    ensures Blocked(CallStep(s, p, ok, bad).value, chain)
  {
  }

  lemma {:induction false} StepStaysBlocked(s: State, l: Label, chain: string)
    requires Blocked(s, chain) && Step(s, l).Some?
    ensures Blocked(Step(s, l).value, chain)
    ensures CommitsAs(s, l, chain) ==> l.CommitTo?
  {
    if l.Go? && Building(s.calls[l.p]) { BuildStaysBlocked(s, l.p, l.ok, l.bad, chain); }
  }

  // Commits of a name by containerd's unpacks.
  function UnpackCommits(run: seq<Label>, chain: string): int {
    if run == [] then 0 else Bit(run[0].CommitTo? && run[0].name == chain) + UnpackCommits(run[1..], chain)
  }

  /** A left-over temporary key is never cleared, and from then on no Stat commits its chain ID: every commit of it is an unpack's. */
  lemma {:induction false} LeftoverBlocks(s: State, run: seq<Label>, chain: string)
    requires Blocked(s, chain) && Run(s, run).Some?
    ensures Blocked(Run(s, run).value, chain)
    ensures Commits(s, run, chain) == UnpackCommits(run, chain)
    decreases |run|
  {
    if run != [] {
      StepStaysBlocked(s, run[0], chain);
      LeftoverBlocks(Step(s, run[0]).value, run[1..], chain);
    }
  }

  lemma {:induction false} BlockedIsUnowned(s: State, chain: string)
    requires Blocked(s, chain)
    ensures !TempsOwned(s)
  {
    assert Temp(chain) in s.local && Temp(chain).Temp?;
  }

  ghost predicate NeverLeavesTemp(s: State, run: seq<Label>)
    decreases |run|
  {
    run == [] || (!LeavesTemp(s, run[0]) && (Step(s, run[0]).Some? ==> NeverLeavesTemp(Step(s, run[0]).value, run[1..])))
  }

  /** A run ends with every temporary key owned if and only if no cleanup failed and no restart met one on the way. */
  lemma {:induction false} NoLeftovers(s: State, run: seq<Label>)
    requires Inv(s) && TempsOwned(s) && Run(s, run).Some?
    ensures TempsOwned(Run(s, run).value) <==> NeverLeavesTemp(s, run)
    decreases |run|
  {
    if run != [] {
      var t := Step(s, run[0]).value;
      StepKeepsInv(s, run[0]);
      StepKeepsTemps(s, run[0]);
      if LeavesTemp(s, run[0]) {
        var chain := LeftoverArises(s, run[0]);
        LeftoverBlocks(t, run[1..], chain);
        BlockedIsUnowned(Run(s, run).value, chain);
      } else {
        NoLeftovers(t, run[1..]);
      }
    }
  }

  // ----------------------------------------------------------- chains of references

  predicate IsRef(s: State, name: string) { Named(name) in s.local && s.local[Named(name)].fs.Link? }

  /** Local parents, from a name down to the first snapshot that is no reference. */
  function Spine(s: State, name: string): (r: seq<string>)
    requires LocalOk(s)
    ensures r != [] && r[0] == name
    decreases if Named(name) in s.local then s.local[Named(name)].serial else 0
  {
    if IsRef(s, name) then
      assert RefOk(s, name, s.local[Named(name)]);
      [name] + Spine(s, s.local[Named(name)].parent)
    else [name]
  }

  /** Every reference has the host's parent, never none, and links to a directory of its own layer. */
  lemma {:induction false} ReferenceMirrorsHost(start: State, run: seq<Label>, chain: string, ns: string)
    requires Init(start) && Run(start, run).Some? && IsRef(Run(start, run).value, chain)
    ensures var s := Run(start, run).value; var x := s.local[Named(chain)];
            && !x.active && x.parent != "" && CommittedIn(s, x.parent)
            && x.fs.path in s.madeFor && s.madeFor[x.fs.path].chain == chain
            && (Layer(ns, chain) in s.host ==> s.host[Layer(ns, chain)].parent == x.parent)
  {
    InitHasInv(start);
    RunKeepsInv(start, run);
    var s := Run(start, run).value;
    assert RefOk(s, chain, s.local[Named(chain)]);
  }

  lemma {:induction false} SpineFollowsContent(s: State, name: string, i: nat)
    requires LocalOk(s) && i < |Spine(s, name)| && Named(name) in s.local
    ensures i + 1 < |Spine(s, name)| ==> IsRef(s, Spine(s, name)[i]) && ParentOf(s, Spine(s, name)[i], Spine(s, name)[i + 1])
    ensures i + 1 == |Spine(s, name)| ==> Named(Spine(s, name)[i]) in s.local && !IsRef(s, Spine(s, name)[i])
    decreases i
  {
    if IsRef(s, name) {
      var x := s.local[Named(name)];
      assert RefOk(s, name, x) && CommittedIn(s, x.parent);
      if i > 0 { SpineFollowsContent(s, x.parent, i - 1); }
    }
  }

  /** Following local parents spells the host's chain, down to a local snapshot that is no reference. */
  lemma {:induction false} SpineSpellsHostChain(start: State, run: seq<Label>, name: string, ns: string, i: nat)
    requires Init(start) && Run(start, run).Some? && Named(name) in Run(start, run).value.local
    requires LocalOk(Run(start, run).value) && i < |Spine(Run(start, run).value, name)|
    ensures var s := Run(start, run).value; var r := Spine(s, name);
            if i + 1 < |r| then Layer(ns, r[i]) in s.host ==> s.host[Layer(ns, r[i])].parent == r[i + 1]
            else Named(r[i]) in s.local && !IsRef(s, r[i])
  {
    InitHasInv(start);
    RunKeepsInv(start, run);
    SpineFollowsContent(Run(start, run).value, name, i);
  }

  // ----------------------------------------------------- how a key gets stranded

  lemma {:induction false} RunCons(s: State, l: Label, rest: seq<Label>)
    requires Step(s, l).Some?
    ensures Run(s, [l] + rest) == Run(Step(s, l).value, rest)
  {
    assert ([l] + rest)[1..] == rest;
  }

  lemma {:induction false} RunAppend(s: State, first: seq<Label>, second: seq<Label>)
    requires Run(s, first).Some?
    ensures Run(s, first + second) == Run(Run(s, first).value, second)
    decreases |first|
  {
    if first == [] {
      assert first + second == second;
    } else {
      assert (first + second)[1..] == first[1..] + second;
      RunAppend(Step(s, first[0]).value, first[1..], second);
    }
  }

  lemma {:induction false} RunThree(s: State, a: Label, b: Label, c: Label, t: State, u: State, v: State)
    requires Step(s, a) == Some(t) && Step(t, b) == Some(u) && Step(u, c) == Some(v)
    ensures Run(s, [a, b, c]) == Some(v)
  {
    assert [a, b, c] == [a] + ([b] + ([c] + []));
    RunCons(s, a, [b] + ([c] + []));
    RunCons(t, b, [c] + []);
    RunCons(u, c, []);
  }

  function At(s: State, p: Pid, c: Call): State { s.(calls := s.calls[p := c]) }

  // A Stat of an absent chain ID asks the host.
  lemma {:induction false} AsksHost(s: State, p: Pid, ns: string, chain: string, layer: Layer)
    requires p !in s.calls && IsChainId(chain) && layer == Layer(if ns == "" then K8S else ns, chain) && layer in s.host
    ensures Run(s, [Start(p, ns, Named(chain)), Go(p, false, false), Go(p, true, false)]) == Some(At(s, p, Work(View, layer, 0, "")))
  {
    var c, d, e := Entry(ns, Named(chain)), Work(HostStat, layer, 0, ""), Work(View, layer, 0, "");
    assert s.calls[p := c][p := d] == s.calls[p := d] && s.calls[p := d][p := e] == s.calls[p := e];
    RunThree(s, Start(p, ns, Named(chain)), Go(p, false, false), Go(p, true, false), At(s, p, c), At(s, p, d), At(s, p, e));
  }

  // It probes the layer and takes the lock.
  lemma {:induction false} ProbesAndLocks(s: State, p: Pid, layer: Layer)
    requires p in s.calls && s.calls[p] == Work(View, layer, 0, "") && layer in s.host && layer !in s.views && s.lock == None
    ensures Run(s, [Go(p, true, false), Go(p, true, false), Go(p, true, false)])
            == Some(At(s, p, Work(Recheck, layer, s.host[layer].dir, "")).(lock := Some(p)))
  {
    var dir := s.host[layer].dir;
    var c, d, e := Work(Unview, layer, dir, ""), Work(Lock, layer, dir, ""), Work(Recheck, layer, dir, "");
    ViewMade(s, p, layer);
    var t := At(s, p, c).(views := s.views[layer := p]);
    ViewRemoved(t, p, layer, dir);
    assert t.views - {layer} == s.views;
    assert s.calls[p := c][p := d] == s.calls[p := d] && s.calls[p := d][p := e] == s.calls[p := e];
    RunThree(s, Go(p, true, false), Go(p, true, false), Go(p, true, false), t, At(s, p, d), At(s, p, e).(lock := Some(p)));
  }

  // The parent lookup fails, so the temporary snapshot has no parent.
  lemma {:induction false} PreparesParentless(s: State, p: Pid, layer: Layer, dir: Path)
    requires p in s.calls && s.calls[p] == Work(Recheck, layer, dir, "") && Temp(layer.chain) !in s.local
    ensures var c := Work(Mounts, layer, dir, "");
            Run(s, [Go(p, false, false), Go(p, false, false), Go(p, true, false)])
            == Some(At(s, p, c).(local := s.local[Temp(layer.chain) := NewSnapshot(s, "")], created := s.created + 1))
  {
    var c, d, e := Work(Parent, layer, dir, ""), Work(Prepare, layer, dir, ""), Work(Mounts, layer, dir, "");
    assert s.calls[p := c][p := d] == s.calls[p := d] && s.calls[p := d][p := e] == s.calls[p := e];
    var v := At(s, p, e).(local := s.local[Temp(layer.chain) := NewSnapshot(s, "")], created := s.created + 1);
    RunThree(s, Go(p, false, false), Go(p, false, false), Go(p, true, false), At(s, p, c), At(s, p, d), v);
  }

  // It has no upperdir, and the cleanup fails too.
  lemma {:induction false} CleanupFails(s: State, p: Pid, layer: Layer, dir: Path)
    requires p in s.calls && s.calls[p] == Work(Mounts, layer, dir, "") && Temp(layer.chain) in s.local
    requires LockOk(s)
    ensures var t := Run(s, [Go(p, false, false), Go(p, false, false)]); t.Some? && Blocked(t.value, layer.chain)
  {
    var t := Step(s, Go(p, false, false)).value;
    RunCons(t, Go(p, false, false), []);
    RunCons(s, Go(p, false, false), [Go(p, false, false)] + []);
    assert [Go(p, false, false), Go(p, false, false)] == [Go(p, false, false)] + ([Go(p, false, false)] + []);
  }

  /** A Stat that finds its layer and meets two failures: the parent lookup and the cleanup. */
  function StrandingRun(p: Pid, ns: string, chain: string): seq<Label> {
    [Start(p, ns, Named(chain)), Go(p, false, false), Go(p, true, false)]
    + ([Go(p, true, false), Go(p, true, false), Go(p, true, false)]
       + ([Go(p, false, false), Go(p, false, false), Go(p, true, false)] + [Go(p, false, false), Go(p, false, false)]))
  }

  /** Keys do get stranded: from every state in which the mutex is free, for every chain ID the host has. */
  lemma {:induction false} LeftoverReachable(s: State, p: Pid, ns: string, chain: string)
    requires Inv(s) && p !in s.calls && s.lock == None && IsChainId(chain) && Temp(chain) !in s.local
    requires var layer := Layer(if ns == "" then K8S else ns, chain); layer in s.host && layer !in s.views
    ensures var t := Run(s, StrandingRun(p, ns, chain)); t.Some? && Blocked(t.value, chain)
  {
    var layer := Layer(if ns == "" then K8S else ns, chain);
    var go, no := Go(p, true, false), Go(p, false, false);
    var a, b, c, d := [Start(p, ns, Named(chain)), no, go], [go, go, go], [no, no, go], [no, no];
    AsksHost(s, p, ns, chain, layer);
    var s1 := Run(s, a).value;
    ProbesAndLocks(s1, p, layer);
    var s2 := Run(s1, b).value;
    PreparesParentless(s2, p, layer, s2.calls[p].path);
    var s3 := Run(s2, c).value;
    RunKeepsInv(s, a);
    RunKeepsInv(s1, b);
    RunKeepsInv(s2, c);
    CleanupFails(s3, p, layer, s3.calls[p].path);
    RunAppend(s2, c, d);
    RunAppend(s1, b, c + d);
    RunAppend(s, a, b + (c + d));
  }

  // ------------------------------------------------ a probe view collected in use

  /** Two probes of one layer: the first view is collected and the second call makes its own. */
  function SecondView(p: Pid, q: Pid, layer: Layer): seq<Label> {
    [Go(p, true, false), ViewGc(layer), Go(q, true, false)]
  }

  lemma {:induction false} ViewMade(s: State, p: Pid, layer: Layer)
    requires p in s.calls && s.calls[p] == Work(View, layer, 0, "") && layer in s.host && layer !in s.views
    ensures Step(s, Go(p, true, false)) ==
            Some(s.(views := s.views[layer := p], calls := s.calls[p := Work(Unview, layer, s.host[layer].dir, "")]))
  {
  }

  lemma {:induction false} ViewRemoved(s: State, p: Pid, layer: Layer, path: Path)
    requires p in s.calls && s.calls[p] == Work(Unview, layer, path, "") && layer in s.views
    ensures Step(s, Go(p, true, false)) ==
            Some(s.(views := s.views - {layer}, calls := s.calls[p := Work(Lock, layer, path, "")]))
  {
  }

  /** That condition on host collection is needed: after a view is collected in use, one call removes the view that another made and still uses. */
  lemma {:induction false} CollectedViewIsStolen(s: State, p: Pid, q: Pid, layer: Layer)
    requires p != q && p in s.calls && q in s.calls && layer in s.host && layer !in s.views
    requires s.calls[p] == Work(View, layer, 0, "") && s.calls[q] == Work(View, layer, 0, "")
    ensures var t := Run(s, SecondView(p, q, layer));
            && t.Some? && layer in t.value.views && t.value.views[layer] == q
            && var u := Step(t.value, Go(p, true, false));
               u.Some? && q in u.value.calls && OwnsView(u.value.calls[q]) && layer !in u.value.views
  {
    var dir := s.host[layer].dir;
    var one, gc, two := Go(p, true, false), ViewGc(layer), Go(q, true, false);
    ViewMade(s, p, layer);
    var s1 := Step(s, one).value;
    var s2 := Step(s1, gc).value;
    ViewMade(s2, q, layer);
    var s3 := Step(s2, two).value;
    ViewRemoved(s3, p, layer, dir);
    RunCons(s2, two, []);
    RunCons(s1, gc, [two] + []);
    RunCons(s, one, [gc] + ([two] + []));
    assert SecondView(p, q, layer) == [one] + ([gc] + ([two] + []));
  }
}
