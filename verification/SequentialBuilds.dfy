/**
 A Stat with lazy materialisation, as the manager's method states it, is an uninterrupted run
 of the materialisation protocol, for every combination of failing calls.
 */
module SequentialBuilds {
  import opened Wrappers
  import opened SnapshotKeys
  import opened Materialise
  import T = MaterialiseTheorems
  import D = DedupManager

  // ------------------------------------------------------------------ one step

  lemma {:induction false} RunOne(s: State, l: Label)
    requires Step(s, l).Some?
    ensures Run(s, [l]) == Step(s, l)
  {
    T.RunCons(s, l, []);
    assert [l] + [] == [l];
  }

  // A step and then a run.
  lemma {:induction false} StepThen(s: State, l: Label, t: State, rest: seq<Label>)
    requires Step(s, l) == Some(t)
    ensures Run(s, [l] + rest) == Run(t, rest)
  {
    T.RunCons(s, l, rest);
  }

  lemma {:induction false} MoveTwice(calls: map<Pid, Call>, p: Pid, c: Call, d: Call)
    ensures calls[p := c][p := d] == calls[p := d]
    ensures calls[p := c] - {p} == calls - {p}
  {
  }

  function End(s: State, p: Pid): State { s.(calls := s.calls - {p}) }

  // ----------------------------------------------------------------- the build

  // How a build goes on once its temporary key is there.
  function Undo(p: Pid, f: D.Faults): seq<Label> { [Go(p, false, false)] + [Go(p, !f.cleanup, false)] }

  function FromCommit(p: Pid, f: D.Faults, free: bool): seq<Label> {
    if f.commit || !free then Undo(p, f) else [Go(p, true, false)]
  }

  function FromSymlink(p: Pid, f: D.Faults, free: bool): seq<Label> {
    if f.symlink then Undo(p, f) else [Go(p, true, false)] + FromCommit(p, f, free)
  }

  function FromMounts(p: Pid, f: D.Faults, parent: string, free: bool): seq<Label> {
    if f.mounts || parent == "" then Undo(p, f) else [Go(p, true, false)] + FromSymlink(p, f, free)
  }

  /** A build on its own, with the outcomes the fault flags name. */
  function BuildRun(local: map<Name, Snapshot>, p: Pid, chain: string, parent: string, f: D.Faults): seq<Label> {
    if f.prepare || Temp(chain) in local || !D.CanPrepareOn(local, parent) then [Go(p, false, false)]
    else [Go(p, true, false)] + FromMounts(p, f, parent, Named(chain) !in local)
  }

  // The call is over and the lock free; the store is `base`, but for the temporary key if the cleanup failed.
  predicate GaveUp(s: State, t: Option<State>, p: Pid, tmp: Name, base: map<Name, Snapshot>, f: D.Faults) {
    && t.Some? && t.value == s.(local := t.value.local, created := t.value.created, lock := None, calls := s.calls - {p})
    && (!f.cleanup ==> t.value.local == base) && t.value.local - {tmp} == base - {tmp}
  }

  // The reference is committed and the call about to answer.
  predicate Built(s: State, t: Option<State>, p: Pid, layer: Layer, path: Path, parent: string, base: map<Name, Snapshot>) {
    && t.Some? && t.value == s.(local := t.value.local, created := t.value.created, calls := s.calls[p := Work(Final, layer, path, parent)])
    && Named(layer.chain) in t.value.local
    && t.value.local == base[Named(layer.chain) := Snapshot(false, parent, Link(path), t.value.local[Named(layer.chain)].serial)]
  }

  // Call p is building under its temporary key over `base`.
  predicate BuildsAt(s: State, p: Pid, pc: Pc, layer: Layer, path: Path, parent: string, base: map<Name, Snapshot>) {
    && p in s.calls && s.calls[p] == Work(pc, layer, path, parent)
    && T.DifferInTemp(s.local, Temp(layer.chain), base)
    && s.local[Temp(layer.chain)].active && s.local[Temp(layer.chain)].parent == parent
  }

  lemma {:induction false} StartsCleanup(s: State, p: Pid)
    requires p in s.calls && OwnsTemp(s.calls[p]) && !s.calls[p].pc.Cleanup? && Temp(s.calls[p].layer.chain) in s.local
    ensures Step(s, Go(p, false, false)) == Some(T.At(s, p, s.calls[p].(pc := Cleanup)))
  {
  }

  lemma {:induction false} CleansUp(s: State, p: Pid, ok: bool)
    requires p in s.calls && s.calls[p].Work? && s.calls[p].pc.Cleanup? && Temp(s.calls[p].layer.chain) in s.local
    ensures var local := if ok then s.local - {Temp(s.calls[p].layer.chain)} else s.local;
            Step(s, Go(p, ok, false)) == Some(s.(local := local, lock := None, calls := s.calls - {p}))
  {
  }

  lemma {:induction false} Undoes(s: State, p: Pid, layer: Layer, f: D.Faults, base: map<Name, Snapshot>)
    requires p in s.calls && OwnsTemp(s.calls[p]) && !s.calls[p].pc.Cleanup? && s.calls[p].layer == layer
    requires T.DifferInTemp(s.local, Temp(layer.chain), base)
    ensures GaveUp(s, Run(s, Undo(p, f)), p, Temp(layer.chain), base, f)
  {
    var c := s.calls[p].(pc := Cleanup);
    var t := T.At(s, p, c);
    StartsCleanup(s, p);
    CleansUp(t, p, !f.cleanup);
    MoveTwice(s.calls, p, c, c);
    RunOne(t, Go(p, !f.cleanup, false));
    StepThen(s, Go(p, false, false), t, [Go(p, !f.cleanup, false)]);
    assert base - {Temp(layer.chain)} == base;
  }

  // A build that goes on from another state of the same call.
  predicate Follows(s: State, t: State, p: Pid) {
    p in t.calls && t == s.(local := t.local, created := t.created, calls := s.calls[p := t.calls[p]])
  }

  lemma {:induction false} FollowedGivesUp(s: State, t: State, u: Option<State>, p: Pid, tmp: Name, base: map<Name, Snapshot>, f: D.Faults)
    requires Follows(s, t, p) && GaveUp(t, u, p, tmp, base, f)
    ensures GaveUp(s, u, p, tmp, base, f)
  {
    MoveTwice(s.calls, p, t.calls[p], t.calls[p]);
  }

  lemma {:induction false} FollowedBuilds(s: State, t: State, u: Option<State>, p: Pid, layer: Layer, path: Path, parent: string, base: map<Name, Snapshot>)
    requires Follows(s, t, p) && Built(t, u, p, layer, path, parent, base)
    ensures Built(s, u, p, layer, path, parent, base)
  {
    MoveTwice(s.calls, p, t.calls[p], Work(Final, layer, path, parent));
  }

  lemma {:induction false} Commits(s: State, p: Pid, layer: Layer, path: Path, parent: string, f: D.Faults, base: map<Name, Snapshot>)
    requires BuildsAt(s, p, Commit, layer, path, parent, base) && s.local[Temp(layer.chain)].fs == Link(path)
    ensures var free := Named(layer.chain) !in base; var t := Run(s, FromCommit(p, f, free));
            if !f.commit && free then Built(s, t, p, layer, path, parent, base) else GaveUp(s, t, p, Temp(layer.chain), base, f)
  {
    var tmp, free := Temp(layer.chain), Named(layer.chain) !in base;
    if f.commit || !free {
      Undoes(s, p, layer, f, base);
    } else {
      RunOne(s, Go(p, true, false));
      T.SameElsewhere(s.local, tmp, base, Named(layer.chain));
      assert Committed(s, Named(layer.chain), tmp) == base[Named(layer.chain) := Snapshot(false, parent, Link(path), s.created)];
    }
  }

  lemma {:induction false} LinksOne(s: State, p: Pid, layer: Layer, path: Path, parent: string, base: map<Name, Snapshot>)
    requires BuildsAt(s, p, Symlink, layer, path, parent, base)
    ensures var t := Step(s, Go(p, true, false));
            && t.Some? && Follows(s, t.value, p) && BuildsAt(t.value, p, Commit, layer, path, parent, base)
            && t.value.local[Temp(layer.chain)].fs == Link(path)
  {
    var t := Step(s, Go(p, true, false)).value;
    assert t.local - {Temp(layer.chain)} == s.local - {Temp(layer.chain)};
  }

  lemma {:induction false} Links(s: State, p: Pid, layer: Layer, path: Path, parent: string, f: D.Faults, base: map<Name, Snapshot>)
    requires BuildsAt(s, p, Symlink, layer, path, parent, base)
    ensures var free := Named(layer.chain) !in base; var t := Run(s, FromSymlink(p, f, free));
            if !f.symlink && !f.commit && free then Built(s, t, p, layer, path, parent, base)
            else GaveUp(s, t, p, Temp(layer.chain), base, f)
  {
    var free := Named(layer.chain) !in base;
    if f.symlink {
      Undoes(s, p, layer, f, base);
    } else {
      LinksOne(s, p, layer, path, parent, base);
      var t := Step(s, Go(p, true, false)).value;
      Commits(t, p, layer, path, parent, f, base);
      StepThen(s, Go(p, true, false), t, FromCommit(p, f, free));
      var u := Run(t, FromCommit(p, f, free));
      if !f.commit && free { FollowedBuilds(s, t, u, p, layer, path, parent, base); }
      else { FollowedGivesUp(s, t, u, p, Temp(layer.chain), base, f); }
    }
  }

  lemma {:induction false} MountsOne(s: State, p: Pid, layer: Layer, path: Path, parent: string, base: map<Name, Snapshot>)
    requires BuildsAt(s, p, Mounts, layer, path, parent, base) && parent != ""
    ensures var t := Step(s, Go(p, true, false));
            t.Some? && Follows(s, t.value, p) && BuildsAt(t.value, p, Symlink, layer, path, parent, base)
  {
  }

  lemma {:induction false} Mounted(s: State, p: Pid, layer: Layer, path: Path, parent: string, f: D.Faults, base: map<Name, Snapshot>)
    requires BuildsAt(s, p, Mounts, layer, path, parent, base)
    ensures var free := Named(layer.chain) !in base; var t := Run(s, FromMounts(p, f, parent, free));
            if !f.mounts && parent != "" && !f.symlink && !f.commit && free then Built(s, t, p, layer, path, parent, base)
            else GaveUp(s, t, p, Temp(layer.chain), base, f)
  {
    var free := Named(layer.chain) !in base;
    if f.mounts || parent == "" {
      Undoes(s, p, layer, f, base);
    } else {
      MountsOne(s, p, layer, path, parent, base);
      var t := Step(s, Go(p, true, false)).value;
      Links(t, p, layer, path, parent, f, base);
      StepThen(s, Go(p, true, false), t, FromSymlink(p, f, free));
      var u := Run(t, FromSymlink(p, f, free));
      if !f.symlink && !f.commit && free { FollowedBuilds(s, t, u, p, layer, path, parent, base); }
      else { FollowedGivesUp(s, t, u, p, Temp(layer.chain), base, f); }
    }
  }

  lemma {:induction false} Prepares(s: State, p: Pid, layer: Layer, path: Path, parent: string)
    requires p in s.calls && s.calls[p] == Work(Prepare, layer, path, parent) && Temp(layer.chain) !in s.local && CanBeParent(s, parent)
    ensures var t := Step(s, Go(p, true, false));
            t.Some? && Follows(s, t.value, p) && BuildsAt(t.value, p, Mounts, layer, path, parent, s.local)
  {
    var t := Step(s, Go(p, true, false)).value;
    assert t.local - {Temp(layer.chain)} == s.local;
  }

  lemma {:induction false} PrepareFails(s: State, p: Pid, layer: Layer, path: Path, parent: string, f: D.Faults)
    requires p in s.calls && s.calls[p] == Work(Prepare, layer, path, parent)
    ensures GaveUp(s, Run(s, [Go(p, false, false)]), p, Temp(layer.chain), s.local, f)
  {
    RunOne(s, Go(p, false, false));
  }

  /** `Dedup.MaterializeReference` is an uninterrupted build of the protocol. */
  lemma {:induction false} BuildIsARun(s: State, p: Pid, layer: Layer, path: Path, parent: string, f: D.Faults)
    requires p in s.calls && s.calls[p] == Work(Prepare, layer, path, parent)
    ensures var t := Run(s, BuildRun(s.local, p, layer.chain, parent, f));
            if D.BuildSucceeds(s.local, layer.chain, parent, f) then Built(s, t, p, layer, path, parent, s.local)
            else GaveUp(s, t, p, Temp(layer.chain), s.local, f)
  {
    var free := Named(layer.chain) !in s.local;
    if f.prepare || Temp(layer.chain) in s.local || !CanBeParent(s, parent) {
      PrepareFails(s, p, layer, path, parent, f);
    } else {
      Prepares(s, p, layer, path, parent);
      var t := Step(s, Go(p, true, false)).value;
      Mounted(t, p, layer, path, parent, f, s.local);
      StepThen(s, Go(p, true, false), t, FromMounts(p, f, parent, free));
      var u := Run(t, FromMounts(p, f, parent, free));
      if D.BuildSucceeds(s.local, layer.chain, parent, f) { FollowedBuilds(s, t, u, p, layer, path, parent, s.local); }
      else { FollowedGivesUp(s, t, u, p, Temp(layer.chain), s.local, f); }
    }
  }

  // --------------------------------------------------------- the rest of a Stat

  // The call is over, the lock free, and nothing but store and answers may have changed.
  predicate Over(s: State, t: Option<State>, p: Pid) {
    t.Some? && t.value == s.(local := t.value.local, created := t.value.created, answers := t.value.answers, lock := None, calls := s.calls - {p})
  }

  // What a Stat makes of the store and what it answers, once it builds.
  ghost predicate BuildOutcome(s: State, t: State, chain: string, path: Path, parent: string, f: D.Faults) {
    if D.BuildSucceeds(s.local, chain, parent, f) then
      exists n ::
        && t.local == s.local[Named(chain) := Snapshot(false, parent, Link(path), n)]
        && t.answers == if f.final then s.answers else s.answers + {Answer(Named(chain), Info(false, parent, n))}
    else
      t.answers == s.answers && (!f.cleanup ==> t.local == s.local) && t.local - {Temp(chain)} == s.local - {Temp(chain)}
  }

  function FromPrepare(local: map<Name, Snapshot>, p: Pid, chain: string, parent: string, f: D.Faults): seq<Label> {
    BuildRun(local, p, chain, parent, f)
    + if D.BuildSucceeds(local, chain, parent, f) then [Go(p, !f.final, false)] else []
  }

  lemma {:induction false} Answers1(s: State, p: Pid, layer: Layer, ok: bool)
    requires p in s.calls && s.calls[p].Work? && s.calls[p].pc.Final? && s.calls[p].layer == layer && Named(layer.chain) in s.local
    ensures var answers := if ok then Answers(s, Named(layer.chain)) else s.answers;
            Step(s, Go(p, ok, false)) == Some(s.(answers := answers, lock := None, calls := s.calls - {p}))
  {
  }

  lemma {:induction false} BuildsAndAnswers(s: State, p: Pid, layer: Layer, path: Path, parent: string, f: D.Faults)
    requires p in s.calls && s.calls[p] == Work(Prepare, layer, path, parent)
    ensures var t := Run(s, FromPrepare(s.local, p, layer.chain, parent, f));
            Over(s, t, p) && BuildOutcome(s, t.value, layer.chain, path, parent, f)
  {
    var build := BuildRun(s.local, p, layer.chain, parent, f);
    BuildIsARun(s, p, layer, path, parent, f);
    var u := Run(s, build).value;
    if D.BuildSucceeds(s.local, layer.chain, parent, f) {
      Answers1(u, p, layer, !f.final);
      RunOne(u, Go(p, !f.final, false));
      T.RunAppend(s, build, [Go(p, !f.final, false)]);
      MoveTwice(s.calls, p, u.calls[p], u.calls[p]);
      var n := u.local[Named(layer.chain)].serial;
      assert InfoOf(u.local[Named(layer.chain)]) == Info(false, parent, n);
    } else {
      assert build + [] == build;
    }
  }

  function FromParent(local: map<Name, Snapshot>, p: Pid, chain: string, x: HostLayer, f: D.Faults): seq<Label> {
    [Go(p, !f.parent, false)] + FromPrepare(local, p, chain, if f.parent then "" else x.parent, f)
  }

  lemma {:induction false} LooksUp(s: State, p: Pid, layer: Layer, path: Path, f: D.Faults)
    requires p in s.calls && s.calls[p] == Work(Parent, layer, path, "") && layer in s.host
    ensures var parent := if f.parent then "" else s.host[layer].parent;
            Step(s, Go(p, !f.parent, false)) == Some(T.At(s, p, Work(Prepare, layer, path, parent)))
  {
  }

  // The same outcome, seen from before the call moved.
  lemma {:induction false} OverFromBefore(s: State, c: Call, t: Option<State>, p: Pid)
    requires Over(T.At(s, p, c), t, p)
    ensures Over(s, t, p)
  {
    MoveTwice(s.calls, p, c, c);
  }

  lemma {:induction false} RunsFromParent(s: State, p: Pid, layer: Layer, path: Path, f: D.Faults)
    requires p in s.calls && s.calls[p] == Work(Parent, layer, path, "") && layer in s.host
    ensures var t := Run(s, FromParent(s.local, p, layer.chain, s.host[layer], f));
            Over(s, t, p) && BuildOutcome(s, t.value, layer.chain, path, if f.parent then "" else s.host[layer].parent, f)
  {
    var parent := if f.parent then "" else s.host[layer].parent;
    var c := Work(Prepare, layer, path, parent);
    LooksUp(s, p, layer, path, f);
    BuildsAndAnswers(T.At(s, p, c), p, layer, path, parent, f);
    var rest := FromPrepare(s.local, p, layer.chain, parent, f);
    StepThen(s, Go(p, !f.parent, false), T.At(s, p, c), rest);
    OverFromBefore(s, c, Run(T.At(s, p, c), rest), p);
  }

  // What the call does under the lock.
  ghost predicate LockedOutcome(s: State, t: State, chain: string, x: HostLayer, f: D.Faults) {
    if Named(chain) in s.local && !f.recheck then t.local == s.local && t.answers == Answers(s, Named(chain))
    else BuildOutcome(s, t, chain, x.dir, if f.parent then "" else x.parent, f)
  }

  function FromRecheck(local: map<Name, Snapshot>, p: Pid, chain: string, x: HostLayer, f: D.Faults): seq<Label> {
    var found := Named(chain) in local && !f.recheck;
    [Go(p, found, false)] + if found then [] else FromParent(local, p, chain, x, f)
  }

  lemma {:induction false} MissesAgain(s: State, p: Pid, layer: Layer, path: Path)
    requires p in s.calls && s.calls[p] == Work(Recheck, layer, path, "")
    ensures Step(s, Go(p, false, false)) == Some(T.At(s, p, Work(Parent, layer, path, "")))
  {
  }

  lemma {:induction false} RunsFromRecheck(s: State, p: Pid, layer: Layer, f: D.Faults)
    requires layer in s.host && p in s.calls && s.calls[p] == Work(Recheck, layer, s.host[layer].dir, "")
    ensures var t := Run(s, FromRecheck(s.local, p, layer.chain, s.host[layer], f));
            Over(s, t, p) && LockedOutcome(s, t.value, layer.chain, s.host[layer], f)
  {
    var x := s.host[layer];
    if Named(layer.chain) in s.local && !f.recheck {
      RunOne(s, Go(p, true, false));
      assert [Go(p, true, false)] + [] == [Go(p, true, false)];
    } else {
      var c := Work(Parent, layer, x.dir, "");
      var t := T.At(s, p, c);
      MissesAgain(s, p, layer, x.dir);
      RunsFromParent(t, p, layer, x.dir, f);
      StepThen(s, Go(p, false, false), t, FromParent(s.local, p, layer.chain, x, f));
      OverFromBefore(s, c, Run(t, FromParent(s.local, p, layer.chain, x, f)), p);
    }
  }

  function FromLock(local: map<Name, Snapshot>, p: Pid, chain: string, x: HostLayer, f: D.Faults): seq<Label> {
    [Go(p, true, false)] + FromRecheck(local, p, chain, x, f)
  }

  lemma {:induction false} RunsFromLock(s: State, p: Pid, layer: Layer, f: D.Faults)
    requires s.lock == None && layer in s.host && p in s.calls && s.calls[p] == Work(Lock, layer, s.host[layer].dir, "")
    ensures var t := Run(s, FromLock(s.local, p, layer.chain, s.host[layer], f));
            Over(s, t, p) && LockedOutcome(s, t.value, layer.chain, s.host[layer], f)
  {
    var x := s.host[layer];
    var c := Work(Recheck, layer, x.dir, "");
    var t := T.At(s, p, c).(lock := Some(p));
    assert Step(s, Go(p, true, false)) == Some(t);
    RunsFromRecheck(t, p, layer, f);
    StepThen(s, Go(p, true, false), t, FromRecheck(s.local, p, layer.chain, x, f));
    MoveTwice(s.calls, p, c, c);
  }

  function FromUnview(local: map<Name, Snapshot>, p: Pid, chain: string, x: HostLayer, f: D.Faults): seq<Label> {
    [Go(p, !f.unview, false)] + if f.viewMounts then [] else FromLock(local, p, chain, x, f)
  }

  // The call is over; a probe view of the layer is left only if its removal failed.
  predicate OverViews(s: State, t: Option<State>, p: Pid, layer: Layer, made: bool, f: D.Faults) {
    t.Some? && t.value == s.(local := t.value.local, created := t.value.created, answers := t.value.answers,
                             views := if made && f.unview then s.views[layer := p] else s.views, lock := None, calls := s.calls - {p})
  }

  lemma {:induction false} Unviews(s: State, p: Pid, layer: Layer, path: Path, f: D.Faults)
    requires p in s.calls && s.calls[p] == Work(if f.viewMounts then UnviewBad else Unview, layer, path, "") && layer in s.views
    ensures var t := s.(views := if f.unview then s.views else s.views - {layer});
            Step(s, Go(p, !f.unview, false))
            == Some(if f.viewMounts then End(t, p) else T.At(t, p, Work(Lock, layer, path, "")))
  {
  }

  lemma {:induction false} Views(s: State, p: Pid, layer: Layer, bad: bool)
    requires layer in s.host && layer !in s.views && p in s.calls && s.calls[p] == Work(View, layer, 0, "")
    ensures Step(s, Go(p, true, bad))
            == Some(T.At(s, p, Work(if bad then UnviewBad else Unview, layer, s.host[layer].dir, "")).(views := s.views[layer := p]))
  {
  }

  // The same end, seen from before the view was made.
  lemma {:induction false} OverViewsFromBefore(s: State, c: Call, views: map<Layer, Pid>, t: Option<State>, p: Pid, layer: Layer, f: D.Faults)
    requires views == (if f.unview then s.views[layer := p] else s.views) && Over(T.At(s, p, c).(views := views), t, p)
    ensures OverViews(s, t, p, layer, true, f)
  {
    MoveTwice(s.calls, p, c, c);
  }

  lemma {:induction false} ViewRemovedAgain(views: map<Layer, Pid>, layer: Layer, p: Pid)
    requires layer !in views
    ensures views[layer := p] - {layer} == views
  {
  }

  // From a view with usable mounts to the end.
  lemma {:induction false} RunsFromGoodView(s: State, p: Pid, layer: Layer, f: D.Faults)
    requires s.lock == None && layer in s.host && layer !in s.views && p in s.calls && !f.viewMounts
    ensures var u := T.At(s, p, Work(Unview, layer, s.host[layer].dir, "")).(views := s.views[layer := p]);
            var t := Run(u, FromUnview(s.local, p, layer.chain, s.host[layer], f));
            OverViews(s, t, p, layer, true, f) && LockedOutcome(s, t.value, layer.chain, s.host[layer], f)
  {
    var x, l := s.host[layer], Go(p, !f.unview, false);
    var c, d := Work(Unview, layer, x.dir, ""), Work(Lock, layer, x.dir, "");
    var u := T.At(s, p, c).(views := s.views[layer := p]);
    var w := T.At(s, p, d).(views := if f.unview then u.views else s.views);
    Unviews(u, p, layer, x.dir, f);
    ViewRemovedAgain(s.views, layer, p);
    MoveTwice(s.calls, p, c, d);
    RunsFromLock(w, p, layer, f);
    StepThen(u, l, w, FromLock(s.local, p, layer.chain, x, f));
    OverViewsFromBefore(s, d, w.views, Run(w, FromLock(s.local, p, layer.chain, x, f)), p, layer, f);
  }

  // From a view with unusable mounts to the end.
  lemma {:induction false} RunsFromBadView(s: State, p: Pid, layer: Layer, f: D.Faults)
    requires s.lock == None && layer in s.host && layer !in s.views && p in s.calls && f.viewMounts
    ensures var u := T.At(s, p, Work(UnviewBad, layer, s.host[layer].dir, "")).(views := s.views[layer := p]);
            var t := Run(u, FromUnview(s.local, p, layer.chain, s.host[layer], f));
            OverViews(s, t, p, layer, true, f) && t.value.local == s.local && t.value.answers == s.answers
  {
    var x, l := s.host[layer], Go(p, !f.unview, false);
    var c := Work(UnviewBad, layer, x.dir, "");
    var u := T.At(s, p, c).(views := s.views[layer := p]);
    Unviews(u, p, layer, x.dir, f);
    ViewRemovedAgain(s.views, layer, p);
    RunOne(u, l);
    MoveTwice(s.calls, p, c, c);
    assert [l] + [] == [l];
  }

  function FromView(local: map<Name, Snapshot>, p: Pid, layer: Layer, x: HostLayer, free: bool, f: D.Faults): seq<Label> {
    if f.view || !free then [Go(p, false, false)]
    else [Go(p, true, f.viewMounts)] + FromUnview(local, p, layer.chain, x, f)
  }

  // What a Stat that asks the host does from there.
  ghost predicate HostOutcome(s: State, t: State, layer: Layer, f: D.Faults) {
    if layer !in s.host || f.hostStat || f.view || layer in s.views || f.viewMounts then t.local == s.local && t.answers == s.answers
    else LockedOutcome(s, t, layer.chain, s.host[layer], f)
  }

  lemma {:induction false} RunsFromView(s: State, p: Pid, layer: Layer, f: D.Faults)
    requires s.lock == None && layer in s.host && p in s.calls && s.calls[p] == Work(View, layer, 0, "") && !f.hostStat
    ensures var t := Run(s, FromView(s.local, p, layer, s.host[layer], layer !in s.views, f));
            OverViews(s, t, p, layer, !f.view && layer !in s.views, f) && HostOutcome(s, t.value, layer, f)
  {
    var x := s.host[layer];
    if f.view || layer in s.views {
      RunOne(s, Go(p, false, false));
    } else {
      Views(s, p, layer, f.viewMounts);
      if f.viewMounts { RunsFromBadView(s, p, layer, f); } else { RunsFromGoodView(s, p, layer, f); }
      var u := T.At(s, p, Work(if f.viewMounts then UnviewBad else Unview, layer, x.dir, "")).(views := s.views[layer := p]);
      StepThen(s, Go(p, true, f.viewMounts), u, FromUnview(s.local, p, layer.chain, x, f));
    }
  }

  function FromHost(local: map<Name, Snapshot>, host: map<Layer, HostLayer>, p: Pid, layer: Layer, free: bool, f: D.Faults): seq<Label> {
    if layer !in host || f.hostStat then [Go(p, false, false)]
    else [Go(p, true, false)] + FromView(local, p, layer, host[layer], free, f)
  }

  lemma {:induction false} RunsFromHost(s: State, p: Pid, layer: Layer, f: D.Faults)
    requires s.lock == None && p in s.calls && s.calls[p] == Work(HostStat, layer, 0, "")
    ensures var t := Run(s, FromHost(s.local, s.host, p, layer, layer !in s.views, f));
            && OverViews(s, t, p, layer, layer in s.host && !f.hostStat && !f.view && layer !in s.views, f)
            && HostOutcome(s, t.value, layer, f)
  {
    if layer !in s.host || f.hostStat {
      RunOne(s, Go(p, false, false));
    } else {
      var c := Work(View, layer, 0, "");
      var t := T.At(s, p, c);
      assert Step(s, Go(p, true, false)) == Some(t);
      RunsFromView(t, p, layer, f);
      StepThen(s, Go(p, true, false), t, FromView(s.local, p, layer, s.host[layer], layer !in s.views, f));
      MoveTwice(s.calls, p, c, c);
    }
  }

  // ------------------------------------------------------------------ the whole Stat

  /** A Stat on its own, with the outcomes the fault flags name. */
  function StatRun(local: map<Name, Snapshot>, host: map<Layer, HostLayer>, views: set<Layer>, p: Pid, ns: string, key: string, f: D.Faults): seq<Label> {
    var found := NameOf(key) in local && !f.stat;
    var layer := D.HostLayerOf(ns, key);
    [Start(p, ns, NameOf(key))]
    + ([Go(p, found, false)] + if found || !IsChainId(key) then [] else FromHost(local, host, p, layer, layer !in views, f))
  }

  // As `Dedup.Stat` states it.
  ghost predicate StatOutcome(s: State, t: State, ns: string, key: string, f: D.Faults) {
    var live, lock := D.LiveKey(s.local, key), D.ReachesLock(s.host, s.views.Keys, ns, key, f);
    if live && (!f.stat || (lock && !f.recheck)) then t.local == s.local && t.answers == Answers(s, NameOf(key))
    else if !lock then t.local == s.local && t.answers == s.answers
    else
      var x := s.host[D.HostLayerOf(ns, key)];
      if !f.parent && D.BuildSucceeds(s.local, key, x.parent, f) then
        exists n ::
          && t.local == s.local[Named(key) := Snapshot(false, x.parent, Link(x.dir), n)]
          && t.answers == if f.final then s.answers else s.answers + {Answer(Named(key), Info(false, x.parent, n))}
      else t.answers == s.answers && (!f.cleanup ==> t.local == s.local) && t.local - {Temp(key)} == s.local - {Temp(key)}
  }

  lemma {:induction false} FirstStat(s: State, p: Pid, ns: string, key: string, found: bool)
    requires p in s.calls && s.calls[p] == Entry(ns, NameOf(key)) && (found ==> NameOf(key) in s.local)
    ensures Step(s, Go(p, found, false))
            == Some(if found then End(s.(answers := Answers(s, NameOf(key))), p)
                    else if IsChainId(key) then T.At(s, p, Work(HostStat, D.HostLayerOf(ns, key), 0, ""))
                    else End(s, p))
  {
    T.NamesAreKeys(Named(key), key);
    TempIsNoChain(key);
  }

  lemma {:induction false} TempIsNoChain(key: string)
    ensures NameOf(key).Temp? ==> !IsChainId(key)
    ensures NameOf(key).Named? ==> NameOf(key).key == key
  {
    T.NamesAreKeys(Named(key), key);
  }

  lemma {:induction false} OutcomeOfHost(s: State, t: State, ns: string, key: string, f: D.Faults)
    requires IsChainId(key) && !(NameOf(key) in s.local && !f.stat) && HostOutcome(s, t, D.HostLayerOf(ns, key), f)
    ensures StatOutcome(s, t, ns, key, f)
  {
    T.NamesAreKeys(Named(key), key);
  }

  // What a Stat of the protocol does, taken alone.
  ghost predicate StatDone(s: State, t: Option<State>, ns: string, key: string, f: D.Faults) {
    && t.Some? && t.value.calls == s.calls && t.value.lock == None && t.value.host == s.host
    && (!f.unview ==> t.value.views == s.views) && t.value.views - {D.HostLayerOf(ns, key)} == s.views - {D.HostLayerOf(ns, key)}
    && StatOutcome(s, t.value, ns, key, f)
  }

  // It ends at its first local Stat.
  lemma {:induction false} EndsAtOnce(s: State, p: Pid, ns: string, key: string, f: D.Faults)
    requires p !in s.calls && s.lock == None && ((NameOf(key) in s.local && !f.stat) || !IsChainId(key))
    ensures var found := NameOf(key) in s.local && !f.stat;
            StatDone(s, Run(T.At(s, p, Entry(ns, NameOf(key))), [Go(p, found, false)]), ns, key, f)
  {
    var found, c := NameOf(key) in s.local && !f.stat, Entry(ns, NameOf(key));
    var t := T.At(s, p, c);
    FirstStat(t, p, ns, key, found);
    RunOne(t, Go(p, found, false));
    Unmoved(s.calls, p, c);
  }

  // It asks the host.
  lemma {:induction false} AsksOn(s: State, p: Pid, ns: string, key: string, f: D.Faults)
    requires p !in s.calls && s.lock == None && !(NameOf(key) in s.local && !f.stat) && IsChainId(key)
    ensures var layer := D.HostLayerOf(ns, key);
            StatDone(s, Run(T.At(s, p, Entry(ns, NameOf(key))),
                            [Go(p, false, false)] + FromHost(s.local, s.host, p, layer, layer !in s.views, f)), ns, key, f)
  {
    var layer, c := D.HostLayerOf(ns, key), Entry(ns, NameOf(key));
    var d := Work(HostStat, layer, 0, "");
    var t, u := T.At(s, p, c), T.At(s, p, d);
    var rest := FromHost(s.local, s.host, p, layer, layer !in s.views, f);
    FirstStat(t, p, ns, key, false);
    MoveTwice(s.calls, p, c, d);
    Unmoved(s.calls, p, d);
    RunsFromHost(u, p, layer, f);
    StepThen(t, Go(p, false, false), u, rest);
    var v := Run(u, rest).value;
    OutcomeOfHost(s, v, ns, key, f);
    OneView(s.views, layer, p);
  }

  lemma {:induction false} OneView(views: map<Layer, Pid>, layer: Layer, p: Pid)
    ensures views[layer := p] - {layer} == views - {layer}
  {
  }

  /** `Dedup.Stat` is an uninterrupted Stat of the protocol, for every combination of failing calls. */
  lemma {:induction false} StatIsARun(s: State, p: Pid, ns: string, key: string, f: D.Faults)
    requires p !in s.calls && s.lock == None
    ensures StatDone(s, Run(s, StatRun(s.local, s.host, s.views.Keys, p, ns, key, f)), ns, key, f)
  {
    var found, layer := NameOf(key) in s.local && !f.stat, D.HostLayerOf(ns, key);
    var start, t, l := Start(p, ns, NameOf(key)), T.At(s, p, Entry(ns, NameOf(key))), Go(p, found, false);
    assert Step(s, start) == Some(t);
    var rest := if found || !IsChainId(key) then [] else FromHost(s.local, s.host, p, layer, layer !in s.views, f);
    StepThen(s, start, t, [l] + rest);
    if found || !IsChainId(key) {
      EndsAtOnce(s, p, ns, key, f);
      assert [l] + [] == [l];
    } else {
      AsksOn(s, p, ns, key, f);
    }
  }

  lemma {:induction false} Unmoved(calls: map<Pid, Call>, p: Pid, c: Call)
    requires p !in calls
    ensures calls[p := c] - {p} == calls
  {
  }

  // Nothing fails.
  const SMOOTH := D.Faults(false, false, false, false, false, false, false, false, false, false, false, false, false)

  /** Lazy materialisation works: a Stat of an absent chain ID over a committed parent commits the reference and answers with it. */
  lemma {:induction false} StatMaterialises(s: State, p: Pid, ns: string, chain: string)
    requires p !in s.calls && s.lock == None && IsChainId(chain) && Named(chain) !in s.local && Temp(chain) !in s.local
    requires var layer := Layer(if ns == "" then "k8s.io" else ns, chain);
             layer in s.host && layer !in s.views && s.host[layer].parent != "" && CommittedIn(s, s.host[layer].parent)
    ensures var x := s.host[Layer(if ns == "" then "k8s.io" else ns, chain)];
            var t := Run(s, StatRun(s.local, s.host, s.views.Keys, p, ns, chain, SMOOTH));
            && t.Some? && t.value.calls == s.calls && t.value.lock == None && t.value.views == s.views
            && exists n ::
                 && t.value.local == s.local[Named(chain) := Snapshot(false, x.parent, Link(x.dir), n)]
                 && t.value.answers == s.answers + {Answer(Named(chain), Info(false, x.parent, n))}
  {
    T.NamesAreKeys(Named(chain), chain);
    StatIsARun(s, p, ns, chain, SMOOTH);
  }
}
