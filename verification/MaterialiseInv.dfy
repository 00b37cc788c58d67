/** The inductive invariant of materialisation, in every reachable state. */
module MaterialiseInv {
  import opened Wrappers
  import opened Materialise

  lemma {:induction false} InitHasInv(s: State)
    requires Init(s)
    ensures Inv(s)
  {
  }

  // ------------------------------------------------------- one call's own steps

  lemma {:induction false} ProbeFrame(s: State, p: Pid, c: Call, ok: bool, bad: bool)
    requires Probing(c) && ProbeStep(s, p, c, ok, bad).Some?
    ensures var e := ProbeStep(s, p, c, ok, bad).value;
            e.local == s.local && e.created == s.created && e.lock == s.lock && (e.next.Some? ==> !Holds(e.next.value))
  {
  }

  lemma {:induction false} ProbeKnows(s: State, p: Pid, c: Call, ok: bool, bad: bool)
    requires Probing(c) && ProbeStep(s, p, c, ok, bad).Some? && HostOk(s) && CallOk(s, c)
    ensures var e := ProbeStep(s, p, c, ok, bad).value; e.next.Some? ==> CallOk(After(s, p, e), e.next.value)
  {
  }

  lemma {:induction false} ProbePosition(s: State, p: Pid, c: Call, ok: bool, bad: bool)
    requires Probing(c) && ProbeStep(s, p, c, ok, bad).Some? && HostOk(s) && CallOk(s, c)
    ensures var e := ProbeStep(s, p, c, ok, bad).value;
            e.local == s.local && e.created == s.created && e.lock == s.lock
            && (e.next.Some? ==> !Holds(e.next.value) && CallOk(After(s, p, e), e.next.value))
  {
    ProbeFrame(s, p, c, ok, bad);
    ProbeKnows(s, p, c, ok, bad);
  }

  lemma {:induction false} LockFrame(s: State, p: Pid, c: Call, ok: bool)
    requires LockStep(s, p, c, ok).Some?
    ensures var e := LockStep(s, p, c, ok).value;
            e.local == s.local && e.created == s.created && (Holds(c) || s.lock == None)
            && (e.next.None? ==> e.lock == None)
            && (e.next.Some? ==> e.lock == (if Holds(c) then s.lock else Some(p)) && Holds(e.next.value))
  {
  }

  lemma {:induction false} LockPosition(s: State, p: Pid, c: Call, ok: bool)
    requires LockStep(s, p, c, ok).Some? && HostOk(s) && CallOk(s, c)
    ensures var e := LockStep(s, p, c, ok).value;
            e.local == s.local && e.created == s.created && (Holds(c) || s.lock == None)
            && (e.next.None? ==> e.lock == None)
            && (e.next.Some? ==> e.lock == (if Holds(c) then s.lock else Some(p)) && Holds(e.next.value) && CallOk(After(s, p, e), e.next.value))
  {
    LockFrame(s, p, c, ok);
    LockKnows(s, p, c, ok);
  }

  lemma {:induction false} LockKnows(s: State, p: Pid, c: Call, ok: bool)
    requires LockStep(s, p, c, ok).Some? && HostOk(s) && CallOk(s, c)
    ensures var e := LockStep(s, p, c, ok).value; e.next.Some? ==> CallOk(After(s, p, e), e.next.value)
  {
  }

  lemma {:induction false} BuildPosition(s: State, p: Pid, c: Call, ok: bool, bad: bool)
    requires Building(c) && BuildStep(s, c, ok, bad).Some? && CallOk(s, c)
    ensures var e := BuildStep(s, c, ok, bad).value;
            (e.next.None? ==> e.lock == None)
            && (e.next.Some? ==> e.lock == s.lock && Holds(e.next.value) && CallOk(After(s, p, e), e.next.value))
  {
  }

  // ---------------------------------------------------------------- the mutex

  // How a step of call p, now at c, may move the lock.
  predicate LockMove(s: State, p: Pid, c: Call, e: Effect) {
    if Holds(c) then e.lock == (if e.next.Some? then s.lock else None) && (e.next.Some? ==> Holds(e.next.value))
    else || (e.lock == s.lock && (e.next.Some? ==> !Holds(e.next.value)))
         || (s.lock == None && e.lock == Some(p) && e.next.Some? && Holds(e.next.value))
  }

  lemma {:induction false} LockKept(s: State, p: Pid, e: Effect)
    requires LockOk(s) && p in s.calls && LockMove(s, p, s.calls[p], e)
    ensures LockOk(After(s, p, e))
  {
  }

  // ------------------------------------------------------- the answers and the store

  lemma {:induction false} AnswerKept(s: State, key: Name)
    requires LocalOk(s) && AnswersOk(s) && key in s.local
    ensures AnswersOk(s.(answers := Answers(s, key)))
  {
  }

  lemma {:induction false} ProbeAnswers(s: State, p: Pid, c: Call, ok: bool, bad: bool)
    requires Probing(c) && ProbeStep(s, p, c, ok, bad).Some? && LocalOk(s) && AnswersOk(s)
    ensures AnswersOk(s.(answers := ProbeStep(s, p, c, ok, bad).value.answers))
  {
    if c.Entry? && ok { AnswerKept(s, c.key); }
  }

  lemma {:induction false} AnswersGrow(s: State, p: Pid, c: Call, ok: bool, bad: bool)
    requires !Building(c) && CallEffect(s, p, c, ok, bad).Some? && LocalOk(s) && AnswersOk(s)
    ensures AnswersOk(s.(answers := CallEffect(s, p, c, ok, bad).value.answers))
  {
    if Probing(c) {
      ProbeAnswers(s, p, c, ok, bad);
    } else if Named(c.layer.chain) in s.local {
      AnswerKept(s, Named(c.layer.chain));
    }
  }

  // A new snapshot under a free name, over a committed parent.
  lemma {:induction false} CreateKeepsLocal(s: State, key: Name, parent: string)
    requires LocalOk(s) && key !in s.local && CanBeParent(s, parent)
    ensures LocalOk(s.(local := s.local[key := NewSnapshot(s, parent)], created := s.created + 1))
  {
  }

  lemma {:induction false} RelinkKeepsLocal(s: State, tmp: Name, fs: Fs)
    requires LocalOk(s) && tmp in s.local && tmp.Temp?
    ensures LocalOk(s.(local := s.local[tmp := s.local[tmp].(fs := fs)]))
  {
  }

  lemma {:induction false} CommitKeepsLocal(s: State, name: Name, key: Name)
    requires LocalOk(s) && key in s.local && s.local[key].active && name !in s.local && name.Named?
    requires s.local[key].fs == Dir || RefOk(s, name.key, s.local[key].(active := false))
    ensures LocalOk(s.(local := Committed(s, name, key), created := s.created + 1))
  {
    CommitKeepsParents(s, name, key);
  }

  lemma {:induction false} CommitKeepsParents(s: State, name: Name, key: Name)
    requires LocalOk(s) && key in s.local && s.local[key].active && name !in s.local && name.Named?
    ensures ParentsOk(s.(local := Committed(s, name, key), created := s.created + 1))
  {
    var t := s.(local := Committed(s, name, key), created := s.created + 1);
    forall k | k in t.local && t.local[k].parent != ""
      ensures CommittedIn(t, t.local[k].parent) && t.local[Named(t.local[k].parent)].serial < t.local[k].serial
    {
      var was := if k == name then key else k;
      assert was in s.local && t.local[k].parent == s.local[was].parent;
      assert CommittedIn(s, s.local[was].parent);
    }
  }

  lemma {:induction false} DropKeepsLocal(s: State, key: Name)
    requires LocalOk(s) && (key.Named? ==> !HasChild(s, key.key))
    ensures LocalOk(s.(local := s.local - {key}))
  {
  }

  lemma {:induction false} SameStore(s: State, t: State)
    requires LocalOk(s) && t.local == s.local && t.created == s.created
    requires forall d :: d in s.madeFor ==> d in t.madeFor && t.madeFor[d] == s.madeFor[d]
    requires forall c :: c in s.content ==> c in t.content && t.content[c] == s.content[c]
    ensures LocalOk(t)
  {
  }

  /** Snapshots are only ever replaced by younger ones. */
  predicate Ages(s: State, t: State) {
    s.created <= t.created
    && forall k :: k in t.local && t.local[k].serial < s.created ==> k in s.local && InfoOf(t.local[k]) == InfoOf(s.local[k])
  }

  lemma {:induction false} AnswersAge(s: State, t: State)
    requires AnswersOk(s) && Ages(s, t) && t.answers == s.answers
    ensures AnswersOk(t)
  {
  }

  lemma {:induction false} BuildKeepsLocal(s: State, p: Pid, c: Call, ok: bool, bad: bool)
    requires Building(c) && BuildStep(s, c, ok, bad).Some? && CallOk(s, c) && LocalOk(s)
    ensures LocalOk(After(s, p, BuildStep(s, c, ok, bad).value))
  {
    var e := BuildStep(s, c, ok, bad).value;
    var tmp := Temp(c.layer.chain);
    if ok && c.pc.Prepare? {
      CreateKeepsLocal(s, tmp, c.parent);
    } else if c.pc.Symlink? && (ok || bad) {
      RelinkKeepsLocal(s, tmp, if ok then Link(c.path) else Missing);
    } else if ok && c.pc.Commit? {
      CommitKeepsLocal(s, Named(c.layer.chain), tmp);
    } else if ok && c.pc.Cleanup? {
      DropKeepsLocal(s, tmp);
    }
    AfterKeepsLocal(s, p, e);
  }

  lemma {:induction false} AfterKeepsLocal(s: State, p: Pid, e: Effect)
    requires LocalOk(s.(local := e.local, created := e.created))
    ensures LocalOk(After(s, p, e))
  {
    SameStore(s.(local := e.local, created := e.created), After(s, p, e));
  }

  lemma {:induction false} BuildAges(s: State, p: Pid, c: Call, ok: bool, bad: bool)
    requires Building(c) && BuildStep(s, c, ok, bad).Some?
    ensures var t := After(s, p, BuildStep(s, c, ok, bad).value); Ages(s, t) && t.answers == s.answers
  {
  }

  // ------------------------------------------------------------------ every step

  lemma {:induction false} OthersStayOk(s: State, p: Pid, e: Effect)
    requires Inv(s) && p in s.calls && (e.local == s.local || Building(s.calls[p]))
    requires e.next.Some? ==> CallOk(After(s, p, e), e.next.value)
    ensures CallsOk(After(s, p, e))
  {
    var t := After(s, p, e);
    forall q | q in t.calls ensures CallOk(t, t.calls[q]) {
      if q != p {
        assert CallOk(s, s.calls[q]);
        assert Building(s.calls[p]) ==> s.lock == Some(p) && !OwnsTemp(s.calls[q]);
      }
    }
  }

  lemma {:induction false} BuildKeepsInv(s: State, p: Pid, ok: bool, bad: bool)
    requires Inv(s) && p in s.calls && Building(s.calls[p]) && CallStep(s, p, ok, bad).Some?
    ensures Inv(CallStep(s, p, ok, bad).value)
  {
    var c := s.calls[p];
    assert CallOk(s, c);
    BuildIsFine(s, p, c, ok, bad);
    EffectKeepsInv(s, p, BuildStep(s, c, ok, bad).value);
  }

  // A build's effect in each respect.
  lemma {:induction false} BuildIsFine(s: State, p: Pid, c: Call, ok: bool, bad: bool)
    requires Building(c) && BuildStep(s, c, ok, bad).Some? && CallOk(s, c) && LocalOk(s)
    ensures var e := BuildStep(s, c, ok, bad).value;
            && LockMove(s, p, c, e) && (e.next.Some? ==> CallOk(After(s, p, e), e.next.value))
            && LocalOk(After(s, p, e)) && Ages(s, After(s, p, e)) && e.answers == s.answers
  {
    BuildPosition(s, p, c, ok, bad);
    BuildKeepsLocal(s, p, c, ok, bad);
    BuildAges(s, p, c, ok, bad);
  }

  // A build's effect that is fine in each respect.
  lemma {:induction false} EffectKeepsInv(s: State, p: Pid, e: Effect)
    requires Inv(s) && p in s.calls && Building(s.calls[p]) && LockMove(s, p, s.calls[p], e)
    requires e.next.Some? ==> CallOk(After(s, p, e), e.next.value)
    requires LocalOk(After(s, p, e)) && Ages(s, After(s, p, e)) && e.answers == s.answers
    ensures Inv(After(s, p, e))
  {
    AnswersAge(s, After(s, p, e));
    LockKept(s, p, e);
    OthersStayOk(s, p, e);
  }

  lemma {:induction false} ReadKeepsInv(s: State, p: Pid, ok: bool, bad: bool)
    requires Inv(s) && p in s.calls && !Building(s.calls[p]) && CallStep(s, p, ok, bad).Some?
    ensures Inv(CallStep(s, p, ok, bad).value)
  {
    var c := s.calls[p];
    assert CallOk(s, c);
    var e := CallEffect(s, p, c, ok, bad).value;
    if Probing(c) { ProbePosition(s, p, c, ok, bad); } else { LockPosition(s, p, c, ok); }
    SameStore(s, After(s, p, e));
    AnswersGrow(s, p, c, ok, bad);
    LockKept(s, p, e);
    OthersStayOk(s, p, e);
  }

  lemma {:induction false} EnvKeepsLocal(s: State, l: Label)
    requires LocalOk(s) && EnvStep(s, l).Some?
    ensures LocalOk(EnvStep(s, l).value)
  {
    if l.Unpack? { CreateKeepsLocal(s, Named(l.key), l.parent); }
    else if l.CommitTo? { CommitKeepsLocal(s, Named(l.name), Named(l.key)); }
    else if l.Drop? { DropKeepsLocal(s, Named(l.key)); }
    else { SameStore(s, EnvStep(s, l).value); }
  }

  lemma {:induction false} EnvAges(s: State, l: Label)
    requires EnvStep(s, l).Some?
    ensures var t := EnvStep(s, l).value; Ages(s, t) && t.answers == s.answers
  {
  }

  lemma {:induction false} EnvKeepsCalls(s: State, l: Label)
    requires CallsOk(s) && HostOk(s) && EnvStep(s, l).Some?
    ensures CallsOk(EnvStep(s, l).value) && HostOk(EnvStep(s, l).value)
  {
    var t := EnvStep(s, l).value;
    EnvKeepsKnowledge(s, l);
    forall q | q in t.calls ensures CallOk(t, t.calls[q]) { assert CallOk(s, s.calls[q]); }
  }

  // What was learnt of the host stays true, temporary keys stay, and calls are as they were or gone.
  lemma {:induction false} EnvKeepsKnowledge(s: State, l: Label)
    requires HostOk(s) && EnvStep(s, l).Some?
    ensures var t := EnvStep(s, l).value;
            && HostOk(t) && (t.calls == s.calls || t.calls == map[])
            && (forall d :: d in s.madeFor ==> d in t.madeFor && t.madeFor[d] == s.madeFor[d])
            && (forall c :: c in s.content ==> c in t.content && t.content[c] == s.content[c])
            && (forall k :: k in s.local && k.Temp? ==> k in t.local && t.local[k] == s.local[k])
  {
  }

  lemma {:induction false} StepKeepsInv(s: State, l: Label)
    requires Inv(s) && Step(s, l).Some?
    ensures Inv(Step(s, l).value)
  {
    var t := Step(s, l).value;
    if l.Go? {
      if Building(s.calls[l.p]) { BuildKeepsInv(s, l.p, l.ok, l.bad); } else { ReadKeepsInv(s, l.p, l.ok, l.bad); }
    } else if l.Start? {
      SameStore(s, t);
    } else {
      EnvKeepsLocal(s, l);
      EnvAges(s, l);
      AnswersAge(s, t);
      EnvKeepsCalls(s, l);
    }
  }

  /** Every reachable state. */
  lemma {:induction false} RunKeepsInv(s: State, run: seq<Label>)
    requires Inv(s) && Run(s, run).Some?
    ensures Inv(Run(s, run).value)
    decreases |run|
  {
    if run != [] {
      StepKeepsInv(s, run[0]);
      RunKeepsInv(Step(s, run[0]).value, run[1..]);
    }
  }
}
