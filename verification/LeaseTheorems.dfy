/** What every run of the lease protocol keeps. */
module LeaseTheorems {
  import opened LeaseProtocol

  // ------------------------------------------------- the invariant of every run

  lemma {:induction false} InitHasInv(s: State)
    requires Init(s)
    ensures Inv(s)
  {
  }

  lemma {:induction false} CallOkLasts(s: State, t: State, c: Call)
    requires CallOk(s, c) && Numbered(s) && Evolves(s, t)
    ensures CallOk(t, c)
  {
    if c.SweepDelete? && c.id in t.leases {
      assert t.leases[c.id].origin == s.leases[c.id].origin && t.leases[c.id].owner == s.leases[c.id].owner;
    }
  }

  // Only call p moved.
  predicate MovesOne(s: State, t: State, p: Pid) {
    t.calls == s.calls - {p} || (p in t.calls && t.calls == s.calls[p := t.calls[p]])
  }

  // Only call p moved, and its new position is fine.
  predicate Moves(s: State, t: State, p: Pid) {
    MovesOne(s, t, p) && (p in t.calls ==> CallOk(t, t.calls[p]))
  }

  // Call p completes no lease it was not completing before, and other leases pin what they did.
  predicate NoNewPin(s: State, t: State, p: Pid) {
    && (p in t.calls && Completing(t.calls[p]).Some? ==> p in s.calls && Completing(s.calls[p]) == Completing(t.calls[p]))
    && (forall id :: id in t.leases && t.leases[id].resource.Some? ==> id in s.leases && s.leases[id].resource.Some?)
  }

  lemma {:induction false} MoveKeepsCalls(s: State, t: State, p: Pid)
    requires CallsOk(s) && Numbered(s) && Evolves(s, t) && Moves(s, t, p)
    ensures CallsOk(t)
  {
    forall q | q in t.calls ensures CallOk(t, t.calls[q]) {
      if q != p { CallOkLasts(s, t, t.calls[q]); }
    }
  }

  lemma {:induction false} MoveKeepsExclusive(s: State, t: State, p: Pid)
    requires Inv(s) && Evolves(s, t) && Moves(s, t, p) && NoNewPin(s, t, p)
    ensures Exclusive(t)
  {
    forall q | q in t.calls ensures Completing(t.calls[q]).Some? ==> q in s.calls && Completing(s.calls[q]) == Completing(t.calls[q]) {
    }
    forall q | q in t.calls && Completing(t.calls[q]).Some? && Completing(t.calls[q]).value in t.leases
      ensures t.leases[Completing(t.calls[q]).value].resource.None?
    {
      var id := Completing(s.calls[q]).value;
      assert CallOk(s, s.calls[q]);
    }
  }

  lemma {:induction false} MoveKeepsInv(s: State, t: State, p: Pid)
    requires Inv(s) && Evolves(s, t) && Numbered(t) && Moves(s, t, p) && NoNewPin(s, t, p)
    ensures Inv(t)
  {
    MoveKeepsCalls(s, t, p);
    MoveKeepsExclusive(s, t, p);
  }

  lemma {:induction false} PrepareEvolves(s: State, l: Label)
    requires PrepareStep(s, l).Some?
    ensures Evolves(s, PrepareStep(s, l).value)
  {
  }

  lemma {:induction false} PrepareNumbers(s: State, l: Label)
    requires Numbered(s) && PrepareStep(s, l).Some? && (l.p in s.calls ==> CallOk(s, s.calls[l.p]))
    ensures Numbered(PrepareStep(s, l).value)
  {
  }

  lemma {:induction false} PreparePosition(s: State, l: Label)
    requires Numbered(s) && PrepareStep(s, l).Some? && (l.p in s.calls ==> CallOk(s, s.calls[l.p]))
    ensures var t := PrepareStep(s, l).value; l.p in t.calls ==> CallOk(t, t.calls[l.p])
  {
  }

  lemma {:induction false} PrepareMovesOne(s: State, l: Label)
    requires PrepareStep(s, l).Some?
    ensures MovesOne(s, PrepareStep(s, l).value, l.p)
  {
  }

  lemma {:induction false} PrepareNoNewPin(s: State, l: Label)
    requires PrepareStep(s, l).Some?
    ensures NoNewPin(s, PrepareStep(s, l).value, l.p)
  {
  }

  lemma {:induction false} PrepareKeepsInv(s: State, l: Label)
    requires Inv(s) && PrepareStep(s, l).Some?
    ensures Inv(PrepareStep(s, l).value)
  {
    PrepareEvolves(s, l);
    PrepareNumbers(s, l);
    PreparePosition(s, l);
    PrepareMovesOne(s, l);
    PrepareNoNewPin(s, l);
    MoveKeepsInv(s, PrepareStep(s, l).value, l.p);
  }

  lemma {:induction false} PinEvolves(s: State, l: Label)
    requires PinStep(s, l).Some?
    ensures Evolves(s, PinStep(s, l).value)
  {
  }

  lemma {:induction false} CreateNumbers(s: State, l: Label)
    requires Numbered(s) && PinStep(s, l).Some? && l.DoCreate? && CallOk(s, s.calls[l.p])
    ensures Numbered(PinStep(s, l).value)
  {
    if l.ok {
      var t := PinStep(s, l).value;
      forall id | id in t.leases && id != s.issued ensures id in s.leases && t.leases[id] == s.leases[id] {
      }
    }
  }

  lemma {:induction false} PinNumbers(s: State, l: Label)
    requires Numbered(s) && PinStep(s, l).Some? && (l.p in s.calls ==> CallOk(s, s.calls[l.p]))
    ensures Numbered(PinStep(s, l).value)
  {
    if l.DoCreate? { CreateNumbers(s, l); }
  }

  lemma {:induction false} PinPosition(s: State, l: Label)
    requires Numbered(s) && PinStep(s, l).Some? && (l.p in s.calls ==> CallOk(s, s.calls[l.p]))
    ensures var t := PinStep(s, l).value; l.p in t.calls ==> CallOk(t, t.calls[l.p])
  {
  }

  lemma {:induction false} PinMovesOne(s: State, l: Label)
    requires PinStep(s, l).Some?
    ensures MovesOne(s, PinStep(s, l).value, l.p)
  {
  }

  lemma {:induction false} CreateKeepsExclusive(s: State, l: Label)
    requires Inv(s) && PinStep(s, l).Some? && l.DoCreate?
    ensures Exclusive(PinStep(s, l).value)
  {
    var t := PinStep(s, l).value;
    forall q | q in t.calls && q != l.p && Completing(t.calls[q]).Some? ensures Completing(t.calls[q]).value < s.issued {
      assert CallOk(s, s.calls[q]);
    }
  }

  lemma {:induction false} AddKeepsExclusive(s: State, l: Label)
    requires Inv(s) && PinStep(s, l).Some? && l.DoAdd?
    ensures Exclusive(PinStep(s, l).value)
  {
  }

  lemma {:induction false} PinNoNewPin(s: State, l: Label)
    requires PinStep(s, l).Some? && !l.DoCreate? && !l.DoAdd?
    ensures NoNewPin(s, PinStep(s, l).value, l.p)
  {
  }

  lemma {:induction false} PinKeepsExclusive(s: State, l: Label)
    requires Inv(s) && PinStep(s, l).Some? && Evolves(s, PinStep(s, l).value) && Moves(s, PinStep(s, l).value, l.p)
    ensures Exclusive(PinStep(s, l).value)
  {
    if l.DoCreate? { CreateKeepsExclusive(s, l); }
    else if l.DoAdd? { AddKeepsExclusive(s, l); }
    else {
      PinNoNewPin(s, l);
      MoveKeepsExclusive(s, PinStep(s, l).value, l.p);
    }
  }

  lemma {:induction false} PinKeepsInv(s: State, l: Label)
    requires Inv(s) && PinStep(s, l).Some?
    ensures Inv(PinStep(s, l).value)
  {
    PinEvolves(s, l);
    PinNumbers(s, l);
    PinPosition(s, l);
    PinMovesOne(s, l);
    MoveKeepsCalls(s, PinStep(s, l).value, l.p);
    PinKeepsExclusive(s, l);
  }

  lemma {:induction false} RemoveEvolves(s: State, l: Label)
    requires RemoveStep(s, l).Some?
    ensures Evolves(s, RemoveStep(s, l).value)
  {
  }

  lemma {:induction false} RemoveNumbers(s: State, l: Label)
    requires Numbered(s) && RemoveStep(s, l).Some? && (l.p in s.calls ==> CallOk(s, s.calls[l.p]))
    ensures Numbered(RemoveStep(s, l).value)
  {
  }

  lemma {:induction false} RemovePosition(s: State, l: Label)
    requires Numbered(s) && RemoveStep(s, l).Some? && (l.p in s.calls ==> CallOk(s, s.calls[l.p]))
    ensures var t := RemoveStep(s, l).value; l.p in t.calls ==> CallOk(t, t.calls[l.p])
  {
  }

  lemma {:induction false} RemoveMovesOne(s: State, l: Label)
    requires RemoveStep(s, l).Some?
    ensures MovesOne(s, RemoveStep(s, l).value, l.p)
  {
  }

  lemma {:induction false} RemoveNoNewPin(s: State, l: Label)
    requires RemoveStep(s, l).Some?
    ensures NoNewPin(s, RemoveStep(s, l).value, l.p)
  {
  }

  lemma {:induction false} RemoveKeepsInv(s: State, l: Label)
    requires Inv(s) && RemoveStep(s, l).Some?
    ensures Inv(RemoveStep(s, l).value)
  {
    RemoveEvolves(s, l);
    RemoveNumbers(s, l);
    RemovePosition(s, l);
    RemoveMovesOne(s, l);
    RemoveNoNewPin(s, l);
    MoveKeepsInv(s, RemoveStep(s, l).value, l.p);
  }

  lemma {:induction false} SweepEvolves(s: State, l: Label)
    requires SweepStep(s, l).Some?
    ensures Evolves(s, SweepStep(s, l).value)
  {
  }

  lemma {:induction false} SweepNumbers(s: State, l: Label)
    requires Numbered(s) && SweepStep(s, l).Some? && (l.p in s.calls ==> CallOk(s, s.calls[l.p]))
    ensures Numbered(SweepStep(s, l).value)
  {
  }

  lemma {:induction false} SweepPosition(s: State, l: Label)
    requires Numbered(s) && SweepStep(s, l).Some? && (l.p in s.calls ==> CallOk(s, s.calls[l.p]))
    ensures var t := SweepStep(s, l).value; l.p in t.calls ==> CallOk(t, t.calls[l.p])
  {
  }

  lemma {:induction false} SweepMovesOne(s: State, l: Label)
    requires SweepStep(s, l).Some?
    ensures MovesOne(s, SweepStep(s, l).value, l.p)
  {
  }

  lemma {:induction false} SweepNoNewPin(s: State, l: Label)
    requires SweepStep(s, l).Some?
    ensures NoNewPin(s, SweepStep(s, l).value, l.p)
  {
  }

  lemma {:induction false} SweepKeepsInv(s: State, l: Label)
    requires Inv(s) && SweepStep(s, l).Some?
    ensures Inv(SweepStep(s, l).value)
  {
    SweepEvolves(s, l);
    SweepNumbers(s, l);
    SweepPosition(s, l);
    SweepMovesOne(s, l);
    SweepNoNewPin(s, l);
    MoveKeepsInv(s, SweepStep(s, l).value, l.p);
  }

  lemma {:induction false} ApiEvolves(s: State, l: Label)
    requires ApiStep(s, l).Some?
    ensures Evolves(s, ApiStep(s, l).value)
  {
  }

  lemma {:induction false} ApiNumbers(s: State, l: Label)
    requires Numbered(s) && ApiStep(s, l).Some? && (l.p in s.calls ==> CallOk(s, s.calls[l.p]))
    ensures Numbered(ApiStep(s, l).value)
  {
  }

  lemma {:induction false} ApiPosition(s: State, l: Label)
    requires Numbered(s) && ApiStep(s, l).Some? && (l.p in s.calls ==> CallOk(s, s.calls[l.p]))
    ensures var t := ApiStep(s, l).value; l.p in t.calls ==> CallOk(t, t.calls[l.p])
  {
  }

  lemma {:induction false} ApiMovesOne(s: State, l: Label)
    requires ApiStep(s, l).Some?
    ensures MovesOne(s, ApiStep(s, l).value, l.p)
  {
  }

  lemma {:induction false} ApiNoNewPin(s: State, l: Label)
    requires ApiStep(s, l).Some?
    ensures NoNewPin(s, ApiStep(s, l).value, l.p)
  {
  }

  lemma {:induction false} ApiKeepsInv(s: State, l: Label)
    requires Inv(s) && ApiStep(s, l).Some?
    ensures Inv(ApiStep(s, l).value)
  {
    ApiEvolves(s, l);
    ApiNumbers(s, l);
    ApiPosition(s, l);
    ApiMovesOne(s, l);
    ApiNoNewPin(s, l);
    MoveKeepsInv(s, ApiStep(s, l).value, l.p);
  }

  lemma {:induction false} EnvEvolves(s: State, l: Label)
    requires Numbered(s) && EnvStep(s, l).Some?
    ensures var t := EnvStep(s, l).value; Evolves(s, t) && Numbered(t)
  {
  }

  lemma {:induction false} EnvKeepsInv(s: State, l: Label)
    requires Inv(s) && EnvStep(s, l).Some?
    ensures Inv(EnvStep(s, l).value)
  {
    var t := EnvStep(s, l).value;
    EnvEvolves(s, l);
    assert t.calls == s.calls || t.calls == map[];
    forall q | q in t.calls ensures CallOk(t, t.calls[q]) { CallOkLasts(s, t, s.calls[q]); }
    forall q | q in t.calls && Completing(t.calls[q]).Some? && Completing(t.calls[q]).value in t.leases
      ensures t.leases[Completing(t.calls[q]).value].resource.None?
    {
      assert CallOk(s, s.calls[q]);
    }
  }

  lemma {:induction false} StepKeepsInv(s: State, l: Label)
    requires Inv(s) && Step(s, l).Some?
    ensures Inv(Step(s, l).value)
  {
    if PrepareStep(s, l).Some? { PrepareKeepsInv(s, l); }
    else if PinStep(s, l).Some? { PinKeepsInv(s, l); }
    else if RemoveStep(s, l).Some? { RemoveKeepsInv(s, l); }
    else if SweepStep(s, l).Some? { SweepKeepsInv(s, l); }
    else if ApiStep(s, l).Some? { ApiKeepsInv(s, l); }
    else { EnvKeepsInv(s, l); }
  }

  /** Every reachable state, restarts included. */
  lemma {:induction false} RunKeepsInv(s: State, run: seq<Label>)
    requires Inv(s) && Run(s, run).Some?
    ensures Inv(Run(s, run).value)
    decreases |run|
  {
    if run != [] {
      StepKeepsInv(s, run[0]);
      RunKeepsInv(Step(s, run[0]).value, run[1..]);
    }
  }
}
