/** The pinned-snapshots gauge against the leases that exist, over every run with faults. */
module LeaseAccounting {
  import opened LeaseProtocol
  import opened LeaseTheorems

  /**
   What a call still owes the gauge: a Prepare past its lease's creation owes an increment,
   a delete of a managed lease owes a decrement until it has counted it.
   */
  function Debt(c: Call): int {
    match c
    case PrepareAdd(_, _) => 1
    case PrepareInc => 1
    case PrepareCleanup(_) => 1
    case RemoveDec(_, _, managed) => if managed then -1 else 0
    case SweepDec(_) => -1
    case ApiDec(managed) => if managed then -1 else 0
    case _ => 0
  }

  function Owing(calls: map<Pid, Call>, d: int): set<Pid> { set p | p in calls && Debt(calls[p]) == d }

  function Net(calls: map<Pid, Call>): int { |Owing(calls, 1)| - |Owing(calls, -1)| }

  function DebtAt(calls: map<Pid, Call>, p: Pid): int { if p in calls then Debt(calls[p]) else 0 }

  function Gains(b: bool): int { if b then 1 else 0 }

  lemma {:induction false} OwingEnds(calls: map<Pid, Call>, p: Pid, d: int)
    requires d != 0
    ensures |Owing(calls - {p}, d)| == |Owing(calls, d)| - Gains(DebtAt(calls, p) == d)
  {
    assert Owing(calls - {p}, d) == Owing(calls, d) - {p};
  }

  lemma {:induction false} OwingMoves(calls: map<Pid, Call>, p: Pid, c: Call, d: int)
    requires d != 0
    ensures |Owing(calls[p := c], d)| == |Owing(calls - {p}, d)| + Gains(Debt(c) == d)
  {
    var rest := Owing(calls - {p}, d);
    assert Owing(calls[p := c], d) == if Debt(c) == d then rest + {p} else rest;
  }

  lemma {:induction false} NetMoves(calls: map<Pid, Call>, after: map<Pid, Call>, p: Pid)
    requires after == calls - {p} || (p in after && after == calls[p := after[p]])
    ensures Net(after) == Net(calls) - DebtAt(calls, p) + DebtAt(after, p)
  {
    OwingEnds(calls, p, 1);
    OwingEnds(calls, p, -1);
    if p in after {
      OwingMoves(calls, p, after[p], 1);
      OwingMoves(calls, p, after[p], -1);
    }
  }

  lemma {:induction false} ManagedDrops(leases: map<LeaseId, Lease>, id: LeaseId)
    ensures |ManagedIds(leases - {id})| == |ManagedIds(leases)| - Gains(id in leases && leases[id].managed)
  {
    assert ManagedIds(leases - {id}) == ManagedIds(leases) - {id};
  }

  lemma {:induction false} ManagedAdds(leases: map<LeaseId, Lease>, id: LeaseId, l: Lease)
    ensures |ManagedIds(leases[id := l])| == |ManagedIds(leases - {id})| + Gains(l.managed)
  {
    var rest := ManagedIds(leases - {id});
    assert ManagedIds(leases[id := l]) == if l.managed then rest + {id} else rest;
  }

  lemma {:induction false} ManagedMoves(leases: map<LeaseId, Lease>, id: LeaseId, l: Lease)
    ensures |ManagedIds(leases[id := l])|
            == |ManagedIds(leases)| - Gains(id in leases && leases[id].managed) + Gains(l.managed)
    ensures |ManagedIds(leases - {id})| == |ManagedIds(leases)| - Gains(id in leases && leases[id].managed)
  {
    ManagedDrops(leases, id);
    ManagedAdds(leases, id, l);
  }

  /** Managed leases not accounted for by the gauge, the three counters and the calls under way. */
  function Gap(s: State): int {
    |ManagedIds(s.leases)| - (s.gauge + s.inherited + s.stranded + s.foreign + Net(s.calls))
  }

  lemma {:induction false} PrepareKeepsGap(s: State, l: Label)
    requires PrepareStep(s, l).Some?
    ensures Gap(PrepareStep(s, l).value) == Gap(s)
  {
    PrepareMovesOne(s, l);
    NetMoves(s.calls, PrepareStep(s, l).value.calls, l.p);
  }

  lemma {:induction false} PinKeepsGap(s: State, l: Label)
    requires PinStep(s, l).Some? && s.issued !in s.leases && (l.DoCleanup? ==> Managed(s, s.calls[l.p].id))
    ensures Gap(PinStep(s, l).value) == Gap(s)
  {
    var t := PinStep(s, l).value;
    NetMoves(s.calls, t.calls, l.p);
    if l.DoCreate? && l.ok { ManagedMoves(s.leases, s.issued, t.leases[s.issued]); }
    if l.DoAdd? && l.ok { ManagedMoves(s.leases, s.calls[l.p].id, t.leases[s.calls[l.p].id]); }
    if l.DoCleanup? && l.ok { ManagedMoves(s.leases, s.calls[l.p].id, s.leases[s.calls[l.p].id]); }
  }

  lemma {:induction false} RemoveKeepsGap(s: State, l: Label)
    requires RemoveStep(s, l).Some?
    ensures Gap(RemoveStep(s, l).value) == Gap(s)
  {
    if l.DoRemoveDelete? { RemovalKeepsGap(s, l); }
    else if l.DoRemoveDec? { DecKeepsGap(s, l); }
    else { OwesNothing(s, l); }
  }

  lemma {:induction false} OwesNothing(s: State, l: Label)
    requires RemoveStep(s, l).Some? && !l.DoRemoveDelete? && !l.DoRemoveDec?
    ensures Gap(RemoveStep(s, l).value) == Gap(s)
  {
    var t := RemoveStep(s, l).value;
    RemoveMovesOne(s, l);
    NetMoves(s.calls, t.calls, l.p);
    assert DebtAt(s.calls, l.p) == 0 && DebtAt(t.calls, l.p) == 0 && t.leases == s.leases;
  }

  lemma {:induction false} DecKeepsGap(s: State, l: Label)
    requires RemoveStep(s, l).Some? && l.DoRemoveDec?
    ensures Gap(RemoveStep(s, l).value) == Gap(s)
  {
    RemoveMovesOne(s, l);
    NetMoves(s.calls, RemoveStep(s, l).value.calls, l.p);
  }

  lemma {:induction false} RemovalKeepsGap(s: State, l: Label)
    requires RemoveStep(s, l).Some? && l.DoRemoveDelete?
    ensures Gap(RemoveStep(s, l).value) == Gap(s)
  {
    RemoveMovesOne(s, l);
    NetMoves(s.calls, RemoveStep(s, l).value.calls, l.p);
    if l.ok { ManagedMoves(s.leases, l.id, s.leases[l.id]); }
  }

  lemma {:induction false} SweepKeepsGap(s: State, l: Label)
    requires SweepStep(s, l).Some? && (l.DoSweepDelete? ==> Managed(s, s.calls[l.p].id))
    ensures Gap(SweepStep(s, l).value) == Gap(s)
  {
    var t := SweepStep(s, l).value;
    NetMoves(s.calls, t.calls, l.p);
    if l.DoSweepDelete? && l.ok { ManagedMoves(s.leases, s.calls[l.p].id, s.leases[s.calls[l.p].id]); }
  }

  lemma {:induction false} ApiKeepsGap(s: State, l: Label)
    requires ApiStep(s, l).Some?
    ensures Gap(ApiStep(s, l).value) == Gap(s)
  {
    var t := ApiStep(s, l).value;
    NetMoves(s.calls, t.calls, l.p);
    if l.DoApiDelete? && l.ok { ManagedMoves(s.leases, s.calls[l.p].id, s.leases[s.calls[l.p].id]); }
  }

  lemma {:induction false} EnvKeepsGap(s: State, l: Label)
    requires EnvStep(s, l).Some? && s.issued !in s.leases
    ensures Gap(EnvStep(s, l).value) == if l.Restart? then 0 else Gap(s)
  {
    var t := EnvStep(s, l).value;
    if l.ForeignLease? { ManagedMoves(s.leases, s.issued, t.leases[s.issued]); }
    if l.Restart? { assert Owing(t.calls, 1) == {} && Owing(t.calls, -1) == {}; }
    if l.ForeignDrop? { ManagedMoves(s.leases, l.id, s.leases[l.id]); }
  }

  // What the count needs of a state before a step: new numbers are new, and cleanups and sweeps delete managed leases.
  predicate Countable(s: State, l: Label) {
    && s.issued !in s.leases
    && (l.DoCleanup? && l.p in s.calls && s.calls[l.p].PrepareCleanup? ==> Managed(s, s.calls[l.p].id))
    && (l.DoSweepDelete? && l.p in s.calls && s.calls[l.p].SweepDelete? ==> Managed(s, s.calls[l.p].id))
  }

  lemma {:induction false} InvCountable(s: State, l: Label)
    requires Inv(s)
    ensures Countable(s, l)
  {
  }

  lemma {:induction false} StepKeepsGap(s: State, l: Label)
    requires Countable(s, l) && Step(s, l).Some? && Gap(s) == 0
    ensures Gap(Step(s, l).value) == 0
  {
    if PrepareStep(s, l).Some? { PrepareKeepsGap(s, l); }
    else if PinStep(s, l).Some? { PinKeepsGap(s, l); }
    else if RemoveStep(s, l).Some? { RemoveKeepsGap(s, l); }
    else if SweepStep(s, l).Some? { SweepKeepsGap(s, l); }
    else if ApiStep(s, l).Some? { ApiKeepsGap(s, l); }
    else { EnvKeepsGap(s, l); }
  }

  lemma {:induction false} RunKeepsGap(s: State, run: seq<Label>)
    requires Inv(s) && Run(s, run).Some? && Gap(s) == 0
    ensures Gap(Run(s, run).value) == 0
    decreases |run|
  {
    if run != [] {
      InvCountable(s, run[0]);
      StepKeepsInv(s, run[0]);
      StepKeepsGap(s, run[0]);
      RunKeepsGap(Step(s, run[0]).value, run[1..]);
    }
  }

  /** The accounting law, in every reachable state. */
  lemma {:induction false} LeasesAccounted(start: State, run: seq<Label>)
    requires Init(start) && Run(start, run).Some?
    ensures var s := Run(start, run).value;
            |ManagedIds(s.leases)| + |Owing(s.calls, -1)|
            == s.gauge + s.inherited + s.stranded + s.foreign + |Owing(s.calls, 1)|
  {
    InitHasInv(start);
    RunKeepsGap(start, run);
  }

  // ------------------------------------------------------ when the gauge is exact

  /** The step breaks no count: no restart, no failed cleanup, no successful delete of a lease that is not managed. */
  predicate Clean(s: State, l: Label) {
    && !l.Restart? && !(l.DoCleanup? && !l.ok)
    && (l.DoRemoveDelete? && l.ok ==> Managed(s, l.id))
    && (l.DoApiDelete? && l.ok && l.p in s.calls && s.calls[l.p].ApiDelete? ==> Managed(s, s.calls[l.p].id))
  }

  ghost predicate CleanRun(s: State, run: seq<Label>)
    decreases |run|
  {
    run == [] || (Clean(s, run[0]) && (Step(s, run[0]).Some? ==> CleanRun(Step(s, run[0]).value, run[1..])))
  }

  // Whether a call is about to spend a decrement on a lease that was not managed.
  predicate Misspends(c: Call) { (c.RemoveDec? || c.ApiDec?) && !c.managed }

  // No count is off, and none is about to be.
  predicate Straight(s: State) {
    s.stranded == 0 && s.foreign == 0 && forall p :: p in s.calls ==> !Misspends(s.calls[p])
  }

  predicate NonNegative(s: State) { s.stranded >= 0 && s.foreign >= 0 }

  lemma {:induction false} RemoveStraight(s: State, l: Label)
    requires NonNegative(s) && RemoveStep(s, l).Some?
    ensures var t := RemoveStep(s, l).value; NonNegative(t) && (Straight(t) <==> Straight(s) && Clean(s, l))
  {
    RemoveMovesOne(s, l);
    StraightMoves(s, RemoveStep(s, l).value, l.p);
  }

  // What a step of call p does to the counts.
  lemma {:induction false} StraightMoves(s: State, t: State, p: Pid)
    requires MovesOne(s, t, p)
    ensures (forall q :: q in t.calls ==> !Misspends(t.calls[q])) <==>
            (forall q :: q in s.calls && q != p ==> !Misspends(s.calls[q])) && (p in t.calls ==> !Misspends(t.calls[p]))
  {
    forall q | q in s.calls && q != p ensures q in t.calls && t.calls[q] == s.calls[q] {
    }
  }

  lemma {:induction false} PinStraight(s: State, l: Label)
    requires NonNegative(s) && PinStep(s, l).Some?
    ensures var t := PinStep(s, l).value; NonNegative(t) && (Straight(t) <==> Straight(s) && Clean(s, l))
  {
    PinMovesOne(s, l);
    StraightMoves(s, PinStep(s, l).value, l.p);
  }

  lemma {:induction false} ApiStraight(s: State, l: Label)
    requires NonNegative(s) && ApiStep(s, l).Some?
    ensures var t := ApiStep(s, l).value; NonNegative(t) && (Straight(t) <==> Straight(s) && Clean(s, l))
  {
    ApiMovesOne(s, l);
    StraightMoves(s, ApiStep(s, l).value, l.p);
  }

  lemma {:induction false} PrepareStraight(s: State, l: Label)
    requires NonNegative(s) && PrepareStep(s, l).Some?
    ensures var t := PrepareStep(s, l).value; NonNegative(t) && (Straight(t) <==> Straight(s) && Clean(s, l))
  {
    PrepareMovesOne(s, l);
    StraightMoves(s, PrepareStep(s, l).value, l.p);
  }

  lemma {:induction false} SweepStraight(s: State, l: Label)
    requires NonNegative(s) && SweepStep(s, l).Some?
    ensures var t := SweepStep(s, l).value; NonNegative(t) && (Straight(t) <==> Straight(s) && Clean(s, l))
  {
    SweepMovesOne(s, l);
    StraightMoves(s, SweepStep(s, l).value, l.p);
  }

  lemma {:induction false} StepStraight(s: State, l: Label)
    requires NonNegative(s) && Step(s, l).Some? && !l.Restart?
    ensures var t := Step(s, l).value; NonNegative(t) && (Straight(t) <==> Straight(s) && Clean(s, l))
  {
    if RemoveStep(s, l).Some? { RemoveStraight(s, l); }
    else if PinStep(s, l).Some? { PinStraight(s, l); }
    else if ApiStep(s, l).Some? { ApiStraight(s, l); }
    else if PrepareStep(s, l).Some? { PrepareStraight(s, l); }
    else if SweepStep(s, l).Some? { SweepStraight(s, l); }
  }

  lemma {:induction false} InheritedStays(s: State, l: Label)
    requires Step(s, l).Some? && !l.Restart?
    ensures Step(s, l).value.inherited == s.inherited
  {
  }

  lemma {:induction false} RunStraight(s: State, run: seq<Label>)
    requires NonNegative(s) && Run(s, run).Some? && forall i :: 0 <= i < |run| ==> !run[i].Restart?
    ensures var t := Run(s, run).value;
            NonNegative(t) && t.inherited == s.inherited && (Straight(t) <==> Straight(s) && CleanRun(s, run))
    decreases |run|
  {
    if run != [] {
      StepStraight(s, run[0]);
      InheritedStays(s, run[0]);
      RunStraight(Step(s, run[0]).value, run[1..]);
    }
  }

  /**
   Started without managed leases and not restarted, an idle process shows the number of
   managed leases on its gauge if and only if no cleanup failed and no lease of others was
   deleted on the way.  Others may create and drop leases as they like.
   */
  lemma {:induction false} IdleGaugeExact(start: State, run: seq<Label>)
    requires Init(start) && ManagedIds(start.leases) == {} && Run(start, run).Some?
    requires forall i :: 0 <= i < |run| ==> !run[i].Restart?
    requires Run(start, run).value.calls == map[]
    ensures var s := Run(start, run).value; s.gauge == |ManagedIds(s.leases)| <==> CleanRun(start, run)
  {
    LeasesAccounted(start, run);
    RunStraight(start, run);
    assert Owing(Run(start, run).value.calls, 1) == {} && Owing(Run(start, run).value.calls, -1) == {};
  }
}
