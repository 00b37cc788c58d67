/**
 The dedup lease protocol as a transition system.  Prepare, Remove, the orphan sweep and
 the operator's delete call are sequences of steps that interleave freely; every call to
 the local snapshotter or the lease service is one step and may fail.  The local store,
 the lease service, the host's layers and the gauge are the shared state.
 */
module LeaseProtocol {
  import opened Wrappers
  import opened SnapshotKeys

  type LeaseId = nat
  type Pid = nat

  // `origin` records, for a lease made by the Prepare that created its owner key, which
  // creation of that key it was; the program does not see it.
  datatype Lease = Lease(ns: string, managed: bool, owner: string, resource: Option<Layer>, origin: Option<nat>)

  datatype Call =
    | PrepareLocal(key: string, parent: string)
    | PrepareCreate(key: string, pin: Pin, origin: Option<nat>)
    | PrepareAdd(id: LeaseId, layer: Layer)
    | PrepareInc
    | PrepareCleanup(id: LeaseId)
    | RemoveLocal(key: string)
    | RemoveList(key: string, ns: string)
    | RemoveDelete(key: string, todo: set<LeaseId>)
    | RemoveDec(key: string, todo: set<LeaseId>, managed: bool)
    | SweepList
    | SweepScan(seen: map<LeaseId, string>)
    | SweepDelete(id: LeaseId, seen: map<LeaseId, string>)
    | SweepDec(seen: map<LeaseId, string>)
    | ApiDelete(id: LeaseId)
    | ApiDec(managed: bool)

  datatype State = State(
    // Live keys of the local snapshotter, with the serial number of their creation.
    local: map<string, nat>,
    created: nat,
    leases: map<LeaseId, Lease>,
    issued: nat,
    // Layers present on the host and their parents.
    host: map<Layer, Option<Layer>>,
    gauge: int,
    calls: map<Pid, Call>,
    // Bookkeeping for the accounting law; the program does not see it.
    inherited: int,
    stranded: int,
    foreign: int)

  datatype Label =
    | StartPrepare(p: Pid, key: string, parent: string)
    | DoPrepareLocal(p: Pid, ok: bool)
    | DoCreate(p: Pid, ok: bool)
    | DoAdd(p: Pid, ok: bool)
    | DoInc(p: Pid)
    | DoCleanup(p: Pid, ok: bool)
    | StartRemove(p: Pid, key: string)
    | DoRemoveLocal(p: Pid, ok: bool)
    | DoRemoveList(p: Pid, ok: bool)
    | DoRemoveDelete(p: Pid, id: LeaseId, ok: bool)
    | DoRemoveDec(p: Pid)
    | StartSweep(p: Pid)
    | DoSweepList(p: Pid, ok: bool)
    | DoSweepStat(p: Pid, id: LeaseId)
    | DoSweepDelete(p: Pid, ok: bool)
    | DoSweepDec(p: Pid)
    | StartApi(p: Pid, id: LeaseId)
    | DoApiDelete(p: Pid, ok: bool)
    | DoApiDec(p: Pid)
    | Finish(p: Pid)
    // The environment.
    | CommitAway(key: string, name: string)
    | LocalAdd(key: string)
    | LocalDrop(key: string)
    | ForeignLease(ns: string, owner: string)
    | ForeignDrop(id: LeaseId)
    | HostAdd(layer: Layer, below: Option<Layer>)
    | HostGc(gone: set<Layer>)
    | Restart

  // ------------------------------------------------------------------ helpers

  function With(s: State, p: Pid, c: Call): State { s.(calls := s.calls[p := c]) }
  function End(s: State, p: Pid): State { s.(calls := s.calls - {p}) }

  function CreateKey(s: State, key: string): State {
    s.(local := s.local[key := s.created], created := s.created + 1)
  }

  function DropLease(s: State, id: LeaseId): State { s.(leases := s.leases - {id}) }

  /** The managed-by listing of the sweep, in its fixed namespace, with the owner labels read. */
  function ManagedListing(s: State): map<LeaseId, string> {
    map id | id in s.leases && s.leases[id].managed && s.leases[id].ns == K8S :: s.leases[id].owner
  }

  /** The owner-key listing of an unpin. */
  function OwnerListing(leases: map<LeaseId, Lease>, ns: string, key: string): set<LeaseId> {
    set id | id in leases && leases[id].ns == ns && leases[id].owner == key
  }

  function ManagedIds(leases: map<LeaseId, Lease>): set<LeaseId> {
    set id | id in leases && leases[id].managed
  }

  // --------------------------------------------------------- host layer chains

  /** Successive parents on the host, from a layer downwards. */
  ghost predicate IsChain(host: map<Layer, Option<Layer>>, chain: seq<Layer>) {
    && (forall i :: 0 <= i < |chain| ==> chain[i] in host)
    && (forall i :: 0 <= i < |chain| - 1 ==> host[chain[i]] == Some(chain[i + 1]))
  }

  /** Kept by host garbage collection: a leased layer or an ancestor of one. */
  ghost predicate Protected(s: State, x: Layer) {
    exists id, chain ::
      && id in s.leases && chain != [] && s.leases[id].resource == Some(chain[0])
      && IsChain(s.host, chain) && chain[|chain| - 1] == x
  }

  // -------------------------------------------------------------------- steps

  function PrepareStep(s: State, l: Label): Option<State> {
    match l
    case StartPrepare(p, key, parent) =>
      if p in s.calls then None else Some(With(s, p, PrepareLocal(key, parent)))
    case DoPrepareLocal(p, ok) =>
      if p !in s.calls || !s.calls[p].PrepareLocal? then None
      else
        var key := s.calls[p].key;
        var pin := PinFor(key, s.calls[p].parent);
        if ok && key in s.local then None
        else
          var t := if ok then CreateKey(s, key) else s;
          var origin := if ok then Some(s.created) else None;
          Some(if pin.Some? then With(t, p, PrepareCreate(key, pin.value, origin)) else End(t, p))
    case _ => None
  }

  function PinStep(s: State, l: Label): Option<State> {
    match l
    case DoCreate(p, ok) =>
      if p !in s.calls || !s.calls[p].PrepareCreate? then None
      else if !ok then Some(End(s, p))
      else
        var c := s.calls[p];
        var lease := Lease(c.pin.ns, true, c.key, None, c.origin);
        Some(With(s.(leases := s.leases[s.issued := lease], issued := s.issued + 1),
                  p, PrepareAdd(s.issued, Layer(c.pin.ns, c.pin.chain))))
    case DoAdd(p, ok) =>
      if p !in s.calls || !s.calls[p].PrepareAdd? then None
      else
        var c := s.calls[p];
        if !ok then Some(With(s, p, PrepareCleanup(c.id)))
        else if c.id !in s.leases then None
        else Some(With(s.(leases := s.leases[c.id := s.leases[c.id].(resource := Some(c.layer))]), p, PrepareInc))
    case DoInc(p) =>
      if p !in s.calls || !s.calls[p].PrepareInc? then None
      else Some(End(s.(gauge := s.gauge + 1), p))
    case DoCleanup(p, ok) =>
      if p !in s.calls || !s.calls[p].PrepareCleanup? then None
      else if !ok then Some(End(s.(stranded := s.stranded + 1), p))
      else if s.calls[p].id !in s.leases then None
      else Some(End(DropLease(s, s.calls[p].id), p))
    case _ => None
  }

  function RemoveStep(s: State, l: Label): Option<State> {
    match l
    case StartRemove(p, key) =>
      if p in s.calls then None else Some(With(s, p, RemoveLocal(key)))
    case DoRemoveLocal(p, ok) =>
      if p !in s.calls || !s.calls[p].RemoveLocal? then None
      else
        var key := s.calls[p].key;
        var ns := UnpinNamespace(key);
        if ok && key !in s.local then None
        else
          var t := if ok then s.(local := s.local - {key}) else s;
          Some(if ns.Some? then With(t, p, RemoveList(key, ns.value)) else End(t, p))
    case DoRemoveList(p, ok) =>
      if p !in s.calls || !s.calls[p].RemoveList? then None
      else if !ok then Some(End(s, p))
      else Some(With(s, p, RemoveDelete(s.calls[p].key, OwnerListing(s.leases, s.calls[p].ns, s.calls[p].key))))
    case DoRemoveDelete(p, id, ok) =>
      if p !in s.calls || !s.calls[p].RemoveDelete? || id !in s.calls[p].todo then None
      else
        var c := s.calls[p];
        if !ok then Some(With(s, p, RemoveDelete(c.key, c.todo - {id})))
        else if id !in s.leases then None
        else Some(With(DropLease(s, id), p, RemoveDec(c.key, c.todo - {id}, s.leases[id].managed)))
    case DoRemoveDec(p) =>
      if p !in s.calls || !s.calls[p].RemoveDec? then None
      else
        var c := s.calls[p];
        Some(With(s.(gauge := s.gauge - 1, foreign := s.foreign + if c.managed then 0 else 1), p, RemoveDelete(c.key, c.todo)))
    case _ => None
  }

  function SweepStep(s: State, l: Label): Option<State> {
    match l
    case StartSweep(p) =>
      if p in s.calls then None else Some(With(s, p, SweepList))
    case DoSweepList(p, ok) =>
      if p !in s.calls || !s.calls[p].SweepList? then None
      else if !ok then Some(End(s, p))
      else Some(With(s, p, SweepScan(ManagedListing(s))))
    case DoSweepStat(p, id) =>
      if p !in s.calls || !s.calls[p].SweepScan? || id !in s.calls[p].seen then None
      else
        var seen := s.calls[p].seen;
        var rest := seen - {id};
        Some(With(s, p, if seen[id] == "" || seen[id] in s.local then SweepScan(rest) else SweepDelete(id, rest)))
    case DoSweepDelete(p, ok) =>
      if p !in s.calls || !s.calls[p].SweepDelete? then None
      else
        var c := s.calls[p];
        if !ok then Some(With(s, p, SweepScan(c.seen)))
        else if c.id !in s.leases then None
        else Some(With(DropLease(s, c.id), p, SweepDec(c.seen)))
    case DoSweepDec(p) =>
      if p !in s.calls || !s.calls[p].SweepDec? then None
      else Some(With(s.(gauge := s.gauge - 1), p, SweepScan(s.calls[p].seen)))
    case _ => None
  }

  function ApiStep(s: State, l: Label): Option<State> {
    match l
    case StartApi(p, id) =>
      if p in s.calls then None else Some(With(s, p, ApiDelete(id)))
    case DoApiDelete(p, ok) =>
      if p !in s.calls || !s.calls[p].ApiDelete? then None
      else
        var id := s.calls[p].id;
        if !ok then Some(End(s, p))
        else if id !in s.leases || s.leases[id].ns != K8S then None
        else Some(With(DropLease(s, id), p, ApiDec(s.leases[id].managed)))
    case DoApiDec(p) =>
      if p !in s.calls || !s.calls[p].ApiDec? then None
      else Some(End(s.(gauge := s.gauge - 1, foreign := s.foreign + if s.calls[p].managed then 0 else 1), p))
    case Finish(p) =>
      // A listing exhausted.
      if p in s.calls && ((s.calls[p].RemoveDelete? && s.calls[p].todo == {}) || (s.calls[p].SweepScan? && s.calls[p].seen == map[]))
      then Some(End(s, p)) else None
    case _ => None
  }

  /** What happens around the protocol. */
  ghost function EnvStep(s: State, l: Label): Option<State> {
    match l
    case CommitAway(key, name) =>
      if key !in s.local || name in s.local then None else Some(CreateKey(s.(local := s.local - {key}), name))
    case LocalAdd(key) =>
      if key in s.local then None else Some(CreateKey(s, key))
    case LocalDrop(key) =>
      // Container keys leave the store through Remove or Commit only.
      if key !in s.local || ParseSnapshotKey(key).Some? then None else Some(s.(local := s.local - {key}))
    case ForeignLease(ns, owner) =>
      Some(s.(leases := s.leases[s.issued := Lease(ns, false, owner, None, None)], issued := s.issued + 1))
    case ForeignDrop(id) =>
      if id !in s.leases || s.leases[id].managed then None else Some(DropLease(s, id))
    case HostAdd(layer, below) =>
      if layer in s.host || (below.Some? && below.value !in s.host) then None
      else Some(s.(host := s.host[layer := below]))
    case HostGc(gone) =>
      if exists x :: x in gone && Protected(s, x) then None else Some(s.(host := s.host - gone))
    case Restart =>
      // The process loses its calls and its gauge; the stores survive.
      Some(s.(calls := map[], gauge := 0, inherited := |ManagedIds(s.leases)|, stranded := 0, foreign := 0))
    case _ => None
  }

  ghost function Step(s: State, l: Label): Option<State> {
    if l.StartPrepare? || l.DoPrepareLocal? then PrepareStep(s, l)
    else if l.DoCreate? || l.DoAdd? || l.DoInc? || l.DoCleanup? then PinStep(s, l)
    else if l.StartRemove? || l.DoRemoveLocal? || l.DoRemoveList? || l.DoRemoveDelete? || l.DoRemoveDec? then RemoveStep(s, l)
    else if l.StartSweep? || l.DoSweepList? || l.DoSweepStat? || l.DoSweepDelete? || l.DoSweepDec? then SweepStep(s, l)
    else if l.StartApi? || l.DoApiDelete? || l.DoApiDec? || l.Finish? then ApiStep(s, l)
    else EnvStep(s, l)
  }

  /** The state after a run, if every step of it is enabled. */
  ghost function Run(s: State, run: seq<Label>): Option<State>
    decreases |run|
  {
    if run == [] then Some(s)
    else
      var t := Step(s, run[0]);
      if t.None? then None else Run(t.value, run[1..])
  }

  /** A process start over existing stores. */
  predicate Init(s: State) {
    && s.calls == map[] && s.gauge == 0 && s.stranded == 0 && s.foreign == 0
    && s.inherited == |ManagedIds(s.leases)|
    && Numbered(s)
  }

  // --------------------------------------------------------------- invariants

  predicate Live(s: State, key: string, origin: nat) { key in s.local && s.local[key] == origin }

  /** Numbers already handed out. */
  predicate Numbered(s: State) {
    && (forall id :: id in s.leases ==> id < s.issued)
    && (forall k :: k in s.local ==> s.local[k] < s.created)
    && (forall id :: id in s.leases && s.leases[id].origin.Some? ==>
          s.leases[id].origin.value < s.created && s.leases[id].managed
          && UnpinNamespace(s.leases[id].owner) == Some(s.leases[id].ns))
  }

  /** A lease some call has listed under an owner. */
  predicate Listed(s: State, id: LeaseId, owner: string) {
    id < s.issued && (id in s.leases ==> s.leases[id].owner == owner)
  }

  predicate Managed(s: State, id: LeaseId) { id in s.leases ==> s.leases[id].managed }

  predicate AllListed(s: State, seen: map<LeaseId, string>) {
    forall id :: id in seen ==> Listed(s, id, seen[id]) && Managed(s, id)
  }

  predicate AllOwned(s: State, todo: set<LeaseId>, key: string) {
    forall id :: id in todo ==> Listed(s, id, key)
  }

  /** What a call may hold. */
  predicate CallOk(s: State, c: Call) {
    match c
    case PrepareCreate(key, pin, origin) =>
      UnpinNamespace(key) == Some(pin.ns) && (origin.Some? ==> origin.value < s.created)
    case PrepareAdd(id, _) => id < s.issued && Managed(s, id)
    case PrepareCleanup(id) => id < s.issued && Managed(s, id)
    case RemoveList(key, ns) => UnpinNamespace(key) == Some(ns)
    case RemoveDelete(key, todo) => AllOwned(s, todo, key)
    case RemoveDec(key, todo, _) => AllOwned(s, todo, key)
    case SweepScan(seen) => AllListed(s, seen)
    case SweepDelete(id, seen) => id < s.issued && Managed(s, id) && Doomed(s, id) && AllListed(s, seen)
    case SweepDec(seen) => AllListed(s, seen)
    case _ => true
  }

  /** The creation this lease was made for is over, for good. */
  predicate Doomed(s: State, id: LeaseId) {
    id in s.leases && s.leases[id].origin.Some? ==> !Live(s, s.leases[id].owner, s.leases[id].origin.value)
  }

  // The lease a Prepare is still completing.
  function Completing(c: Call): Option<LeaseId> {
    if c.PrepareAdd? || c.PrepareCleanup? then Some(c.id) else None
  }

  /** A lease being completed is completed by one call and pins nothing yet. */
  predicate Exclusive(s: State) {
    && (forall p :: p in s.calls && Completing(s.calls[p]).Some? && Completing(s.calls[p]).value in s.leases ==>
          s.leases[Completing(s.calls[p]).value].resource.None?)
    && (forall p, q :: p in s.calls && q in s.calls && p != q && Completing(s.calls[p]).Some? ==>
          Completing(s.calls[p]) != Completing(s.calls[q]))
  }

  predicate CallsOk(s: State) { forall p :: p in s.calls ==> CallOk(s, s.calls[p]) }

  predicate Inv(s: State) { Numbered(s) && CallsOk(s) && Exclusive(s) }

  /** How the stores may change: numbers only grow, and nothing old comes back. */
  predicate Evolves(s: State, t: State) {
    && s.issued <= t.issued && s.created <= t.created
    && (forall id :: id in t.leases && id < s.issued ==>
          id in s.leases && t.leases[id].(resource := s.leases[id].resource) == s.leases[id])
    && (forall k :: k in t.local && t.local[k] < s.created ==> k in s.local && s.local[k] == t.local[k])
  }
}
