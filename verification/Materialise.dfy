/**
 Lazy materialisation as a transition system.  Stat calls, unpacks by containerd, host
 additions and host garbage collection interleave freely; every call to a snapshotter is
 one step and may fail.  The mutex covers the steps from the second local Stat on; the
 probe view is made and removed outside it.
 */
module Materialise {
  import opened Wrappers
  import opened SnapshotKeys

  type Pid = nat

  // A directory of the host snapshotter; directories are never reused.
  type Path = nat

  const TEMP := "pv-snapshotter-ref-tmp-"

  /** A key of the local store: a temporary key of this program, or any other. */
  datatype Name = Temp(chain: string) | Named(key: string)

  function Text(n: Name): string { if n.Temp? then TEMP + n.chain else n.key }

  function NameOf(key: string): Name { if TEMP <= key then Temp(key[|TEMP|..]) else Named(key) }

  datatype Fs = Dir | Link(path: Path) | Missing

  // The parent is a committed name, "" for none.  The serial number tells apart the
  // snapshots that bear one name over time; the program does not see it.
  datatype Snapshot = Snapshot(active: bool, parent: string, fs: Fs, serial: nat)

  datatype Info = Info(active: bool, parent: string, serial: nat)

  datatype Answer = Answer(key: Name, info: Info)

  datatype HostLayer = HostLayer(parent: string, dir: Path)

  datatype Pc =
    | HostStat | View | Unview | UnviewBad
    | Lock | Recheck | Parent | Final
    | Prepare | Mounts | Symlink | Commit | Cleanup

  datatype Call =
    | Entry(ns: string, key: Name)
    | Work(pc: Pc, layer: Layer, path: Path, parent: string)

  datatype State = State(
    local: map<Name, Snapshot>,
    created: nat,
    host: map<Layer, HostLayer>,
    // Probe views on the host, with the call that made each.
    views: map<Layer, Pid>,
    lock: Option<Pid>,
    calls: map<Pid, Call>,
    // History, not seen by the program: the layer each host directory was made for, the
    // parent each chain ID stands for, and every successful answer given.
    madeFor: map<Path, Layer>,
    content: map<string, string>,
    answers: set<Answer>)

  datatype Label =
    | Start(p: Pid, ns: string, target: Name)
    // `bad` is the second way a step can go: unusable view mounts, or a half-done symlink.
    | Go(p: Pid, ok: bool, bad: bool)
    | Unpack(key: string, parent: string)
    | CommitTo(name: string, key: string)
    | Drop(key: string)
    | HostAdd(layer: Layer, parent: string, dir: Path)
    | HostDrop(layer: Layer)
    | ViewGc(layer: Layer)
    | Restart

  // ------------------------------------------------------------------ helpers

  function InfoOf(x: Snapshot): Info { Info(x.active, x.parent, x.serial) }

  function Answers(s: State, key: Name): set<Answer>
    requires key in s.local
  {
    s.answers + {Answer(key, InfoOf(s.local[key]))}
  }

  predicate CommittedIn(s: State, name: string) { Named(name) in s.local && !s.local[Named(name)].active }

  predicate CanBeParent(s: State, parent: string) { parent == "" || CommittedIn(s, parent) }

  predicate HasChild(s: State, name: string) { exists k :: k in s.local && s.local[k].parent == name }

  function NewSnapshot(s: State, parent: string): Snapshot { Snapshot(true, parent, Dir, s.created) }

  /** The store once an active snapshot has taken its committed name. */
  function Committed(s: State, name: Name, key: Name): map<Name, Snapshot>
    requires key in s.local
  {
    (s.local - {key})[name := s.local[key].(active := false, serial := s.created)]
  }

  // ------------------------------------------------------------- a call's steps

  /** What one step of a call leaves: the stores it can write, the lock, and where the call goes on, if it does. */
  datatype Effect = Effect(local: map<Name, Snapshot>, created: nat, views: map<Layer, Pid>, lock: Option<Pid>,
                           answers: set<Answer>, next: Option<Call>)

  function Goes(s: State, c: Call): Effect { Effect(s.local, s.created, s.views, s.lock, s.answers, Some(c)) }

  function Ends(s: State): Effect { Effect(s.local, s.created, s.views, s.lock, s.answers, None) }

  // The deferred unlock.
  function Unlocks(s: State): Effect { Ends(s).(lock := None) }

  /** Up to the lock: the local Stat, the host Stat and the probe view. */
  function ProbeStep(s: State, p: Pid, c: Call, ok: bool, bad: bool): Option<Effect> {
    if c.Entry? then
      if ok then
        if c.key !in s.local then None else Some(Ends(s).(answers := Answers(s, c.key)))
      else if c.key.Named? && IsChainId(c.key.key) then
        Some(Goes(s, Work(HostStat, Layer(if c.ns == "" then K8S else c.ns, c.key.key), 0, "")))
      else Some(Ends(s))
    else if c.pc.HostStat? then
      if !ok then Some(Ends(s)) else if c.layer !in s.host then None else Some(Goes(s, c.(pc := View)))
    else if c.pc.View? then
      if !ok then Some(Ends(s))
      else if c.layer !in s.host || c.layer in s.views then None
      else
        var d := c.(pc := if bad then UnviewBad else Unview, path := s.host[c.layer].dir);
        Some(Goes(s, d).(views := s.views[c.layer := p]))
    else if OwnsView(c) && (ok ==> c.layer in s.views) then
      var e := if c.pc.Unview? then Goes(s, c.(pc := Lock)) else Ends(s);
      Some(if ok then e.(views := s.views - {c.layer}) else e)
    else None
  }

  /** Under the lock, around the reference's creation. */
  function LockStep(s: State, p: Pid, c: Call, ok: bool): Option<Effect> {
    if c.Entry? then None
    else if c.pc.Lock? then
      if s.lock.Some? then None else Some(Goes(s, c.(pc := Recheck)).(lock := Some(p)))
    else if c.pc.Recheck? && !ok then Some(Goes(s, c.(pc := Parent)))
    else if c.pc.Final? && !ok then Some(Unlocks(s))
    else if c.pc.Recheck? || c.pc.Final? then
      if Named(c.layer.chain) !in s.local then None else Some(Unlocks(s).(answers := Answers(s, Named(c.layer.chain))))
    else if c.pc.Parent? then
      // A failed lookup counts as "no parent".
      if ok && c.layer !in s.host then None
      else Some(Goes(s, c.(pc := Prepare, parent := if ok then s.host[c.layer].parent else "")))
    else None
  }

  /** The creation of the reference under its temporary key. */
  function BuildStep(s: State, c: Call, ok: bool, bad: bool): Option<Effect> {
    if c.Entry? then None
    else
      var tmp := Temp(c.layer.chain);
      if c.pc.Prepare? then
        if !ok then Some(Unlocks(s))
        else if tmp in s.local || !CanBeParent(s, c.parent) then None
        else Some(Goes(s, c.(pc := Mounts)).(local := s.local[tmp := NewSnapshot(s, c.parent)], created := s.created + 1))
      else if c.pc.Mounts? then
        // A snapshot without a parent is a bind mount, which has no upperdir.
        if !ok then Some(Goes(s, c.(pc := Cleanup)))
        else if tmp !in s.local || s.local[tmp].parent == "" then None
        else Some(Goes(s, c.(pc := Symlink)))
      else if tmp !in s.local then
        if c.pc.Cleanup? && !ok then Some(Unlocks(s)) else None
      else if c.pc.Symlink? then
        if ok then Some(Goes(s, c.(pc := Commit)).(local := s.local[tmp := s.local[tmp].(fs := Link(c.path))]))
        else if bad then Some(Goes(s, c.(pc := Cleanup)).(local := s.local[tmp := s.local[tmp].(fs := Missing)]))
        else Some(Goes(s, c.(pc := Cleanup)))
      else if c.pc.Commit? then
        if !ok then Some(Goes(s, c.(pc := Cleanup)))
        else if Named(c.layer.chain) in s.local then None
        else Some(Goes(s, c.(pc := Final)).(local := Committed(s, Named(c.layer.chain), tmp), created := s.created + 1))
      else if c.pc.Cleanup? then Some(if ok then Unlocks(s).(local := s.local - {tmp}) else Unlocks(s))
      else None
  }

  /** Past its Prepare, a call owns its chain ID's temporary key. */
  predicate OwnsTemp(c: Call) { c.Work? && (c.pc.Mounts? || c.pc.Symlink? || c.pc.Commit? || c.pc.Cleanup?) }

  /** Between making its probe view and removing it. */
  predicate OwnsView(c: Call) { c.Work? && (c.pc.Unview? || c.pc.UnviewBad?) }

  predicate Probing(c: Call) { c.Entry? || c.pc.HostStat? || c.pc.View? || c.pc.Unview? || c.pc.UnviewBad? }

  predicate Building(c: Call) { c.Work? && (c.pc.Prepare? || OwnsTemp(c)) }

  function CallEffect(s: State, p: Pid, c: Call, ok: bool, bad: bool): Option<Effect> {
    if Probing(c) then ProbeStep(s, p, c, ok, bad)
    else if Building(c) then BuildStep(s, c, ok, bad)
    else LockStep(s, p, c, ok)
  }

  function After(s: State, p: Pid, e: Effect): State {
    s.(local := e.local, created := e.created, views := e.views, lock := e.lock, answers := e.answers,
       calls := if e.next.Some? then s.calls[p := e.next.value] else s.calls - {p})
  }

  function CallStep(s: State, p: Pid, ok: bool, bad: bool): Option<State> {
    if p !in s.calls then None
    else
      var e := CallEffect(s, p, s.calls[p], ok, bad);
      if e.None? then None else Some(After(s, p, e.value))
  }

  // ---------------------------------------------------------- the environment

  function EnvStep(s: State, l: Label): Option<State> {
    match l
    case Unpack(key, parent) =>
      if Named(key) in s.local || !CanBeParent(s, parent) then None
      else Some(s.(local := s.local[Named(key) := NewSnapshot(s, parent)], created := s.created + 1))
    case CommitTo(name, key) =>
      if Named(key) !in s.local || !s.local[Named(key)].active || Named(name) in s.local then None
      else Some(s.(local := Committed(s, Named(name), Named(key)), created := s.created + 1))
    case Drop(key) =>
      if Named(key) !in s.local || HasChild(s, key) then None else Some(s.(local := s.local - {Named(key)}))
    case HostAdd(layer, parent, dir) =>
      // Chain IDs are content addresses: one chain ID, one parent.
      if layer in s.host || dir in s.madeFor || (layer.chain in s.content && s.content[layer.chain] != parent) then None
      else Some(s.(host := s.host[layer := HostLayer(parent, dir)], madeFor := s.madeFor[dir := layer],
                   content := s.content[layer.chain := parent]))
    case HostDrop(layer) =>
      if layer in s.views then None else Some(s.(host := s.host - {layer}))
    case ViewGc(layer) => Some(s.(views := s.views - {layer}))
    case Restart => Some(s.(calls := map[], lock := None))
    case _ => None
  }

  function Step(s: State, l: Label): Option<State> {
    match l
    case Start(p, ns, key) => if p in s.calls then None else Some(s.(calls := s.calls[p := Entry(ns, key)]))
    case Go(p, ok, bad) => CallStep(s, p, ok, bad)
    case _ => EnvStep(s, l)
  }

  function Run(s: State, run: seq<Label>): Option<State>
    decreases |run|
  {
    if run == [] then Some(s)
    else
      var t := Step(s, run[0]);
      if t.None? then None else Run(t.value, run[1..])
  }

  // --------------------------------------------------------------- invariants

  predicate Holds(c: Call) { Building(c) || (c.Work? && (c.pc.Recheck? || c.pc.Parent? || c.pc.Final?)) }

  predicate LockOk(s: State) {
    && (forall p :: p in s.calls && Holds(s.calls[p]) ==> s.lock == Some(p))
    && (s.lock.Some? ==> s.lock.value in s.calls && Holds(s.calls[s.lock.value]))
  }

  // What a directory read from the host is worth later.
  predicate DirOf(s: State, path: Path, layer: Layer) { path in s.madeFor && s.madeFor[path] == layer }

  predicate ParentOf(s: State, chain: string, parent: string) { chain in s.content && s.content[chain] == parent }

  predicate HostOk(s: State) {
    forall x :: x in s.host ==> DirOf(s, s.host[x].dir, x) && ParentOf(s, x.chain, s.host[x].parent)
  }

  predicate CallOk(s: State, c: Call) {
    c.Work? ==>
      && (!c.pc.HostStat? && !c.pc.View? ==> DirOf(s, c.path, c.layer))
      && (Building(c) ==> c.parent == "" || ParentOf(s, c.layer.chain, c.parent))
      && (OwnsTemp(c) ==>
            && Temp(c.layer.chain) in s.local && s.local[Temp(c.layer.chain)].parent == c.parent
            && ((c.pc.Symlink? || c.pc.Commit?) ==> c.parent != "")
            && (c.pc.Commit? ==> s.local[Temp(c.layer.chain)].fs == Link(c.path)))
  }

  predicate CallsOk(s: State) { forall p :: p in s.calls ==> CallOk(s, s.calls[p]) }

  /** The reference for a chain ID: the host's parent, and a link to a directory of that very layer. */
  predicate RefOk(s: State, chain: string, x: Snapshot) {
    && !x.active && x.fs.Link? && x.parent != "" && ParentOf(s, chain, x.parent)
    && x.fs.path in s.madeFor && s.madeFor[x.fs.path].chain == chain
  }

  predicate SnapshotsOk(s: State) {
    && (forall k :: k in s.local ==> s.local[k].serial < s.created)
    && (forall k :: k in s.local && k.Temp? ==> s.local[k].active)
    && (forall k :: k in s.local && k.Named? ==> s.local[k].fs == Dir || RefOk(s, k.key, s.local[k]))
  }

  /** Every parent is there, committed and older. */
  predicate ParentsOk(s: State) {
    forall k :: k in s.local && s.local[k].parent != "" ==>
      CommittedIn(s, s.local[k].parent) && s.local[Named(s.local[k].parent)].serial < s.local[k].serial
  }

  predicate LocalOk(s: State) { SnapshotsOk(s) && ParentsOk(s) }

  predicate AnswersOk(s: State) {
    && (forall a :: a in s.answers ==> a.info.serial < s.created)
    && (forall a :: a in s.answers && a.key in s.local && s.local[a.key].serial == a.info.serial ==> InfoOf(s.local[a.key]) == a.info)
    && (forall a, b :: a in s.answers && b in s.answers && a.key == b.key && a.info.serial == b.info.serial ==> a == b)
  }

  predicate Inv(s: State) { LockOk(s) && HostOk(s) && CallsOk(s) && LocalOk(s) && AnswersOk(s) }

  /** A process start: no calls; whatever the stores hold was put there by earlier runs. */
  predicate Init(s: State) { s.calls == map[] && s.lock == None && HostOk(s) && LocalOk(s) && s.answers == {} }
}
