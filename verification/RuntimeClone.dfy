/**
 Cloning of base runtimes as the heap sees it.  Parsed tables are mutable maps that
 refer to one another; each missing runtime gets a deep copy of its base, and every
 copy is then written to.
 */
module RuntimeClone {
  import opened Wrappers
  import opened Toml
  import opened ConfigPatcher
  import opened ConfigTheorems

  datatype Item = Text(text: string) | Ref(table: GoMap)

  class GoMap {
    var entries: map<string, Item>

    constructor ()
      ensures entries == map[]
    {
      entries := map[];
    }
  }

  /** The map m, with everything it refers to inside repr, holds the table v. */
  ghost predicate Holds(m: GoMap, v: Value, repr: set<GoMap>)
    requires v.Table?
    reads repr
    decreases v, 0
  {
    && m in repr
    && m.entries.Keys == v.entries.Keys
    && forall k :: k in v.entries ==> HoldsItem(m.entries[k], v.entries[k], repr - {m})
  }

  ghost predicate HoldsItem(item: Item, v: Value, repr: set<GoMap>)
    reads repr
    decreases v, 1
  {
    match v
    case Scalar(t) => item == Text(t)
    case Table(_) => item.Ref? && Holds(item.table, v, repr)
  }

  lemma {:induction false} HoldsInLarger(m: GoMap, v: Value, repr: set<GoMap>, larger: set<GoMap>)
    requires v.Table? && Holds(m, v, repr) && repr <= larger
    ensures Holds(m, v, larger)
    decreases v, 0
  {
    forall k | k in v.entries ensures HoldsItem(m.entries[k], v.entries[k], larger - {m}) {
      HoldsItemInLarger(m.entries[k], v.entries[k], repr - {m}, larger - {m});
    }
  }

  lemma {:induction false} HoldsItemInLarger(item: Item, v: Value, repr: set<GoMap>, larger: set<GoMap>)
    requires HoldsItem(item, v, repr) && repr <= larger
    ensures HoldsItem(item, v, larger)
    decreases v, 1
  {
    if v.Table? {
      HoldsInLarger(item.table, v, repr, larger);
    }
  }

  // What the copy holds so far: the keys done, all below fresh maps.
  ghost predicate Partial(c: GoMap, v: Value, done: set<string>, repr: set<GoMap>)
    requires v.Table?
    reads repr
  {
    && c in repr && done <= v.entries.Keys && c.entries.Keys == done
    && forall k :: k in done ==> HoldsItem(c.entries[k], v.entries[k], repr - {c})
  }

  /** A recursive copy that shares no map with the original. */
  method DeepCopy(m: GoMap, ghost v: Value, ghost repr: set<GoMap>) returns (c: GoMap, ghost cloned: set<GoMap>)
    requires v.Table? && Holds(m, v, repr)
    ensures fresh(cloned) && Holds(c, v, cloned)
    decreases v, 0
  {
    c := new GoMap();
    cloned := {c};
    var todo := m.entries.Keys;
    while todo != {}
      invariant todo <= v.entries.Keys && fresh(cloned)
      invariant Holds(m, v, repr)
      invariant Partial(c, v, v.entries.Keys - todo, cloned)
      decreases |todo|
    {
      var k :| k in todo;
      ghost var itemRepr;
      var item;
      item, itemRepr := CopyItem(m.entries[k], v.entries[k], repr - {m});
      HoldsItemInLarger(item, v.entries[k], itemRepr, cloned + itemRepr - {c});
      ExtendPartial(c, v, v.entries.Keys - todo, cloned, cloned + itemRepr);
      cloned := cloned + itemRepr;
      c.entries := c.entries[k := item];
      todo := todo - {k};
    }
  }

  method CopyItem(item: Item, ghost v: Value, ghost repr: set<GoMap>) returns (copy: Item, ghost cloned: set<GoMap>)
    requires HoldsItem(item, v, repr)
    ensures fresh(cloned) && HoldsItem(copy, v, cloned)
    decreases v, 1
  {
    copy, cloned := item, {};
    if item.Ref? {
      var sub;
      sub, cloned := DeepCopy(item.table, v, repr);
      copy := Ref(sub);
    }
  }

  lemma {:induction false} ExtendPartial(c: GoMap, v: Value, done: set<string>, repr: set<GoMap>, larger: set<GoMap>)
    requires v.Table? && Partial(c, v, done, repr) && repr <= larger
    ensures Partial(c, v, done, larger)
  {
    forall k | k in done ensures HoldsItem(c.entries[k], v.entries[k], larger - {c}) {
      HoldsItemInLarger(c.entries[k], v.entries[k], repr - {c}, larger - {c});
    }
  }

  function Overridden(v: Value): Value
    requires v.Table?
  {
    Table(RuntimeConfig(Some(v.entries)))
  }

  /** Writes the snapshotter field of one clone and of nothing else. */
  method OverrideSnapshotter(c: GoMap, ghost v: Value, ghost repr: set<GoMap>)
    requires v.Table? && Holds(c, v, repr)
    modifies c
    ensures Holds(c, Overridden(v), repr)
  {
    c.entries := c.entries[SNAPSHOTTER := Text(PV_SNAPSHOTTER)];
    forall k | k in Overridden(v).entries ensures HoldsItem(c.entries[k], Overridden(v).entries[k], repr - {c}) {
      if k != SNAPSHOTTER {
        assert HoldsItem(old(c.entries)[k], v.entries[k], repr - {c});
      }
    }
  }

  ghost predicate PairwiseDisjoint(reprs: seq<set<GoMap>>) {
    forall i, j :: 0 <= i < j < |reprs| ==> reprs[i] !! reprs[j]
  }

  // ------------------------------------------------------------------- lookups

  /** Walks from a table along the path, as long as it finds tables. */
  method FindTable(m: GoMap, ghost v: Value, ghost repr: set<GoMap>, path: seq<string>)
    returns (r: Option<GoMap>, ghost below: set<GoMap>)
    requires v.Table? && Holds(m, v, repr)
    ensures r.Some? <==> ValueAt(v, path).Some? && ValueAt(v, path).value.Table?
    ensures r.Some? ==> below <= repr && Holds(r.value, ValueAt(v, path).value, below)
  {
    var cur, i := m, 0;
    ghost var at := v;
    below := repr;
    while i < |path|
      invariant 0 <= i <= |path| && at.Table? && below <= repr && Holds(cur, at, below)
      invariant ValueAt(v, path) == ValueAt(at, path[i..])
    {
      assert path[i..][0] == path[i] && path[i..][1..] == path[i + 1..];
      if path[i] !in cur.entries {
        return None, below;
      }
      assert HoldsItem(cur.entries[path[i]], at.entries[path[i]], below - {cur});
      if cur.entries[path[i]].Text? {
        ScalarEnds(at.entries[path[i]], path[i + 1..]);
        return None, below;
      }
      below := below - {cur};
      at := at.entries[path[i]];
      cur := cur.entries[path[i]].table;
      i := i + 1;
    }
    r := Some(cur);
  }

  lemma {:induction false} ScalarEnds(v: Value, path: seq<string>)
    requires v.Scalar?
    ensures ValueAt(v, path).None? || ValueAt(v, path) == Some(v)
  {
  }

  /** Whether the runtimes of either version have an entry of that name, table or not. */
  method HasEntry(tree: GoMap, ghost t: Value, ghost repr: set<GoMap>, name: string) returns (found: bool)
    requires t.Table? && Holds(tree, t, repr)
    ensures found <==> HasRuntimeEntry(t, name)
  {
    var v2, _ := FindTable(tree, t, repr, RuntimesPath(CRI_V2));
    var v3, _ := FindTable(tree, t, repr, RuntimesPath(CRI_V3));
    found := (v2.Some? && name in v2.value.entries) || (v3.Some? && name in v3.value.entries);
  }

  // A clone, or none, and the base it stands for.
  ghost predicate HoldsBase(c: Option<GoMap>, base: Option<map<string, Value>>, repr: set<GoMap>)
    reads repr
  {
    (c.Some? <==> base.Some?) && (c.Some? ==> Holds(c.value, Table(base.value), repr))
  }

  /** A deep copy of the base runtime's table, version-2 location first; none when there is no such table. */
  method CopyBase(tree: GoMap, ghost t: Value, ghost repr: set<GoMap>, name: string)
    returns (c: Option<GoMap>, ghost cloned: set<GoMap>)
    requires t.Table? && Holds(tree, t, repr)
    ensures fresh(cloned) && HoldsBase(c, LookupBaseRuntime(t, name), cloned)
  {
    c, cloned := None, {};
    if name == "" {
      return;
    }
    ValueBelow(t, RuntimesPath(CRI_V2), name);
    ValueBelow(t, RuntimesPath(CRI_V3), name);
    ghost var below;
    var base;
    base, below := FindTable(tree, t, repr, RuntimesPath(CRI_V2) + [name]);
    ghost var v := ValueAt(t, RuntimesPath(CRI_V2) + [name]);
    if base.None? {
      base, below := FindTable(tree, t, repr, RuntimesPath(CRI_V3) + [name]);
      v := ValueAt(t, RuntimesPath(CRI_V3) + [name]);
    }
    if base.Some? {
      var copy;
      copy, cloned := DeepCopy(base.value, v.value, below);
      c := Some(copy);
    }
  }

  // ------------------------------------------------------------ every new runtime

  // The clones made so far, one per missing runtime, each within its own fresh maps.
  ghost predicate AllHold(clones: seq<Option<GoMap>>, ms: seq<Missing>, reprs: seq<set<GoMap>>)
    requires forall i :: 0 <= i < |ms| ==> ms[i].Runtime?
    reads set i, o | 0 <= i < |reprs| && o in reprs[i] :: o
  {
    && |clones| == |ms| == |reprs|
    && forall i :: 0 <= i < |ms| ==> HoldsBase(clones[i], ms[i].base, reprs[i])
  }

  lemma {:induction false} AllRuntimes(tree: Value, rts: seq<RuntimeEntry>)
    ensures forall i :: 0 <= i < |MissingRuntimes(tree, rts)| ==> MissingRuntimes(tree, rts)[i].Runtime?
    decreases |rts|
  {
    if rts != [] { AllRuntimes(tree, rts[..|rts| - 1]); }
  }

  /** Collects a clone of its own base, or none, for every missing runtime; the parsed tree is not written to. */
  method CloneBases(tree: GoMap, ghost t: Value, ghost repr: set<GoMap>, rts: seq<RuntimeEntry>)
    returns (clones: seq<Option<GoMap>>, ghost reprs: seq<set<GoMap>>)
    requires t.Table? && Holds(tree, t, repr)
    ensures forall i :: 0 <= i < |MissingRuntimes(t, rts)| ==> MissingRuntimes(t, rts)[i].Runtime?
    ensures AllHold(clones, MissingRuntimes(t, rts), reprs) && PairwiseDisjoint(reprs)
    ensures forall i :: 0 <= i < |reprs| ==> fresh(reprs[i])
    ensures Holds(tree, t, repr)
  {
    clones, reprs := [], [];
    AllRuntimes(t, rts);
    var i := 0;
    while i < |rts|
      invariant 0 <= i <= |rts| && Holds(tree, t, repr)
      invariant forall k :: 0 <= k < |MissingRuntimes(t, rts[..i])| ==> MissingRuntimes(t, rts[..i])[k].Runtime?
      invariant AllHold(clones, MissingRuntimes(t, rts[..i]), reprs) && PairwiseDisjoint(reprs)
      invariant forall k :: 0 <= k < |reprs| ==> fresh(reprs[k])
    {
      assert rts[..i + 1][..i] == rts[..i];
      var present := HasEntry(tree, t, repr, rts[i].name);
      if !present {
        ghost var cloned;
        var c;
        c, cloned := CopyBase(tree, t, repr, rts[i].base);
        clones, reprs := clones + [c], reprs + [cloned];
      }
      i := i + 1;
    }
    assert rts[..|rts|] == rts;
  }

  /** The new entry's map: the clone itself, or a minimal one, with the snapshotter written into it. */
  method FinishEntry(c: Option<GoMap>, ghost base: Option<map<string, Value>>, ghost repr: set<GoMap>)
    returns (r: GoMap, ghost all: set<GoMap>)
    requires HoldsBase(c, base, repr)
    modifies if c.Some? then {c.value} else {}
    ensures Holds(r, Table(RuntimeConfig(base)), all)
    ensures if c.Some? then r == c.value && all == repr else fresh(all)
  {
    if c.Some? {
      r, all := c.value, repr;
      OverrideSnapshotter(r, Table(base.value), repr);
    } else {
      r := new GoMap();
      all := {r};
      r.entries := map["runtime_type" := Text("io.containerd.runc.v2"), SNAPSHOTTER := Text(PV_SNAPSHOTTER)];
    }
  }

  /**
   The entries of all missing runtimes.  Each holds its own base with only the snapshotter
   overridden, or the minimal entry where there is no base; the entries are built of new maps
   that no two of them share; and the parsed tree, with every base in it, holds what it held.
   */
  method CloneForAll(tree: GoMap, ghost t: Value, ghost repr: set<GoMap>, rts: seq<RuntimeEntry>)
    returns (entries: seq<GoMap>, ghost reprs: seq<set<GoMap>>)
    requires t.Table? && Holds(tree, t, repr)
    ensures |entries| == |reprs| == |MissingRuntimes(t, rts)|
    ensures forall i :: 0 <= i < |entries| ==>
              MissingRuntimes(t, rts)[i].Runtime? && fresh(reprs[i])
              && Holds(entries[i], Table(RuntimeConfig(MissingRuntimes(t, rts)[i].base)), reprs[i])
    ensures PairwiseDisjoint(reprs)
    ensures Holds(tree, t, repr)
  {
    ghost var ms := MissingRuntimes(t, rts);
    var clones;
    clones, reprs := CloneBases(tree, t, repr, rts);
    entries := [];
    while |entries| < |clones|
      invariant |entries| <= |clones| == |reprs| == |ms| && Holds(tree, t, repr)
      invariant forall j :: 0 <= j < |ms| ==> ms[j].Runtime? && fresh(reprs[j])
      invariant forall j :: 0 <= j < |entries| ==> Holds(entries[j], Table(RuntimeConfig(ms[j].base)), reprs[j])
      invariant forall j :: |entries| <= j < |ms| ==> HoldsBase(clones[j], ms[j].base, reprs[j])
      invariant PairwiseDisjoint(reprs)
    {
      var i := |entries|;
      ghost var all;
      var r;
      assert clones[i].Some? ==> clones[i].value in reprs[i];
      r, all := FinishEntry(clones[i], ms[i].base, reprs[i]);
      entries, reprs := entries + [r], reprs[i := all];
    }
  }
}
