/** Patching the containerd config is a one-step fixpoint and a conservative extension. */
module ConfigTheorems {
  import opened Wrappers
  import opened Sequences
  import opened Toml
  import opened ConfigPatcher

  const PATH := RuntimesPath(CRI_V2)

  /** Runtime names that a header reads as one key. */
  ghost predicate BareNames(params: Params) {
    forall i :: 0 <= i < |params.runtimes| ==> IsBareKey(params.runtimes[i].name)
  }

  /** A config whose sub-tables have bare names and hold no further tables. */
  ghost predicate Flat(cfg: map<string, Value>) {
    forall k :: k in cfg && cfg[k].Table? ==>
      IsBareKey(k) && forall j :: j in cfg[k].entries ==> cfg[k].entries[j].Scalar?
  }

  lemma {:induction false} BareHeader(name: string)
    requires IsBareKey(name)
    ensures HeaderKeys(name) == [name]
  {
    NoDots(name);
  }

  lemma {:induction false} NoDots(name: string)
    requires forall i :: 0 <= i < |name| ==> name[i] != '.'
    ensures HeaderKeys(name) == [name]
  {
    if name != "" {
      NoDots(name[1..]);
      assert [name[0]] + name[1..] == name;
    }
  }

  // ------------------------------------------------------ one runtime's entry

  // The nodes that the sub-table sections of a flat config create.
  function SubNodes(cfg: map<string, Value>, keys: seq<string>): map<string, Node>
    requires forall k :: k in keys ==> k in cfg && cfg[k].Table?
  {
    map k | k in keys :: Branch(InlineAll(cfg[k].entries), true, false)
  }

  lemma {:induction false} FirstIn(xs: seq<string>)
    ensures xs != [] ==> xs[0] in xs
  {
  }

  lemma {:induction false} FlatSection(cfg: map<string, Value>, k: string, order: Order)
    requires Flat(cfg) && k in cfg && cfg[k].Table? && LawfulOrder(order)
    ensures Scalars(cfg[k].entries) == cfg[k].entries
    ensures order(TableKeys(cfg[k].entries)) == []
    ensures HeaderKeys(k) == [k]
  {
    BareHeader(k);
    var inner := order(TableKeys(cfg[k].entries));
    assert Enumerates(inner, TableKeys(cfg[k].entries));
    assert TableKeys(cfg[k].entries) == {};
    FirstIn(inner);
  }

  lemma {:induction false} DefineSub(t: Node, k: string, body: map<string, Value>)
    requires t.Branch? && !t.closed && k !in t.kids
    ensures Define(t, [k], body) == Some(t.(kids := t.kids[k := Branch(InlineAll(body), true, false)]))
  {
    assert Define(EMPTY, [k][1..], body) == Some(Branch(map[] + InlineAll(body), true, false));
    assert map[] + InlineAll(body) == InlineAll(body);
  }

  // One sub-table section under an open table.
  lemma {:induction false} SubDefined(n: Node, q: seq<string>, t: Node, k: string, body: map<string, Value>, elsewhere: seq<string>)
    requires Open(n, q) && NodeAt(n, q) == Some(t) && t.Branch? && !t.closed && k !in t.kids
    requires Apart(q, elsewhere)
    ensures var r := Define(n, q + [k], body);
            && r.Some? && Open(r.value, q)
            && NodeAt(r.value, q) == Some(t.(kids := t.kids[k := Branch(InlineAll(body), true, false)]))
            && NodeAt(r.value, elsewhere) == NodeAt(n, elsewhere)
  {
    DefineSub(t, k, body);
    DefineBelow(n, q, [k], body);
    DefineKeepsOpen(n, q + [k], body, q);
    ApartBelow(q, [k], elsewhere);
    DefineElsewhere(n, q + [k], body, elsewhere);
  }

  lemma {:induction false} SubNodesCons(kids: map<string, Node>, cfg: map<string, Value>, keys: seq<string>)
    requires keys != [] && forall k :: k in keys ==> k in cfg && cfg[k].Table?
    requires forall i, j :: 0 <= i < j < |keys| ==> keys[i] != keys[j]
    ensures kids[keys[0] := Branch(InlineAll(cfg[keys[0]].entries), true, false)] + SubNodes(cfg, keys[1..])
         == kids + SubNodes(cfg, keys)
  {
    assert forall k :: k in keys <==> k == keys[0] || k in keys[1..];
  }

  // The sub-tables still to be written, none of them present yet.
  ghost predicate Pending(t: Node, cfg: map<string, Value>, keys: seq<string>) {
    && t.Branch? && !t.closed
    && (forall k :: k in keys ==> k in cfg && cfg[k].Table? && k !in t.kids)
    && (forall i, j :: 0 <= i < j < |keys| ==> keys[i] != keys[j])
  }

  lemma {:induction false} PendingRest(t: Node, cfg: map<string, Value>, keys: seq<string>, b: Node)
    requires Pending(t, cfg, keys) && keys != []
    ensures Pending(t.(kids := t.kids[keys[0] := b]), cfg, keys[1..])
  {
    assert forall k :: k in keys[1..] ==> k in keys && k != keys[0];
  }

  /** The sub-table sections fill in the entry and touch nothing apart from it. */
  lemma {:induction false} SubsDefined(n: Node, q: seq<string>, t: Node, cfg: map<string, Value>, keys: seq<string>, order: Order, elsewhere: seq<string>)
    requires LawfulOrder(order) && Flat(cfg) && Pending(t, cfg, keys)
    requires Open(n, q) && NodeAt(n, q) == Some(t) && Apart(q, elsewhere)
    ensures var r := ParseFrom(n, SubSections(q, cfg, keys, order));
            && r.Some? && Open(r.value, q)
            && NodeAt(r.value, q) == Some(t.(kids := t.kids + SubNodes(cfg, keys)))
            && NodeAt(r.value, elsewhere) == NodeAt(n, elsewhere)
    decreases |keys|
  {
    if keys == [] {
      assert t.kids + SubNodes(cfg, keys) == t.kids;
    } else {
      var body := cfg[keys[0]].entries;
      var b := Branch(InlineAll(body), true, false);
      SubDefined(n, q, t, keys[0], body, elsewhere);
      PendingRest(t, cfg, keys, b);
      SubsDefined(Define(n, q + [keys[0]], body).value, q, t.(kids := t.kids[keys[0] := b]), cfg, keys[1..], order, elsewhere);
      FirstSubSection(n, q, cfg, keys, order);
      SubNodesCons(t.kids, cfg, keys);
    }
  }

  lemma {:induction false} ApartBelow(q: seq<string>, p: seq<string>, e: seq<string>)
    requires Apart(q, e)
    ensures Apart(q + p, e)
  {
  }

  lemma {:induction false} FirstSubSection(n: Node, q: seq<string>, cfg: map<string, Value>, keys: seq<string>, order: Order)
    requires LawfulOrder(order) && Flat(cfg) && keys != []
    requires forall k :: k in keys ==> k in cfg && cfg[k].Table?
    ensures var d := Define(n, q + [keys[0]], cfg[keys[0]].entries);
            ParseFrom(n, SubSections(q, cfg, keys, order))
            == if d.None? then None else ParseFrom(d.value, SubSections(q, cfg, keys[1..], order))
  {
    FlatSection(cfg, keys[0], order);
    var sub := cfg[keys[0]];
    var head, rest := Section(q + [keys[0]], sub.entries), SubSections(q, cfg, keys[1..], order);
    assert Nested(sub, [], [], order) == [];
    assert SubSections(q, cfg, keys, order) == [head] + [] + rest == [head] + rest;
    assert ([head] + rest)[1..] == rest;
  }

  /** Scalars and sub-table nodes of a flat config make up exactly that config. */
  lemma {:induction false} EraseConfig(cfg: map<string, Value>, keys: seq<string>)
    requires Flat(cfg) && Enumerates(keys, TableKeys(cfg))
    ensures Erase(Branch(InlineAll(Scalars(cfg)) + SubNodes(cfg, keys), true, false)) == Table(cfg)
  {
    var kids := InlineAll(Scalars(cfg)) + SubNodes(cfg, keys);
    forall k | k in cfg ensures k in kids && Erase(kids[k]) == cfg[k] {
      if cfg[k].Table? {
        EraseSub(cfg[k].entries);
      }
    }
    assert (map k | k in kids :: Erase(kids[k])) == cfg;
  }

  lemma {:induction false} EraseSub(es: map<string, Value>)
    ensures Erase(Branch(InlineAll(es), true, false)) == Table(es)
  {
    forall k | k in es ensures Erase(InlineAll(es)[k]) == es[k] {
      EraseInline(es[k]);
    }
    assert (map k | k in InlineAll(es) :: Erase(InlineAll(es)[k])) == es;
  }

  /** One runtime's sections: valid exactly under an open parent, and read back as the config. */
  lemma {:induction false} RuntimeDefined(n: Node, name: string, cfg: map<string, Value>, order: Order, elsewhere: seq<string>)
    requires LawfulOrder(order) && IsBareKey(name) && Flat(cfg)
    requires NodeAt(n, PATH + [name]).None? && Apart(PATH + [name], elsewhere)
    ensures var r := ParseFrom(n, RuntimeSections(name, cfg, order));
            && (r.Some? <==> Open(n, PATH))
            && (r.Some? ==>
                  && Open(r.value, PATH)
                  && NodeAt(r.value, PATH + [name]).Some?
                  && Erase(NodeAt(r.value, PATH + [name]).value) == Table(cfg)
                  && NodeAt(r.value, elsewhere) == NodeAt(n, elsewhere))
  {
    var q, keys, body := PATH + [name], order(TableKeys(cfg)), Scalars(cfg);
    assert Enumerates(keys, TableKeys(cfg));
    HeadSection(n, name, cfg, order);
    DefineIff(n, q, body);
    OpenBelow(n, PATH, name);
    if Open(n, PATH) {
      var n1 := Define(n, q, body).value;
      var t := Branch(InlineAll(body), true, false);
      EntryCreated(n, q, body);
      DefineElsewhere(n, q, body, elsewhere);
      SubsDefined(n1, q, t, cfg, keys, order, elsewhere);
      EraseConfig(cfg, keys);
      OpenPrefix(ParseFrom(n1, SubSections(q, cfg, keys, order)).value, PATH, name);
    }
  }

  lemma {:induction false} HeadSection(n: Node, name: string, cfg: map<string, Value>, order: Order)
    requires LawfulOrder(order) && IsBareKey(name)
    ensures var d := Define(n, PATH + [name], Scalars(cfg));
            var keys := order(TableKeys(cfg));
            && Enumerates(keys, TableKeys(cfg))
            && ParseFrom(n, RuntimeSections(name, cfg, order))
               == if d.None? then None else ParseFrom(d.value, SubSections(PATH + [name], cfg, keys, order))
  {
    BareHeader(name);
    var keys := order(TableKeys(cfg));
    assert Enumerates(keys, TableKeys(cfg));
    var head, rest := Section(PATH + [name], Scalars(cfg)), SubSections(PATH + [name], cfg, keys, order);
    assert RuntimeSections(name, cfg, order) == [head] + rest;
    assert ([head] + rest)[1..] == rest;
  }

  lemma {:induction false} EntryCreated(n: Node, q: seq<string>, body: map<string, Value>)
    requires Define(n, q, body).Some? && NodeAt(n, q).None?
    ensures var r := Define(n, q, body).value;
            NodeAt(r, q) == Some(Branch(InlineAll(body), true, false)) && Open(r, q)
  {
    DefineReadBack(n, q, body);
    DefineKeepsOpen(n, q, body, q);
    assert map[] + InlineAll(body) == InlineAll(body);
  }

  lemma {:induction false} OpenPrefix(n: Node, q: seq<string>, x: string)
    requires Open(n, q + [x])
    ensures Open(n, q)
    decreases |q|
  {
    if q != [] {
      assert (q + [x])[1..] == q[1..] + [x] && (q + [x])[0] == q[0];
      if q[0] in n.kids {
        OpenPrefix(n.kids[q[0]], q[1..], x);
      }
    }
  }

  // ------------------------------------------------------- every missing entry

  ghost predicate BareRuntimes(ms: seq<Missing>) {
    forall i :: 0 <= i < |ms| ==> ms[i].Runtime? && IsBareKey(ms[i].name)
  }

  ghost predicate FlatBases(ms: seq<Missing>) {
    forall i :: 0 <= i < |ms| ==> ms[i].Runtime? ==> Flat(RuntimeConfig(ms[i].base))
  }

  ghost predicate DistinctNames(ms: seq<Missing>) {
    forall i, j :: 0 <= i < j < |ms| && ms[i].Runtime? && ms[j].Runtime? ==> ms[i].name != ms[j].name
  }

  ghost predicate NonePresent(n: Node, ms: seq<Missing>)
    requires BareRuntimes(ms)
  {
    forall i :: 0 <= i < |ms| ==> NodeAt(n, PATH + [ms[i].name]).None?
  }

  lemma {:induction false} NamesApart(x: string, y: string)
    requires x != y
    ensures Apart(PATH + [x], PATH + [y])
  {
    assert (PATH + [x])[|PATH|] == x && (PATH + [y])[|PATH|] == y;
  }

  lemma {:induction false} HeaderFirst(socketPath: string, m: Missing, order: Order)
    requires LawfulOrder(order) && m.Runtime?
    ensures SectionsFor(socketPath, m, order) != [] && SectionsFor(socketPath, m, order)[0].path == PATH + HeaderKeys(m.name)
    ensures IsBareKey(m.name) ==> SectionsFor(socketPath, m, order)[0].path == PATH + [m.name]
  {
    if IsBareKey(m.name) { BareHeader(m.name); }
  }

  lemma {:induction false} IndexAppend(a: File, b: File, k: nat)
    requires k < |b|
    ensures (a + b)[|a| + k] == b[k]
    ensures a != [] ==> (a + b)[0] == a[0]
  {
  }

  // Where a runtime's own header sits in the snippet.
  lemma {:induction false} HeaderInSnippet(socketPath: string, ms: seq<Missing>, order: Order, j: nat) returns (i: nat)
    requires LawfulOrder(order) && j < |ms| && ms[j].Runtime?
    ensures i < |Snippet(socketPath, ms, order)| && Snippet(socketPath, ms, order)[i].path == PATH + HeaderKeys(ms[j].name)
    decreases |ms|
  {
    if j == 0 {
      HeaderFirst(socketPath, ms[0], order);
      i := 0;
    } else {
      var k := HeaderInSnippet(socketPath, ms[1..], order, j - 1);
      IndexAppend(SectionsFor(socketPath, ms[0], order), Snippet(socketPath, ms[1..], order), k);
      i := |SectionsFor(socketPath, ms[0], order)| + k;
    }
  }

  lemma {:induction false} SnippetSplit(socketPath: string, ms: seq<Missing>, order: Order, i: nat)
    requires LawfulOrder(order) && i < |ms|
    ensures Snippet(socketPath, ms, order)
            == Snippet(socketPath, ms[..i], order) + (SectionsFor(socketPath, ms[i], order) + Snippet(socketPath, ms[i + 1..], order))
    decreases |ms|
  {
    if i == 0 {
      assert ms[..0] == [];
    } else {
      SnippetSplit(socketPath, ms[1..], order, i - 1);
      assert ms[1..][..i - 1] == ms[..i][1..] && ms[1..][i..] == ms[i + 1..];
      Assoc(SectionsFor(socketPath, ms[0], order), Snippet(socketPath, ms[..i][1..], order),
            SectionsFor(socketPath, ms[i], order) + Snippet(socketPath, ms[i + 1..], order));
    }
  }

  lemma {:induction false} SnippetStep(n: Node, socketPath: string, ms: seq<Missing>, order: Order)
    requires LawfulOrder(order) && ms != []
    ensures var d := ParseFrom(n, SectionsFor(socketPath, ms[0], order));
            ParseFrom(n, Snippet(socketPath, ms, order))
            == if d.None? then None else ParseFrom(d.value, Snippet(socketPath, ms[1..], order))
  {
    ParseFromAppend(n, SectionsFor(socketPath, ms[0], order), Snippet(socketPath, ms[1..], order));
  }

  /** A repeated name makes the patched file invalid. */
  lemma {:induction false} RepeatedNameFails(n: Node, socketPath: string, ms: seq<Missing>, order: Order, j: nat)
    requires LawfulOrder(order) && BareRuntimes(ms) && j < |ms| && IsDefinedAt(n, PATH + [ms[j].name])
    ensures ParseFrom(n, Snippet(socketPath, ms, order)).None?
  {
    var i := HeaderInSnippet(socketPath, ms, order, j);
    BareHeader(ms[j].name);
    Redefined(n, Snippet(socketPath, ms, order), i);
  }

  // The first entry of the list, and what it leaves for the rest.
  lemma {:induction false} FirstRuntime(n: Node, socketPath: string, ms: seq<Missing>, order: Order)
    requires LawfulOrder(order) && BareRuntimes(ms) && FlatBases(ms) && NonePresent(n, ms) && ms != []
    ensures var r := ParseFrom(n, SectionsFor(socketPath, ms[0], order));
            && (r.Some? <==> Open(n, PATH))
            && (r.Some? ==>
                  && Open(r.value, PATH)
                  && IsDefinedAt(r.value, PATH + [ms[0].name])
                  && Erase(NodeAt(r.value, PATH + [ms[0].name]).value) == Table(RuntimeConfig(ms[0].base))
                  && forall x :: x != ms[0].name ==> NodeAt(r.value, PATH + [x]) == NodeAt(n, PATH + [x]))
  {
    var name, cfg := ms[0].name, RuntimeConfig(ms[0].base);
    NamesApart(name, name + "x");
    RuntimeDefined(n, name, cfg, order, PATH + [name + "x"]);
    var r := ParseFrom(n, RuntimeSections(name, cfg, order));
    if r.Some? {
      forall x | x != name ensures NodeAt(r.value, PATH + [x]) == NodeAt(n, PATH + [x]) {
        NamesApart(name, x);
        RuntimeDefined(n, name, cfg, order, PATH + [x]);
      }
      BareHeader(name);
      SectionsAreDefined(n, RuntimeSections(name, cfg, order), 0);
    }
  }

  /** Each entry of the list reads back as its config. */
  ghost predicate ReadBack(r: Node, ms: seq<Missing>)
    requires BareRuntimes(ms)
  {
    forall i :: 0 <= i < |ms| ==>
      NodeAt(r, PATH + [ms[i].name]).Some?
      && Erase(NodeAt(r, PATH + [ms[i].name]).value) == Table(RuntimeConfig(ms[i].base))
  }

  ghost predicate Named(ms: seq<Missing>, x: string)
    requires BareRuntimes(ms)
  {
    exists i :: 0 <= i < |ms| && ms[i].name == x
  }

  /** Runtimes that are not in the list are as they were. */
  ghost predicate OthersKept(n: Node, r: Node, ms: seq<Missing>)
    requires BareRuntimes(ms)
  {
    forall x :: !Named(ms, x) ==> NodeAt(r, PATH + [x]) == NodeAt(n, PATH + [x])
  }

  /** All missing runtimes: valid exactly with an open parent and distinct names, each entry read back exactly. */
  lemma {:induction false} RuntimesDefined(n: Node, socketPath: string, ms: seq<Missing>, order: Order)
    requires LawfulOrder(order) && BareRuntimes(ms) && FlatBases(ms) && NonePresent(n, ms)
    ensures var r := ParseFrom(n, Snippet(socketPath, ms, order));
            && (r.Some? <==> (ms != [] ==> Open(n, PATH)) && DistinctNames(ms))
            && (r.Some? ==> ReadBack(r.value, ms) && OthersKept(n, r.value, ms))
    decreases |ms|
  {
    if ms != [] {
      SnippetStep(n, socketPath, ms, order);
      FirstRuntime(n, socketPath, ms, order);
      if Open(n, PATH) {
        RuntimesDefinedStep(n, ParseFrom(n, SectionsFor(socketPath, ms[0], order)).value, socketPath, ms, order);
      }
    }
  }

  lemma {:induction false} RuntimesDefinedStep(n: Node, n1: Node, socketPath: string, ms: seq<Missing>, order: Order)
    requires LawfulOrder(order) && BareRuntimes(ms) && FlatBases(ms) && NonePresent(n, ms) && ms != []
    requires Open(n1, PATH) && IsDefinedAt(n1, PATH + [ms[0].name])
    requires Erase(NodeAt(n1, PATH + [ms[0].name]).value) == Table(RuntimeConfig(ms[0].base))
    requires forall x :: x != ms[0].name ==> NodeAt(n1, PATH + [x]) == NodeAt(n, PATH + [x])
    ensures var r := ParseFrom(n1, Snippet(socketPath, ms[1..], order));
            && (r.Some? <==> DistinctNames(ms))
            && (r.Some? ==> ReadBack(r.value, ms) && OthersKept(n, r.value, ms))
    decreases |ms|, 0
  {
    if Named(ms[1..], ms[0].name) {
      var j :| 0 <= j < |ms[1..]| && ms[1..][j].name == ms[0].name;
      RepeatedNameFails(n1, socketPath, ms[1..], order, j);
      assert ms[j + 1] == ms[1..][j];
    } else {
      NonePresentTail(n, n1, ms);
      RuntimesDefined(n1, socketPath, ms[1..], order);
      DistinctTail(ms);
      var r := ParseFrom(n1, Snippet(socketPath, ms[1..], order));
      if r.Some? {
        ListCons(ms, n, n1, r.value);
      }
    }
  }

  lemma {:induction false} NonePresentTail(n: Node, n1: Node, ms: seq<Missing>)
    requires BareRuntimes(ms) && ms != [] && NonePresent(n, ms) && !Named(ms[1..], ms[0].name)
    requires forall x :: x != ms[0].name ==> NodeAt(n1, PATH + [x]) == NodeAt(n, PATH + [x])
    ensures NonePresent(n1, ms[1..])
  {
    forall i | 0 <= i < |ms[1..]| ensures NodeAt(n1, PATH + [ms[1..][i].name]).None? {
      assert ms[1..][i] == ms[i + 1];
    }
  }

  lemma {:induction false} DistinctTail(ms: seq<Missing>)
    requires BareRuntimes(ms) && ms != [] && !Named(ms[1..], ms[0].name)
    ensures DistinctNames(ms) <==> DistinctNames(ms[1..])
  {
    if DistinctNames(ms[1..]) {
      forall i, j | 0 <= i < j < |ms| ensures ms[i].name != ms[j].name {
        assert ms[j] == ms[1..][j - 1];
        if i > 0 {
          assert ms[i] == ms[1..][i - 1];
        }
      }
    } else {
      var i, j :| 0 <= i < j < |ms[1..]| && ms[1..][i].name == ms[1..][j].name;
      assert ms[i + 1] == ms[1..][i] && ms[j + 1] == ms[1..][j];
    }
  }

  // Facts about the tail of the list carried over to the whole list.
  lemma {:induction false} ListCons(ms: seq<Missing>, n: Node, n1: Node, r: Node)
    requires BareRuntimes(ms) && ms != [] && !Named(ms[1..], ms[0].name)
    requires NodeAt(n1, PATH + [ms[0].name]).Some?
    requires Erase(NodeAt(n1, PATH + [ms[0].name]).value) == Table(RuntimeConfig(ms[0].base))
    requires forall x :: x != ms[0].name ==> NodeAt(n1, PATH + [x]) == NodeAt(n, PATH + [x])
    requires ReadBack(r, ms[1..]) && OthersKept(n1, r, ms[1..])
    ensures ReadBack(r, ms) && OthersKept(n, r, ms)
  {
    forall i | 0 <= i < |ms|
      ensures NodeAt(r, PATH + [ms[i].name]).Some?
              && Erase(NodeAt(r, PATH + [ms[i].name]).value) == Table(RuntimeConfig(ms[i].base))
    {
      if i > 0 {
        assert ms[i] == ms[1..][i - 1];
      }
    }
    forall x | !Named(ms, x) ensures NodeAt(r, PATH + [x]) == NodeAt(n, PATH + [x]) {
      assert ms[0].name != x;
      assert !Named(ms[1..], x);
    }
  }

  // ------------------------------------------------------------- one patch run

  lemma {:induction false} ValueBelow(v: Value, p: seq<string>, x: string)
    ensures ValueAt(v, p + [x])
         == var t := ValueAt(v, p); if t.Some? && t.value.Table? && x in t.value.entries then Some(t.value.entries[x]) else None
    decreases |p|
  {
    if p == [] {
      assert p + [x] == [x];
      if v.Table? && x in v.entries {
        assert ValueAt(v.entries[x], [x][1..]) == Some(v.entries[x]);
      }
    } else {
      assert (p + [x])[0] == p[0] && (p + [x])[1..] == p[1..] + [x];
      if v.Table? && p[0] in v.entries {
        ValueBelow(v.entries[p[0]], p[1..], x);
      }
    }
  }

  lemma {:induction false} RuntimePresence(tree: Value, cri: string, name: string)
    ensures name in RuntimesIn(tree, cri) <==> ValueAt(tree, RuntimesPath(cri) + [name]).Some?
  {
    ValueBelow(tree, RuntimesPath(cri), name);
  }

  /** Everything in the missing list was requested and has no entry. */
  lemma {:induction false} MissingIsRequested(tree: Value, rts: seq<RuntimeEntry>, i: nat) returns (j: nat)
    requires i < |MissingRuntimes(tree, rts)|
    ensures j < |rts| && MissingRuntimes(tree, rts)[i] == Runtime(rts[j].name, LookupBaseRuntime(tree, rts[j].base))
    ensures !HasRuntimeEntry(tree, rts[j].name)
    decreases |rts|
  {
    var k := |rts| - 1;
    if i < |MissingRuntimes(tree, rts[..k])| {
      j := MissingIsRequested(tree, rts[..k], i);
    } else {
      j := k;
    }
  }

  /** Every requested runtime without an entry is in the missing list. */
  lemma {:induction false} RequestedIsMissing(tree: Value, rts: seq<RuntimeEntry>, j: nat) returns (i: nat)
    requires j < |rts| && !HasRuntimeEntry(tree, rts[j].name)
    ensures i < |MissingRuntimes(tree, rts)|
    ensures MissingRuntimes(tree, rts)[i] == Runtime(rts[j].name, LookupBaseRuntime(tree, rts[j].base))
    ensures i == |MissingRuntimes(tree, rts[..j])|
    decreases |rts|
  {
    var k := |rts| - 1;
    if j < k {
      assert rts[..k][..j] == rts[..j];
      i := RequestedIsMissing(tree, rts[..k], j);
    } else {
      i := |MissingRuntimes(tree, rts[..k])|;
    }
  }

  lemma {:induction false} NothingMissing(tree: Value, rts: seq<RuntimeEntry>)
    requires forall j :: 0 <= j < |rts| ==> HasRuntimeEntry(tree, rts[j].name)
    ensures MissingRuntimes(tree, rts) == []
    decreases |rts|
  {
    if rts != [] {
      NothingMissing(tree, rts[..|rts| - 1]);
    }
  }

  lemma {:induction false} BareMissing(tree: Value, params: Params)
    requires BareNames(params)
    ensures BareRuntimes(MissingRuntimes(tree, params.runtimes))
  {
    var ms := MissingRuntimes(tree, params.runtimes);
    forall i | 0 <= i < |ms| ensures ms[i].Runtime? && IsBareKey(ms[i].name) {
      var j := MissingIsRequested(tree, params.runtimes, i);
    }
  }

  lemma {:induction false} EntryKept(before: Value, after: Value, name: string)
    requires Extends(before, after) && HasRuntimeEntry(before, name)
    ensures HasRuntimeEntry(after, name)
  {
    RuntimePresence(before, CRI_V2, name);
    RuntimePresence(before, CRI_V3, name);
    RuntimePresence(after, CRI_V2, name);
    RuntimePresence(after, CRI_V3, name);
    if name in RuntimesIn(before, CRI_V2) {
      ExtendsAt(before, after, PATH + [name]);
    } else {
      ExtendsAt(before, after, RuntimesPath(CRI_V3) + [name]);
    }
  }

  lemma {:induction false} EntryDefined(r: Node, name: string)
    requires IsDefinedAt(r, PATH + [name])
    ensures HasRuntimeEntry(Erase(r), name)
  {
    EraseAt(r, PATH + [name]);
    RuntimePresence(Erase(r), CRI_V2, name);
  }

  // Where a missing runtime's header sits in the whole snippet.
  lemma {:induction false} RequestedIsWritten(root: Node, params: Params, order: Order, r: Node, j: nat)
    requires LawfulOrder(order) && j < |params.runtimes| && IsBareKey(params.runtimes[j].name)
    requires !HasRuntimeEntry(Erase(root), params.runtimes[j].name)
    requires ParseFrom(root, Snippet(params.socketPath, MissingSections(Erase(root), params), order)) == Some(r)
    ensures HasRuntimeEntry(Erase(r), params.runtimes[j].name)
  {
    var tree := Erase(root);
    var missing := MissingSections(tree, params);
    var i := RequestedIsMissing(tree, params.runtimes, j);
    var k := |missing| - |MissingRuntimes(tree, params.runtimes)| + i;
    var at := HeaderInSnippet(params.socketPath, missing, order, k);
    SectionsAreDefined(root, Snippet(params.socketPath, missing, order), at);
    BareHeader(params.runtimes[j].name);
    EntryDefined(r, params.runtimes[j].name);
  }

  lemma {:induction false} ProxyIsWritten(root: Node, params: Params, order: Order, r: Node)
    requires LawfulOrder(order)
    requires ParseFrom(root, Snippet(params.socketPath, MissingSections(Erase(root), params), order)) == Some(r)
    ensures ValueAt(Erase(r), PROXY_PATH).Some?
  {
    var tree := Erase(root);
    var missing := MissingSections(tree, params);
    var snippet := Snippet(params.socketPath, missing, order);
    if ValueAt(tree, PROXY_PATH).Some? {
      ParseFromExtends(root, snippet);
      ExtendsAt(tree, Erase(r), PROXY_PATH);
    } else {
      assert missing[0] == ProxyPlugin;
      assert snippet[0] == ProxySection(params.socketPath);
      SectionsAreDefined(root, snippet, 0);
      EraseAt(r, PROXY_PATH);
    }
  }

  /** Every requested name without an entry is a bare key. */
  ghost predicate MissingBare(tree: Value, params: Params) {
    forall j :: 0 <= j < |params.runtimes| ==> HasRuntimeEntry(tree, params.runtimes[j].name) || IsBareKey(params.runtimes[j].name)
  }

  /**
   One step reaches the fixpoint: if the patched file is valid at all, nothing is missing
   from it, so the next run leaves it alone.  No assumption is made on the file.
   */
  lemma {:induction false} PatchedHasEverything(root: Node, params: Params, order: Order, r: Node)
    requires LawfulOrder(order) && MissingBare(Erase(root), params)
    requires ParseFrom(root, Snippet(params.socketPath, MissingSections(Erase(root), params), order)) == Some(r)
    ensures Extends(Erase(root), Erase(r))
    ensures MissingSections(Erase(r), params) == []
  {
    ParseFromExtends(root, Snippet(params.socketPath, MissingSections(Erase(root), params), order));
    ProxyIsWritten(root, params, order, r);
    forall j | 0 <= j < |params.runtimes| ensures HasRuntimeEntry(Erase(r), params.runtimes[j].name) {
      if HasRuntimeEntry(Erase(root), params.runtimes[j].name) {
        EntryKept(Erase(root), Erase(r), params.runtimes[j].name);
      } else {
        RequestedIsWritten(root, params, order, r, j);
      }
    }
    NothingMissing(Erase(r), params.runtimes);
  }

  /** The documents whose parents accept the missing sections. */
  ghost predicate Patchable(root: Node, params: Params) {
    var missing := MissingRuntimes(Erase(root), params.runtimes);
    && (ValueAt(Erase(root), PROXY_PATH).None? ==> Open(root, [PROXY_PLUGINS]))
    && (missing != [] ==> Open(root, PATH))
    && DistinctNames(missing)
  }

  lemma {:induction false} MissingNotPresent(root: Node, params: Params)
    requires BareNames(params)
    ensures BareRuntimes(MissingRuntimes(Erase(root), params.runtimes))
    ensures NonePresent(root, MissingRuntimes(Erase(root), params.runtimes))
  {
    var tree := Erase(root);
    var ms := MissingRuntimes(tree, params.runtimes);
    BareMissing(tree, params);
    forall i | 0 <= i < |ms| ensures NodeAt(root, PATH + [ms[i].name]).None? {
      var j := MissingIsRequested(tree, params.runtimes, i);
      RuntimePresence(tree, CRI_V2, ms[i].name);
      EraseAt(root, PATH + [ms[i].name]);
    }
  }

  lemma {:induction false} ProxyApart(q: seq<string>)
    requires q != [] && q[0] == PLUGINS
    ensures Apart(PROXY_PATH, q)
  {
    assert PROXY_PLUGINS[1] == 'r' && PLUGINS[1] == 'l';
    assert PROXY_PATH[0] == PROXY_PLUGINS;
  }

  // The proxy-plugin section on its own.
  lemma {:induction false} ProxyDefined(root: Node, socketPath: string, ms: seq<Missing>)
    requires BareRuntimes(ms) && NonePresent(root, ms) && ValueAt(Erase(root), PROXY_PATH).None?
    ensures var s := ProxySection(socketPath);
            var r := Define(root, s.path, s.body);
            && (r.Some? <==> Open(root, [PROXY_PLUGINS]))
            && (r.Some? ==> NonePresent(r.value, ms) && (Open(r.value, PATH) <==> Open(root, PATH)))
  {
    var s := ProxySection(socketPath);
    EraseAt(root, PROXY_PATH);
    DefineIff(root, s.path, s.body);
    assert PROXY_PATH == [PROXY_PLUGINS] + [PV_SNAPSHOTTER];
    OpenBelow(root, [PROXY_PLUGINS], PV_SNAPSHOTTER);
    var r := Define(root, s.path, s.body);
    if r.Some? {
      ProxyApart(PATH);
      DefineElsewhere(root, s.path, s.body, PATH);
      forall i | 0 <= i < |ms| ensures NodeAt(r.value, PATH + [ms[i].name]).None? {
        ProxyApart(PATH + [ms[i].name]);
        DefineElsewhere(root, s.path, s.body, PATH + [ms[i].name]);
      }
    }
  }

  /**
   Exactly when the patched file is valid, and what it then says: every new runtime entry
   reads back as its base with only the snapshotter overridden, in any iteration order.
   */
  lemma {:induction false} PatchedValidIff(root: Node, params: Params, order: Order)
    requires LawfulOrder(order) && BareNames(params)
    requires FlatBases(MissingRuntimes(Erase(root), params.runtimes))
    ensures var ms := MissingRuntimes(Erase(root), params.runtimes);
            var r := ParseFrom(root, Snippet(params.socketPath, MissingSections(Erase(root), params), order));
            && BareRuntimes(ms)
            && (r.Some? <==> Patchable(root, params))
            && (r.Some? ==> ReadBack(r.value, ms))
  {
    var tree := Erase(root);
    var ms := MissingRuntimes(tree, params.runtimes);
    MissingNotPresent(root, params);
    if ValueAt(tree, PROXY_PATH).Some? {
      assert MissingSections(tree, params) == ms;
      RuntimesDefined(root, params.socketPath, ms, order);
    } else {
      var all := [ProxyPlugin] + ms;
      assert MissingSections(tree, params) == all && all[1..] == ms;
      SnippetStep(root, params.socketPath, all, order);
      SingleSection(root, ProxySection(params.socketPath));
      ProxyDefined(root, params.socketPath, ms);
      var s := ProxySection(params.socketPath);
      var n1 := Define(root, s.path, s.body);
      if n1.Some? {
        RuntimesDefined(n1.value, params.socketPath, ms, order);
      }
    }
  }

  lemma {:induction false} SingleSection(n: Node, s: Section)
    ensures ParseFrom(n, [s]) == Define(n, s.path, s.body)
  {
    assert [s][1..] == [];
  }

  /** The patch run as a whole, on every valid file. */
  lemma {:induction false} ApplyReachesFixpoint(file: File, params: Params, order: Order)
    requires LawfulOrder(order) && BareNames(params) && Parse(file).Some?
    requires FlatBases(MissingRuntimes(Erase(Parse(file).value), params.runtimes))
    ensures var root := Parse(file).value;
            var r := Applied(file, params, order);
            && r.Ok?
            && (r.value.0 <==> MissingSections(Erase(root), params) != [])
            && (Parse(r.value.1).Some? <==> !r.value.0 || Patchable(root, params))
            && (Parse(r.value.1).Some? ==>
                  && Extends(Erase(root), Erase(Parse(r.value.1).value))
                  && Applied(r.value.1, params, order) == Ok((false, r.value.1)))
  {
    var root := Parse(file).value;
    var missing := MissingSections(Erase(root), params);
    if missing == [] {
      ExtendsReflexive(Erase(root));
    } else {
      var snippet := Snippet(params.socketPath, missing, order);
      ParseFromAppend(EMPTY, file, snippet);
      PatchedValidIff(root, params, order);
      var r := ParseFrom(root, snippet);
      if r.Some? {
        PatchedHasEverything(root, params, order, r.value);
      }
    }
  }

  // ------------------------------------------------------------- sidecar runs

  /** The file and the number of changes after n runs of the sidecar, each with its own iteration order. */
  function RunSidecar(file: File, params: Params, orders: nat -> Order, n: nat): (File, nat)
    requires forall k :: LawfulOrder(orders(k))
  {
    if n == 0 then (file, 0)
    else
      var (f, changes) := RunSidecar(file, params, orders, n - 1);
      var r := Applied(f, params, orders(n - 1));
      if r.Ok? && r.value.0 then (r.value.1, changes + 1) else (f, changes)
  }

  /** A file that a run leaves alone for good: invalid, or complete. */
  ghost predicate Settled(file: File, params: Params) {
    Parse(file).Some? ==> MissingSections(Erase(Parse(file).value), params) == []
  }

  lemma {:induction false} AppliedSettles(file: File, params: Params, order: Order)
    requires LawfulOrder(order) && (Parse(file).Some? ==> MissingBare(Erase(Parse(file).value), params))
    ensures var r := Applied(file, params, order); Settled(if r.Ok? then r.value.1 else file, params)
  {
    if Parse(file).Some? {
      var root := Parse(file).value;
      var missing := MissingSections(Erase(root), params);
      if missing != [] {
        var snippet := Snippet(params.socketPath, missing, order);
        ParseFromAppend(EMPTY, file, snippet);
        var r := ParseFrom(root, snippet);
        if r.Some? {
          PatchedHasEverything(root, params, order, r.value);
        }
      }
    }
  }

  /** Any number of runs change the file, and so ask for a restart, at most once. */
  lemma {:induction false} AtMostOneChange(file: File, params: Params, orders: nat -> Order, n: nat)
    requires (forall k :: LawfulOrder(orders(k))) && BareNames(params)
    ensures RunSidecar(file, params, orders, n).1 <= 1
    ensures n > 0 ==> Settled(RunSidecar(file, params, orders, n).0, params)
  {
    if n > 0 {
      AtMostOneChange(file, params, orders, n - 1);
      AppliedSettles(RunSidecar(file, params, orders, n - 1).0, params, orders(n - 1));
    }
  }
}
