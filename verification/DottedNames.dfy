/** What a dot in a runtime's name does to the patched configuration. */
module DottedNames {
  import opened Wrappers
  import opened Toml
  import opened ConfigPatcher
  import opened ConfigTheorems

  lemma {:induction false} ElsewhereParsed(n: Node, file: File, q: seq<string>)
    requires ParseFrom(n, file).Some? && forall i :: 0 <= i < |file| ==> Apart(file[i].path, q)
    ensures NodeAt(ParseFrom(n, file).value, q) == NodeAt(n, q)
    decreases |file|
  {
    if file != [] {
      DefineElsewhere(n, file[0].path, file[0].body, q);
      ElsewhereParsed(Define(n, file[0].path, file[0].body).value, file[1..], q);
    }
  }

  lemma {:induction false} SubSectionsApart(p: seq<string>, cfg: map<string, Value>, keys: seq<string>, order: Order, q: seq<string>)
    requires LawfulOrder(order) && Flat(cfg) && Apart(p, q)
    requires forall k :: k in keys ==> k in cfg && cfg[k].Table?
    ensures forall i :: 0 <= i < |SubSections(p, cfg, keys, order)| ==> Apart(SubSections(p, cfg, keys, order)[i].path, q)
    decreases |keys|
  {
    if keys != [] {
      FlatSection(cfg, keys[0], order);
      ApartBelow(p, [keys[0]], q);
      SubSectionsApart(p, cfg, keys[1..], order, q);
    }
  }

  lemma {:induction false} DottedHeader(name: string)
    ensures forall i :: 0 <= i < |HeaderKeys(name)[0]| ==> HeaderKeys(name)[0][i] != '.'
  {
    if name != "" {
      DottedHeader(name[1..]);
    }
  }

  // --------------------------------------------------------- where a dotted name goes

  // A runtime's own section and its sub-tables', whatever its name, are not where a dotted name is looked for.
  lemma {:induction false} RuntimeSectionsMiss(name: string, cfg: map<string, Value>, order: Order, q: seq<string>)
    requires LawfulOrder(order) && Flat(cfg) && |q| == |PATH| + 1 && '.' in q[|PATH|]
    ensures forall i :: 0 <= i < |RuntimeSections(name, cfg, order)| ==> Apart(RuntimeSections(name, cfg, order)[i].path, q)
  {
    var p := PATH + HeaderKeys(name);
    DottedHeader(name);
    assert p[|PATH|] == HeaderKeys(name)[0];
    assert '.' !in HeaderKeys(name)[0];
    assert Apart(p, q);
    var keys := order(TableKeys(cfg));
    assert Enumerates(keys, TableKeys(cfg));
    SubSectionsApart(p, cfg, keys, order, q);
    var sections := RuntimeSections(name, cfg, order);
    forall i | 0 <= i < |sections| ensures Apart(sections[i].path, q) {
      if i > 0 {
        assert sections[i] == SubSections(p, cfg, keys, order)[i - 1];
      }
    }
  }

  lemma {:induction false} SnippetMisses(n: Node, socketPath: string, ms: seq<Missing>, order: Order, q: seq<string>)
    requires LawfulOrder(order) && FlatBases(ms) && |q| == |PATH| + 1 && '.' in q[|PATH|] && q[0] == PLUGINS
    requires ParseFrom(n, Snippet(socketPath, ms, order)).Some?
    ensures NodeAt(ParseFrom(n, Snippet(socketPath, ms, order)).value, q) == NodeAt(n, q)
    decreases |ms|
  {
    if ms != [] {
      SnippetStep(n, socketPath, ms, order);
      var sections := SectionsFor(socketPath, ms[0], order);
      if ms[0].ProxyPlugin? { ProxyApart(q); } else { RuntimeSectionsMiss(ms[0].name, RuntimeConfig(ms[0].base), order, q); }
      ElsewhereParsed(n, sections, q);
      SnippetMisses(ParseFrom(n, sections).value, socketPath, ms[1..], order, q);
    }
  }

  lemma {:induction false} SamePresence(n: Node, r: Node, cri: string, name: string)
    requires NodeAt(r, RuntimesPath(cri) + [name]) == NodeAt(n, RuntimesPath(cri) + [name])
    ensures name in RuntimesIn(Erase(r), cri) <==> name in RuntimesIn(Erase(n), cri)
  {
    EraseAt(n, RuntimesPath(cri) + [name]);
    EraseAt(r, RuntimesPath(cri) + [name]);
    RuntimePresence(Erase(n), cri, name);
    RuntimePresence(Erase(r), cri, name);
  }

  /** A name with a dot is written where it is never looked for, whatever else is written with it. */
  lemma {:induction false} DottedNameStaysMissing(n: Node, socketPath: string, ms: seq<Missing>, order: Order, name: string)
    requires LawfulOrder(order) && FlatBases(ms) && '.' in name
    requires ParseFrom(n, Snippet(socketPath, ms, order)).Some?
    ensures HasRuntimeEntry(Erase(ParseFrom(n, Snippet(socketPath, ms, order)).value), name) <==> HasRuntimeEntry(Erase(n), name)
  {
    var r := ParseFrom(n, Snippet(socketPath, ms, order)).value;
    SnippetMisses(n, socketPath, ms, order, RuntimesPath(CRI_V2) + [name]);
    SnippetMisses(n, socketPath, ms, order, RuntimesPath(CRI_V3) + [name]);
    SamePresence(n, r, CRI_V2, name);
    SamePresence(n, r, CRI_V3, name);
  }

  // ---------------------------------------------------------------- two runs

  // Where a missing runtime's header sits in a run's snippet.
  lemma {:induction false} HeaderOf(tree: Value, params: Params, order: Order, j: nat) returns (i: nat)
    requires LawfulOrder(order) && j < |params.runtimes| && !HasRuntimeEntry(tree, params.runtimes[j].name)
    ensures var s := Snippet(params.socketPath, MissingSections(tree, params), order);
            i < |s| && s[i].path == PATH + HeaderKeys(params.runtimes[j].name) && MissingSections(tree, params) != []
  {
    var all, ms := MissingSections(tree, params), MissingRuntimes(tree, params.runtimes);
    var k := RequestedIsMissing(tree, params.runtimes, j);
    assert all[|all| - |ms| + k] == ms[k];
    i := HeaderInSnippet(params.socketPath, all, order, |all| - |ms| + k);
  }

  // A run over a file that already has a runtime's header, but not its entry.
  lemma {:induction false} RepeatsHeader(file: File, params: Params, order: Order, j: nat)
    requires LawfulOrder(order) && Parse(file).Some? && j < |params.runtimes|
    requires !HasRuntimeEntry(Erase(Parse(file).value), params.runtimes[j].name)
    requires IsDefinedAt(Parse(file).value, PATH + HeaderKeys(params.runtimes[j].name))
    ensures var u := Applied(file, params, order); u.Ok? && u.value.0 && Parse(u.value.1).None?
  {
    var root := Parse(file).value;
    var snippet := Snippet(params.socketPath, MissingSections(Erase(root), params), order);
    var i := HeaderOf(Erase(root), params, order, j);
    Redefined(root, snippet, i);
    ParseFromAppend(EMPTY, file, snippet);
  }

  lemma {:induction false} FlatSections(tree: Value, params: Params)
    requires FlatBases(MissingRuntimes(tree, params.runtimes))
    ensures FlatBases(MissingSections(tree, params))
  {
    var all, ms := MissingSections(tree, params), MissingRuntimes(tree, params.runtimes);
    forall i | 0 <= i < |all| && all[i].Runtime? ensures Flat(RuntimeConfig(all[i].base)) {
      assert all[i] == ms[i - (|all| - |ms|)];
    }
  }

  /**
   With a missing dotted name among the runtimes the first run changes the file; if the result
   is valid, the second run changes it again, repeats the first run's header and leaves a file
   that no longer parses.
   */
  lemma {:induction false} DottedNameRuinsFile(file: File, params: Params, first: Order, second: Order, j: nat)
    requires LawfulOrder(first) && LawfulOrder(second) && Parse(file).Some?
    requires j < |params.runtimes| && '.' in params.runtimes[j].name
    requires var tree := Erase(Parse(file).value);
             !HasRuntimeEntry(tree, params.runtimes[j].name) && FlatBases(MissingRuntimes(tree, params.runtimes))
    ensures var r := Applied(file, params, first);
            && r.Ok? && r.value.0
            && (Parse(r.value.1).Some? ==>
                  var u := Applied(r.value.1, params, second); u.Ok? && u.value.0 && Parse(u.value.1).None?)
  {
    var root := Parse(file).value;
    var all := MissingSections(Erase(root), params);
    var snippet := Snippet(params.socketPath, all, first);
    var i := HeaderOf(Erase(root), params, first, j);
    ParseFromAppend(EMPTY, file, snippet);
    if ParseFrom(root, snippet).Some? {
      FlatSections(Erase(root), params);
      DottedNameStaysMissing(root, params.socketPath, all, first, params.runtimes[j].name);
      SectionsAreDefined(root, snippet, i);
      RepeatsHeader(file + snippet, params, second, j);
    }
  }

  // ------------------------------------------------------ names that occur once

  // A file with the proxy plugin and nothing else.
  lemma {:induction false} ProxyOnly(socketPath: string, q: seq<string>)
    requires q != [] && q[0] == PLUGINS
    ensures var r := Parse([ProxySection(socketPath)]); r.Some? && NodeAt(r.value, q).None? && Open(r.value, q)
  {
    var s := ProxySection(socketPath);
    SingleSection(EMPTY, s);
    EmptyNode(s.path);
    DefineIff(EMPTY, s.path, s.body);
    ProxyApart(q);
    EmptyNode(q);
    DefineElsewhere(EMPTY, s.path, s.body, q);
  }

  // Requested names other than d, and the first key of d's header.
  function Others(rts: seq<RuntimeEntry>, d: string, a: string): set<string> {
    set i | 0 <= i < |rts| && rts[i].name != d && rts[i].name != a :: rts[i].name
  }

  function Fillers(names: set<string>): map<string, Value> { map x | x in names :: Scalar("") }

  /** A file with an entry for every requested name but d, and an empty table under the first key of d's header. */
  function Witness(socketPath: string, rts: seq<RuntimeEntry>, d: string): File {
    var a := HeaderKeys(d)[0];
    [ProxySection(socketPath), Section(PATH, Fillers(Others(rts, d, a))), Section(PATH + [a], map[])]
  }

  lemma {:induction false} VersionsApart()
    ensures Apart(PATH, RuntimesPath(CRI_V3))
  {
    assert CRI_V2[14] != CRI_V3[14];
    assert PATH[1] == CRI_V2 && RuntimesPath(CRI_V3)[1] == CRI_V3;
  }

  lemma {:induction false} ParseThree(x: Section, y: Section, z: Section, n: Node, u: Node, r: Node)
    requires Parse([x]) == Some(n) && Define(n, y.path, y.body) == Some(u) && Define(u, z.path, z.body) == Some(r)
    ensures Parse([x, y, z]) == Some(r)
  {
    assert [x, y, z] == [x] + [y, z] && [y, z][1..] == [z];
    ParseFromAppend(EMPTY, [x], [y, z]);
    SingleSection(u, z);
  }

  // The table of runtimes in the witness.
  function WitnessTable(rts: seq<RuntimeEntry>, d: string): Node {
    var a := HeaderKeys(d)[0];
    Branch(InlineAll(Fillers(Others(rts, d, a)))[a := Branch(map[], true, false)], true, false)
  }

  lemma {:induction false} WitnessParses(socketPath: string, rts: seq<RuntimeEntry>, d: string)
    ensures var r := Parse(Witness(socketPath, rts, d));
            && r.Some? && Open(r.value, PATH) && NodeAt(r.value, PATH) == Some(WitnessTable(rts, d))
            && NodeAt(r.value, RuntimesPath(CRI_V3)).None? && IsDefinedAt(r.value, PROXY_PATH)
  {
    var a, fill := HeaderKeys(d)[0], Fillers(Others(rts, d, HeaderKeys(d)[0]));
    var w := Witness(socketPath, rts, d);
    ProxyOnly(socketPath, PATH);
    ProxyOnly(socketPath, RuntimesPath(CRI_V3));
    VersionsApart();
    var n := Parse([w[0]]).value;
    DefineIff(n, PATH, fill);
    var u := Define(n, PATH, fill).value;
    DefineReadBack(n, PATH, fill);
    DefineKeepsOpen(n, PATH, fill, PATH);
    DefineElsewhere(n, PATH, fill, RuntimesPath(CRI_V3));
    assert map[] + InlineAll(fill) == InlineAll(fill);
    var t := Branch(InlineAll(fill), true, false);
    SubDefined(u, PATH, t, a, map[], RuntimesPath(CRI_V3));
    assert InlineAll(map[]) == map[];
    ParseThree(w[0], w[1], w[2], n, u, Define(u, PATH + [a], map[]).value);
    SectionsAreDefined(EMPTY, w, 0);
  }

  // What the witness has: every other name, and not d; a base is found only where the table is empty.
  lemma {:induction false} WitnessEntries(socketPath: string, rts: seq<RuntimeEntry>, d: string)
    requires '.' in d
    ensures Parse(Witness(socketPath, rts, d)).Some?
    ensures var tree := Erase(Parse(Witness(socketPath, rts, d)).value);
            && ValueAt(tree, PROXY_PATH).Some? && !HasRuntimeEntry(tree, d)
            && (forall i :: 0 <= i < |rts| && rts[i].name != d ==> HasRuntimeEntry(tree, rts[i].name))
            && (forall base :: LookupBaseRuntime(tree, base) == None || LookupBaseRuntime(tree, base) == Some(map[]))
  {
    WitnessParses(socketPath, rts, d);
    var a, root := HeaderKeys(d)[0], Parse(Witness(socketPath, rts, d)).value;
    var tree, t := Erase(root), WitnessTable(rts, d);
    EraseAt(root, PATH);
    EraseAt(root, RuntimesPath(CRI_V3));
    EraseAt(root, PROXY_PATH);
    DottedHeader(d);
    assert RuntimesIn(tree, CRI_V3) == map[];
    assert RuntimesIn(tree, CRI_V2) == Erase(t).entries;
    forall k | k in t.kids ensures Erase(t).entries[k] == if k == a then Table(map[]) else Scalar("") {
      EraseKid(t, k);
    }
  }

  lemma {:induction false} OnlyMissing(tree: Value, rts: seq<RuntimeEntry>, i: nat)
    requires i < |rts| && !HasRuntimeEntry(tree, rts[i].name)
    requires forall j :: 0 <= j < |rts| && j != i ==> HasRuntimeEntry(tree, rts[j].name)
    ensures MissingRuntimes(tree, rts) == [Runtime(rts[i].name, LookupBaseRuntime(tree, rts[i].base))]
    decreases |rts|
  {
    var k := |rts| - 1;
    if i < k { OnlyMissing(tree, rts[..k], i); } else { NothingMissing(tree, rts[..k]); }
  }

  // A config without tables is one section.
  lemma {:induction false} OneSection(name: string, cfg: map<string, Value>, order: Order)
    requires LawfulOrder(order) && TableKeys(cfg) == {}
    ensures Flat(cfg) && RuntimeSections(name, cfg, order) == [Section(PATH + HeaderKeys(name), Scalars(cfg))]
  {
    assert forall k :: k in cfg && cfg[k].Table? ==> k in TableKeys(cfg);
    assert Enumerates(order({}), {});
    FirstIn(order({}));
  }

  lemma {:induction false} DotSplits(name: string)
    requires '.' in name
    ensures |HeaderKeys(name)| >= 2
  {
    if name[0] != '.' { DotSplits(name[1..]); }
  }

  // A header below an empty open table can be written.
  lemma {:induction false} HeaderFits(n: Node, p: seq<string>, rest: seq<string>, body: map<string, Value>)
    requires Open(n, p) && NodeAt(n, p) == Some(Branch(map[], true, false)) && rest != []
    ensures Define(n, p + rest, body).Some?
  {
    EmptyNode(rest[1..]);
    DefineIff(EMPTY, rest[1..], body);
    DefineBelow(n, p, rest, body);
  }

  // The first run over the witness is valid.
  lemma {:induction false} WitnessFirstRun(socketPath: string, rts: seq<RuntimeEntry>, i: nat, order: Order)
    requires LawfulOrder(order) && i < |rts| && '.' in rts[i].name
    requires forall j :: 0 <= j < |rts| && j != i ==> rts[j].name != rts[i].name
    ensures var file, params := Witness(socketPath, rts, rts[i].name), Params(socketPath, rts);
            && Parse(file).Some? && !HasRuntimeEntry(Erase(Parse(file).value), rts[i].name)
            && FlatBases(MissingRuntimes(Erase(Parse(file).value), rts))
            && var r := Applied(file, params, order); r.Ok? && Parse(r.value.1).Some?
  {
    var d, file, params := rts[i].name, Witness(socketPath, rts, rts[i].name), Params(socketPath, rts);
    WitnessEntries(socketPath, rts, d);
    WitnessParses(socketPath, rts, d);
    var root := Parse(file).value;
    var m := Runtime(d, LookupBaseRuntime(Erase(root), rts[i].base));
    var cfg := RuntimeConfig(m.base);
    OnlyMissing(Erase(root), rts, i);
    assert TableKeys(cfg) == {};
    OneSection(d, cfg, order);
    var s := Section(PATH + HeaderKeys(d), Scalars(cfg));
    WitnessHeaderFits(root, rts, d, s.body);
    OneRuntimeRun(file, params, m, s, order);
  }

  // A run that adds one section.
  lemma {:induction false} OneRuntimeRun(file: File, params: Params, m: Missing, s: Section, order: Order)
    requires LawfulOrder(order) && Parse(file).Some? && MissingSections(Erase(Parse(file).value), params) == [m]
    requires SectionsFor(params.socketPath, m, order) == [s] && Define(Parse(file).value, s.path, s.body).Some?
    ensures var r := Applied(file, params, order); r.Ok? && Parse(r.value.1).Some?
  {
    assert [m][1..] == [];
    assert Snippet(params.socketPath, [m], order) == [s] + [];
    assert [s] + [] == [s];
    SingleSection(Parse(file).value, s);
    ParseFromAppend(EMPTY, file, [s]);
  }

  lemma {:induction false} WitnessHeaderFits(root: Node, rts: seq<RuntimeEntry>, d: string, body: map<string, Value>)
    requires '.' in d && Open(root, PATH) && NodeAt(root, PATH) == Some(WitnessTable(rts, d))
    ensures Define(root, PATH + HeaderKeys(d), body).Some?
  {
    var a, rest := HeaderKeys(d)[0], HeaderKeys(d)[1..];
    DotSplits(d);
    var t := WitnessTable(rts, d);
    HeaderFits(t, [a], rest, body);
    assert [a] + rest == HeaderKeys(d);
    DefineBelow(root, PATH, HeaderKeys(d), body);
  }

  // ----------------------------------------------------- names that occur again

  lemma {:induction false} MissingGrows(tree: Value, rts: seq<RuntimeEntry>, j: nat, k: nat)
    requires j < k <= |rts| && !HasRuntimeEntry(tree, rts[j].name)
    ensures |MissingRuntimes(tree, rts[..j])| < |MissingRuntimes(tree, rts[..k])|
    decreases k
  {
    assert rts[..k][..k - 1] == rts[..k - 1];
    if j < k - 1 { MissingGrows(tree, rts, j, k - 1); }
  }

  /** Two missing entries of one name make the snippet invalid anywhere. */
  lemma {:induction false} RepeatedHeaderFails(n: Node, socketPath: string, ms: seq<Missing>, order: Order, i: nat, j: nat)
    requires LawfulOrder(order) && i < j < |ms| && ms[i].Runtime? && ms[j].Runtime? && ms[i].name == ms[j].name
    ensures ParseFrom(n, Snippet(socketPath, ms, order)).None?
  {
    var a, b, c := Snippet(socketPath, ms[..i], order), SectionsFor(socketPath, ms[i], order), Snippet(socketPath, ms[i + 1..], order);
    SnippetSplit(socketPath, ms, order, i);
    HeaderFirst(socketPath, ms[i], order);
    var k := HeaderInTail(socketPath, ms, order, i, j);
    SamePathFails(n, a, b, c, k);
  }

  lemma {:induction false} HeaderInTail(socketPath: string, ms: seq<Missing>, order: Order, i: nat, j: nat) returns (k: nat)
    requires LawfulOrder(order) && i < j < |ms| && ms[j].Runtime?
    ensures var c := Snippet(socketPath, ms[i + 1..], order); k < |c| && c[k].path == PATH + HeaderKeys(ms[j].name)
  {
    assert ms[i + 1..][j - i - 1] == ms[j];
    k := HeaderInSnippet(socketPath, ms[i + 1..], order, j - i - 1);
  }

  lemma {:induction false} SamePathFails(n: Node, a: File, b: File, c: File, k: nat)
    requires b != [] && k < |c| && b[0].path == c[k].path
    ensures ParseFrom(n, a + (b + c)).None?
  {
    ParseFromAppend(n, a, b + c);
    if ParseFrom(n, a).Some? {
      var na := ParseFrom(n, a).value;
      ParseFromAppend(na, b, c);
      if ParseFrom(na, b).Some? {
        SectionsAreDefined(na, b, 0);
        Redefined(ParseFrom(na, b).value, c, k);
      }
    }
  }

  lemma {:induction false} RepeatedMissingFails(n: Node, params: Params, order: Order, i: nat, j: nat)
    requires LawfulOrder(order) && i < j < |params.runtimes| && params.runtimes[i].name == params.runtimes[j].name
    requires !HasRuntimeEntry(Erase(n), params.runtimes[i].name)
    ensures ParseFrom(n, Snippet(params.socketPath, MissingSections(Erase(n), params), order)).None?
  {
    var all, ms := MissingSections(Erase(n), params), MissingRuntimes(Erase(n), params.runtimes);
    var x := RequestedIsMissing(Erase(n), params.runtimes, i);
    var y := RequestedIsMissing(Erase(n), params.runtimes, j);
    MissingGrows(Erase(n), params.runtimes, i, j);
    var front := |all| - |ms|;
    assert all[front + x] == ms[x] && all[front + y] == ms[y];
    RepeatedHeaderFails(n, params.socketPath, all, order, front + x, front + y);
  }

  // ----------------------------------------------------------- the exact condition

  /** A name that a header reads as bare keys separated by dots. */
  ghost predicate HeaderName(name: string) { forall i :: 0 <= i < |HeaderKeys(name)| ==> IsBareKey(HeaderKeys(name)[i]) }

  ghost predicate HeaderNames(rts: seq<RuntimeEntry>) { forall i :: 0 <= i < |rts| ==> HeaderName(rts[i].name) }

  /** Every name with a dot is requested at least twice. */
  ghost predicate DotsRepeat(rts: seq<RuntimeEntry>) {
    forall i :: 0 <= i < |rts| && '.' in rts[i].name ==> OccursAgain(rts, i)
  }

  ghost predicate OccursAgain(rts: seq<RuntimeEntry>, i: int)
    requires 0 <= i < |rts|
  {
    exists j :: 0 <= j < |rts| && j != i && rts[j].name == rts[i].name
  }

  // Without dots a header name is bare.
  lemma {:induction false} UndottedBare(name: string)
    requires HeaderName(name) && '.' !in name
    ensures IsBareKey(name)
  {
    NoDots(name);
    assert IsBareKey(HeaderKeys(name)[0]);
  }

  // A name that is not bare is there twice.
  lemma {:induction false} NotBareRepeats(rts: seq<RuntimeEntry>, x: nat)
    requires HeaderNames(rts) && DotsRepeat(rts) && x < |rts| && !IsBareKey(rts[x].name)
    ensures OccursAgain(rts, x)
  {
    if '.' !in rts[x].name { UndottedBare(rts[x].name); }
  }

  lemma {:induction false} MissingTwice(tree: Value, rts: seq<RuntimeEntry>, x: nat) returns (i: nat, j: nat)
    requires x < |rts| && OccursAgain(rts, x) && !HasRuntimeEntry(tree, rts[x].name)
    ensures i < j < |rts| && rts[i].name == rts[j].name && !HasRuntimeEntry(tree, rts[i].name)
  {
    var y :| 0 <= y < |rts| && y != x && rts[y].name == rts[x].name;
    if x < y { i, j := x, y; } else { i, j := y, x; }
  }

  // After one run the file is complete or no longer parses.
  lemma {:induction false} RepeatsSettle(file: File, params: Params, order: Order)
    requires LawfulOrder(order) && HeaderNames(params.runtimes) && DotsRepeat(params.runtimes)
    ensures var r := Applied(file, params, order); Settled(if r.Ok? then r.value.1 else file, params)
  {
    if Parse(file).Some? && !MissingBare(Erase(Parse(file).value), params) {
      var root := Parse(file).value;
      var x :| 0 <= x < |params.runtimes|
               && !(HasRuntimeEntry(Erase(root), params.runtimes[x].name) || IsBareKey(params.runtimes[x].name));
      NotBareRepeats(params.runtimes, x);
      var i, j := MissingTwice(Erase(root), params.runtimes, x);
      RepeatedMissingFails(root, params, order, i, j);
      var _ := HeaderOf(Erase(root), params, order, i);
      ParseFromAppend(EMPTY, file, Snippet(params.socketPath, MissingSections(Erase(root), params), order));
    } else {
      AppliedSettles(file, params, order);
    }
  }

  lemma {:induction false} RepeatsChangeOnce(file: File, params: Params, orders: nat -> Order, n: nat)
    requires (forall k :: LawfulOrder(orders(k))) && HeaderNames(params.runtimes) && DotsRepeat(params.runtimes)
    ensures RunSidecar(file, params, orders, n).1 <= 1
    ensures n > 0 ==> Settled(RunSidecar(file, params, orders, n).0, params)
  {
    if n > 0 {
      RepeatsChangeOnce(file, params, orders, n - 1);
      RepeatsSettle(RunSidecar(file, params, orders, n - 1).0, params, orders(n - 1));
    }
  }

  lemma {:induction false} TwoRuns(file: File, params: Params, orders: nat -> Order)
    requires forall k :: LawfulOrder(orders(k))
    requires var r := Applied(file, params, orders(0));
             && r.Ok? && r.value.0 && var u := Applied(r.value.1, params, orders(1)); u.Ok? && u.value.0
    ensures RunSidecar(file, params, orders, 2).1 == 2
  {
    assert RunSidecar(file, params, orders, 0) == (file, 0);
    assert RunSidecar(file, params, orders, 1) == (Applied(file, params, orders(0)).value.1, 1);
  }

  /**
   A sidecar changes every file at most once, over any number of runs, if and only if every
   requested name with a dot is requested more than once.  A dotted name that occurs once is
   written twice; one that occurs again makes the first run's file invalid.
   */
  lemma {:induction false} OneChangeIffDotsRepeat(socketPath: string, rts: seq<RuntimeEntry>, orders: nat -> Order)
    requires (forall k :: LawfulOrder(orders(k))) && HeaderNames(rts)
    ensures (forall file, n :: RunSidecar(file, Params(socketPath, rts), orders, n).1 <= 1) <==> DotsRepeat(rts)
  {
    var params := Params(socketPath, rts);
    if DotsRepeat(rts) {
      forall file, n ensures RunSidecar(file, params, orders, n).1 <= 1 { RepeatsChangeOnce(file, params, orders, n); }
    } else {
      var i :| 0 <= i < |rts| && '.' in rts[i].name && !OccursAgain(rts, i);
      var file := Witness(socketPath, rts, rts[i].name);
      WitnessFirstRun(socketPath, rts, i, orders(0));
      DottedNameRuinsFile(file, params, orders(0), orders(1), i);
      TwoRuns(file, params, orders);
    }
  }

  /** Iteration orders exist. */
  ghost function Enumerate(s: set<string>): (xs: seq<string>)
    ensures Enumerates(xs, s)
  {
    if s == {} then []
    else
      var x :| x in s;
      [x] + Enumerate(s - {x})
  }

  lemma {:induction false} LawfulOrderExists()
    ensures exists order: Order :: LawfulOrder(order)
  {
    var order: Order := s => Enumerate(s);
    assert LawfulOrder(order);
  }
}
