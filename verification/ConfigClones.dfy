/** Which bases the patcher clones faithfully: exactly those whose sub-tables hold no further tables. */
module ConfigClones {
  import opened Wrappers
  import opened Toml
  import opened ConfigPatcher
  import opened ConfigTheorems
  import D = DottedNames

  // ----------------------------------------------------- sections that miss a path

  predicate Below(e: seq<string>, q: seq<string>) { e <= q && |e| < |q| }

  lemma {:induction false} DefineAbove(n: Node, path: seq<string>, body: map<string, Value>, q: seq<string>)
    requires Define(n, path, body).Some? && Below(path, q) && q[|path|] !in body
    ensures NodeAt(Define(n, path, body).value, q) == NodeAt(n, q)
    decreases |path|
  {
    if path != [] {
      assert Below(path[1..], q[1..]) && q[1..][|path| - 1] == q[|path|];
      DefineAbove(Child(n, path[0]), path[1..], body, q[1..]);
      if path[0] !in n.kids { EmptyNode(q[1..]); }
    }
  }

  lemma {:induction false} LeafStops(n: Node, path: seq<string>, body: map<string, Value>, q: seq<string>)
    requires Define(n, path, body).Some? && Below(path, q) && |path| + 1 < |q| && q[|path|] in body && body[q[|path|]].Scalar?
    ensures NodeAt(Define(n, path, body).value, q).None?
    decreases |path|
  {
    if path != [] {
      assert Below(path[1..], q[1..]) && q[1..][|path| - 1] == q[|path|];
      LeafStops(Child(n, path[0]), path[1..], body, q[1..]);
    }
  }

  ghost predicate AllScalars(body: map<string, Value>) { forall k :: k in body ==> body[k].Scalar? }

  /** The section cannot bring about the path q below e: it stays clear of e, or of q, or stops above q without its next key. */
  ghost predicate Harmless(x: Section, e: seq<string>, q: seq<string>) {
    && AllScalars(x.body)
    && (!(e <= x.path) || Apart(x.path, q) || (Below(x.path, q) && q[|x.path|] !in x.body))
  }

  lemma {:induction false} HarmlessDefine(n: Node, x: Section, e: seq<string>, q: seq<string>)
    requires Below(e, q) && Define(n, x.path, x.body).Some? && NodeAt(n, q).None? && Harmless(x, e, q)
    ensures NodeAt(Define(n, x.path, x.body).value, q).None?
  {
    if Apart(x.path, q) {
      DefineElsewhere(n, x.path, x.body, q);
    } else {
      if q <= x.path { PrefixTrans(e, q, x.path); }
      if q[|x.path|] !in x.body { DefineAbove(n, x.path, x.body, q); } else { LeafStops(n, x.path, x.body, q); }
    }
  }

  lemma {:induction false} PrefixTrans(a: seq<string>, b: seq<string>, c: seq<string>)
    requires a <= b && b <= c
    ensures a <= c
  {
  }

  lemma {:induction false} HarmlessFile(n: Node, file: File, e: seq<string>, q: seq<string>)
    requires Below(e, q) && ParseFrom(n, file).Some? && NodeAt(n, q).None? && forall x :: x in file ==> Harmless(x, e, q)
    ensures NodeAt(ParseFrom(n, file).value, q).None?
    decreases |file|
  {
    if file != [] {
      assert file[0] in file;
      HarmlessDefine(n, file[0], e, q);
      HarmlessFile(Define(n, file[0].path, file[0].body).value, file[1..], e, q);
    }
  }

  lemma {:induction false} RedefinedIn(n: Node, file: File, y: Section)
    requires y in file && IsDefinedAt(n, y.path)
    ensures ParseFrom(n, file).None?
  {
    var i :| 0 <= i < |file| && file[i] == y;
    Redefined(n, file, i);
  }

  // ------------------------------------------------------------ nested sections

  ghost function Inner(v: Value, order: Order): (keys: seq<string>)
    requires v.Table? && LawfulOrder(order)
    ensures Enumerates(keys, TableKeys(v.entries))
  {
    order(TableKeys(v.entries))
  }

  lemma {:induction false} ScalarsAreScalar(m: map<string, Value>)
    ensures AllScalars(Scalars(m))
  {
  }

  // What a nested section looks like, and that every table on its way has a section too.
  lemma {:induction false} NestedClosed(v: Value, prefix: seq<string>, keys: seq<string>, order: Order, x: Section, e: seq<string>)
    requires LawfulOrder(order) && v.Table? && forall k :: k in keys ==> k in v.entries && v.entries[k].Table?
    requires x in Nested(v, prefix, keys, order)
    ensures AllScalars(x.body) && Below(prefix, x.path)
    ensures e <= x.path && |prefix| < |e| ==> exists y :: y in Nested(v, prefix, keys, order) && y.path == e
    decreases v, |keys|
  {
    var sub := v.entries[keys[0]];
    var path := prefix + [keys[0]];
    var inner := Inner(sub, order);
    var head := Section(path, Scalars(sub.entries));
    var below, rest := Nested(sub, path, inner, order), Nested(v, prefix, keys[1..], order);
    assert Nested(v, prefix, keys, order) == [head] + below + rest;
    if x == head {
      ScalarsAreScalar(sub.entries);
      assert e <= path && |prefix| < |e| ==> e == path;
      assert head in Nested(v, prefix, keys, order);
    } else if x in below {
      NestedClosed(sub, path, inner, order, x, e);
      assert e <= x.path && |prefix| < |e| <= |path| ==> e == path;
      assert head in Nested(v, prefix, keys, order);
    } else {
      NestedClosed(v, prefix, keys[1..], order, x, e);
    }
  }

  // ------------------------------------------------------- sections of one runtime

  ghost predicate IsSubHead(x: Section, p: seq<string>, cfg: map<string, Value>, k: string) {
    k in cfg && cfg[k].Table? && x == Section(p + HeaderKeys(k), Scalars(cfg[k].entries))
  }

  ghost predicate IsNested(x: Section, cfg: map<string, Value>, k: string, order: Order)
    requires LawfulOrder(order)
  {
    k in cfg && cfg[k].Table? && x in Nested(cfg[k], [], Inner(cfg[k], order), order)
  }

  lemma {:induction false} SubSectionsCons(p: seq<string>, cfg: map<string, Value>, keys: seq<string>, order: Order)
    requires LawfulOrder(order) && keys != [] && forall k :: k in keys ==> k in cfg && cfg[k].Table?
    ensures var sub := cfg[keys[0]];
            SubSections(p, cfg, keys, order)
            == [Section(p + HeaderKeys(keys[0]), Scalars(sub.entries))] + Nested(sub, [], Inner(sub, order), order)
               + SubSections(p, cfg, keys[1..], order)
  {
  }

  // Every sub-section is the header of a sub-table or one of its nested tables.
  lemma {:induction false} SubSectionKind(p: seq<string>, cfg: map<string, Value>, keys: seq<string>, order: Order, x: Section) returns (k: string)
    requires LawfulOrder(order) && forall k :: k in keys ==> k in cfg && cfg[k].Table?
    requires x in SubSections(p, cfg, keys, order)
    ensures k in keys && (IsSubHead(x, p, cfg, k) || IsNested(x, cfg, k, order))
    decreases |keys|
  {
    SubSectionsCons(p, cfg, keys, order);
    if x in SubSections(p, cfg, keys[1..], order) {
      k := SubSectionKind(p, cfg, keys[1..], order, x);
    } else {
      k := keys[0];
    }
  }

  lemma {:induction false} NestedIncluded(p: seq<string>, cfg: map<string, Value>, keys: seq<string>, order: Order, k: string, y: Section)
    requires LawfulOrder(order) && (forall k :: k in keys ==> k in cfg && cfg[k].Table?) && k in keys
    requires IsNested(y, cfg, k, order)
    ensures y in SubSections(p, cfg, keys, order)
    decreases |keys|
  {
    SubSectionsCons(p, cfg, keys, order);
    if k != keys[0] { NestedIncluded(p, cfg, keys[1..], order, k, y); }
  }

  ghost function SubKeys(cfg: map<string, Value>, order: Order): (keys: seq<string>)
    requires LawfulOrder(order)
    ensures Enumerates(keys, TableKeys(cfg))
  {
    order(TableKeys(cfg))
  }

  // The sections of a runtime's sub-tables.
  ghost function Subs(name: string, cfg: map<string, Value>, order: Order): seq<Section>
    requires LawfulOrder(order)
  {
    SubSections(PATH + HeaderKeys(name), cfg, SubKeys(cfg, order), order)
  }

  lemma {:induction false} RuntimeParts(name: string, cfg: map<string, Value>, order: Order)
    requires LawfulOrder(order)
    ensures RuntimeSections(name, cfg, order) == [Section(PATH + HeaderKeys(name), Scalars(cfg))] + Subs(name, cfg, order)
  {
  }

  // A sub-section that reaches below an entry's table comes with a section for that table, or is the header of a sub-table of it.
  lemma {:induction false} SubCovered(name: string, cfg: map<string, Value>, order: Order, x: Section, entry: string)
    requires LawfulOrder(order) && IsBareKey(name) && x in Subs(name, cfg, order)
    ensures AllScalars(x.body)
    ensures var e := PATH + [entry];
            e <= x.path ==> (exists y :: y in Subs(name, cfg, order) && y.path == e)
                            || (entry == name && exists k :: IsSubHead(x, e, cfg, k))
  {
    BareHeader(name);
    var p, e, keys := PATH + [name], PATH + [entry], SubKeys(cfg, order);
    var k := SubSectionKind(p, cfg, keys, order, x);
    if IsSubHead(x, p, cfg, k) {
      ScalarsAreScalar(cfg[k].entries);
      assert x.path[|PATH|] == name;
      assert e <= x.path ==> e[|PATH|] == name;
    } else {
      NestedClosed(cfg[k], [], Inner(cfg[k], order), order, x, e);
      if e <= x.path {
        var y :| y in Nested(cfg[k], [], Inner(cfg[k], order), order) && y.path == e;
        NestedIncluded(p, cfg, keys, order, k, y);
      }
    }
  }

  lemma {:induction false} Covered(socketPath: string, m: Missing, order: Order, x: Section, entry: string)
    requires LawfulOrder(order) && (m.Runtime? ==> IsBareKey(m.name)) && x in SectionsFor(socketPath, m, order)
    ensures AllScalars(x.body)
    ensures PATH + [entry] <= x.path ==> exists y :: y in SectionsFor(socketPath, m, order) && y.path == PATH + [entry]
  {
    var e := PATH + [entry];
    if m.ProxyPlugin? {
      ProxyApart(e);
    } else {
      var cfg := RuntimeConfig(m.base);
      BareHeader(m.name);
      RuntimeParts(m.name, cfg, order);
      ScalarsAreScalar(cfg);
      var head := Section(PATH + [m.name], Scalars(cfg));
      assert head in SectionsFor(socketPath, m, order);
      if x == head {
        assert e <= x.path ==> e == x.path;
      } else {
        SubCovered(m.name, cfg, order, x, entry);
      }
    }
  }

  lemma {:induction false} SnippetCovered(socketPath: string, ms: seq<Missing>, order: Order, x: Section, entry: string)
    requires LawfulOrder(order) && (forall i :: 0 <= i < |ms| && ms[i].Runtime? ==> IsBareKey(ms[i].name))
    requires x in Snippet(socketPath, ms, order)
    ensures AllScalars(x.body)
    ensures PATH + [entry] <= x.path ==> exists y :: y in Snippet(socketPath, ms, order) && y.path == PATH + [entry]
    decreases |ms|
  {
    if x in SectionsFor(socketPath, ms[0], order) {
      Covered(socketPath, ms[0], order, x, entry);
    } else {
      SnippetCovered(socketPath, ms[1..], order, x, entry);
    }
  }

  // ------------------------------------------------------------------ what is lost

  /** A table of the config that no section writes: a sub-table with a dotted name, or a table inside a sub-table. */
  ghost predicate IsGap(cfg: map<string, Value>, gap: seq<string>) {
    || (|gap| == 1 && gap[0] in cfg && cfg[gap[0]].Table? && '.' in gap[0])
    || (|gap| == 2 && gap[0] in cfg && cfg[gap[0]].Table? && gap[1] in cfg[gap[0]].entries
        && cfg[gap[0]].entries[gap[1]].Table? && forall k :: k in cfg && cfg[k].Table? ==> '.' !in k)
  }

  lemma {:induction false} OwnHeadsMiss(p: seq<string>, cfg: map<string, Value>, gap: seq<string>, x: Section, k: string)
    requires IsGap(cfg, gap) && IsSubHead(x, p, cfg, k)
    ensures Harmless(x, p, p + gap)
  {
    ScalarsAreScalar(cfg[k].entries);
    var q := p + gap;
    assert q[|p|] == gap[0] && x.path[|p|] == HeaderKeys(k)[0];
    if |gap| == 1 {
      D.DottedHeader(k);
      assert Apart(x.path, q);
    } else {
      NoDots(k);
      assert q[|p| + 1] == gap[1];
      if k != gap[0] { assert Apart(x.path, q); } else { assert x.path == q[..|p| + 1]; }
    }
  }

  // The runtime's own sections do not write the gap.
  lemma {:induction false} OwnSectionsMiss(n: Node, name: string, cfg: map<string, Value>, order: Order, gap: seq<string>)
    requires LawfulOrder(order) && IsBareKey(name) && IsGap(cfg, gap)
    requires NodeAt(n, PATH + [name] + gap).None? && ParseFrom(n, RuntimeSections(name, cfg, order)).Some?
    ensures var r := ParseFrom(n, RuntimeSections(name, cfg, order)).value;
            NodeAt(r, PATH + [name] + gap).None? && IsDefinedAt(r, PATH + [name])
  {
    var e, q := PATH + [name], PATH + [name] + gap;
    BareHeader(name);
    RuntimeParts(name, cfg, order);
    SectionsAreDefined(n, RuntimeSections(name, cfg, order), 0);
    var head, subs := Section(e, Scalars(cfg)), Subs(name, cfg, order);
    assert RuntimeSections(name, cfg, order)[1..] == subs;
    var n1 := Define(n, e, Scalars(cfg)).value;
    DefineReadBack(n, e, Scalars(cfg));
    assert q[|e|] == gap[0];
    DefineAbove(n, e, Scalars(cfg), q);
    forall x | x in subs ensures Harmless(x, e, q) {
      SubCovered(name, cfg, order, x, name);
      if y :| y in subs && y.path == e {
        RedefinedIn(n1, subs, y);
      } else if e <= x.path {
        var k :| IsSubHead(x, e, cfg, k);
        OwnHeadsMiss(e, cfg, gap, x, k);
      }
    }
    HarmlessFile(n1, subs, e, q);
  }

  // Sections of other entries do not write the gap, as long as they do not define the entry's own table.
  lemma {:induction false} OtherSectionsMiss(n: Node, socketPath: string, ms: seq<Missing>, order: Order, name: string, gap: seq<string>)
    requires LawfulOrder(order) && (forall i :: 0 <= i < |ms| && ms[i].Runtime? ==> IsBareKey(ms[i].name)) && gap != []
    requires NodeAt(n, PATH + [name] + gap).None? && ParseFrom(n, Snippet(socketPath, ms, order)).Some?
    requires forall y :: y in Snippet(socketPath, ms, order) ==> y.path != PATH + [name]
    ensures NodeAt(ParseFrom(n, Snippet(socketPath, ms, order)).value, PATH + [name] + gap).None?
  {
    var e, q := PATH + [name], PATH + [name] + gap;
    forall x | x in Snippet(socketPath, ms, order) ensures Harmless(x, e, q) {
      SnippetCovered(socketPath, ms, order, x, name);
    }
    HarmlessFile(n, Snippet(socketPath, ms, order), e, q);
  }

  lemma {:induction false} DefinedIn(n: Node, file: File, y: Section)
    requires y in file && ParseFrom(n, file).Some?
    ensures IsDefinedAt(ParseFrom(n, file).value, y.path)
  {
    var i :| 0 <= i < |file| && file[i] == y;
    SectionsAreDefined(n, file, i);
  }

  /** A gap stays a gap in the whole patched document, whatever the other entries are. */
  lemma {:induction false} GapStays(n: Node, socketPath: string, ms: seq<Missing>, order: Order, i: nat, gap: seq<string>)
    requires LawfulOrder(order) && (forall i :: 0 <= i < |ms| && ms[i].Runtime? ==> IsBareKey(ms[i].name))
    requires i < |ms| && ms[i].Runtime? && IsGap(RuntimeConfig(ms[i].base), gap)
    requires NodeAt(n, PATH + [ms[i].name] + gap).None? && ParseFrom(n, Snippet(socketPath, ms, order)).Some?
    ensures NodeAt(ParseFrom(n, Snippet(socketPath, ms, order)).value, PATH + [ms[i].name] + gap).None?
  {
    var name, e := ms[i].name, PATH + [ms[i].name];
    var a, b, c := Snippet(socketPath, ms[..i], order), SectionsFor(socketPath, ms[i], order), Snippet(socketPath, ms[i + 1..], order);
    SnippetSplit(socketPath, ms, order, i);
    ParseFromAppend(n, a, b + c);
    var na := ParseFrom(n, a).value;
    ParseFromAppend(na, b, c);
    HeaderFirst(socketPath, ms[i], order);
    forall y | y in a ensures y.path != e {
      if y.path == e {
        DefinedIn(n, a, y);
        RedefinedIn(na, b, b[0]);
      }
    }
    OtherSectionsMiss(n, socketPath, ms[..i], order, name, gap);
    OwnSectionsMiss(na, name, RuntimeConfig(ms[i].base), order, gap);
    var nb := ParseFrom(na, b).value;
    forall y | y in c ensures y.path != e {
      if y.path == e { RedefinedIn(nb, c, y); }
    }
    OtherSectionsMiss(nb, socketPath, ms[i + 1..], order, name, gap);
  }

  // ------------------------------------------------------------------ main results

  lemma {:induction false} NodeAtAppend(n: Node, p: seq<string>, q: seq<string>)
    ensures NodeAt(n, p + q) == if NodeAt(n, p).None? then None else NodeAt(NodeAt(n, p).value, q)
    decreases |p|
  {
    if p == [] {
      assert p + q == q;
    } else {
      assert (p + q)[0] == p[0] && (p + q)[1..] == p[1..] + q;
      if n.Branch? && p[0] in n.kids { NodeAtAppend(n.kids[p[0]], p[1..], q); }
    }
  }

  // Sub-table names that a header reads as bare keys separated by dots.
  ghost predicate HeaderNames(cfg: map<string, Value>) {
    forall k :: k in cfg && cfg[k].Table? ==> IsBareKey(k) || '.' in k
  }

  lemma {:induction false} GapOf(cfg: map<string, Value>) returns (gap: seq<string>)
    requires HeaderNames(cfg) && !Flat(cfg)
    ensures IsGap(cfg, gap) && ValueAt(Table(cfg), gap).Some?
  {
    if k :| k in cfg && cfg[k].Table? && '.' in k {
      gap := [k];
      assert ValueAt(cfg[k], gap[1..]).Some?;
    } else {
      var k :| k in cfg && cfg[k].Table? && !(IsBareKey(k) && forall j :: j in cfg[k].entries ==> cfg[k].entries[j].Scalar?);
      var j :| j in cfg[k].entries && cfg[k].entries[j].Table?;
      gap := [k, j];
      assert gap[1..] == [j] && [j][1..] == [];
      assert ValueAt(cfg[k].entries[j], []).Some?;
      assert ValueAt(cfg[k], [j]).Some?;
    }
  }

  ghost predicate HeaderBases(ms: seq<Missing>) {
    forall i :: 0 <= i < |ms| ==> ms[i].Runtime? ==> HeaderNames(RuntimeConfig(ms[i].base))
  }

  // An entry whose base is not flat does not read back.
  lemma {:induction false} NotReadBack(root: Node, socketPath: string, all: seq<Missing>, order: Order, i: nat)
    requires LawfulOrder(order) && (forall i :: 0 <= i < |all| && all[i].Runtime? ==> IsBareKey(all[i].name))
    requires i < |all| && all[i].Runtime? && NodeAt(root, PATH + [all[i].name]).None?
    requires var cfg := RuntimeConfig(all[i].base); HeaderNames(cfg) && !Flat(cfg)
    requires ParseFrom(root, Snippet(socketPath, all, order)).Some?
    ensures var x := NodeAt(ParseFrom(root, Snippet(socketPath, all, order)).value, PATH + [all[i].name]);
            x.Some? ==> Erase(x.value) != Table(RuntimeConfig(all[i].base))
  {
    var cfg, e := RuntimeConfig(all[i].base), PATH + [all[i].name];
    var gap := GapOf(cfg);
    NodeAtAppend(root, e, gap);
    GapStays(root, socketPath, all, order, i, gap);
    var r := ParseFrom(root, Snippet(socketPath, all, order)).value;
    NodeAtAppend(r, e, gap);
    if NodeAt(r, e).Some? { EraseAt(NodeAt(r, e).value, gap); }
  }

  /**
   In every valid patched document, all new entries read back as their bases with only the
   snapshotter overridden if and only if no base sub-table holds a table or has a dotted name.
   */
  lemma {:induction false} ClonesExactIffFlat(root: Node, params: Params, order: Order)
    requires LawfulOrder(order) && BareNames(params)
    requires HeaderBases(MissingRuntimes(Erase(root), params.runtimes))
    requires ParseFrom(root, Snippet(params.socketPath, MissingSections(Erase(root), params), order)).Some?
    ensures var ms := MissingRuntimes(Erase(root), params.runtimes);
            var r := ParseFrom(root, Snippet(params.socketPath, MissingSections(Erase(root), params), order)).value;
            BareRuntimes(ms) && (ReadBack(r, ms) <==> FlatBases(ms))
  {
    var ms, all := MissingRuntimes(Erase(root), params.runtimes), MissingSections(Erase(root), params);
    MissingNotPresent(root, params);
    if FlatBases(ms) {
      PatchedValidIff(root, params, order);
    } else {
      var i :| 0 <= i < |ms| && !(ms[i].Runtime? ==> Flat(RuntimeConfig(ms[i].base)));
      var j := |all| - |ms| + i;
      assert all[j] == ms[i];
      NotReadBack(root, params.socketPath, all, order, j);
    }
  }

  lemma {:induction false} NestedHead(v: Value, prefix: seq<string>, keys: seq<string>, order: Order, j: string)
    requires LawfulOrder(order) && v.Table? && (forall k :: k in keys ==> k in v.entries && v.entries[k].Table?) && j in keys
    ensures exists y :: y in Nested(v, prefix, keys, order) && y.path == prefix + [j]
    decreases |keys|
  {
    var sub := v.entries[keys[0]];
    var path := prefix + [keys[0]];
    var head := Section(path, Scalars(sub.entries));
    assert Nested(v, prefix, keys, order) == [head] + Nested(sub, path, Inner(sub, order), order) + Nested(v, prefix, keys[1..], order);
    if j == keys[0] {
      assert head in Nested(v, prefix, keys, order);
    } else {
      NestedHead(v, prefix, keys[1..], order, j);
    }
  }

  /** A table j inside a sub-table k of the base is not cloned: it turns up at the root of the document, and the clone's k has no j. */
  lemma {:induction false} NestedTableLeaks(n: Node, name: string, cfg: map<string, Value>, order: Order, k: string, j: string)
    requires LawfulOrder(order) && IsBareKey(name) && NodeAt(n, PATH + [name]).None?
    requires forall x :: x in cfg && cfg[x].Table? ==> '.' !in x
    requires k in cfg && cfg[k].Table? && j in cfg[k].entries && cfg[k].entries[j].Table?
    requires ParseFrom(n, RuntimeSections(name, cfg, order)).Some?
    ensures var r := ParseFrom(n, RuntimeSections(name, cfg, order)).value;
            IsDefinedAt(r, [j]) && NodeAt(r, PATH + [name] + [k, j]).None?
  {
    NodeAtAppend(n, PATH + [name], [k, j]);
    OwnSectionsMiss(n, name, cfg, order, [k, j]);
    NestedHead(cfg[k], [], Inner(cfg[k], order), order, j);
    var y :| y in Nested(cfg[k], [], Inner(cfg[k], order), order) && y.path == [] + [j];
    RuntimeParts(name, cfg, order);
    NestedIncluded(PATH + HeaderKeys(name), cfg, SubKeys(cfg, order), order, k, y);
    DefinedIn(n, RuntimeSections(name, cfg, order), y);
    assert y.path == [j];
  }
}
