/**
 TOML documents as lists of table sections, with the table-definition rules of
 TOML v1.0.0 (sections "Keys", "Table" and "Inline Table").  Text syntax and arrays
 of tables are not modelled; any other value is an opaque scalar.
 */
module Toml {
  import opened Wrappers

  // What a decoder hands to the program: nested maps with scalar leaves.
  datatype Value = Scalar(text: string) | Table(entries: map<string, Value>)

  // A document under construction.  `defined` marks a table that has had its own
  // header; `closed` marks an inline table, which no header may extend.
  datatype Node = Leaf(text: string) | Branch(kids: map<string, Node>, defined: bool, closed: bool)

  // `[path]` followed by its key/value lines.
  datatype Section = Section(path: seq<string>, body: map<string, Value>)

  type File = seq<Section>

  const EMPTY := Branch(map[], false, false)

  function Erase(n: Node): Value {
    match n
    case Leaf(t) => Scalar(t)
    case Branch(kids, _, _) => Table(map k | k in kids :: Erase(kids[k]))
  }

  // A value written inline in a section body.
  function Inline(v: Value): Node {
    match v
    case Scalar(t) => Leaf(t)
    case Table(es) => Branch(map k | k in es :: Inline(es[k]), true, true)
  }

  function InlineAll(body: map<string, Value>): map<string, Node> {
    map k | k in body :: Inline(body[k])
  }

  function Child(n: Node, k: string): Node
    requires n.Branch?
  {
    if k in n.kids then n.kids[k] else EMPTY
  }

  /** Adds a `[path]` section; None when the document becomes invalid. */
  function Define(n: Node, path: seq<string>, body: map<string, Value>): Option<Node>
    decreases |path|
  {
    if n.Leaf? || n.closed then None
    else if path == [] then
      if n.defined || !(body.Keys !! n.kids.Keys) then None
      else Some(Branch(n.kids + InlineAll(body), true, false))
    else
      var r := Define(Child(n, path[0]), path[1..], body);
      if r.None? then None else Some(n.(kids := n.kids[path[0] := r.value]))
  }

  function ParseFrom(n: Node, file: File): Option<Node>
    decreases |file|
  {
    if file == [] then Some(n)
    else
      var r := Define(n, file[0].path, file[0].body);
      if r.None? then None else ParseFrom(r.value, file[1..])
  }

  /** The document a file denotes, if it is valid. */
  function Parse(file: File): Option<Node> { ParseFrom(EMPTY, file) }

  // ----------------------------------------------------------- observations

  function NodeAt(n: Node, path: seq<string>): Option<Node>
    decreases |path|
  {
    if path == [] then Some(n)
    else if n.Branch? && path[0] in n.kids then NodeAt(n.kids[path[0]], path[1..])
    else None
  }

  function ValueAt(v: Value, path: seq<string>): Option<Value>
    decreases |path|
  {
    if path == [] then Some(v)
    else if v.Table? && path[0] in v.entries then ValueAt(v.entries[path[0]], path[1..])
    else None
  }

  /** Headers may still be written at and below this path. */
  predicate Open(n: Node, path: seq<string>)
    decreases |path|
  {
    && n.Branch? && !n.closed
    && (path != [] && path[0] in n.kids ==> Open(n.kids[path[0]], path[1..]))
  }

  /** Nothing is lost or altered, only added. */
  predicate Extends(before: Value, after: Value) {
    match before
    case Scalar(_) => after == before
    case Table(es) => after.Table? && forall k :: k in es ==> k in after.entries && Extends(es[k], after.entries[k])
  }

  // -------------------------------------------------------------------- laws

  lemma {:induction false} ExtendsReflexive(v: Value)
    ensures Extends(v, v)
  {
    if v.Table? {
      forall k | k in v.entries ensures Extends(v.entries[k], v.entries[k]) {
        ExtendsReflexive(v.entries[k]);
      }
    }
  }

  lemma {:induction false} ExtendsTransitive(a: Value, b: Value, c: Value)
    requires Extends(a, b) && Extends(b, c)
    ensures Extends(a, c)
  {
    if a.Table? {
      forall k | k in a.entries ensures k in c.entries && Extends(a.entries[k], c.entries[k]) {
        ExtendsTransitive(a.entries[k], b.entries[k], c.entries[k]);
      }
    }
  }

  lemma {:induction false} EraseInline(v: Value)
    ensures Erase(Inline(v)) == v
  {
    if v.Table? {
      forall k | k in v.entries ensures Erase(Inline(v.entries[k])) == v.entries[k] {
        EraseInline(v.entries[k]);
      }
      assert (map k | k in v.entries :: Erase(Inline(v.entries[k]))) == v.entries;
    }
  }

  /** A table written inline in a section takes no header of its own, nor below it. */
  lemma {:induction false} InlineTakesNoHeader(n: Node, body: map<string, Value>, k: string, rest: seq<string>, more: map<string, Value>)
    requires Define(n, [], body).Some? && k in body && body[k].Table?
    ensures Define(Define(n, [], body).value, [k] + rest, more).None?
  {
    assert ([k] + rest)[1..] == rest;
  }

  lemma {:induction false} EraseKid(n: Node, k: string)
    requires n.Branch?
    ensures k in Erase(n).entries <==> k in n.kids
    ensures k in n.kids ==> Erase(n).entries[k] == Erase(n.kids[k])
  {
  }

  lemma {:induction false} EraseAt(n: Node, path: seq<string>)
    ensures ValueAt(Erase(n), path) == if NodeAt(n, path).Some? then Some(Erase(NodeAt(n, path).value)) else None
    decreases |path|
  {
    if path != [] && n.Branch? && path[0] in n.kids {
      EraseAt(n.kids[path[0]], path[1..]);
    }
  }

  /** A section can be added exactly when its path is open and its table new or only implied. */
  lemma {:induction false} DefineIff(n: Node, path: seq<string>, body: map<string, Value>)
    ensures Define(n, path, body).Some? <==>
            && Open(n, path)
            && (NodeAt(n, path).Some? ==>
                  var t := NodeAt(n, path).value; t.Branch? && !t.defined && body.Keys !! t.kids.Keys)
    decreases |path|
  {
    if path != [] && n.Branch? && !n.closed {
      DefineIff(Child(n, path[0]), path[1..], body);
      if path[0] !in n.kids {
        EmptyNode(path[1..]);
      }
    }
  }

  lemma {:induction false} EmptyNode(path: seq<string>)
    ensures Open(EMPTY, path)
    ensures NodeAt(EMPTY, path) == if path == [] then Some(EMPTY) else None
  {
  }

  /** The added section reads back as the table's earlier entries and its body. */
  lemma {:induction false} DefineReadBack(n: Node, path: seq<string>, body: map<string, Value>)
    requires Define(n, path, body).Some?
    ensures NodeAt(n, path).Some? ==> NodeAt(n, path).value.Branch?
    ensures var kids := if NodeAt(n, path).Some? then NodeAt(n, path).value.kids else map[];
            NodeAt(Define(n, path, body).value, path) == Some(Branch(kids + InlineAll(body), true, false))
    decreases |path|
  {
    if path != [] {
      DefineReadBack(Child(n, path[0]), path[1..], body);
      if path[0] !in n.kids {
        EmptyNode(path[1..]);
      }
    }
  }

  /** Neither path leads through the other. */
  predicate Apart(p: seq<string>, q: seq<string>) { !(p <= q) && !(q <= p) }

  /** A section changes nothing at a path that neither contains nor is contained in its own. */
  lemma {:induction false} DefineElsewhere(n: Node, path: seq<string>, body: map<string, Value>, q: seq<string>)
    requires Define(n, path, body).Some? && Apart(path, q)
    ensures NodeAt(Define(n, path, body).value, q) == NodeAt(n, q)
    ensures Open(Define(n, path, body).value, q) <==> Open(n, q)
    decreases |path|
  {
    assert path != [] && q != [];
    if path[0] == q[0] {
      ApartTails(path, q);
      DefineElsewhere(Child(n, path[0]), path[1..], body, q[1..]);
      if path[0] !in n.kids {
        EmptyNode(q[1..]);
      }
    }
  }

  lemma {:induction false} ApartTails(p: seq<string>, q: seq<string>)
    requires Apart(p, q) && p != [] && q != [] && p[0] == q[0]
    ensures Apart(p[1..], q[1..])
  {
  }

  /** Every prefix of the added path stays open and keeps its other entries. */
  lemma {:induction false} DefineKeepsOpen(n: Node, path: seq<string>, body: map<string, Value>, q: seq<string>)
    requires Define(n, path, body).Some? && q <= path
    ensures Open(Define(n, path, body).value, q)
    decreases |path|
  {
    if q != [] {
      assert q[1..] <= path[1..];
      DefineKeepsOpen(Child(n, path[0]), path[1..], body, q[1..]);
    }
  }

  /** Adding a section is a conservative extension. */
  lemma {:induction false} DefineExtends(n: Node, path: seq<string>, body: map<string, Value>)
    requires Define(n, path, body).Some?
    ensures Extends(Erase(n), Erase(Define(n, path, body).value))
    decreases |path|
  {
    var r := Define(n, path, body).value;
    forall k | k in Erase(n).entries
      ensures k in Erase(r).entries && Extends(Erase(n).entries[k], Erase(r).entries[k])
    {
      EraseKid(n, k);
      EraseKid(r, k);
      ExtendsReflexive(Erase(n.kids[k]));
      if path != [] && k == path[0] {
        DefineExtends(n.kids[k], path[1..], body);
      }
    }
  }

  lemma {:induction false} ParseFromAppend(n: Node, a: File, b: File)
    ensures ParseFrom(n, a + b) == if ParseFrom(n, a).None? then None else ParseFrom(ParseFrom(n, a).value, b)
    decreases |a|
  {
    if a == [] {
      assert a + b == b;
    } else {
      assert (a + b)[1..] == a[1..] + b;
      var r := Define(n, a[0].path, a[0].body);
      if r.Some? {
        ParseFromAppend(r.value, a[1..], b);
      }
    }
  }

  /** Reading on from a document only extends it. */
  lemma {:induction false} ParseFromExtends(n: Node, file: File)
    requires ParseFrom(n, file).Some?
    ensures Extends(Erase(n), Erase(ParseFrom(n, file).value))
    decreases |file|
  {
    if file == [] {
      ExtendsReflexive(Erase(n));
    } else {
      var r := Define(n, file[0].path, file[0].body).value;
      DefineExtends(n, file[0].path, file[0].body);
      ParseFromExtends(r, file[1..]);
      ExtendsTransitive(Erase(n), Erase(r), Erase(ParseFrom(n, file).value));
    }
  }

  /** Below an open table a section acts as if that table were the document. */
  lemma {:induction false} DefineBelow(n: Node, q: seq<string>, p: seq<string>, body: map<string, Value>)
    requires Open(n, q) && NodeAt(n, q).Some?
    ensures Define(n, q + p, body).Some? <==> Define(NodeAt(n, q).value, p, body).Some?
    ensures Define(n, q + p, body).Some? ==> NodeAt(Define(n, q + p, body).value, q) == Define(NodeAt(n, q).value, p, body)
    decreases |q|
  {
    if q == [] {
      assert q + p == p;
    } else {
      assert (q + p)[1..] == q[1..] + p && (q + p)[0] == q[0];
      DefineBelow(n.kids[q[0]], q[1..], p, body);
    }
  }

  lemma {:induction false} OpenBelow(n: Node, q: seq<string>, x: string)
    requires NodeAt(n, q + [x]).None?
    ensures Open(n, q + [x]) <==> Open(n, q)
    decreases |q|
  {
    if q == [] {
      assert q + [x] == [x];
    } else if n.Branch? && q[0] in n.kids {
      assert (q + [x])[1..] == q[1..] + [x] && (q + [x])[0] == q[0];
      OpenBelow(n.kids[q[0]], q[1..], x);
    } else {
      assert (q + [x])[0] == q[0];
    }
  }

  predicate IsDefinedAt(n: Node, p: seq<string>) {
    NodeAt(n, p).Some? && NodeAt(n, p).value.Branch? && NodeAt(n, p).value.defined
  }

  /** A table that has had its header keeps it. */
  lemma {:induction false} DefinedStays(n: Node, path: seq<string>, body: map<string, Value>, p: seq<string>)
    requires Define(n, path, body).Some? && IsDefinedAt(n, p)
    ensures IsDefinedAt(Define(n, path, body).value, p)
    decreases |p|
  {
    if p != [] && path != [] && p[0] == path[0] {
      DefinedStays(n.kids[p[0]], path[1..], body, p[1..]);
    }
  }

  lemma {:induction false} DefinedStaysParsed(n: Node, file: File, p: seq<string>)
    requires ParseFrom(n, file).Some? && IsDefinedAt(n, p)
    ensures IsDefinedAt(ParseFrom(n, file).value, p)
    decreases |file|
  {
    if file != [] {
      DefinedStays(n, file[0].path, file[0].body, p);
      DefinedStaysParsed(Define(n, file[0].path, file[0].body).value, file[1..], p);
    }
  }

  /** Every section of a valid file has its table. */
  lemma {:induction false} SectionsAreDefined(n: Node, file: File, i: nat)
    requires ParseFrom(n, file).Some? && i < |file|
    ensures IsDefinedAt(ParseFrom(n, file).value, file[i].path)
    decreases |file|
  {
    var r := Define(n, file[0].path, file[0].body).value;
    if i == 0 {
      DefineReadBack(n, file[0].path, file[0].body);
      DefinedStaysParsed(r, file[1..], file[0].path);
    } else {
      SectionsAreDefined(r, file[1..], i - 1);
    }
  }

  /** A file that defines an already defined table again is invalid. */
  lemma {:induction false} Redefined(n: Node, file: File, i: nat)
    requires i < |file| && IsDefinedAt(n, file[i].path)
    ensures ParseFrom(n, file).None?
    decreases |file|
  {
    var r := Define(n, file[0].path, file[0].body);
    if i == 0 {
      DefineIff(n, file[0].path, file[0].body);
    } else if r.Some? {
      DefinedStays(n, file[0].path, file[0].body, file[i].path);
      Redefined(r.value, file[1..], i - 1);
    }
  }

  lemma {:induction false} ExtendsAt(a: Value, b: Value, path: seq<string>)
    requires Extends(a, b) && ValueAt(a, path).Some?
    ensures ValueAt(b, path).Some? && Extends(ValueAt(a, path).value, ValueAt(b, path).value)
    decreases |path|
  {
    if path != [] {
      ExtendsAt(a.entries[path[0]], b.entries[path[0]], path[1..]);
    }
  }
}
