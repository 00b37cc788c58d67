/**
 The two-layer template pipeline.  The webhook renders an annotation template
 against admission-time data in which PodUID and PodNamespace stand for their own
 action text; the snapshotter re-parses the resulting annotation value and renders
 it against the pod's identity at mount time.
 */
module Staging {
  import opened Wrappers
  import opened Templates

  // The admission-time values the webhook substitutes.
  datatype WebhookValues = WebhookValues(
    ownerName: string,
    podName: string,
    pvName: string,
    volumeHandle: string,
    podIndex: string)
  {
    function Fields(): map<string, string> {
      map[
        "OwnerName" := ownerName,
        "PodName" := podName,
        "PVName" := pvName,
        "VolumeHandle" := volumeHandle,
        "PodIndex" := podIndex
      ]
    }
  }

  const POD_UID := "PodUID"
  const POD_NAMESPACE := "PodNamespace"

  /** Fields the webhook leaves for the snapshotter to resolve. */
  predicate PassThrough(name: string) { name == POD_UID || name == POD_NAMESPACE }

  function ActionText(name: string): string { "{{." + name + "}}" }

  /** The struct handed to every webhook template: pass-through fields hold their own action text. */
  function WebhookData(base: map<string, string>): Data {
    Struct(map k | k in base.Keys + {POD_UID, POD_NAMESPACE} :: if PassThrough(k) then ActionText(k) else base[k])
  }

  /** One environment holding what both layers know. */
  function MergedData(base: map<string, string>, resolved: map<string, string>): Data {
    Struct(map k | k in base.Keys + {POD_UID, POD_NAMESPACE} ::
      if PassThrough(k) then Lookup(Dict(resolved), k).value else base[k])
  }

  /** A value that can neither open an action nor complete one with what follows it. */
  predicate Inert(v: string) {
    OpenAt(v) == |v| && (v == "" || v[|v| - 1] != '{')
  }

  /** Every substituted value is inert. */
  ghost predicate AllInert(base: map<string, string>) {
    forall f :: f in base && !PassThrough(f) ==> Inert(base[f])
  }

  /** Layer 2 then layer 3. */
  function Staged(src: string, base: map<string, string>, resolved: map<string, string>): Result<string, TemplateError> {
    match Render(src, WebhookData(base))
    case Err(e) => Err(e)
    case Ok(annotation) => Render(annotation, Dict(resolved))
  }

  ghost predicate StagingAgrees(src: string, base: map<string, string>, resolved: map<string, string>) {
    Staged(src, base, resolved) == Render(src, MergedData(base, resolved))
  }

  // ------------------------------------------------------- rendering algebra

  function Prepend(v: string, r: Result<string, TemplateError>): Result<string, TemplateError> {
    match r
    case Ok(s) => Ok(v + s)
    case Err(e) => Err(e)
  }

  lemma {:induction false} PrependPrepend(a: string, b: string, r: Result<string, TemplateError>)
    ensures Prepend(a, Prepend(b, r)) == Prepend(a + b, r)
    ensures Prepend("", r) == r
  {
    if r.Ok? {
      assert a + (b + r.value) == a + b + r.value;
      assert "" + r.value == r.value;
    }
  }

  lemma {:induction false} ExecTextPart(v: string, t: Template, d: Data)
    ensures Exec(TextPart(v) + t, d) == Prepend(v, Exec(t, d))
  {
    PrependPrepend(v, v, Exec(t, d));
    if v == "" {
      assert TextPart(v) + t == t;
    } else {
      assert (TextPart(v) + t)[1..] == t;
    }
  }

  lemma {:induction false} ExecField(name: string, t: Template, d: Data)
    ensures Exec([Field(name)] + t, d)
         == if Lookup(d, name).Err? then Lookup(d, name) else Prepend(Lookup(d, name).value, Exec(t, d))
  {
    assert ([Field(name)] + t)[1..] == t;
  }

  lemma {:induction false} RenderPlainText(s: string, d: Data)
    requires OpenAt(s) == |s|
    ensures Render(s, d) == Ok(s)
  {
    ExecTextPart(s, [], d);
    assert TextPart(s) + [] == TextPart(s);
    assert s + "" == s;
  }

  // Text before the first `{{` is copied; the action that follows is looked up.
  function RenderFrom(text: string, action: Option<(string, string)>, d: Data): Result<string, TemplateError> {
    if action.None? then Err(Malformed) else RenderAfter(text, action.value.0, Parse(action.value.1), d)
  }

  function RenderAfter(text: string, name: string, rest: Result<Template, TemplateError>, d: Data)
    : Result<string, TemplateError>
  {
    if rest.Err? then Err(rest.error)
    else if Lookup(d, name).Err? then Lookup(d, name)
    else Prepend(text + Lookup(d, name).value, Exec(rest.value, d))
  }

  lemma {:induction false} ExecAfter(text: string, name: string, t: Template, d: Data)
    ensures Exec(TextPart(text) + [Field(name)] + t, d) == RenderAfter(text, name, Ok(t), d)
  {
    ExecTextPart(text, [Field(name)] + t, d);
    ExecField(name, t, d);
    assert TextPart(text) + [Field(name)] + t == TextPart(text) + ([Field(name)] + t);
    if Lookup(d, name).Ok? {
      PrependPrepend(text, Lookup(d, name).value, Exec(t, d));
    }
  }

  lemma {:induction false} RenderStep(s: string, d: Data)
    requires OpenAt(s) < |s|
    ensures Render(s, d) == RenderFrom(s[..OpenAt(s)], ScanAction(s[OpenAt(s) + 2..]), d)
  {
    var i := OpenAt(s);
    var action := ScanAction(s[i + 2..]);
    if action.Some? {
      var rest := Parse(action.value.1);
      if rest.Ok? {
        assert Parse(s) == Ok(TextPart(s[..i]) + [Field(action.value.0)] + rest.value);
        ExecAfter(s[..i], action.value.0, rest.value, d);
      }
    }
  }

  lemma {:induction false} RenderFromPrepend(a: string, text: string, action: Option<(string, string)>, d: Data)
    ensures RenderFrom(a + text, action, d) == Prepend(a, RenderFrom(text, action, d))
  {
    if action.Some? {
      var rest := Parse(action.value.1);
      if rest.Ok? && Lookup(d, action.value.0).Ok? {
        var v := Lookup(d, action.value.0).value;
        PrependPrepend(a, text + v, Exec(rest.value, d));
        assert a + (text + v) == (a + text) + v;
      }
    }
  }

  // The scan is determined by what it finds.
  lemma {:induction false} OpenAtUnique(s: string, i: nat)
    requires i == |s| || OpensAt(s, i)
    requires forall j: nat :: j < i ==> !OpensAt(s, j)
    ensures OpenAt(s) == i
  {
    assert OpenAt(s) < i ==> !OpensAt(s, OpenAt(s));
  }

  lemma {:induction false} OpenAtInert(a: string, s: string)
    requires Inert(a)
    ensures OpenAt(a + s) == |a| + OpenAt(s)
  {
    forall k: nat | k < |a| + OpenAt(s) ensures !OpensAt(a + s, k) {
      if k + 1 < |a| {
        assert !OpensAt(a, k);
      } else if |a| <= k {
        assert !OpensAt(s, k - |a|);
      }
    }
    if OpenAt(s) < |s| {
      assert OpensAt(a + s, |a| + OpenAt(s));
    }
    OpenAtUnique(a + s, |a| + OpenAt(s));
  }

  lemma {:induction false} SliceAppended(a: string, s: string, i: nat)
    requires i + 2 <= |s|
    ensures (a + s)[..|a| + i] == a + s[..i]
    ensures (a + s)[|a| + i + 2..] == s[i + 2..]
  {
  }

  /** An inert prefix passes through rendering untouched. */
  lemma {:induction false} RenderInertPrefix(a: string, s: string, d: Data)
    requires Inert(a)
    ensures Render(a + s, d) == Prepend(a, Render(s, d))
  {
    OpenAtInert(a, s);
    if OpenAt(s) == |s| {
      RenderPlainText(s, d);
      RenderPlainText(a + s, d);
    } else {
      RenderInertPrefixStep(a, s, OpenAt(s), a + s, d);
    }
  }

  lemma {:induction false} RenderInertPrefixStep(a: string, s: string, i: nat, whole: string, d: Data)
    requires i < |s| && OpenAt(s) == i && whole == a + s && OpenAt(whole) == |a| + i
    ensures Render(whole, d) == Prepend(a, Render(s, d))
  {
    SliceAppended(a, s, i);
    RenderStepAt(s, i, s[..i], s[i + 2..], d);
    RenderStepAt(whole, |a| + i, a + s[..i], s[i + 2..], d);
    RenderFromPrepend(a, s[..i], ScanAction(s[i + 2..]), d);
  }

  lemma {:induction false} RenderStepAt(s: string, i: nat, text: string, after: string, d: Data)
    requires i == OpenAt(s) < |s| && s[..i] == text && s[i + 2..] == after
    ensures Render(s, d) == RenderFrom(text, ScanAction(after), d)
  {
    RenderStep(s, d);
  }

  lemma {:induction false} NameLengthExact(f: string, s: string)
    requires forall i :: 0 <= i < |f| ==> IsNameChar(f[i])
    requires s == "" || !IsNameChar(s[0])
    ensures NameLength(f + s) == |f|
  {
    if f == "" {
      assert f + s == s;
    } else {
      assert (f + s)[1..] == f[1..] + s;
      NameLengthExact(f[1..], s);
    }
  }

  lemma {:induction false} ScanNameAndClose(f: string, s: string)
    requires IsFieldName(f)
    ensures ScanAction("." + (f + ("}}" + s))) == Some((f, s))
  {
    var close := "}}" + s;
    var name := f + close;
    var a := "." + name;
    assert a[1..] == name;
    NameLengthExact(f, close);
    assert name[|f|..] == close && name[..|f|] == f;
    assert a[1 + |f|..] == name[|f|..] && a[1..1 + |f|] == name[..|f|];
    assert DropSpaces(a) == a && DropSpaces(close) == close;
    assert close[2..] == s;
  }

  /** Scanning the action text that the webhook writes finds exactly its field. */
  lemma {:induction false} ScanActionText(f: string, s: string)
    requires IsFieldName(f)
    ensures var whole := ActionText(f) + s;
            OpenAt(whole) == 0 && ScanAction(whole[2..]) == Some((f, s))
  {
    var whole := ActionText(f) + s;
    assert whole[0] == '{' && whole[1] == '{';
    OpenAtUnique(whole, 0);
    assert whole[2..] == "." + (f + ("}}" + s));
    ScanNameAndClose(f, s);
  }

  /** A field action followed by s, rendered against data that has the field. */
  lemma {:induction false} RenderActionText(f: string, s: string, d: Data)
    requires IsFieldName(f) && Lookup(d, f).Ok?
    ensures Render(ActionText(f) + s, d) == Prepend(Lookup(d, f).value, Render(s, d))
  {
    var whole := ActionText(f) + s;
    ScanActionText(f, s);
    RenderStep(whole, d);
    assert whole[..0] + Lookup(d, f).value == Lookup(d, f).value;
  }

  lemma {:induction false} MissingInStruct(f: string, known: map<string, string>)
    requires IsFieldName(f) && f !in known
    ensures Render(ActionText(f), Struct(known)) == Err(NoSuchField(f))
  {
    assert ActionText(f) + "" == ActionText(f);
    ScanActionText(f, "");
    RenderStep(ActionText(f), Struct(known));
  }

  lemma {:induction false} MissingInMap(f: string, known: map<string, string>)
    requires IsFieldName(f) && f !in known
    ensures Render(ActionText(f), Dict(known)) == Ok(NO_VALUE)
  {
    assert ActionText(f) + "" == ActionText(f);
    RenderActionText(f, "", Dict(known));
    RenderPlainText("", Dict(known));
    assert NO_VALUE + "" == NO_VALUE;
  }

  /** A field that is not there: an error for the webhook's struct, a fixed text for the resolver's map. */
  lemma {:induction false} MissingField(f: string, known: map<string, string>)
    requires IsFieldName(f) && f !in known
    ensures Render("{{." + f + "}}", Struct(known)) == Err(NoSuchField(f))
    ensures Render("{{." + f + "}}", Dict(known)) == Ok("<no value>")
  {
    MissingInStruct(f, known);
    MissingInMap(f, known);
  }

  predicate IsBlank(c: char) { c == ' ' || c == '\t' || c == '\r' || c == '\n' }

  predicate Blank(s: string) { forall i :: 0 <= i < |s| ==> IsBlank(s[i]) }

  lemma {:induction false} SpacesDropped(blanks: string, s: string)
    requires Blank(blanks) && s != "" && !IsBlank(s[0])
    ensures DropSpaces(blanks + s) == s
  {
    if blanks == "" {
      assert blanks + s == s;
    } else {
      assert (blanks + s)[1..] == blanks[1..] + s;
      SpacesDropped(blanks[1..], s);
    }
  }

  lemma {:induction false} ScanSpaced(before: string, f: string, after: string, s: string)
    requires IsFieldName(f)
    requires Blank(before) && Blank(after)
    ensures ScanAction(before + ("." + (f + (after + ("}}" + s))))) == Some((f, s))
  {
    var close := "}}" + s;
    var tail := after + close;
    var name := f + tail;
    var a := "." + name;
    SpacesDropped(before, a);
    SpacesDropped(after, close);
    assert a[1..] == name;
    assert tail != "" && !IsNameChar(tail[0]) by { if after == "" { assert tail == close; } else { assert tail[0] == after[0]; } }
    NameLengthExact(f, tail);
    assert name[|f|..] == tail && name[..|f|] == f;
    assert a[1 + |f|..] == name[|f|..] && a[1..1 + |f|] == name[..|f|];
    assert close[2..] == s;
  }

  const LETTERS := "abcdefghijklmnopqrstuvwxyz"
  const CAPITALS := "ABCDEFGHIJKLMNOPQRSTUVWXYZ"
  const DIGITS := "0123456789"

  // A run of consecutive characters holds exactly those between its ends.
  lemma {:induction false} Consecutive(s: string, lo: char, hi: char, c: char)
    requires lo <= hi && |s| == hi as int - lo as int + 1 && forall i :: 0 <= i < |s| ==> s[i] as int == lo as int + i
    ensures c in s <==> lo <= c <= hi
  {
    if lo <= c <= hi { assert s[c as int - lo as int] == c; }
  }

  lemma Alphabets()
    ensures |LETTERS| == 26 && forall i :: 0 <= i < 26 ==> LETTERS[i] as int == 'a' as int + i
    ensures |CAPITALS| == 26 && forall i :: 0 <= i < 26 ==> CAPITALS[i] as int == 'A' as int + i
  {
  }

  lemma Digits()
    ensures |DIGITS| == 10 && forall i :: 0 <= i < 10 ==> DIGITS[i] as int == '0' as int + i
  {
  }

  lemma {:induction false} NameChars(c: char)
    ensures IsNameChar(c) <==> c in LETTERS || c in CAPITALS || c in DIGITS || c == '_'
    ensures IsDigit(c) <==> c in DIGITS
  {
    Alphabets();
    Digits();
    Consecutive(LETTERS, 'a', 'z', c);
    Consecutive(CAPITALS, 'A', 'Z', c);
    Consecutive(DIGITS, '0', '9', c);
  }

  /** Field names are letters, digits and underscores, not starting with a digit. */
  lemma {:induction false} FieldNamesExactly(f: string)
    ensures IsFieldName(f) <==>
            && f != "" && f[0] !in DIGITS
            && forall i :: 0 <= i < |f| ==> f[i] in LETTERS || f[i] in CAPITALS || f[i] in DIGITS || f[i] == '_'
  {
    if f != "" { NameChars(f[0]); }
    forall i | 0 <= i < |f|
      ensures IsNameChar(f[i]) <==> f[i] in LETTERS || f[i] in CAPITALS || f[i] in DIGITS || f[i] == '_'
    {
      NameChars(f[i]);
    }
  }

  // Dropping blanks cuts off a prefix of them.
  lemma {:induction false} DropsPrefix(s: string)
    ensures var k := |s| - |DropSpaces(s)|; k >= 0 && s[k..] == DropSpaces(s) && forall i :: 0 <= i < k ==> IsBlank(s[i])
    decreases |s|
  {
    if s != "" && IsSpace(s[0]) {
      var rest := s[1..];
      DropsPrefix(rest);
      var k := |s| - |DropSpaces(s)|;
      assert s[k..] == rest[k - 1..];
      forall i | 0 <= i < k ensures IsBlank(s[i]) {
        if i > 0 { assert s[i] == rest[i - 1]; }
      }
    }
  }

  lemma {:induction false} LeadingBlanks(s: string) returns (blanks: string)
    ensures Blank(blanks) && s == blanks + DropSpaces(s)
  {
    DropsPrefix(s);
    var k := |s| - |DropSpaces(s)|;
    blanks := s[..k];
    assert s == s[..k] + s[k..];
  }

  /** The text of an action with field f, from after its opening braces. */
  ghost predicate IsAction(s: string, f: string, rest: string) {
    IsFieldName(f) && exists before, after :: Blank(before) && Blank(after) && s == before + ("." + (f + (after + ("}}" + rest))))
  }

  // What the scan has seen when it succeeds: a dot, the name, blanks and the closing braces.
  lemma {:induction false} ScanParts(s: string, f: string, rest: string)
    requires ScanAction(s) == Some((f, rest))
    ensures var a := DropSpaces(s);
            && a != "" && a[0] == '.' && 0 < |f| < |a| && a[1..1 + |f|] == f
            && var c := DropSpaces(a[1 + |f|..]); "}}" <= c && c[2..] == rest
  {
  }

  lemma {:induction false} DotName(a: string, f: string)
    requires a != "" && a[0] == '.' && |f| < |a| && a[1..1 + |f|] == f
    ensures a == "." + f + a[1 + |f|..]
  {
    CutAt(a, 1 + |f|);
  }

  lemma {:induction false} ScannedIsAction(s: string, f: string, rest: string)
    requires ScanAction(s) == Some((f, rest))
    ensures IsAction(s, f, rest)
  {
    ScanParts(s, f, rest);
    var a := DropSpaces(s);
    var tail := a[1 + |f|..];
    var before := LeadingBlanks(s);
    var after := LeadingBlanks(tail);
    DotName(a, f);
    CutAt(DropSpaces(tail), 2);
    ActionParts(s, before, a, f, tail, after, rest);
  }

  lemma {:induction false} CutAt(s: string, n: nat)
    requires n <= |s|
    ensures s == s[..n] + s[n..]
    ensures 0 < n ==> s[..n] == [s[0]] + s[1..n]
  {
  }

  lemma {:induction false} ActionParts(s: string, before: string, a: string, f: string, tail: string, after: string, rest: string)
    requires IsFieldName(f) && Blank(before) && Blank(after)
    requires s == before + a && a == "." + f + tail && tail == after + ("}}" + rest)
    ensures IsAction(s, f, rest)
  {
    assert a == "." + (f + tail);
  }

  /** The scan finds exactly the actions that are one field; everything else between braces is malformed. */
  lemma {:induction false} ScanExactly(s: string, f: string, rest: string)
    ensures ScanAction(s) == Some((f, rest)) <==> IsAction(s, f, rest)
  {
    if ScanAction(s) == Some((f, rest)) { ScannedIsAction(s, f, rest); }
    if IsAction(s, f, rest) {
      var before, after :| Blank(before) && Blank(after) && s == before + ("." + (f + (after + ("}}" + rest))));
      ScanSpaced(before, f, after, rest);
    }
  }

  ghost predicate IsNoAction(s: string) { forall f, rest :: !IsAction(s, f, rest) }

  lemma {:induction false} MalformedFails(s: string, d: Data)
    requires OpenAt(s) < |s| && IsNoAction(s[OpenAt(s) + 2..])
    ensures Render(s, d) == Err(Malformed)
  {
    var action := ScanAction(s[OpenAt(s) + 2..]);
    if action.Some? { ScanExactly(s[OpenAt(s) + 2..], action.value.0, action.value.1); }
  }

  /** Blanks inside the braces of a field action do not matter. */
  lemma {:induction false} RenderSpacedAction(before: string, f: string, after: string, s: string, d: Data)
    requires IsFieldName(f) && Lookup(d, f).Ok?
    requires Blank(before) && Blank(after)
    ensures Render("{{" + (before + ("." + (f + (after + ("}}" + s))))), d) == Prepend(Lookup(d, f).value, Render(s, d))
  {
    var rest := before + ("." + (f + (after + ("}}" + s))));
    var whole := "{{" + rest;
    assert whole[0] == '{' && whole[1] == '{' && whole[2..] == rest;
    OpenAtUnique(whole, 0);
    ScanSpaced(before, f, after, s);
    RenderStep(whole, d);
    assert whole[..0] + Lookup(d, f).value == Lookup(d, f).value;
  }

  // ------------------------------------------------------------ main results

  lemma {:induction false} TextBeforeActionIsInert(s: string)
    requires OpenAt(s) < |s|
    ensures Inert(s[..OpenAt(s)])
  {
    var i := OpenAt(s);
    var a := s[..i];
    forall k: nat | k < |a| ensures !OpensAt(a, k) {
      assert !OpensAt(s, k);
    }
    OpenAtUnique(a, |a|);
    assert i > 0 ==> !OpensAt(s, i - 1);
  }

  /** Rendering in two stages gives what one render with the merged environment gives. */
  lemma {:induction false} StagedEqualsMerged(src: string, base: map<string, string>, resolved: map<string, string>)
    requires AllInert(base)
    ensures Staged(src, base, resolved) == Render(src, MergedData(base, resolved))
    decreases |src|
  {
    var d1, d2, dm := WebhookData(base), Dict(resolved), MergedData(base, resolved);
    var i := OpenAt(src);
    if i == |src| {
      RenderPlainText(src, d1);
      RenderPlainText(src, d2);
      RenderPlainText(src, dm);
    } else {
      RenderStep(src, d1);
      RenderStep(src, dm);
      var action := ScanAction(src[i + 2..]);
      if action.Some? && Parse(action.value.1).Ok? && action.value.0 in d1.fields {
        var name, rest := action.value.0, action.value.1;
        StagedEqualsMerged(rest, base, resolved);
        if Render(rest, d1).Ok? {
          TextBeforeActionIsInert(src);
          StagedField(src[..i], name, Render(rest, d1).value, base, resolved);
        }
      }
    }
  }

  // One text-and-field pair of the annotation value, re-rendered.
  lemma {:induction false} StagedField(text: string, name: string, tail: string, base: map<string, string>, resolved: map<string, string>)
    requires AllInert(base) && Inert(text) && name in WebhookData(base).fields
    ensures Render(text + WebhookData(base).fields[name] + tail, Dict(resolved))
         == Prepend(text + MergedData(base, resolved).fields[name], Render(tail, Dict(resolved)))
  {
    var v, m := WebhookData(base).fields[name], MergedData(base, resolved).fields[name];
    RenderSubstituted(name, v, m, tail, resolved);
    RenderAfterText(text, v, m, tail, Dict(resolved));
  }

  lemma {:induction false} RenderAfterText(text: string, v: string, m: string, tail: string, d: Data)
    requires Inert(text) && Render(v + tail, d) == Prepend(m, Render(tail, d))
    ensures Render(text + v + tail, d) == Prepend(text + m, Render(tail, d))
  {
    RenderInertPrefix(text, v + tail, d);
    assert text + v + tail == text + (v + tail);
    PrependPrepend(text, m, Render(tail, d));
  }

  lemma {:induction false} RenderSubstituted(name: string, v: string, m: string, tail: string, resolved: map<string, string>)
    requires if PassThrough(name) then v == ActionText(name) && m == Lookup(Dict(resolved), name).value else v == m && Inert(v)
    ensures Render(v + tail, Dict(resolved)) == Prepend(m, Render(tail, Dict(resolved)))
  {
    if PassThrough(name) {
      RenderActionText(name, tail, Dict(resolved));
    } else {
      RenderInertPrefix(v, tail, Dict(resolved));
    }
  }

  /** The condition on substituted values is exact: a value that is not inert breaks some template. */
  lemma {:induction false} StagingSafeIffInert(base: map<string, string>)
    requires forall f :: f in base ==> IsFieldName(f)
    ensures (forall src, resolved :: StagingAgrees(src, base, resolved)) <==> AllInert(base)
  {
    if AllInert(base) {
      forall src, resolved ensures StagingAgrees(src, base, resolved) {
        StagedEqualsMerged(src, base, resolved);
      }
    } else {
      var f :| f in base && !PassThrough(f) && !Inert(base[f]);
      var src, resolved := NonInertBreaksStaging(base, f);
    }
  }

  lemma {:induction false} NonInertBreaksStaging(base: map<string, string>, f: string)
    returns (src: string, resolved: map<string, string>)
    requires f in base && IsFieldName(f) && !PassThrough(f) && !Inert(base[f])
    ensures !StagingAgrees(src, base, resolved)
  {
    if OpenAt(base[f]) < |base[f]| {
      OpeningValueBreaksStaging(base, f);
      src, resolved := ActionText(f), map[];
    } else {
      TrailingBraceBreaksStaging(base, f);
      src, resolved := ActionText(f) + Unbraced(POD_UID), map[POD_UID := "x"];
    }
  }

  // The template `{{.f}}` differs when the value opens an action of its own.
  lemma {:induction false} OpeningValueBreaksStaging(base: map<string, string>, f: string)
    requires f in base && IsFieldName(f) && !PassThrough(f)
    requires OpenAt(base[f]) < |base[f]|
    ensures !StagingAgrees(ActionText(f), base, map[])
  {
    var v := base[f];
    RenderFieldThenText(f, "", WebhookData(base));
    RenderFieldThenText(f, "", MergedData(base, map[]));
    assert ActionText(f) + "" == ActionText(f) && v + "" == v;
    OpeningRenders(v);
  }

  // Text, the fixed text for a missing key, and more: not a text with a brace there.
  lemma {:induction false} NotABrace(v: string, i: nat, x: string)
    requires i < |v| && v[i] == '{'
    ensures v[..i] + NO_VALUE + x != v
  {
    assert (v[..i] + NO_VALUE + x)[i] == NO_VALUE[0];
  }

  lemma {:induction false} OpeningRenders(v: string)
    requires OpenAt(v) < |v|
    ensures Render(v, Dict(map[])) != Ok(v)
  {
    var i := OpenAt(v);
    var action := ScanAction(v[i + 2..]);
    RenderStep(v, Dict(map[]));
    if action.Some? && Parse(action.value.1).Ok? {
      var rest := Exec(Parse(action.value.1).value, Dict(map[]));
      if rest.Ok? { NotABrace(v, i, rest.value); }
    }
  }

  lemma {:induction false} PodUidIsName()
    ensures IsFieldName(POD_UID)
  {
  }

  // A final brace joins the text after the action.
  lemma {:induction false} TrailingBraceBreaksStaging(base: map<string, string>, f: string)
    requires f in base && IsFieldName(f) && !PassThrough(f)
    requires OpenAt(base[f]) == |base[f]| && !Inert(base[f])
    ensures !StagingAgrees(ActionText(f) + Unbraced(POD_UID), base, map[POD_UID := "x"])
  {
    var v, tail, resolved := base[f], Unbraced(POD_UID), map[POD_UID := "x"];
    PodUidIsName();
    BraceTail(POD_UID);
    RenderFieldThenText(f, tail, WebhookData(base));
    RenderFieldThenText(f, tail, MergedData(base, resolved));
    TrailingBraceRendered(v, POD_UID, tail, Dict(resolved));
  }

  // The action text of a field without its first brace.
  function Unbraced(f: string): string { "{." + f + "}}" }

  lemma {:induction false} BraceTail(f: string)
    requires IsFieldName(f)
    ensures ActionText(f) == "{" + Unbraced(f) && OpenAt(Unbraced(f)) == |Unbraced(f)|
  {
    var tail := Unbraced(f);
    forall k | 0 < k < |tail| ensures tail[k] != '{' {
      if 2 <= k < 2 + |f| {
        assert tail[k] == f[k - 2] && IsNameChar(f[k - 2]);
      }
    }
    NoSecondBrace(tail);
  }

  lemma {:induction false} NoSecondBrace(s: string)
    requires forall k :: 0 < k < |s| ==> s[k] != '{'
    ensures OpenAt(s) == |s|
  {
    OpenAtUnique(s, |s|);
  }

  lemma {:induction false} TrailingBraceRendered(v: string, name: string, tail: string, d: Data)
    requires OpenAt(v) == |v| && !Inert(v)
    requires IsFieldName(name) && ActionText(name) == "{" + tail && Lookup(d, name) == Ok("x")
    ensures Render(v + tail, d) != Ok(v + tail)
  {
    var a := v[..|v| - 1];
    DropFinalBrace(v);
    RenderInertPrefix(a, ActionText(name), d);
    RenderFieldThenText(name, "", d);
    assert ActionText(name) + "" == ActionText(name);
    assert "x" + "" == "x";
    JoinBrace(v, tail, "x");
  }

  lemma {:induction false} JoinBrace(v: string, tail: string, x: string)
    requires v != "" && v[|v| - 1] == '{' && x != "" && x[0] != '{'
    ensures v + tail == v[..|v| - 1] + ("{" + tail)
    ensures v[..|v| - 1] + x != v + tail
  {
    assert (v[..|v| - 1] + x)[|v| - 1] == x[0];
    assert (v + tail)[|v| - 1] == '{';
  }

  lemma {:induction false} DropFinalBrace(v: string)
    requires OpenAt(v) == |v| && !Inert(v)
    ensures Inert(v[..|v| - 1])
  {
    var a := v[..|v| - 1];
    forall k: nat | k < |a| ensures !OpensAt(a, k) {
      assert !OpensAt(v, k);
    }
    OpenAtUnique(a, |a|);
    assert a != "" ==> !OpensAt(v, |a| - 1);
  }

  lemma {:induction false} RenderFieldThenText(f: string, tail: string, d: Data)
    requires IsFieldName(f) && Lookup(d, f).Ok? && OpenAt(tail) == |tail|
    ensures Render(ActionText(f) + tail, d) == Ok(Lookup(d, f).value + tail)
  {
    RenderActionText(f, tail, d);
    RenderPlainText(tail, d);
  }
}
