/**
 The subset of Go's text/template language that pv-snapshotter's defaults use:
 literal text and field actions such as `{{.PodUID}}`, with optional blanks
 inside the braces.  Anything else between `{{` and `}}` (pipelines, trim
 markers, comments, conditionals) is `Malformed` here.
 */
module Templates {
  import opened Wrappers

  datatype Part = Text(text: string) | Field(name: string)
  type Template = seq<Part>

  datatype TemplateError = Malformed | NoSuchField(name: string)

  // What a template is executed against.  A field missing from a struct is an
  // execution error; a key missing from a map prints a fixed marker.
  datatype Data = Struct(fields: map<string, string>) | Dict(entries: map<string, string>)

  const NO_VALUE := "<no value>"

  predicate IsSpace(c: char) { c == ' ' || c == '\t' || c == '\r' || c == '\n' }
  predicate IsDigit(c: char) { '0' <= c <= '9' }
  predicate IsNameChar(c: char) { 'a' <= c <= 'z' || 'A' <= c <= 'Z' || IsDigit(c) || c == '_' }

  predicate IsFieldName(s: string) {
    |s| > 0 && !IsDigit(s[0]) && forall i :: 0 <= i < |s| ==> IsNameChar(s[i])
  }

  // ---------------------------------------------------------------- lexing

  predicate OpensAt(s: string, i: nat) { i + 1 < |s| && s[i] == '{' && s[i + 1] == '{' }

  /** The delimiter scan: position of the leftmost `{{`, or |s| when there is none. */
  function OpenAt(s: string): (i: nat)
    ensures i == |s| || OpensAt(s, i)
    ensures forall j: nat :: j < i ==> !OpensAt(s, j)
  {
    if |s| < 2 then |s|
    else if s[0] == '{' && s[1] == '{' then 0
    else
      var i := 1 + OpenAt(s[1..]);
      assert forall j: nat :: 0 < j ==> (OpensAt(s, j) <==> OpensAt(s[1..], j - 1));
      i
  }

  function DropSpaces(s: string): (r: string)
    ensures |r| <= |s|
  {
    if s != "" && IsSpace(s[0]) then DropSpaces(s[1..]) else s
  }

  function NameLength(s: string): (n: nat)
    ensures n <= |s|
    ensures forall i :: 0 <= i < n ==> IsNameChar(s[i])
    ensures n < |s| ==> !IsNameChar(s[n])
  {
    if s != "" && IsNameChar(s[0]) then 1 + NameLength(s[1..]) else 0
  }

  /** Reads `.Name }}` from the text that follows a `{{`: the name and what comes after. */
  function ScanAction(s: string): (r: Option<(string, string)>)
    ensures r.Some? ==> IsFieldName(r.value.0) && |r.value.1| < |s|
  {
    var a := DropSpaces(s);
    if a == "" || a[0] != '.' then None
    else
      var n := NameLength(a[1..]);
      if n == 0 || IsDigit(a[1]) then None
      else
        var c := DropSpaces(a[1 + n..]);
        if "}}" <= c then Some((a[1..1 + n], c[2..])) else None
  }

  function TextPart(s: string): Template { if s == "" then [] else [Text(s)] }

  function Parse(s: string): (r: Result<Template, TemplateError>)
    decreases |s|
  {
    var i := OpenAt(s);
    if i == |s| then Ok(TextPart(s))
    else
      match ScanAction(s[i + 2..])
      case None => Err(Malformed)
      case Some((name, rest)) =>
        match Parse(rest)
        case Err(e) => Err(e)
        case Ok(t) => Ok(TextPart(s[..i]) + [Field(name)] + t)
  }

  // ------------------------------------------------------------- execution

  function Lookup(d: Data, name: string): Result<string, TemplateError> {
    match d
    case Struct(m) => if name in m then Ok(m[name]) else Err(NoSuchField(name))
    case Dict(m) => Ok(if name in m then m[name] else NO_VALUE)
  }

  function ExecPart(p: Part, d: Data): Result<string, TemplateError> {
    match p
    case Text(s) => Ok(s)
    case Field(name) => Lookup(d, name)
  }

  function Exec(t: Template, d: Data): (r: Result<string, TemplateError>) {
    if t == [] then Ok("")
    else
      match ExecPart(t[0], d)
      case Err(e) => Err(e)
      case Ok(v) =>
        match Exec(t[1..], d)
        case Err(e) => Err(e)
        case Ok(rest) => Ok(v + rest)
  }

  function Render(s: string, d: Data): Result<string, TemplateError> {
    match Parse(s)
    case Err(e) => Err(e)
    case Ok(t) => Exec(t, d)
  }
}
