/** JSON documents and the `add` and `replace` operations of RFC 6902 (sections 4.1 and 4.3). */
module JsonPatch {
  import opened Wrappers
  import opened JsonPointer

  datatype Json =
    | Null
    | Bool(bool)
    | Number(int)
    | String(text: string)
    | Array(items: seq<Json>)
    | Object(members: map<string, Json>)

  datatype Op = Add(path: string, value: Json) | Replace(path: string, value: Json)

  datatype PatchError = BadPointer | NoTarget

  /** A member of an object; absent members read as null. */
  function Member(j: Json, name: string): Json {
    if j.Object? && name in j.members then j.members[name] else Null
  }

  function SetMember(j: Json, name: string, v: Json): Json
    requires j.Object?
  {
    Object(j.members[name := v])
  }

  // ---------------------------------------------------------------- indices

  predicate IsDigit(c: char) { '0' <= c <= '9' }

  function Decimal(s: string): nat
    requires forall i :: 0 <= i < |s| ==> IsDigit(s[i])
  {
    if s == "" then 0
    else
      assert IsDigit(s[|s| - 1]);
      10 * Decimal(s[..|s| - 1]) + (s[|s| - 1] as int - '0' as int)
  }

  /** An array index token: decimal digits without a leading zero. */
  function Index(token: string): Option<nat> {
    if token == "0" then Some(0)
    else if token != "" && token[0] != '0' && forall i :: 0 <= i < |token| ==> IsDigit(token[i]) then Some(Decimal(token))
    else None
  }

  // ------------------------------------------------------------- operations

  function Child(j: Json, token: string): Option<Json> {
    match j
    case Object(m) => if token in m then Some(m[token]) else None
    case Array(items) =>
      var i := Index(token);
      if i.Some? && i.value < |items| then Some(items[i.value]) else None
    case _ => None
  }

  function WithChild(j: Json, token: string, v: Json): Json
    requires Child(j, token).Some?
  {
    match j
    case Object(m) => Object(m[token := v])
    case Array(items) => Array(items[Index(token).value := v])
  }

  function AddHere(j: Json, token: string, v: Json): Result<Json, PatchError> {
    match j
    case Object(m) => Ok(Object(m[token := v]))
    case Array(items) =>
      if token == "-" then Ok(Array(items + [v]))
      else
        var i := Index(token);
        if i.Some? && i.value <= |items| then Ok(Array(items[..i.value] + [v] + items[i.value..])) else Err(NoTarget)
    case _ => Err(NoTarget)
  }

  function AddAt(j: Json, tokens: seq<string>, v: Json): Result<Json, PatchError> {
    if tokens == [] then Ok(v)
    else if |tokens| == 1 then AddHere(j, tokens[0], v)
    else
      var c := Child(j, tokens[0]);
      if c.None? then Err(NoTarget)
      else
        var r := AddAt(c.value, tokens[1..], v);
        if r.Err? then r else Ok(WithChild(j, tokens[0], r.value))
  }

  function ReplaceAt(j: Json, tokens: seq<string>, v: Json): Result<Json, PatchError> {
    if tokens == [] then Ok(v)
    else
      var c := Child(j, tokens[0]);
      if c.None? then Err(NoTarget)
      else
        var r := ReplaceAt(c.value, tokens[1..], v);
        if r.Err? then r else Ok(WithChild(j, tokens[0], r.value))
  }

  function Apply(j: Json, op: Op): Result<Json, PatchError> {
    var tokens := Tokens(op.path);
    if tokens.Err? then Err(BadPointer)
    else
      match op
      case Add(_, v) => AddAt(j, tokens.value, v)
      case Replace(_, v) => ReplaceAt(j, tokens.value, v)
  }

  /** The operations in order; the first failure is the result. */
  function ApplyAll(j: Json, ops: seq<Op>): Result<Json, PatchError> {
    if ops == [] then Ok(j)
    else
      var before := ApplyAll(j, ops[..|ops| - 1]);
      if before.Err? then before else Apply(before.value, ops[|ops| - 1])
  }

  // ------------------------------------------------------------------- laws

  lemma {:induction false} ApplyAllSnoc(j: Json, ops: seq<Op>, op: Op)
    ensures ApplyAll(j, ops + [op])
         == if ApplyAll(j, ops).Err? then ApplyAll(j, ops) else Apply(ApplyAll(j, ops).value, op)
  {
    assert (ops + [op])[..|ops|] == ops;
  }

  // A number in decimal, without leading zeros.
  function Shown(n: nat): (s: string)
    ensures s != "" && forall i :: 0 <= i < |s| ==> IsDigit(s[i])
    ensures s[0] == '0' <==> n == 0
  {
    if n < 10 then ['0' + n as char] else Shown(n / 10) + ['0' + (n % 10) as char]
  }

  lemma {:induction false} DecimalShown(n: nat)
    ensures Decimal(Shown(n)) == n
  {
    var s := Shown(n);
    if n < 10 {
      assert s[..0] == "" && Decimal("") == 0;
    } else {
      assert s[..|s| - 1] == Shown(n / 10);
      DecimalShown(n / 10);
    }
  }

  lemma {:induction false} DigitApart(a: nat, d: nat)
    requires d < 10
    ensures (10 * a + d) / 10 == a && (10 * a + d) % 10 == d
  {
  }

  // Writing a number whose last digit is split off.
  lemma {:induction false} ShownStep(a: nat, c: char)
    requires a > 0 && IsDigit(c)
    ensures Shown(10 * a + (c as int - '0' as int)) == Shown(a) + [c]
  {
    DigitApart(a, c as int - '0' as int);
  }

  lemma {:induction false} DecimalSnoc(front: string, c: char)
    requires (forall i :: 0 <= i < |front| ==> IsDigit(front[i])) && IsDigit(c)
    ensures forall i :: 0 <= i < |front + [c]| ==> IsDigit((front + [c])[i])
    ensures Decimal(front + [c]) == 10 * Decimal(front) + (c as int - '0' as int)
  {
    var s := front + [c];
    assert s[..|s| - 1] == front && s[|s| - 1] == c;
  }

  lemma {:induction false} ShownDecimal(s: string)
    requires s != "" && forall i :: 0 <= i < |s| ==> IsDigit(s[i])
    requires s[0] != '0'
    ensures Shown(Decimal(s)) == s && Decimal(s) > 0
    decreases |s|
  {
    var front, last := s[..|s| - 1], s[|s| - 1];
    assert s == front + [last];
    assert IsDigit(last);
    DecimalSnoc(front, last);
    if front == "" {
      assert Decimal("") == 0;
      assert [last] == s;
    } else {
      ShownDecimal(front);
      ShownStep(Decimal(front), last);
    }
  }

  /** An index token is exactly the decimal writing of its number. */
  lemma {:induction false} IndexExactly(token: string, n: nat)
    ensures Index(token) == Some(n) <==> token == Shown(n)
  {
    if token == Shown(n) {
      DecimalShown(n);
    }
    if Index(token) == Some(n) && token != "0" {
      ShownDecimal(token);
    }
  }

  /** Section 4.1: adding at an index shifts the later items up; adding past the end, or into nothing, fails. */
  lemma {:induction false} AddInserts(items: seq<Json>, token: string, v: Json)
    requires token != "-"
    ensures var i, r := Index(token), AddHere(Array(items), token, v);
            if i.Some? && i.value <= |items| then
              && r.Ok? && r.value.Array? && |r.value.items| == |items| + 1 && r.value.items[i.value] == v
              && (forall k :: 0 <= k < i.value ==> r.value.items[k] == items[k])
              && (forall k :: i.value <= k < |items| ==> r.value.items[k + 1] == items[k])
            else r == Err(NoTarget)
  {
  }

  /** Section 4.3: replacing needs an existing target, at any depth. */
  lemma {:induction false} ReplaceNeedsTarget(j: Json, names: seq<string>, last: string, v: Json)
    ensures ReplaceAt(j, names + [last], v).Ok? <==> At(j, names).Some? && Child(At(j, names).value, last).Some?
    decreases |names|
  {
    if names == [] {
      assert names + [last] == [last] && [last][1..] == [];
    } else {
      assert (names + [last])[0] == names[0] && (names + [last])[1..] == names[1..] + [last];
      var c := Child(j, names[0]);
      if c.Some? { ReplaceNeedsTarget(c.value, names[1..], last, v); }
    }
  }

  // The value a path leads to.
  function At(j: Json, names: seq<string>): Option<Json>
    decreases |names|
  {
    if names == [] then Some(j)
    else
      var c := Child(j, names[0]);
      if c.None? then None else At(c.value, names[1..])
  }

  /** A longer path acts on the child it names and on nothing else. */
  lemma {:induction false} AddDescends(j: Json, name: string, rest: seq<string>, v: Json)
    requires rest != [] && Child(j, name).Some?
    ensures AddAt(j, [name] + rest, v)
         == var r := AddAt(Child(j, name).value, rest, v); if r.Err? then r else Ok(WithChild(j, name, r.value))
  {
    assert ([name] + rest)[1..] == rest;
  }

  lemma {:induction false} AddLast(j: Json, name: string, v: Json)
    ensures AddAt(j, [name], v) == AddHere(j, name, v)
  {
  }

  lemma {:induction false} ReplaceUnder(j: Json, name: string, rest: seq<string>, v: Json)
    requires Child(j, name).Some?
    ensures ReplaceAt(j, [name] + rest, v)
         == var r := ReplaceAt(Child(j, name).value, rest, v); if r.Err? then r else Ok(WithChild(j, name, r.value))
  {
    assert ([name] + rest)[1..] == rest;
  }
}
