/**
 JSON Pointer reference tokens (RFC 6901).  The webhook escapes annotation keys
 with two successive replace-alls; an evaluator splits on `/` and unescapes in the
 order section 4 of the RFC prescribes.
 */
module JsonPointer {
  import opened Wrappers
  import opened Sequences

  // strings.ReplaceAll for a one-character pattern.
  function ReplaceChar(s: string, c: char, with: string): (r: string) {
    if s == "" then "" else (if s[0] == c then with else [s[0]]) + ReplaceChar(s[1..], c, with)
  }

  // Leftmost, non-overlapping replacement of the two characters a, b by c.
  function ReplacePair(s: string, a: char, b: char, c: char): (r: string) {
    if |s| < 2 then s
    else if s[0] == a && s[1] == b then [c] + ReplacePair(s[2..], a, b, c)
    else [s[0]] + ReplacePair(s[1..], a, b, c)
  }

  /** The webhook's escaping: first every tilde, then every slash. */
  function EscapeTwoPass(key: string): string {
    ReplaceChar(ReplaceChar(key, '~', "~0"), '/', "~1")
  }

  function EscapeChar(c: char): string {
    if c == '~' then "~0" else if c == '/' then "~1" else [c]
  }

  /** Section 3 of RFC 6901, one character at a time. */
  function Escape(key: string): (r: string) {
    if key == "" then "" else EscapeChar(key[0]) + Escape(key[1..])
  }

  /** Section 4 of RFC 6901: `~1` first, then `~0`. */
  function Unescape(token: string): string {
    ReplacePair(ReplacePair(token, '~', '1', '/'), '~', '0', '~')
  }

  // --------------------------------------------------------------- escaping

  lemma {:induction false} ReplaceCharAppend(s: string, t: string, c: char, with: string)
    ensures ReplaceChar(s + t, c, with) == ReplaceChar(s, c, with) + ReplaceChar(t, c, with)
  {
    if s == "" {
      assert s + t == t;
    } else {
      ReplaceCharAppend(s[1..], t, c, with);
      assert (s + t)[1..] == s[1..] + t;
      var head := if s[0] == c then with else [s[0]];
      var r1, r2 := ReplaceChar(s[1..], c, with), ReplaceChar(t, c, with);
      assert head + (r1 + r2) == (head + r1) + r2;
    }
  }

  lemma {:induction false} ReplaceOneChar(x: char, c: char, with: string)
    ensures ReplaceChar([x], c, with) == if x == c then with else [x]
  {
    assert ReplaceChar([x][1..], c, with) == "";
  }

  lemma {:induction false} EscapeCharTwoPass(x: char)
    ensures ReplaceChar(if x == '~' then "~0" else [x], '/', "~1") == EscapeChar(x)
  {
    if x == '~' {
      assert "~0" == ['~'] + ['0'];
      ReplaceCharAppend(['~'], ['0'], '/', "~1");
      ReplaceOneChar('~', '/', "~1");
      ReplaceOneChar('0', '/', "~1");
    } else {
      ReplaceOneChar(x, '/', "~1");
    }
  }

  /** The two passes never interfere: together they are one per-character escape. */
  lemma {:induction false} TwoPassIsSinglePass(key: string)
    ensures EscapeTwoPass(key) == Escape(key)
  {
    if key != "" {
      var x := key[0];
      var mid := if x == '~' then "~0" else [x];
      ReplaceCharAppend(mid, ReplaceChar(key[1..], '~', "~0"), '/', "~1");
      EscapeCharTwoPass(x);
      TwoPassIsSinglePass(key[1..]);
    }
  }

  lemma {:induction false} PairSkips(x: char, s: string, a: char, b: char, c: char)
    requires x != a || s == "" || s[0] != b
    ensures ReplacePair([x] + s, a, b, c) == [x] + ReplacePair(s, a, b, c)
  {
    assert ([x] + s)[1..] == s;
    if s == "" {
      assert [x] + s == [x];
    }
  }

  lemma {:induction false} PairHits(s: string, a: char, b: char, c: char)
    ensures ReplacePair([a, b] + s, a, b, c) == [c] + ReplacePair(s, a, b, c)
  {
    assert ([a, b] + s)[2..] == s;
  }

  // Undoing the slashes leaves the text with only its tildes escaped.
  lemma {:induction false} UnescapeSlashes(key: string)
    ensures ReplacePair(Escape(key), '~', '1', '/') == ReplaceChar(key, '~', "~0")
  {
    if key != "" {
      var rest := Escape(key[1..]);
      UnescapeSlashes(key[1..]);
      if key[0] == '~' {
        assert "~0" + rest == ['~'] + (['0'] + rest);
        PairSkips('~', ['0'] + rest, '~', '1', '/');
        PairSkips('0', rest, '~', '1', '/');
        assert "~0" + ReplacePair(rest, '~', '1', '/') == ['~'] + (['0'] + ReplacePair(rest, '~', '1', '/'));
      } else if key[0] == '/' {
        PairHits(rest, '~', '1', '/');
      } else {
        PairSkips(key[0], rest, '~', '1', '/');
      }
    }
  }

  lemma {:induction false} UnescapeTildes(key: string)
    ensures ReplacePair(ReplaceChar(key, '~', "~0"), '~', '0', '~') == key
  {
    if key != "" {
      var rest := ReplaceChar(key[1..], '~', "~0");
      UnescapeTildes(key[1..]);
      if key[0] == '~' {
        PairHits(rest, '~', '0', '~');
      } else {
        PairSkips(key[0], rest, '~', '0', '~');
      }
    }
  }

  /** Unescaping recovers every key. */
  lemma {:induction false} EscapeRoundTrip(key: string)
    ensures Unescape(EscapeTwoPass(key)) == key
  {
    TwoPassIsSinglePass(key);
    UnescapeSlashes(key);
    UnescapeTildes(key);
  }

  /** An escaped key is one reference token. */
  lemma {:induction false} EscapedHasNoSlash(key: string)
    ensures SlashFree(Escape(key))
  {
    if key != "" {
      EscapedHasNoSlash(key[1..]);
    }
  }

  /** Distinct keys address distinct members. */
  lemma {:induction false} EscapeInjective(a: string, b: string)
    requires a != b
    ensures EscapeTwoPass(a) != EscapeTwoPass(b)
  {
    EscapeRoundTrip(a);
    EscapeRoundTrip(b);
  }

  lemma {:induction false} EscapePlain(key: string)
    requires SlashFree(key) && forall i :: 0 <= i < |key| ==> key[i] != '~'
    ensures Escape(key) == key
  {
    if key != "" {
      EscapePlain(key[1..]);
    }
  }

  // --------------------------------------------------------------- pointers

  function SplitSlash(s: string): (r: seq<string>)
    ensures |r| > 0
  {
    if s == "" then [""]
    else if s[0] == '/' then [""] + SplitSlash(s[1..])
    else
      var r := SplitSlash(s[1..]);
      [[s[0]] + r[0]] + r[1..]
  }

  function UnescapeAll(tokens: seq<string>): (r: seq<string>)
    ensures |r| == |tokens|
  {
    if tokens == [] then [] else [Unescape(tokens[0])] + UnescapeAll(tokens[1..])
  }

  datatype PointerError = NoLeadingSlash

  /** The reference tokens a pointer stands for. */
  function Tokens(pointer: string): (r: Result<seq<string>, PointerError>) {
    if pointer == "" then Ok([])
    else if pointer[0] != '/' then Err(NoLeadingSlash)
    else Ok(UnescapeAll(SplitSlash(pointer[1..])))
  }

  /** The pointer to a token list. */
  function Pointer(tokens: seq<string>): string {
    if tokens == [] then "" else "/" + Escape(tokens[0]) + Pointer(tokens[1..])
  }

  lemma {:induction false} SplitFirst(head: string, tail: string)
    requires SlashFree(head)
    ensures SplitSlash(head) == [head]
    ensures SplitSlash(head + "/" + tail) == [head] + SplitSlash(tail)
  {
    if head == "" {
      assert head + "/" + tail == "/" + tail;
      assert ("/" + tail)[1..] == tail;
    } else {
      SplitFirst(head[1..], tail);
      assert (head + "/" + tail)[1..] == head[1..] + "/" + tail;
      assert head == [head[0]] + head[1..];
    }
  }

  function EscapeAll(tokens: seq<string>): seq<string> {
    if tokens == [] then [] else [Escape(tokens[0])] + EscapeAll(tokens[1..])
  }

  lemma {:induction false} UnescapeEscapeAll(tokens: seq<string>)
    ensures UnescapeAll(EscapeAll(tokens)) == tokens
  {
    if tokens != [] {
      UnescapeEscapeAll(tokens[1..]);
      TwoPassIsSinglePass(tokens[0]);
      EscapeRoundTrip(tokens[0]);
      assert EscapeAll(tokens)[1..] == EscapeAll(tokens[1..]);
    }
  }

  lemma {:induction false} PointerTail(head: string, q: string)
    ensures ("/" + head + q)[1..] == head + q
    ensures q != "" && q[0] == '/' ==> head + q == head + "/" + q[1..]
    ensures q == "" ==> head + q == head
  {
  }

  lemma {:induction false} SplitPointer(tokens: seq<string>)
    requires tokens != []
    ensures Pointer(tokens) != "" && Pointer(tokens)[0] == '/'
    ensures SplitSlash(Pointer(tokens)[1..]) == EscapeAll(tokens)
  {
    var head, q := Escape(tokens[0]), Pointer(tokens[1..]);
    EscapedHasNoSlash(tokens[0]);
    PointerTail(head, q);
    if tokens[1..] == [] {
      SplitFirst(head, "");
    } else {
      SplitPointer(tokens[1..]);
      SplitFirst(head, q[1..]);
    }
  }

  /** Building a pointer and reading it back gives the same tokens, whatever they contain. */
  lemma {:induction false} PointerRoundTrip(tokens: seq<string>)
    ensures Tokens(Pointer(tokens)) == Ok(tokens)
  {
    if tokens != [] {
      SplitPointer(tokens);
      UnescapeEscapeAll(tokens);
    }
  }
}
