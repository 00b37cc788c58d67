/** Overlay mounts: redirection of the writable layer, and the paths read back from mount options. */
module Mounts {
  import opened Wrappers

  datatype Mount = Mount(kind: string, source: string, options: seq<string>)

  datatype MountError = NoMounts | NoSuchOption | UnexpectedKind | NotReady

  const UPPERDIR := "upperdir="
  const WORKDIR := "workdir="
  const LOWERDIR := "lowerdir="
  const OVERLAY := "overlay"
  const BIND := "bind"

  // ---------------------------------------------------------- specification

  function RewriteOption(opt: string, root: string): string {
    if UPPERDIR <= opt then UPPERDIR + root + "/upper"
    else if WORKDIR <= opt then WORKDIR + root + "/work"
    else opt
  }

  function RewriteOptions(opts: seq<string>, root: string): (r: seq<string>)
    ensures |r| == |opts|
    ensures forall i :: 0 <= i < |opts| ==> r[i] == RewriteOption(opts[i], root)
  {
    seq(|opts|, i requires 0 <= i < |opts| => RewriteOption(opts[i], root))
  }

  /** A mount whose writable layer can be moved: an overlay with an upperdir. */
  predicate Writable(m: Mount) {
    m.kind == OVERLAY && exists i :: 0 <= i < |m.options| && UPPERDIR <= m.options[i]
  }

  /** The first mount's upperdir and workdir moved under root. */
  function Redirect(mounts: seq<Mount>, root: string): seq<Mount> {
    if mounts == [] || !Writable(mounts[0]) then mounts
    else [mounts[0].(options := RewriteOptions(mounts[0].options, root))] + mounts[1..]
  }

  function FirstWithPrefix(opts: seq<string>, prefix: string): (r: Option<string>)
    ensures r.None? <==> forall i :: 0 <= i < |opts| ==> !(prefix <= opts[i])
    ensures r.Some? ==> exists i :: 0 <= i < |opts| && opts[i] == prefix + r.value
                                  && forall j :: 0 <= j < i ==> !(prefix <= opts[j])
  {
    if opts == [] then None
    else if prefix <= opts[0] then
      assert opts[0] == prefix + opts[0][|prefix|..];
      Some(opts[0][|prefix|..])
    else
      var r := FirstWithPrefix(opts[1..], prefix);
      assert r.Some? ==> exists i :: 1 <= i < |opts| && opts[i] == prefix + r.value
                                   && forall j :: 0 <= j < i ==> !(prefix <= opts[j])
      by {
        if r.Some? {
          var k :| 0 <= k < |opts[1..]| && opts[1..][k] == prefix + r.value
                   && forall j :: 0 <= j < k ==> !(prefix <= opts[1..][j]);
          assert opts[k + 1] == opts[1..][k];
          assert forall j :: 1 <= j < k + 1 ==> opts[j] == opts[1..][j - 1];
        }
      }
      assert forall i :: 1 <= i < |opts| ==> opts[i] == opts[1..][i - 1];
      r
  }

  /** The upperdir of an active snapshot's mounts. */
  function UpperdirFromMounts(mounts: seq<Mount>): Result<string, MountError> {
    if mounts == [] then Err(NoMounts)
    else
      var r := FirstWithPrefix(mounts[0].options, UPPERDIR);
      if r.Some? then Ok(r.value) else Err(NoSuchOption)
  }

  function BeforeColon(s: string): string {
    if s == "" || s[0] == ':' then "" else [s[0]] + BeforeColon(s[1..])
  }

  /** The directory of the topmost layer shown by a view: first lowerdir, or the bind source. */
  function LayerPathFromMounts(mounts: seq<Mount>): Result<string, MountError>
    requires mounts != []
  {
    var m := mounts[0];
    if m.kind == OVERLAY then
      var r := FirstWithPrefix(m.options, LOWERDIR);
      if r.Some? then Ok(BeforeColon(r.value)) else Err(NoSuchOption)
    else if m.kind == BIND then Ok(m.source)
    else Err(UnexpectedKind)
  }

  lemma {:induction false} BeforeFirstColon(dir: string, rest: string)
    requires forall i :: 0 <= i < |dir| ==> dir[i] != ':'
    ensures BeforeColon(dir) == dir && BeforeColon(dir + ":" + rest) == dir
  {
    if dir != "" {
      BeforeFirstColon(dir[1..], rest);
      assert (dir + ":" + rest)[1..] == dir[1..] + ":" + rest;
    }
  }

  /**
   The directory read from a view is the viewed layer's own: the first or only lowerdir, or
   the source of the bind mount that shows a single layer.
   */
  lemma {:induction false} ViewShowsLayer(source: string, options: seq<string>, k: nat, dir: string, rest: string)
    requires forall i :: 0 <= i < |dir| ==> dir[i] != ':'
    requires k < |options| && (options[k] == LOWERDIR + dir || options[k] == LOWERDIR + (dir + ":" + rest))
    requires forall i :: 0 <= i < k ==> !(LOWERDIR <= options[i])
    ensures LayerPathFromMounts([Mount(OVERLAY, source, options)]) == Ok(dir)
    ensures LayerPathFromMounts([Mount(BIND, dir, options)]) == Ok(dir)
  {
    BeforeFirstColon(dir, rest);
    var r := FirstWithPrefix(options, LOWERDIR);
    assert LOWERDIR <= options[k];
    var i :| 0 <= i < |options| && options[i] == LOWERDIR + r.value && forall j :: 0 <= j < i ==> !(LOWERDIR <= options[j]);
    assert i == k by { assert LOWERDIR <= options[i]; }
    SamePrefix(LOWERDIR, r.value, dir);
    SamePrefix(LOWERDIR, r.value, dir + ":" + rest);
  }

  // ------------------------------------------------------------------ algebra

  lemma {:induction false} PrefixOfAppend(p: string, a: string, b: string)
    ensures p <= p + a + b
  {
    assert (p + a + b)[..|p|] == p;
  }

  lemma {:induction false} DisjointPrefixes(s: string)
    ensures !(UPPERDIR <= s && WORKDIR <= s)
  {
    assert UPPERDIR <= s ==> s[0] == 'u';
    assert WORKDIR <= s ==> s[0] == 'w';
  }

  lemma {:induction false} RewriteOptionTwice(opt: string, a: string, b: string)
    ensures RewriteOption(RewriteOption(opt, a), b) == RewriteOption(opt, b)
    ensures UPPERDIR <= RewriteOption(opt, a) <==> UPPERDIR <= opt
    ensures WORKDIR <= RewriteOption(opt, a) <==> !(UPPERDIR <= opt) && WORKDIR <= opt
  {
    PrefixOfAppend(UPPERDIR, a, "/upper");
    PrefixOfAppend(WORKDIR, a, "/work");
    DisjointPrefixes(UPPERDIR + a + "/upper");
    DisjointPrefixes(WORKDIR + a + "/work");
  }

  lemma {:induction false} RewriteOptionsTwice(opts: seq<string>, a: string, b: string)
    ensures RewriteOptions(RewriteOptions(opts, a), b) == RewriteOptions(opts, b)
    ensures forall i :: 0 <= i < |opts| ==> (UPPERDIR <= RewriteOptions(opts, a)[i] <==> UPPERDIR <= opts[i])
  {
    forall i | 0 <= i < |opts|
      ensures RewriteOptions(RewriteOptions(opts, a), b)[i] == RewriteOptions(opts, b)[i]
      ensures UPPERDIR <= RewriteOptions(opts, a)[i] <==> UPPERDIR <= opts[i]
    {
      RewriteOptionTwice(opts[i], a, b);
    }
  }

  /** Last write wins: redirecting to a and then to b is redirecting to b. */
  lemma {:induction false} RedirectLastWins(mounts: seq<Mount>, a: string, b: string)
    ensures Redirect(Redirect(mounts, a), b) == Redirect(mounts, b)
  {
    if mounts != [] && Writable(mounts[0]) {
      var m := mounts[0];
      RewriteOptionsTwice(m.options, a, b);
      var i :| 0 <= i < |m.options| && UPPERDIR <= m.options[i];
      var m' := m.(options := RewriteOptions(m.options, a));
      assert UPPERDIR <= m'.options[i];
      assert Redirect(mounts, a)[0] == m' && Redirect(mounts, a)[1..] == mounts[1..];
    }
  }

  /** Redirecting twice to the same root changes nothing more. */
  lemma {:induction false} RedirectIdempotent(mounts: seq<Mount>, root: string)
    ensures Redirect(Redirect(mounts, root), root) == Redirect(mounts, root)
  {
    RedirectLastWins(mounts, root, root);
  }

  /** What a redirected writable mount looks like, option by option. */
  lemma {:induction false} RedirectShape(mounts: seq<Mount>, root: string)
    requires mounts != [] && Writable(mounts[0])
    ensures var r := Redirect(mounts, root);
            && |r| == |mounts| && r[1..] == mounts[1..]
            && r[0] == mounts[0].(options := r[0].options) && |r[0].options| == |mounts[0].options|
            && (forall i :: 0 <= i < |r[0].options| && UPPERDIR <= r[0].options[i] ==> r[0].options[i] == UPPERDIR + root + "/upper")
            && (forall i :: 0 <= i < |r[0].options| && WORKDIR <= r[0].options[i] ==> r[0].options[i] == WORKDIR + root + "/work")
            && (forall i :: 0 <= i < |r[0].options| && !(UPPERDIR <= mounts[0].options[i]) && !(WORKDIR <= mounts[0].options[i])
                            ==> r[0].options[i] == mounts[0].options[i])
  {
    var opts := mounts[0].options;
    forall i | 0 <= i < |opts|
      ensures UPPERDIR <= RewriteOptions(opts, root)[i] ==> RewriteOptions(opts, root)[i] == UPPERDIR + root + "/upper"
      ensures WORKDIR <= RewriteOptions(opts, root)[i] ==> RewriteOptions(opts, root)[i] == WORKDIR + root + "/work"
    {
      RewriteOptionTwice(opts[i], root, root);
    }
  }

  lemma {:induction false} OnlyOneWithPrefix(opts: seq<string>, p: string, v: string, i: nat)
    requires i < |opts| && p <= opts[i]
    requires forall k :: 0 <= k < |opts| && p <= opts[k] ==> opts[k] == p + v
    ensures FirstWithPrefix(opts, p) == Some(v)
  {
    var r := FirstWithPrefix(opts, p);
    var k :| 0 <= k < |opts| && opts[k] == p + r.value;
    assert p <= p + r.value;
    SamePrefix(p, r.value, v);
  }

  /** The redirected upperdir is the one read back. */
  lemma {:induction false} RedirectedUpperdir(mounts: seq<Mount>, root: string)
    requires mounts != [] && Writable(mounts[0])
    ensures UpperdirFromMounts(Redirect(mounts, root)) == Ok(root + "/upper")
  {
    var opts := Redirect(mounts, root)[0].options;
    RewriteOptionsTwice(mounts[0].options, root, root);
    var i :| 0 <= i < |mounts[0].options| && UPPERDIR <= mounts[0].options[i];
    RedirectShape(mounts, root);
    assert UPPERDIR + root + "/upper" == UPPERDIR + (root + "/upper");
    OnlyOneWithPrefix(opts, UPPERDIR, root + "/upper", i);
  }

  /**
   The rewrite in the mount options' own words: of an overlay with an upperdir the upperdir and
   workdir move below the root, and every other list of mounts stays as it is.
   */
  lemma {:induction false} RedirectInWords(mounts: seq<Mount>, root: string)
    ensures var r := Redirect(mounts, root);
            if mounts == [] || mounts[0].kind != "overlay" || !(exists i :: 0 <= i < |mounts[0].options| && "upperdir=" <= mounts[0].options[i])
            then r == mounts
            else
              && |r| == |mounts| && r[1..] == mounts[1..] && |r[0].options| == |mounts[0].options|
              && r[0].kind == "overlay" && r[0].source == mounts[0].source
              && forall i :: 0 <= i < |r[0].options| ==>
                   r[0].options[i] == if "upperdir=" <= mounts[0].options[i] then "upperdir=" + root + "/upper"
                                      else if "workdir=" <= mounts[0].options[i] then "workdir=" + root + "/work"
                                      else mounts[0].options[i]
  {
    if mounts != [] {
      var opts := mounts[0].options;
      forall i | 0 <= i < |opts|
        ensures RewriteOptions(opts, root)[i] == if "upperdir=" <= opts[i] then "upperdir=" + root + "/upper"
                                                 else if "workdir=" <= opts[i] then "workdir=" + root + "/work" else opts[i]
      {
      }
    }
  }

  // The first option with the prefix, if there is one.
  ghost predicate FirstOption(opts: seq<string>, prefix: string, v: string) {
    exists i :: 0 <= i < |opts| && opts[i] == prefix + v && forall j :: 0 <= j < i ==> !(prefix <= opts[j])
  }

  lemma {:induction false} FirstOptionFound(opts: seq<string>, prefix: string, v: string)
    ensures FirstWithPrefix(opts, prefix) == Some(v) <==> FirstOption(opts, prefix, v)
  {
    var r := FirstWithPrefix(opts, prefix);
    if FirstOption(opts, prefix, v) {
      var i :| 0 <= i < |opts| && opts[i] == prefix + v && forall j :: 0 <= j < i ==> !(prefix <= opts[j]);
      assert prefix <= opts[i];
      var k :| 0 <= k < |opts| && opts[k] == prefix + r.value && forall j :: 0 <= j < k ==> !(prefix <= opts[j]);
      assert prefix <= opts[k] && i == k;
      SamePrefix(prefix, v, r.value);
    }
  }

  /** An upperdir is read from the first mount's first `upperdir=` option, and an error otherwise. */
  lemma {:induction false} UpperdirExactly(mounts: seq<Mount>, v: string)
    ensures UpperdirFromMounts(mounts) == Ok(v) <==> mounts != [] && FirstOption(mounts[0].options, "upperdir=", v)
  {
    if mounts != [] { FirstOptionFound(mounts[0].options, "upperdir=", v); }
  }

  /** A view of another kind, or an overlay view without a lowerdir, is an error. */
  lemma {:induction false} LayerPathFails(m: Mount)
    ensures LayerPathFromMounts([m]).Err? <==>
            m.kind != "bind" && (m.kind != "overlay" || forall i :: 0 <= i < |m.options| ==> !("lowerdir=" <= m.options[i]))
  {
    assert "bind"[0] == 'b' && "overlay"[0] == 'o';
  }

  lemma {:induction false} SamePrefix(p: string, a: string, b: string)
    ensures p + a == p + b ==> a == b
  {
    assert (p + a)[|p|..] == a && (p + b)[|p|..] == b;
  }

  // --------------------------------------------------------- the slice code

  // A mount as Go holds it: its options are a shared, mutable slice.
  datatype MountSlice = MountSlice(kind: string, source: string, options: array<string>)

  ghost function OptionArrays(ms: array<MountSlice>): set<object>
    reads ms
  {
    set i | 0 <= i < ms.Length :: ms[i].options
  }

  ghost function Value(ms: array<MountSlice>): (r: seq<Mount>)
    reads ms, OptionArrays(ms)
    ensures |r| == ms.Length
    ensures forall i :: 0 <= i < ms.Length ==> r[i] == Mount(ms[i].kind, ms[i].source, ms[i].options[..])
  {
    seq(ms.Length, i requires 0 <= i < ms.Length reads ms, OptionArrays(ms) =>
      Mount(ms[i].kind, ms[i].source, ms[i].options[..]))
  }

  /**
   Rewrites the first mount's options into a fresh slice and returns a fresh copy of
   the list that uses it; the arguments are not written to.
   */
  method ReplaceUpperdirOptions(mounts: array<MountSlice>, root: string) returns (r: array<MountSlice>)
    ensures r == mounts || (fresh(r) && r.Length == mounts.Length > 0 && fresh(r[0].options))
    ensures forall i :: 0 < i < r.Length == mounts.Length ==> r[i] == mounts[i]
    ensures Value(r) == Redirect(old(Value(mounts)), root)
  {
    if mounts.Length == 0 {
      return mounts;
    }
    var m := mounts[0];
    if m.kind != OVERLAY {
      return mounts;
    }
    var hasUpperdir := HasUpperdir(m.options);
    ghost var first := Value(mounts)[0];
    assert first.options == m.options[..];
    if !hasUpperdir {
      assert !Writable(first);
      return mounts;
    }
    assert Writable(first);
    var newOpts := RewriteOptionSlice(m.options, root);
    r := WithFirst(mounts, m.(options := newOpts));
    RedirectedValue(Value(mounts), Value(r), root);
  }

  // A copy of the list with another first mount.
  method WithFirst(mounts: array<MountSlice>, m: MountSlice) returns (r: array<MountSlice>)
    requires mounts.Length > 0
    ensures fresh(r) && r.Length == mounts.Length && r[0] == m
    ensures forall i :: 0 < i < r.Length ==> r[i] == mounts[i]
  {
    r := new MountSlice[mounts.Length](i requires 0 <= i < mounts.Length reads mounts => mounts[i]);
    r[0] := m;
  }

  lemma {:induction false} RedirectedValue(before: seq<Mount>, after: seq<Mount>, root: string)
    requires |before| == |after| > 0 && Writable(before[0])
    requires after[0] == before[0].(options := RewriteOptions(before[0].options, root))
    requires forall i :: 0 < i < |before| ==> after[i] == before[i]
    ensures after == Redirect(before, root)
  {
    assert after == [after[0]] + before[1..];
  }

  method HasUpperdir(opts: array<string>) returns (found: bool)
    ensures found <==> exists i :: 0 <= i < opts.Length && UPPERDIR <= opts[i]
  {
    found := false;
    var n := 0;
    while n < opts.Length && !found
      invariant 0 <= n <= opts.Length
      invariant found <==> exists i :: 0 <= i < n && UPPERDIR <= opts[i]
    {
      found := UPPERDIR <= opts[n];
      n := n + 1;
    }
  }

  method RewriteOptionSlice(opts: array<string>, root: string) returns (r: array<string>)
    ensures fresh(r)
    ensures r[..] == RewriteOptions(opts[..], root)
  {
    r := new string[opts.Length](_ => "");
    var i := 0;
    while i < opts.Length
      invariant 0 <= i <= opts.Length
      invariant forall k :: 0 <= k < i ==> r[k] == RewriteOption(opts[k], root)
    {
      if UPPERDIR <= opts[i] {
        r[i] := UPPERDIR + root + "/upper";
      } else if WORKDIR <= opts[i] {
        r[i] := WORKDIR + root + "/work";
      } else {
        r[i] := opts[i];
      }
      i := i + 1;
    }
    assert r[..] == RewriteOptions(opts[..], root);
  }

  // ---------------------------------------------------------------- readiness

  function TrimRightSlashes(s: string): string {
    if s != "" && s[|s| - 1] == '/' then TrimRightSlashes(s[..|s| - 1]) else s
  }

  // strings.LastIndex(s, "/").
  function LastSlash(s: string): (i: int)
    ensures -1 <= i < |s|
    ensures i >= 0 ==> s[i] == '/'
    ensures forall k :: i < k < |s| ==> s[k] != '/'
  {
    if s == "" then -1 else if s[|s| - 1] == '/' then |s| - 1 else LastSlash(s[..|s| - 1])
  }

  /** The directory whose device is compared with the root's. */
  function ParentPath(root: string): string {
    var trimmed := TrimRightSlashes(root);
    var i := LastSlash(trimmed);
    var parent := if i >= 0 then trimmed[..i] else trimmed;
    if parent == "" then "/" else parent
  }

  function Slashes(n: nat): string { seq(n, _ => '/') }

  lemma {:induction false} TrimSlashes(s: string, n: nat)
    requires s == "" || s[|s| - 1] != '/'
    ensures TrimRightSlashes(s + Slashes(n)) == s
  {
    if n == 0 {
      assert s + Slashes(0) == s;
    } else {
      assert (s + Slashes(n))[..|s| + n - 1] == s + Slashes(n - 1);
      TrimSlashes(s, n - 1);
    }
  }

  /** The parent of `dir/base`, with any number of trailing slashes, is dir. */
  lemma {:induction false} ParentIsDirname(dir: string, base: string, n: nat)
    requires base != "" && forall i :: 0 <= i < |base| ==> base[i] != '/'
    ensures ParentPath(dir + "/" + base + Slashes(n)) == if dir == "" then "/" else dir
  {
    var path := dir + "/" + base;
    assert path[|path| - 1] == base[|base| - 1];
    TrimSlashes(path, n);
    var i := LastSlash(path);
    assert path[|dir|] == '/';
    assert forall k :: |dir| < k < |path| ==> path[k] == base[k - |dir| - 1];
    assert i == |dir|;
    assert path[..i] == dir;
  }

  /**
   A mountpoint (its device differs from its parent's) in which both overlay
   subdirectories can be created.  The file system is the pair of oracles `device` and
   `canCreate`.
   */
  predicate ReadyRoot(root: string, device: string -> Option<int>, canCreate: string -> bool) {
    && device(root).Some? && device(ParentPath(root)).Some?
    && device(root) != device(ParentPath(root))
    && canCreate(root + "/upper") && canCreate(root + "/work")
  }

  /** Accepts exactly a ready root. */
  method EnsureUpperdirReady(root: string, device: string -> Option<int>, canCreate: string -> bool)
    returns (r: Result<seq<string>, MountError>)
    ensures r.Ok? <==> ReadyRoot(root, device, canCreate)
    ensures r.Ok? ==> r.value == [root + "/upper", root + "/work"]
  {
    if device(root).None? || device(ParentPath(root)).None? || device(root) == device(ParentPath(root)) {
      return Err(NotReady);
    }
    var subs := ["upper", "work"];
    var dirs: seq<string> := [];
    var i := 0;
    while i < 2
      invariant 0 <= i <= 2 && |dirs| == i
      invariant i >= 1 ==> canCreate(root + "/upper") && dirs[0] == root + "/upper"
      invariant i >= 2 ==> canCreate(root + "/work") && dirs[1] == root + "/work"
    {
      var dir := root + "/" + subs[i];
      assert dir == root + (if i == 0 then "/upper" else "/work");
      if !canCreate(dir) {
        return Err(NotReady);
      }
      dirs := dirs + [dir];
      i := i + 1;
    }
    r := Ok(dirs);
  }
}
