/**
 * POSIX path helpers the scanner relies on: `os.path.join`,
 * `os.path.abspath` (a join with the working directory followed by
 * `normpath`) and `os.path.relpath`, all over `/`-separated strings.
 */
module Paths {
  import opened Text
  import opened Stats

  /** A working directory, as `os.getcwd()` returns it: absolute. */
  type AbsoluteDir = s: string | StartsWith(s, "/") witness "/"

  /** A path `os.path.relpath` accepts: not empty. */
  type FilePath = s: string | s != [] witness "."

  /** A path component that `normpath` keeps as it is. */
  predicate IsName(c: string) {
    c != "" && c != "." && c != ".." && '/' !in c
  }

  predicate AllNames(cs: seq<string>) {
    forall i :: 0 <= i < |cs| ==> IsName(cs[i])
  }

  predicate NoSlash(cs: seq<string>) {
    forall i :: 0 <= i < |cs| ==> '/' !in cs[i]
  }

  /** `os.path.join(a, b)`: an absolute `b` replaces `a`, otherwise one `/` separates them. */
  function Join(a: string, b: string): (r: string)
    ensures StartsWith(b, "/") ==> r == b
    ensures !StartsWith(b, "/") ==> StartsWith(r, a) && EndsWith(r, b)
    ensures !StartsWith(b, "/") && a != [] && !EndsWith(a, "/") ==> r == a + "/" + b
    ensures !StartsWith(b, "/") && (a == [] || EndsWith(a, "/")) ==> r == a + b
  {
    if StartsWith(b, "/") then b
    else if a == [] || EndsWith(a, "/") then a + b
    else a + "/" + b
  }

  /** `os.path.join(*parts)`: joining from the left. */
  function JoinAll(parts: seq<string>): string
    requires |parts| >= 1
  {
    if |parts| == 1 then parts[0] else Join(JoinAll(parts[..|parts| - 1]), parts[|parts| - 1])
  }

  /** One step of `normpath`'s component loop on an absolute path. */
  function Push(stack: seq<string>, comp: string): seq<string> {
    if comp == "" || comp == "." then stack
    else if comp == ".." then (if stack == [] then [] else stack[..|stack| - 1])
    else stack + [comp]
  }

  /** The components `normpath` keeps: empty and `.` dropped, `..` removing the previous one. */
  function Resolve(comps: seq<string>): seq<string> {
    if comps == [] then [] else Push(Resolve(comps[..|comps| - 1]), comps[|comps| - 1])
  }

  /** POSIX keeps exactly two leading slashes; one, or three and more, become one. */
  function Root(p: string): string {
    if StartsWith(p, "//") && !StartsWith(p, "///") then "//" else "/"
  }

  function JoinSlash(cs: seq<string>): string {
    if cs == [] then "" else JoinOn(cs, '/')
  }

  /** `path` made absolute against the working directory `cwd`. */
  function Absolute(cwd: string, path: string): (r: string)
    requires StartsWith(cwd, "/")
    ensures StartsWith(r, "/")
  {
    if StartsWith(path, "/") then path else Join(cwd, path)
  }

  /** The components of `os.path.abspath(path)`. */
  function AbsComponents(cwd: string, path: string): seq<string>
    requires StartsWith(cwd, "/")
  {
    Resolve(SplitOn(Absolute(cwd, path), '/'))
  }

  /** `os.path.abspath(path)` with working directory `cwd`. */
  function AbsPath(cwd: string, path: string): (r: string)
    requires StartsWith(cwd, "/")
    ensures StartsWith(r, "/")
  {
    Root(Absolute(cwd, path)) + JoinSlash(AbsComponents(cwd, path))
  }

  function NonEmptyPart(c: string): Option<string> {
    if c == "" then None else Some(c)
  }

  /** `[x for x in p.split('/') if x]` */
  function Parts(p: string): seq<string> {
    Collect(SplitOn(p, '/'), NonEmptyPart)
  }

  /** `len(commonprefix([a, b]))` */
  function CommonPrefixLength(a: seq<string>, b: seq<string>): (n: nat)
    ensures n <= |a| && n <= |b|
    ensures a[..n] == b[..n]
    ensures n < |a| && n < |b| ==> a[n] != b[n]
  {
    if a == [] || b == [] || a[0] != b[0] then 0
    else
      var n := CommonPrefixLength(a[1..], b[1..]);
      assert a[1..][..n] == a[1..n + 1] && b[1..][..n] == b[1..n + 1];
      1 + n
  }

  function Repeat(s: string, n: nat): (r: seq<string>)
    ensures |r| == n && forall i :: 0 <= i < n ==> r[i] == s
  {
    if n == 0 then [] else Repeat(s, n - 1) + [s]
  }

  /**
   * `os.path.relpath(path, start)` with working directory `cwd`; an empty
   * `path` is rejected by the library.
   */
  function RelPath(cwd: string, path: string, start: string): string
    requires StartsWith(cwd, "/") && path != []
  {
    var startParts := Parts(AbsPath(cwd, start));
    var pathParts := Parts(AbsPath(cwd, path));
    var i := CommonPrefixLength(startParts, pathParts);
    var rel := Repeat("..", |startParts| - i) + pathParts[i..];
    if rel == [] then "." else JoinAll(rel)
  }

  // ---------------------------------------------------------------------
  // Splitting and joining on '/'
  // ---------------------------------------------------------------------

  lemma FindNone(s: string, c: char)
    requires c !in s
    ensures Find(s, c) == -1
  {
  }

  /** The first occurrence in a concatenation is the first in the left part, else the first in the right. */
  lemma {:induction false} FindAppend(a: string, t: string, c: char)
    ensures Find(a + t, c) ==
      if Find(a, c) >= 0 then Find(a, c) else if Find(t, c) >= 0 then |a| + Find(t, c) else -1
  {
    if a == [] {
      assert a + t == t;
    } else {
      assert (a + t)[0] == a[0];
      assert (a + t)[1..] == a[1..] + t;
      FindAppend(a[1..], t, c);
    }
  }

  /** Splitting at a separator splits each side. */
  lemma SplitOnConcat(a: string, b: string, sep: char)
    ensures SplitOn(a + [sep] + b, sep) == SplitOn(a, sep) + SplitOn(b, sep)
  {
    SplitOnJoint(a + [sep] + b, a, b, sep);
  }

  lemma {:induction false} SplitOnJoint(s: string, a: string, b: string, sep: char)
    requires s == a + [sep] + b
    ensures SplitOn(s, sep) == SplitOn(a, sep) + SplitOn(b, sep)
    decreases |a|
  {
    var k := Find(a, sep);
    if k < 0 {
      SplitAtJoint(a, b, sep);
      assert SplitOn(a, sep) == [a];
    } else {
      var rest := a[k + 1..];
      var head := [a[..k]];
      SplitBeforeJoint(a, b, sep);
      SplitOnJoint(rest + [sep] + b, rest, b, sep);
      assert SplitOn(a, sep) == head + SplitOn(rest, sep);
      Reassociate(head, SplitOn(rest + [sep] + b, sep), SplitOn(rest, sep), SplitOn(b, sep), SplitOn(a, sep));
    }
  }

  /** Prepending to the left part of a concatenation, stated over plain sequences. */
  lemma Reassociate<T>(head: seq<T>, joint: seq<T>, left: seq<T>, right: seq<T>, whole: seq<T>)
    requires joint == left + right && whole == head + left
    ensures head + joint == whole + right
  {
  }

  /** The first separator of `a + [sep] + b` is the first of `a`, else the joint. */
  lemma FindJoint(a: string, b: string, sep: char)
    ensures Find(a + [sep] + b, sep) == if Find(a, sep) < 0 then |a| else Find(a, sep)
  {
    assert a + [sep] + b == a + ([sep] + b);
    FindAppend(a, [sep] + b, sep);
    assert Find([sep] + b, sep) == 0;
  }

  /** Without a separator in `a`, the split happens at the joint. */
  lemma SplitAtJoint(a: string, b: string, sep: char)
    requires Find(a, sep) < 0
    ensures SplitOn(a + [sep] + b, sep) == [a] + SplitOn(b, sep)
  {
    var s := a + [sep] + b;
    FindJoint(a, b, sep);
    assert s[..|a|] == a && s[|a| + 1..] == b;
  }

  /** With a separator in `a`, the first piece comes from `a` alone. */
  lemma SplitBeforeJoint(a: string, b: string, sep: char)
    requires Find(a, sep) >= 0
    ensures SplitOn(a + [sep] + b, sep) == [a[..Find(a, sep)]] + SplitOn(a[Find(a, sep) + 1..] + [sep] + b, sep)
  {
    var s := a + [sep] + b;
    var k := Find(a, sep);
    FindJoint(a, b, sep);
    assert s[..k] == a[..k];
    assert s[k + 1..] == a[k + 1..] + [sep] + b;
  }

  /** Every piece of a split is free of the separator. */
  lemma {:induction false} SplitOnNoSep(s: string)
    ensures NoSlash(SplitOn(s, '/'))
    decreases |s|
  {
    FindIsFirst(s, '/');
    var k := Find(s, '/');
    if k >= 0 {
      SplitOnNoSep(s[k + 1..]);
      assert '/' !in s[..k] by {
        forall j | 0 <= j < k ensures s[..k][j] != '/' { assert s[..k][j] == s[j]; }
      }
    }
  }

  /** Joining parts free of the separator and splitting again gives the parts back. */
  lemma {:induction false} SplitOnJoinOn(cs: seq<string>)
    requires |cs| >= 1 && NoSlash(cs)
    ensures SplitOn(JoinOn(cs, '/'), '/') == cs
  {
    FindNone(cs[0], '/');
    if |cs| > 1 {
      assert NoSlash(cs[1..]) by {
        forall i | 0 <= i < |cs[1..]| ensures '/' !in cs[1..][i] { assert cs[1..][i] == cs[i + 1]; }
      }
      SplitOnJoinOn(cs[1..]);
      SplitOnConcat(cs[0], JoinOn(cs[1..], '/'), '/');
    }
  }

  /** The pieces of a rooted path: one or two empty pieces for the root, then the components. */
  lemma SplitRooted(root: string, cs: seq<string>)
    requires root == "/" || root == "//"
    requires NoSlash(cs)
    ensures SplitOn(root + JoinSlash(cs), '/') ==
      (if root == "/" then [""] else ["", ""]) + (if cs == [] then [""] else cs)
  {
    var tail := JoinSlash(cs);
    FindNone("", '/');
    assert SplitOn(tail, '/') == (if cs == [] then [""] else cs) by {
      if cs != [] { SplitOnJoinOn(cs); }
    }
    SplitOnConcat("", tail, '/');
    assert "/" + tail == "" + "/" + tail;
    if root == "//" {
      assert root + tail == "" + "/" + ("/" + tail);
      SplitOnConcat("", "/" + tail, '/');
    }
  }

  // ---------------------------------------------------------------------
  // normpath
  // ---------------------------------------------------------------------

  lemma ResolveSnoc(xs: seq<string>, c: string)
    ensures Resolve(xs + [c]) == Push(Resolve(xs), c)
  {
    assert (xs + [c])[..|xs|] == xs;
  }

  /** Names after anything are kept as they are. */
  lemma {:induction false} ResolveAppendNames(xs: seq<string>, ns: seq<string>)
    requires AllNames(ns)
    ensures Resolve(xs + ns) == Resolve(xs) + ns
    decreases |ns|
  {
    if ns == [] {
      assert xs + ns == xs;
    } else {
      var init := ns[..|ns| - 1];
      var last := ns[|ns| - 1];
      assert xs + ns == (xs + init) + [last];
      ResolveSnoc(xs + init, last);
      ResolveAppendNames(xs, init);
      assert init + [last] == ns;
    }
  }

  /** The kept components are names. */
  lemma {:induction false} ResolveYieldsNames(comps: seq<string>)
    requires NoSlash(comps)
    ensures AllNames(Resolve(comps))
  {
    if comps != [] {
      var init := comps[..|comps| - 1];
      assert NoSlash(init) by {
        forall i | 0 <= i < |init| ensures '/' !in init[i] { assert init[i] == comps[i]; }
      }
      ResolveYieldsNames(init);
    }
  }

  lemma NamesArePresent(cs: seq<string>)
    requires AllNames(cs)
    ensures forall i :: 0 <= i < |cs| ==> NonEmptyPart(cs[i]) == Some(cs[i])
  {
  }

  /** Dropping empty parts leaves names untouched. */
  lemma {:induction false} PartsOfNames(cs: seq<string>)
    requires AllNames(cs)
    ensures Collect(cs, NonEmptyPart) == cs
  {
    if cs != [] {
      PartsOfNames(cs[..|cs| - 1]);
    }
  }

  /** The components of `abspath(path)` are names. */
  lemma AbsComponentsAreNames(cwd: string, path: string)
    requires StartsWith(cwd, "/")
    ensures AllNames(AbsComponents(cwd, path))
  {
    SplitOnNoSep(Absolute(cwd, path));
    ResolveYieldsNames(SplitOn(Absolute(cwd, path), '/'));
  }

  /** The leading empty pieces of a rooted path contribute nothing. */
  lemma RootPieces(front: seq<string>)
    requires front == [""] || front == ["", ""]
    ensures Collect(front, NonEmptyPart) == [] && Resolve(front) == []
  {
    assert front[..|front| - 1] == [] || front[..|front| - 1] == [""];
    assert [""][..0] == [];
  }

  /** Splitting `abspath(path)` again and dropping empty parts gives its components back. */
  lemma PartsOfAbsPath(cwd: string, path: string)
    requires StartsWith(cwd, "/")
    ensures Parts(AbsPath(cwd, path)) == AbsComponents(cwd, path)
  {
    var cs := AbsComponents(cwd, path);
    AbsComponentsAreNames(cwd, path);
    var root := Root(Absolute(cwd, path));
    SplitRooted(root, cs);
    var front: seq<string> := if root == "/" then [""] else ["", ""];
    var body: seq<string> := if cs == [] then [""] else cs;
    CollectAppend(front, body, NonEmptyPart);
    RootPieces(front);
    if cs == [] {
      RootPieces([""]);
    } else {
      PartsOfNames(cs);
    }
  }

  /** A root followed by names keeps its root. */
  lemma RootOfRooted(root: string, cs: seq<string>)
    requires root == "/" || root == "//"
    requires AllNames(cs)
    ensures Root(root + JoinSlash(cs)) == root
  {
    if cs != [] {
      var p := root + JoinOn(cs, '/');
      assert cs[0][0] in cs[0];
      assert p[|root|] == cs[0][0];
    }
  }

  /** A root followed by names is already normalised: its components come back. */
  lemma NormalisedRooted(root: string, cs: seq<string>)
    requires root == "/" || root == "//"
    requires AllNames(cs)
    ensures Resolve(SplitOn(root + JoinSlash(cs), '/')) == cs
  {
    SplitRooted(root, cs);
    var front: seq<string> := if root == "/" then [""] else ["", ""];
    RootPieces(front);
    if cs == [] {
      ResolveSnoc(front, "");
    } else {
      ResolveAppendNames(front, cs);
    }
  }

  /** `abspath` is idempotent. */
  lemma AbsPathIdempotent(cwd: string, path: string)
    requires StartsWith(cwd, "/")
    ensures AbsPath(cwd, AbsPath(cwd, path)) == AbsPath(cwd, path)
  {
    var p := AbsPath(cwd, path);
    var cs := AbsComponents(cwd, path);
    var root := Root(Absolute(cwd, path));
    assert p == root + JoinSlash(cs);
    AbsComponentsAreNames(cwd, path);
    RootOfRooted(root, cs);
    NormalisedRooted(root, cs);
    assert Absolute(cwd, p) == p;
  }

  // ---------------------------------------------------------------------
  // relpath
  // ---------------------------------------------------------------------

  /** A path relative to itself is `.`. */
  lemma RelPathSelf(cwd: string, path: string)
    requires StartsWith(cwd, "/") && path != []
    ensures RelPath(cwd, path, path) == "."
  {
    var ps := Parts(AbsPath(cwd, path));
    assert ps[|ps|..] == [];
  }

  /** `'/'.join` of names starts and ends with a name character. */
  lemma {:induction false} JoinOnNames(ns: seq<string>)
    requires |ns| >= 1 && AllNames(ns)
    ensures JoinOn(ns, '/') != [] && JoinOn(ns, '/')[|JoinOn(ns, '/')| - 1] != '/'
  {
    if |ns| > 1 {
      assert AllNames(ns[1..]) by {
        forall i | 0 <= i < |ns[1..]| ensures IsName(ns[1..][i]) { assert ns[1..][i] == ns[i + 1]; }
      }
      JoinOnNames(ns[1..]);
    } else {
      assert ns[0][|ns[0]| - 1] in ns[0];
    }
  }

  lemma {:induction false} JoinOnSnoc(init: seq<string>, last: string)
    requires |init| >= 1
    ensures JoinOn(init + [last], '/') == JoinOn(init, '/') + "/" + last
    decreases |init|
  {
    if |init| > 1 {
      JoinOnSnoc(init[1..], last);
      assert (init + [last])[1..] == init[1..] + [last];
    }
  }

  /** Joining names from the left with `os.path.join` is `'/'.join`. */
  lemma {:induction false} JoinAllNames(ns: seq<string>)
    requires |ns| >= 1 && AllNames(ns)
    ensures JoinAll(ns) == JoinOn(ns, '/')
  {
    if |ns| > 1 {
      var init := ns[..|ns| - 1];
      var last := ns[|ns| - 1];
      assert AllNames(init) by {
        forall i | 0 <= i < |init| ensures IsName(init[i]) { assert init[i] == ns[i]; }
      }
      JoinAllNames(init);
      JoinOnNames(init);
      assert last[0] in last;
      JoinPlain(JoinOn(init, '/'), last);
      InitAndLast(ns);
      JoinOnSnoc(init, last);
    }
  }

  /** A non-empty sequence is all but its last element followed by the last one. */
  lemma InitAndLast<T>(xs: seq<T>)
    requires xs != []
    ensures xs == xs[..|xs| - 1] + [xs[|xs| - 1]]
  {
  }

  /** Joining a file name onto a directory path without a trailing `/` puts one `/` between them. */
  lemma JoinPlain(a: string, b: string)
    requires a != [] && a[|a| - 1] != '/' && b != [] && b[0] != '/'
    ensures Join(a, b) == a + "/" + b
  {
    NotStartsWithAt(b, "/", 0);
    assert !EndsWith(a, "/") by {
      assert a[|a| - 1..][0] == a[|a| - 1];
    }
  }


  /** `'/'.join` of names does not start with a slash. */
  lemma JoinOnNamesRelative(ns: seq<string>)
    requires |ns| >= 1 && AllNames(ns)
    ensures !StartsWith(JoinOn(ns, '/'), "/")
  {
    var rel := JoinOn(ns, '/');
    assert ns[0] != [] && ns[0][0] in ns[0];
    assert rel[0] == ns[0][0];
    assert rel[..1] == [rel[0]];
  }

  /** A trailing slash adds only an empty component. */
  lemma ResolveTrailingSlash(sp: string)
    ensures Resolve(SplitOn(sp + "/", '/')) == Resolve(SplitOn(sp, '/'))
  {
    assert sp + "/" == sp + "/" + "";
    SplitOnConcat(sp, "", '/');
    FindNone("", '/');
    ResolveSnoc(SplitOn(sp, '/'), "");
  }

  /** Names joined after a directory and a slash extend its components. */
  lemma ResolveChild(sp: string, ns: seq<string>)
    requires |ns| >= 1 && AllNames(ns)
    ensures Resolve(SplitOn(sp + "/" + JoinOn(ns, '/'), '/')) == Resolve(SplitOn(sp, '/')) + ns
  {
    SplitOnConcat(sp, JoinOn(ns, '/'), '/');
    SplitOnJoinOn(ns);
    ResolveAppendNames(SplitOn(sp, '/'), ns);
  }

  /** The components of an absolute directory with names joined onto it. */
  lemma ComponentsOfChild(cwd: string, start: string, ns: seq<string>)
    requires StartsWith(cwd, "/") && StartsWith(start, "/")
    requires |ns| >= 1 && AllNames(ns)
    ensures StartsWith(Join(start, JoinOn(ns, '/')), "/")
    ensures AbsComponents(cwd, Join(start, JoinOn(ns, '/'))) == AbsComponents(cwd, start) + ns
  {
    var rel := JoinOn(ns, '/');
    JoinOnNamesRelative(ns);
    var path := Join(start, rel);
    if EndsWith(start, "/") {
      var sp := start[..|start| - 1];
      assert start == sp + "/";
      JoinAfterSlash(sp, rel);
      ResolveTrailingSlash(sp);
      ResolveChild(sp, ns);
    } else {
      assert path == start + "/" + rel;
      ResolveChild(start, ns);
    }
    assert StartsWith(path, "/");
    AbsoluteOfAbsolute(cwd, path);
    AbsoluteOfAbsolute(cwd, start);
  }

  lemma JoinAfterSlash(sp: string, rel: string)
    requires !StartsWith(rel, "/")
    ensures Join(sp + "/", rel) == sp + "/" + rel
  {
    assert EndsWith(sp + "/", "/");
  }

  /** An absolute path is left as it is by `Absolute`. */
  lemma AbsoluteOfAbsolute(cwd: string, path: string)
    requires StartsWith(cwd, "/") && StartsWith(path, "/")
    ensures Absolute(cwd, path) == path
  {
  }

  /**
   * A file under a normalised absolute directory, reached by joining names
   * onto it, is reported relative to that directory as exactly those names.
   */
  lemma RelPathOfChild(cwd: string, start: string, ns: seq<string>)
    requires StartsWith(cwd, "/") && AbsPath(cwd, start) == start
    requires |ns| >= 1 && AllNames(ns)
    ensures RelPath(cwd, Join(start, JoinOn(ns, '/')), start) == JoinOn(ns, '/')
  {
    var path := Join(start, JoinOn(ns, '/'));
    ComponentsOfChild(cwd, start, ns);
    var sl := AbsComponents(cwd, start);
    PartsOfAbsPath(cwd, start);
    PartsOfAbsPath(cwd, path);
    var i := CommonPrefixLength(sl, sl + ns);
    assert forall k :: 0 <= k < |sl| ==> (sl + ns)[k] == sl[k];
    assert Repeat("..", 0) + (sl + ns)[i..] == ns;
    JoinAllNames(ns);
  }
}
