/** Go's `path.Clean` and `path.Join`, stated on the `/`-separated segments of a path. */
module GoPath {
  import opened GoStrings

  /** A segment `Clean` keeps as it is. */
  predicate SimpleName(n: string) {
    n != "" && n != "." && n != ".." && '/' !in n
  }

  /**
   * Processes segments left to right: empty and "." segments vanish, ".." removes the last
   * kept name, and a ".." that has nothing to remove is dropped at the root and kept otherwise.
   */
  function Resolve(rooted: bool, segs: seq<string>, acc: seq<string>): seq<string>
    decreases |segs|
  {
    if segs == [] then acc
    else
      var s := segs[0];
      if s == "" || s == "." then Resolve(rooted, segs[1..], acc)
      else if s == ".." then
        if |acc| > 0 && acc[|acc| - 1] != ".." then Resolve(rooted, segs[1..], acc[..|acc| - 1])
        else if rooted then Resolve(rooted, segs[1..], acc)
        else Resolve(rooted, segs[1..], acc + [".."])
      else Resolve(rooted, segs[1..], acc + [s])
  }

  /** `path.Clean`. */
  function Clean(p: string): string {
    if p == "" then "."
    else
      var rooted := p[0] == '/';
      var segs := Resolve(rooted, Split(p, '/'), []);
      if rooted then "/" + JoinSep(segs, "/")
      else if segs == [] then "." else JoinSep(segs, "/")
  }

  /** `path.Join`: the elements from the first non-empty one, joined with "/" and cleaned. */
  function Join(elems: seq<string>): string
    decreases |elems|
  {
    if elems == [] then ""
    else if elems[0] != "" then Clean(JoinSep(elems, "/"))
    else Join(elems[1..])
  }

  lemma {:induction false} ResolveSimple(rooted: bool, segs: seq<string>, acc: seq<string>)
    requires forall i :: 0 <= i < |segs| ==> SimpleName(segs[i])
    ensures Resolve(rooted, segs, acc) == acc + segs
    decreases |segs|
  {
    if segs != [] {
      ResolveSimple(rooted, segs[1..], acc + [segs[0]]);
      assert acc + [segs[0]] + segs[1..] == acc + segs;
    }
  }

  lemma SplitAfterSlash(t: string)
    ensures Split("/" + t, '/') == [""] + Split(t, '/')
  {
    assert ("/" + t)[1..] == t;
  }

  /** An absolute path made of plain names is already clean. */
  lemma CleanRootedSimple(xs: seq<string>)
    requires |xs| >= 1
    requires forall i :: 0 <= i < |xs| ==> SimpleName(xs[i])
    ensures Clean("/" + JoinSep(xs, "/")) == "/" + JoinSep(xs, "/")
  {
    var j := JoinSep(xs, "/");
    SplitAfterSlash(j);
    assert forall i :: 0 <= i < |xs| ==> '/' !in xs[i];
    SplitJoin(xs, '/');
    ResolveSimple(true, xs, []);
    assert ([""] + xs)[1..] == xs;
    assert Resolve(true, [""] + xs, []) == xs;
  }

  lemma AllSimpleAppend(a: seq<string>, b: seq<string>)
    requires forall i :: 0 <= i < |a| ==> SimpleName(a[i])
    requires forall i :: 0 <= i < |b| ==> SimpleName(b[i])
    ensures forall i :: 0 <= i < |a + b| ==> SimpleName((a + b)[i])
  {
  }

  lemma Associate(w: string, x: string, y: string, z: string)
    ensures w + x + y + z == w + (x + y + z)
  {
  }

  lemma JoinOnto(home: string, names: seq<string>)
    requires home != "" && |names| >= 1
    ensures Join([home] + names) == Clean(home + "/" + JoinSep(names, "/"))
  {
    assert ([home] + names)[0] == home;
    JoinSepAppend([home], names, "/");
  }

  /**
   * Joining plain names onto an absolute path made of plain names only puts "/" between
   * them: `Clean` has nothing to remove.
   */
  lemma JoinUnder(hs: seq<string>, names: seq<string>)
    requires |hs| >= 1 && |names| >= 1
    requires forall i :: 0 <= i < |hs| ==> SimpleName(hs[i])
    requires forall i :: 0 <= i < |names| ==> SimpleName(names[i])
    ensures Join(["/" + JoinSep(hs, "/")] + names) == "/" + JoinSep(hs + names, "/")
  {
    var a, b := JoinSep(hs, "/"), JoinSep(names, "/");
    var home := "/" + a;
    var whole := "/" + JoinSep(hs + names, "/");
    JoinOnto(home, names);
    JoinSepAppend(hs, names, "/");
    Associate("/", a, "/", b);
    assert home + "/" + b == whole;
    AllSimpleAppend(hs, names);
    CleanRootedSimple(hs + names);
    assert Clean(whole) == whole;
  }

  /** The absolute path whose segments are `xs`. */
  function Rooted(xs: seq<string>): string {
    "/" + JoinSep(xs, "/")
  }

  lemma RootedAppend(xs: seq<string>, ys: seq<string>)
    requires |xs| >= 1 && |ys| >= 1
    ensures Rooted(xs + ys) == Rooted(xs) + "/" + JoinSep(ys, "/")
  {
    JoinSepAppend(xs, ys, "/");
    Associate("/", JoinSep(xs, "/"), "/", JoinSep(ys, "/"));
  }
}
