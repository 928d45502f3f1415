// utils/fswriter.go: the path that OSWriter.Create opens for a file name. Paths are those of Go's package path:
// elements between slashes.

module FileNames {
  // strings.Split(s, "/").
  function Split(s: string): (r: seq<string>)
    ensures |r| > 0
  {
    if s == "" then [""]
    else if s[0] == '/' then [""] + Split(s[1..])
    else
      var r := Split(s[1..]);
      [[s[0]] + r[0]] + r[1..]
  }

  predicate NoSlash(s: string) {
    forall i :: 0 <= i < |s| ==> s[i] != '/'
  }

  // An element of a cleaned path.
  predicate Proper(es: seq<string>) {
    forall i :: 0 <= i < |es| ==> es[i] != "" && NoSlash(es[i])
  }

  // ---- path.Clean ----

  datatype Path = Path(rooted: bool, elems: seq<string>)

  // One element more: "." stays, and ".." goes back, which it cannot do behind the root.
  function Enter(rooted: bool, elems: seq<string>, e: string): seq<string> {
    if e == "" || e == "." then elems
    else if e == ".." then
      if elems != [] && elems[|elems| - 1] != ".." then elems[..|elems| - 1]
      else if rooted then elems else elems + [".."]
    else elems + [e]
  }

  function Walk(rooted: bool, elems: seq<string>, es: seq<string>): seq<string>
    decreases |es|
  {
    if es == [] then elems else Walk(rooted, Enter(rooted, elems, es[0]), es[1..])
  }

  predicate Rooted(s: string) {
    s != "" && s[0] == '/'
  }

  function Clean(s: string): Path {
    Path(Rooted(s), Walk(Rooted(s), [], Split(s)))
  }

  function Slashed(es: seq<string>): string {
    if es == [] then "" else if |es| == 1 then es[0] else es[0] + "/" + Slashed(es[1..])
  }

  // The string that path.Clean gives.
  function Show(p: Path): string {
    if p.rooted then "/" + Slashed(p.elems) else if p.elems == [] then "." else Slashed(p.elems)
  }

  // path.Join, of a second path that is not empty.
  function Join(base: string, x: string): string {
    Show(Clean(if base == "" then x else base + "/" + x))
  }

  // ---- OSWriter.Create ----

  // strings.ReplaceAll(s, "../", "").
  function Strip(s: string): string {
    if |s| < 3 then s
    else if s[..3] == "../" then Strip(s[3..])
    else [s[0]] + Strip(s[1..])
  }

  // The path that os.Create is given; `base` is the base of the writer with slashes for backslashes.
  function Opened(base: string, filename: string): string {
    Join(base, Show(Clean(Strip(filename))))
  }

  // ---- names that differ behind their last slash ----

  // What is behind the last slash of a name that went through Strip.
  function Leaf(name: string): string {
    var es := Split(Strip(name));
    es[|es| - 1]
  }

  // The folder that Create makes for the files of a name.
  function Folder(base: string, name: string): Path {
    var s := Strip(name);
    var es := Split(s);
    var before := Walk(Rooted(s), [], es[..|es| - 1]);
    if base == "" then Path(Rooted(s), Walk(Rooted(s), [], before))
    else Path(Rooted(base), Walk(Rooted(base), Walk(Rooted(base), [], Split(base)), before))
  }

  lemma {:induction false} StripNone(y: string)
    requires NoSlash(y)
    ensures Strip(y) == y
  {
    if |y| >= 3 {
      assert y[..3][2] == y[2] && "../"[2] == '/';
      StripNone(y[1..]);
    }
  }

  // Nothing is stripped behind the last slash.
  lemma {:induction false} StripAppend(x: string, y: string)
    requires NoSlash(y)
    ensures Strip(x + y) == Strip(x) + y
    decreases |x|
  {
    if x == "" {
      assert x + y == y;
      StripNone(y);
    } else {
      var s := x + y;
      assert s[1..] == x[1..] + y;
      if |x| >= 3 {
        assert s[..3] == x[..3] && s[3..] == x[3..] + y;
        if x[..3] == "../" { StripAppend(x[3..], y); } else { StripAppend(x[1..], y); }
      } else {
        StripAppend(x[1..], y);
        assert |s| >= 3 ==> s[..3][2] == s[2] == y[2 - |x|] && "../"[2] == '/';
        assert Strip(x) == x && Strip(x[1..]) == x[1..];
        assert |s| >= 3 ==> Strip(s) == [s[0]] + Strip(s[1..]);
      }
    }
  }

  lemma {:induction false} SplitNone(y: string)
    requires NoSlash(y)
    ensures Split(y) == [y]
    ensures NoSlash("")
  {
    if y != "" {
      SplitNone(y[1..]);
      assert [y[0]] + y[1..] == y;
    }
  }

  lemma SplitNext(x: string)
    requires x != ""
    ensures var r := Split(x[1..]);
            Split(x) == if x[0] == '/' then [""] + r else [[x[0]] + r[0]] + r[1..]
  {
  }

  lemma FirstLonger(c: string, r: seq<string>, y: string)
    requires |r| > 1
    ensures var n := |r| - 1;
            var s := r[..n] + [r[n] + y];
            var es := [c + r[0]] + r[1..];
            |es| == |r| && [c + s[0]] + s[1..] == es[..n] + [es[n] + y]
  {
  }

  lemma {:induction false} SplitAppend(x: string, y: string)
    requires NoSlash(y)
    ensures var es := Split(x); Split(x + y) == es[..|es| - 1] + [es[|es| - 1] + y]
    decreases |x|
  {
    hide *;
    if x == "" {
      assert x + y == y;
      SplitNone(y);
      SplitNone("");
    } else {
      var r, s := Split(x[1..]), Split(x[1..] + y);
      assert (x + y)[1..] == x[1..] + y && (x + y)[0] == x[0];
      SplitAppend(x[1..], y);
      SplitNext(x);
      SplitNext(x + y);
      if x[0] == '/' {
        assert ([""] + r)[..|r|] == [""] + r[..|r| - 1];
      } else if |r| == 1 {
        assert [x[0]] + (r[0] + y) == [x[0]] + r[0] + y;
        assert s == [r[0] + y];
      } else {
        FirstLonger([x[0]], r, y);
      }
    }
  }

  lemma {:induction false} SplitSlash(x: string, y: string)
    ensures Split(x + "/" + y) == Split(x) + Split(y)
    decreases |x|
  {
    var s := x + "/" + y;
    if x == "" {
      assert s[1..] == y;
    } else {
      assert s[1..] == x[1..] + "/" + y;
      SplitSlash(x[1..], y);
    }
  }

  lemma {:induction false} SplitProper(s: string)
    ensures forall i :: 0 <= i < |Split(s)| ==> NoSlash(Split(s)[i])
  {
    if s != "" { SplitProper(s[1..]); }
  }

  lemma {:induction false} SplitSlashed(es: seq<string>)
    requires es != [] && Proper(es)
    ensures Split(Slashed(es)) == es
    decreases |es|
  {
    if |es| == 1 {
      SplitNone(es[0]);
    } else {
      SplitNone(es[0]);
      SplitSlashed(es[1..]);
      SplitSlash(es[0], Slashed(es[1..]));
    }
  }

  // The elements of a string that path.Clean gave; in front of a root there is an empty one.
  lemma SplitShow(p: Path)
    requires p.elems != [] && Proper(p.elems)
    ensures Split(Show(p)) == (if p.rooted then [""] else []) + p.elems
    ensures Rooted(Show(p)) <==> p.rooted
  {
    SplitSlashed(p.elems);
    assert p.elems[0] != "" && NoSlash(p.elems[0]);
    if p.rooted {
      SplitSlash("", Slashed(p.elems));
      assert "" + "/" + Slashed(p.elems) == "/" + Slashed(p.elems);
    }
  }

  // Two such strings are equal only if their paths are.
  lemma ShowInjective(p: Path, q: Path)
    requires p.elems != [] && q.elems != [] && Proper(p.elems) && Proper(q.elems)
    ensures Show(p) == Show(q) <==> p == q
  {
    SplitShow(p);
    SplitShow(q);
    hide Show, Split;
    if Show(p) == Show(q) && p.rooted {
      assert p.elems == ([""] + p.elems)[1..] && q.elems == ([""] + q.elems)[1..];
    } else {
      assert [] + p.elems == p.elems && [] + q.elems == q.elems;
    }
  }

  lemma {:induction false} WalkAppend(rooted: bool, elems: seq<string>, x: seq<string>, y: seq<string>)
    ensures Walk(rooted, elems, x + y) == Walk(rooted, Walk(rooted, elems, x), y)
    decreases |x|
  {
    if x == [] {
      assert x + y == y;
    } else {
      assert (x + y)[1..] == x[1..] + y;
      WalkAppend(rooted, Enter(rooted, elems, x[0]), x[1..], y);
    }
  }

  lemma {:induction false} WalkProper(rooted: bool, elems: seq<string>, es: seq<string>)
    requires Proper(elems) && forall i :: 0 <= i < |es| ==> NoSlash(es[i])
    ensures Proper(Walk(rooted, elems, es))
    decreases |es|
  {
    if es != [] { WalkProper(rooted, Enter(rooted, elems, es[0]), es[1..]); }
  }

  // A name for a file: not empty, and no dots only.
  predicate IsName(e: string) {
    e != "" && e != "." && e != ".." && NoSlash(e)
  }

  lemma WalkName(rooted: bool, elems: seq<string>, es: seq<string>, e: string)
    requires IsName(e)
    ensures Walk(rooted, elems, es + [e]) == Walk(rooted, elems, es) + [e]
  {
    WalkAppend(rooted, elems, es, [e]);
    var now := Walk(rooted, elems, es);
    assert [e][1..] == [];
    assert Walk(rooted, now, [e]) == Walk(rooted, now + [e], []);
  }

  // A suffix that makes a file name of whatever it is put behind.
  predicate IsSuffix(suffix: string) {
    NoSlash(suffix) && |suffix| > 0 && suffix[|suffix| - 1] == 'g'
  }

  lemma LeafName(name: string, suffix: string)
    requires IsSuffix(suffix)
    ensures IsName(Leaf(name) + suffix)
  {
    SplitProper(Strip(name));
    var e := Leaf(name) + suffix;
    assert e[|e| - 1] == 'g';
  }

  // What path.Clean makes of a file name.
  lemma CleanFile(name: string, suffix: string)
    requires IsSuffix(suffix)
    ensures var s := Strip(name);
            var es := Split(s);
            var before := Walk(Rooted(s), [], es[..|es| - 1]);
            Clean(Strip(name + suffix)) == Path(Rooted(s), before + [Leaf(name) + suffix]) && Proper(before)
  {
    var s := Strip(name);
    var es := Split(s);
    StripAppend(name, suffix);
    SplitAppend(s, suffix);
    LeafName(name, suffix);
    WalkName(Rooted(s), [], es[..|es| - 1], Leaf(name) + suffix);
    SplitProper(s);
    WalkProper(Rooted(s), [], es[..|es| - 1]);
    assert Rooted(s + suffix) == Rooted(s);
    hide Strip, Split, Walk;
  }

  lemma FolderProper(base: string, name: string)
    ensures Proper(Folder(base, name).elems)
  {
    var s := Strip(name);
    var es := Split(s);
    var before := Walk(Rooted(s), [], es[..|es| - 1]);
    SplitProper(s);
    SplitProper(base);
    hide Strip, Split, Walk;
    WalkProper(Rooted(s), [], es[..|es| - 1]);
    WalkProper(Rooted(s), [], before);
    WalkProper(Rooted(base), [], Split(base));
    WalkProper(Rooted(base), Walk(Rooted(base), [], Split(base)), before);
  }

  lemma WalkRoot(rooted: bool, elems: seq<string>, root: seq<string>, es: seq<string>)
    requires root == [] || root == [""]
    ensures Walk(rooted, elems, root + es) == Walk(rooted, elems, es)
  {
    if root == [] {
      assert root + es == es;
    } else {
      assert (root + es)[1..] == es;
    }
  }

  // Create opens the leaf and the suffix in the folder of the name.
  lemma OpenedInFolder(base: string, name: string, suffix: string)
    requires IsSuffix(suffix)
    ensures var f := Folder(base, name);
            Opened(base, name + suffix) == Show(Path(f.rooted, f.elems + [Leaf(name) + suffix]))
  {
    var s := Strip(name);
    var es := Split(s);
    var before := Walk(Rooted(s), [], es[..|es| - 1]);
    var leaf := Leaf(name) + suffix;
    var p := Path(Rooted(s), before + [leaf]);
    var x := Show(p);
    CleanFile(name, suffix);
    LeafName(name, suffix);
    hide Strip, Split, Walk, Leaf, Show;
    SplitShow(p);
    var root := if p.rooted then [""] else [];
    if base == "" {
      WalkRoot(Rooted(s), [], root, before + [leaf]);
      WalkName(Rooted(s), [], before, leaf);
    } else {
      var r, b := Rooted(base), Split(base);
      SplitSlash(base, x);
      WalkAppend(r, [], b, root + (before + [leaf]));
      WalkRoot(r, Walk(r, [], b), root, before + [leaf]);
      WalkName(r, Walk(r, [], b), before, leaf);
      assert Rooted(base + "/" + x) == r;
    }
  }

  lemma ProperMore(es: seq<string>, e: string)
    requires Proper(es) && IsName(e)
    ensures Proper(es + [e])
  {
  }

  lemma LastSame(a: seq<string>, x: string, b: seq<string>, y: string)
    ensures a + [x] == b + [y] <==> a == b && x == y
  {
    if a + [x] == b + [y] {
      assert a == (a + [x])[..|a|] && b == (b + [y])[..|b|];
      assert (a + [x])[|a|] == x && (b + [y])[|b|] == y;
    }
  }

  // Two file names open one path if and only if they have one folder and are equal behind it.
  lemma OpenedSameIff(base: string, m: string, x: string, n: string, y: string)
    requires IsSuffix(x) && IsSuffix(y)
    ensures Opened(base, m + x) == Opened(base, n + y) <==>
            Folder(base, m) == Folder(base, n) && Leaf(m) + x == Leaf(n) + y
  {
    hide *;
    var f, g := Folder(base, m), Folder(base, n);
    OpenedInFolder(base, m, x);
    OpenedInFolder(base, n, y);
    FolderProper(base, m);
    FolderProper(base, n);
    LeafName(m, x);
    LeafName(n, y);
    ProperMore(f.elems, Leaf(m) + x);
    ProperMore(g.elems, Leaf(n) + y);
    ShowInjective(Path(f.rooted, f.elems + [Leaf(m) + x]), Path(g.rooted, g.elems + [Leaf(n) + y]));
    LastSame(f.elems, Leaf(m) + x, g.elems, Leaf(n) + y);
  }

  // Without a slash a name is its own leaf, and its folder is that of all the others.
  lemma FlatName(base: string, name: string)
    requires NoSlash(name)
    ensures Leaf(name) == name && Folder(base, name) == Folder(base, "")
  {
    StripNone(name);
    SplitNone(name);
  }

  // ---- what path.Clean is documented to do ----

  lemma {:induction false} SplitJoins(s: string)
    ensures Slashed(Split(s)) == s && forall i :: 0 <= i < |Split(s)| ==> NoSlash(Split(s)[i])
  {
    SplitProper(s);
    if s != "" {
      SplitJoins(s[1..]);
      var r := Split(s[1..]);
      if s[0] == '/' {
        assert ([""] + r)[1..] == r && "" + "/" + Slashed(r) == ['/'] + s[1..];
      } else if |r| > 1 {
        var es := [[s[0]] + r[0]] + r[1..];
        assert es[1..] == r[1..];
        assert [s[0]] + r[0] + "/" + Slashed(r[1..]) == [s[0]] + (r[0] + "/" + Slashed(r[1..]));
      }
    }
  }

  // No element is empty or a dot, and ".." is found only at the beginning of a path that is not rooted.
  predicate Normal(p: Path) {
    && Proper(p.elems)
    && (forall i :: 0 <= i < |p.elems| ==> p.elems[i] != ".")
    && (forall i, j :: 0 <= j <= i < |p.elems| && p.elems[i] == ".." ==> !p.rooted && p.elems[j] == "..")
  }

  lemma EnterNormal(rooted: bool, elems: seq<string>, e: string)
    requires Normal(Path(rooted, elems)) && NoSlash(e)
    ensures Normal(Path(rooted, Enter(rooted, elems, e)))
  {
    if e == ".." && !rooted && elems != [] && elems[|elems| - 1] == ".." {
      var r := elems + [".."];
      assert forall j :: 0 <= j < |elems| ==> elems[j] == "..";
      assert Enter(rooted, elems, e) == r && forall j :: 0 <= j < |r| ==> r[j] == "..";
    }
  }

  lemma {:induction false} WalkNormal(rooted: bool, elems: seq<string>, es: seq<string>)
    requires Normal(Path(rooted, elems)) && forall i :: 0 <= i < |es| ==> NoSlash(es[i])
    ensures Normal(Path(rooted, Walk(rooted, elems, es)))
    decreases |es|
  {
    if es != [] {
      EnterNormal(rooted, elems, es[0]);
      hide Normal, Enter;
      WalkNormal(rooted, Enter(rooted, elems, es[0]), es[1..]);
    }
  }

  // A cleaned path is in normal form, and rooted if the path was.
  lemma CleanIsNormal(s: string)
    ensures Normal(Clean(s)) && (Clean(s).rooted <==> s != "" && s[0] == '/')
    ensures Show(Clean("")) == "."
  {
    SplitProper(s);
    WalkNormal(Rooted(s), [], Split(s));
    hide Normal, Split;
    SplitNone("");
  }

  lemma {:induction false} WalkFixed(p: Path, k: nat)
    requires Normal(p) && k <= |p.elems|
    ensures Walk(p.rooted, p.elems[..k], p.elems[k..]) == p.elems
    decreases |p.elems| - k
  {
    if k < |p.elems| {
      var e := p.elems[k];
      assert p.elems[k..][0] == e && p.elems[k..][1..] == p.elems[k + 1..];
      assert p.elems[..k] + [e] == p.elems[..k + 1];
      assert Enter(p.rooted, p.elems[..k], e) == p.elems[..k + 1];
      WalkFixed(p, k + 1);
    } else {
      assert p.elems[..k] == p.elems;
    }
  }

  lemma NothingIsClean(rooted: bool)
    ensures Clean(Show(Path(rooted, []))) == Path(rooted, [])
  {
    SplitNone(".");
    SplitNone("");
    SplitSlash("", "");
    assert "" + "/" + "" == "/" && [""] + [""] == ["", ""];
    hide Split;
    assert ["."][1..] == [] && ["", ""][1..] == [""] && [""][1..] == [];
    assert Walk(true, [], ["", ""]) == Walk(true, [], [""]);
  }

  // A path in normal form stays as it is.
  lemma NormalIsClean(p: Path)
    requires Normal(p)
    ensures Clean(Show(p)) == p
  {
    if p.elems == [] {
      NothingIsClean(p.rooted);
    } else {
      SplitShow(p);
      WalkFixed(p, 0);
      hide Normal, Show, Split;
      WalkRoot(p.rooted, [], if p.rooted then [""] else [], p.elems);
      assert p.elems[..0] == [] && p.elems[0..] == p.elems;
    }
  }

  // What stands between `x` and `y` walks nowhere.
  lemma CleanSame(x: string, es: seq<string>, y: string, s: string)
    requires Split(s) == Split(x) + es + Split(y) && Rooted(s) == Rooted(x + "/" + y)
    requires forall elems :: Proper(elems) ==> Walk(Rooted(s), elems, es) == elems
    ensures Clean(s) == Clean(x + "/" + y)
  {
    var r := Rooted(s);
    SplitProper(x);
    SplitSlash(x, y);
    WalkProper(r, [], Split(x));
    WalkAppend(r, [], Split(x) + es, Split(y));
    WalkAppend(r, [], Split(x), es);
    WalkAppend(r, [], Split(x), Split(y));
    hide Walk, Split, Proper;
  }

  lemma Nowhere(e: string)
    requires e == "" || e == "."
    ensures forall rooted, elems :: Walk(rooted, elems, [e]) == elems
  {
    forall rooted, elems ensures Walk(rooted, elems, [e]) == elems {
      assert [e][1..] == [];
    }
  }

  lemma NowhereTo(e: string)
    requires IsName(e)
    ensures forall rooted, elems :: Walk(rooted, elems, [e, ".."]) == elems
  {
    forall rooted, elems ensures Walk(rooted, elems, [e, ".."]) == elems {
      assert [e, ".."][1..] == [".."] && [".."][1..] == [];
      assert (elems + [e])[..|elems|] == elems;
      assert Walk(rooted, elems + [e], [".."]) == Walk(rooted, elems, []);
    }
  }

  lemma OneBetween(x: string, e: string, y: string)
    requires NoSlash(e)
    ensures Split(x + "/" + e + "/" + y) == Split(x) + [e] + Split(y)
    ensures Rooted(x + "/" + e + "/" + y) == Rooted(x + "/" + y)
  {
    SplitNone(e);
    hide Split;
    SplitSlash(x + "/" + e, y);
    SplitSlash(x, e);
  }

  lemma TwoBetween(x: string, e: string, f: string, y: string)
    requires NoSlash(e) && NoSlash(f)
    ensures Split(x + "/" + e + "/" + f + "/" + y) == Split(x) + [e, f] + Split(y)
    ensures Rooted(x + "/" + e + "/" + f + "/" + y) == Rooted(x + "/" + y)
  {
    OneBetween(x, e, f);
    SplitNone(f);
    hide Split;
    SplitSlash(x + "/" + e + "/" + f, y);
    assert Split(x) + [e] + [f] == Split(x) + [e, f];
  }

  lemma CleanBetween(x: string, e: string, y: string)
    requires e == "" || e == "."
    ensures Clean(x + "/" + e + "/" + y) == Clean(x + "/" + y)
  {
    assert NoSlash(e);
    hide *;
    Nowhere(e);
    OneBetween(x, e, y);
    CleanSame(x, [e], y, x + "/" + e + "/" + y);
  }

  lemma CleanParent(x: string, e: string, y: string)
    requires IsName(e)
    ensures Clean(x + "/" + e + "/" + ".." + "/" + y) == Clean(x + "/" + y)
  {
    assert NoSlash(e) && NoSlash("..");
    hide *;
    NowhereTo(e);
    TwoBetween(x, e, "..", y);
    CleanSame(x, [e, ".."], y, x + "/" + e + "/" + ".." + "/" + y);
  }

  // Several slashes are one, an element "." counts for nothing, and ".." takes the element before it with it.
  lemma CleanRules(x: string, e: string, y: string)
    requires IsName(e)
    ensures Clean(x + "//" + y) == Clean(x + "/" + y)
    ensures Clean(x + "/./" + y) == Clean(x + "/" + y)
    ensures Clean(x + "/" + e + "/../" + y) == Clean(x + "/" + y)
  {
    hide *;
    CleanBetween(x, "", y);
    CleanBetween(x, ".", y);
    CleanParent(x, e, y);
    assert "/" + "" + "/" == "//" && "/" + "." + "/" == "/./" && "/" + ".." + "/" == "/../";
    assert x + "/" + "" + "/" + y == x + ("/" + "" + "/") + y;
    assert x + "/" + "." + "/" + y == x + ("/" + "." + "/") + y;
    assert x + "/" + e + "/" + ".." + "/" + y == x + "/" + e + ("/" + ".." + "/") + y;
  }

  // There is nothing above the root.
  lemma RootRule(y: string)
    ensures Clean("/../" + y) == Clean("/" + y)
  {
    SplitNone("");
    SplitNone("..");
    SplitSlash("" + "/" + "..", y);
    SplitSlash("", "..");
    SplitSlash("", y);
    assert "" + "/" + ".." + "/" + y == "/../" + y && "" + "/" + y == "/" + y;
    assert [""] + [".."] + Split(y) == ["", ".."] + Split(y);
    hide Split;
    WalkAppend(true, [], ["", ".."], Split(y));
    WalkAppend(true, [], [""], Split(y));
    assert ["", ".."][1..] == [".."] && [".."][1..] == [] && [""][1..] == [];
    assert Walk(true, [], ["", ".."]) == Walk(true, [], [".."]) == [] && Walk(true, [], [""]) == [];
  }

  // ---- what strings.ReplaceAll is documented to do ----

  predicate StartsWithDots(s: string, i: nat) {
    i + 3 <= |s| && s[i..i + 3] == "../"
  }

  // Without "../" nothing changes.
  lemma {:induction false} StripAbsent(s: string)
    requires forall i :: 0 <= i < |s| ==> !StartsWithDots(s, i)
    ensures Strip(s) == s
  {
    if |s| >= 3 {
      assert !StartsWithDots(s, 0);
      forall i | 0 <= i < |s[1..]| ensures !StartsWithDots(s[1..], i) {
        assert !StartsWithDots(s, i + 1);
      }
      StripAbsent(s[1..]);
    }
  }

  lemma StripCases(s: string)
    requires |s| >= 3
    ensures Strip(s) == if s[..3] == "../" then Strip(s[3..]) else [s[0]] + Strip(s[1..])
  {
  }

  // The first "../" goes, and the search goes on behind it.
  lemma {:induction false} StripFirst(a: string, b: string)
    requires forall i :: 0 <= i < |a| ==> !StartsWithDots(a + "../" + b, i)
    ensures Strip(a + "../" + b) == a + Strip(b)
    decreases |a|
  {
    var s := a + "../" + b;
    StripCases(s);
    if a == "" {
      assert s[..3] == "../" && s[3..] == b;
    } else {
      assert !StartsWithDots(s, 0);
      assert s[0] == a[0] && s[1..] == a[1..] + "../" + b;
      forall i | 0 <= i < |a[1..]| ensures !StartsWithDots(a[1..] + "../" + b, i) {
        assert !StartsWithDots(s, i + 1);
      }
      hide Strip;
      StripFirst(a[1..], b);
      assert [a[0]] + (a[1..] + Strip(b)) == a + Strip(b);
    }
  }
}
