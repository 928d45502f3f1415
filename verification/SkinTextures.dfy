// handlers/skins.go, in the mode that saves textures only: the files that skins are written to.

module SkinTextures {
  import opened FileNames
  import opened SkinNames

  // What the k-th skin of a player is saved as (lines 150-153).
  function SkinName(name: string, k: nat): string {
    if k > 1 then name + "-" + Decimal(k) else name
  }

  // What is written behind the name of a skin: for its texture, and for its cape if it has one (lines 155-162).
  const TEXTURE := ".png"
  const CAPE := "_cape.png"

  // The paths that are opened for a skin.
  function SkinFiles(base: string, name: string, k: nat, cape: bool): set<string> {
    {Opened(base, SkinName(name, k) + TEXTURE)} + if cape then {Opened(base, SkinName(name, k) + CAPE)} else {}
  }

  lemma LastDash(a: string, b: string, x: string, y: string)
    requires a + "-" + x == b + "-" + y
    requires (forall i :: 0 <= i < |x| ==> x[i] != '-') && (forall i :: 0 <= i < |y| ==> y[i] != '-')
    ensures a == b && x == y
  {
    var s := a + "-" + x;
    assert s[|a|] == '-' && s[|b|] == '-';
    assert forall i :: |a| < i < |s| ==> s[i] == x[i - |a| - 1];
    assert forall i :: |b| < i < |s| ==> s[i] == y[i - |b| - 1];
    assert |a| == |b|;
    assert a == s[..|a|] && b == s[..|b|] && x == s[|a| + 1..] && y == s[|b| + 1..];
  }

  lemma SameEnd(x: string, y: string, e: string)
    ensures x + e == y + e <==> x == y
  {
    if x + e == y + e {
      assert |x| == |y| && x == (x + e)[..|x|] && y == (y + e)[..|y|];
    }
  }

  // The player of name b has what the j-th skin of the other one is saved as for a name.
  predicate HasSkinName(a: string, j: nat, b: string, k: nat) {
    j > 1 && k == 1 && b == a + "-" + Decimal(j)
  }

  // Or that with "_cape" at its end.
  predicate HasCapeName(a: string, j: nat, b: string, k: nat) {
    k == 1 && b == SkinName(a, j) + "_cape"
  }

  lemma SkinNamesMeet(a: string, j: nat, b: string, k: nat)
    requires j > 0 && k > 0
    ensures SkinName(a, j) == SkinName(b, k) <==>
            (a == b && j == k) || HasSkinName(a, j, b, k) || HasSkinName(b, k, a, j)
  {
    if SkinName(a, j) == SkinName(b, k) {
      if j > 1 && k > 1 {
        LastDash(a, b, Decimal(j), Decimal(k));
        DecimalInjective(j, k);
      }
    }
  }

  // A skin name that ends in a digit does not end in "_cape".
  lemma CapeMeets(a: string, j: nat, b: string, k: nat)
    requires j > 0 && k > 0
    ensures SkinName(a, j) + "_cape" == SkinName(b, k) <==> HasCapeName(a, j, b, k)
  {
    var c, n := SkinName(a, j) + "_cape", SkinName(b, k);
    assert c[|c| - 1] == 'e';
    if k > 1 {
      var d := Decimal(k);
      assert n[|n| - 1] == d[|d| - 1] && IsDigit(d[|d| - 1]);
    }
  }

  // The k-th skin of a player is saved under his name and this.
  function Behind(k: nat, ext: string): string {
    (if k > 1 then "-" + Decimal(k) else "") + ext
  }

  lemma BehindIsSuffix(k: nat, ext: string)
    requires ext == TEXTURE || ext == CAPE
    ensures IsSuffix(Behind(k, ext))
  {
    var d := Decimal(k);
    assert NoSlash(ext) && ext[|ext| - 1] == 'g';
    if k > 1 {
      var s := "-" + d;
      assert NoSlash(s);
      assert (s + ext)[|s + ext| - 1] == 'g';
    }
  }

  lemma SkinNameBehind(name: string, k: nat, ext: string)
    ensures SkinName(name, k) + ext == name + Behind(k, ext)
  {
    if k > 1 {
      assert name + "-" + Decimal(k) + ext == name + ("-" + Decimal(k) + ext);
    } else {
      assert "" + ext == ext;
    }
  }

  // Two files are one if and only if they have one folder and are equal behind it.
  lemma SameFileIff(base: string, a: string, j: nat, x: string, b: string, k: nat, y: string)
    requires (x == TEXTURE || x == CAPE) && (y == TEXTURE || y == CAPE)
    ensures Opened(base, SkinName(a, j) + x) == Opened(base, SkinName(b, k) + y) <==>
            Folder(base, a) == Folder(base, b) && SkinName(Leaf(a), j) + x == SkinName(Leaf(b), k) + y
  {
    BehindIsSuffix(j, x);
    BehindIsSuffix(k, y);
    hide *;
    SkinNameBehind(a, j, x);
    SkinNameBehind(b, k, y);
    SkinNameBehind(Leaf(a), j, x);
    SkinNameBehind(Leaf(b), k, y);
    OpenedSameIff(base, a, Behind(j, x), b, Behind(k, y));
  }

  // A cape is a texture of the name with "_cape" at its end.
  lemma CapeIsTexture(n: string)
    ensures n + CAPE == (n + "_cape") + TEXTURE
  {
    assert CAPE == "_cape" + TEXTURE;
  }

  // Two names of one folder, as far as they are behind its path.
  predicate LeavesMeet(m: string, j: nat, capeM: bool, n: string, k: nat, capeN: bool) {
    || (m == n && j == k) || HasSkinName(m, j, n, k) || HasSkinName(n, k, m, j)
    || (capeM && HasCapeName(m, j, n, k)) || (capeN && HasCapeName(n, k, m, j))
  }

  // Which of the files of two skins can be equal, behind their folder.
  lemma EndsMeet(m: string, j: nat, n: string, k: nat)
    requires j > 0 && k > 0
    ensures var x, y := SkinName(m, j), SkinName(n, k);
            && (x + TEXTURE == y + TEXTURE <==> LeavesMeet(m, j, false, n, k, false))
            && (x + CAPE == y + CAPE <==> LeavesMeet(m, j, false, n, k, false))
            && (x + CAPE == y + TEXTURE <==> HasCapeName(m, j, n, k))
            && (x + TEXTURE == y + CAPE <==> HasCapeName(n, k, m, j))
  {
    var x, y := SkinName(m, j), SkinName(n, k);
    SkinNamesMeet(m, j, n, k);
    CapeMeets(m, j, n, k);
    CapeMeets(n, k, m, j);
    CapeIsTexture(x);
    CapeIsTexture(y);
    hide SkinName, HasSkinName, HasCapeName;
    SameEnd(x, y, TEXTURE);
    SameEnd(x, y, CAPE);
    SameEnd(x + "_cape", y, TEXTURE);
    SameEnd(x, y + "_cape", TEXTURE);
  }

  lemma LeavesParts(m: string, j: nat, capeM: bool, n: string, k: nat, capeN: bool)
    ensures LeavesMeet(m, j, capeM, n, k, capeN) <==>
            || LeavesMeet(m, j, false, n, k, false)
            || (capeM && HasCapeName(m, j, n, k)) || (capeN && HasCapeName(n, k, m, j))
  {
  }

  lemma FilesOf(base: string, name: string, k: nat, cape: bool)
    ensures forall x :: x in SkinFiles(base, name, k, cape) <==>
              x == Opened(base, SkinName(name, k) + TEXTURE) || (cape && x == Opened(base, SkinName(name, k) + CAPE))
  {
    hide Opened, SkinName;
  }

  lemma Disjoint(f: set<string>, g: set<string>)
    ensures f * g != {} <==> exists x :: x in f && x in g
  {
    if x :| x in f && x in g {
      assert x in f * g;
    }
  }

  lemma FilesMeet(base: string, m: string, capeM: bool, n: string, capeN: bool, f: set<string>, g: set<string>)
    requires forall x :: x in f <==> x == Opened(base, m + TEXTURE) || (capeM && x == Opened(base, m + CAPE))
    requires forall x :: x in g <==> x == Opened(base, n + TEXTURE) || (capeN && x == Opened(base, n + CAPE))
    ensures (exists x :: x in f && x in g) <==>
            || Opened(base, m + TEXTURE) == Opened(base, n + TEXTURE)
            || (capeM && Opened(base, m + CAPE) == Opened(base, n + TEXTURE))
            || (capeN && Opened(base, m + TEXTURE) == Opened(base, n + CAPE))
            || (capeM && capeN && Opened(base, m + CAPE) == Opened(base, n + CAPE))
  {
    hide *;
    assert Opened(base, m + TEXTURE) in f && (capeM ==> Opened(base, m + CAPE) in f);
  }

  // Distinct names are not enough for distinct files: skins of two players share one if and only if Create makes one
  // folder for their names, and behind it the name of one player is that of the other, with skins of one number, or is
  // what a later skin or a cape of the other is saved as.
  lemma FilesCollideIff(base: string, a: string, j: nat, capeA: bool, b: string, k: nat, capeB: bool)
    requires j > 0 && k > 0
    ensures SkinFiles(base, a, j, capeA) * SkinFiles(base, b, k, capeB) != {} <==>
            Folder(base, a) == Folder(base, b) && LeavesMeet(Leaf(a), j, capeA, Leaf(b), k, capeB)
  {
    hide *;
    SameFileIff(base, a, j, TEXTURE, b, k, TEXTURE);
    SameFileIff(base, a, j, TEXTURE, b, k, CAPE);
    SameFileIff(base, a, j, CAPE, b, k, TEXTURE);
    SameFileIff(base, a, j, CAPE, b, k, CAPE);
    EndsMeet(Leaf(a), j, Leaf(b), k);
    LeavesParts(Leaf(a), j, capeA, Leaf(b), k, capeB);
    FilesOf(base, a, j, capeA);
    FilesOf(base, b, k, capeB);
    Disjoint(SkinFiles(base, a, j, capeA), SkinFiles(base, b, k, capeB));
    FilesMeet(base, SkinName(a, j), capeA, SkinName(b, k), capeB,
              SkinFiles(base, a, j, capeA), SkinFiles(base, b, k, capeB));
  }

  // For names without a slash it is the names themselves that meet.
  lemma FlatNamesCollideIff(base: string, a: string, j: nat, capeA: bool, b: string, k: nat, capeB: bool)
    requires a != b && j > 0 && k > 0 && NoSlash(a) && NoSlash(b)
    ensures SkinFiles(base, a, j, capeA) * SkinFiles(base, b, k, capeB) != {} <==>
            || HasSkinName(a, j, b, k) || HasSkinName(b, k, a, j)
            || (capeA && HasCapeName(a, j, b, k)) || (capeB && HasCapeName(b, k, a, j))
  {
    FilesCollideIff(base, a, j, capeA, b, k, capeB);
    hide SkinFiles, Folder, Leaf, HasSkinName, HasCapeName;
    FlatName(base, a);
    FlatName(base, b);
  }

  lemma NoOwnName(a: string, j: nat, k: nat)
    ensures !HasSkinName(a, j, a, k) && !HasCapeName(a, j, a, k)
  {
    assert |SkinName(a, j) + "_cape"| > |a| && |a + "-" + Decimal(j)| > |a|;
  }

  // The files of one player's skins are all different.
  lemma OwnFilesDiffer(base: string, a: string, j: nat, capeA: bool, k: nat, capeB: bool)
    requires j > 0 && k > 0 && j != k
    ensures SkinFiles(base, a, j, capeA) !! SkinFiles(base, a, k, capeB)
  {
    FilesCollideIff(base, a, j, capeA, a, k, capeB);
    hide SkinFiles, Folder;
    NoOwnName(Leaf(a), j, k);
    NoOwnName(Leaf(a), k, j);
  }

  // ---- runs in which they collide ----

  // The final names of the two players of a run.
  ghost predicate FinalPair(s: Saver, m: string, n: string) {
    && 0 in s.byId && 1 in s.byId && s.byId[0].nameFinal && s.byId[1].nameFinal
    && s.byId[0].name == m && s.byId[1].name == n
  }

  lemma BothFinal(s: Saver, m: string, n: string)
    requires s.byId == map[0 := Player(m, m, true), 1 := Player(n, n, true)]
    ensures FinalPair(s, m, n)
  {
  }

  lemma CapeName()
    ensures "a" != "" && "a_cape" != "" && "a" != "a_cape" && NoSlash("a") && NoSlash("a_cape")
    ensures HasCapeName("a", 1, "a_cape", 1)
  {
    assert "a" + "_cape" == "a_cape";
  }

  // The cape of one player is the texture of the other.
  lemma CapeOverwritten(names: Names, base: string)
    ensures FinalPair(RunFrom(names, Saver(map[], map[]), NamingRun("a", "a_cape")), "a", "a_cape")
    ensures SkinFiles(base, "a", 1, true) * SkinFiles(base, "a_cape", 1, false) != {}
  {
    hide *;
    CapeName();
    NamesMeet(names, "a", "a_cape");
    BothFinal(RunFrom(names, Saver(map[], map[]), NamingRun("a", "a_cape")), "a", "a_cape");
    FlatNamesCollideIff(base, "a", 1, true, "a_cape", 1, false);
  }

  lemma DotsVanish(base: string, dots: string)
    requires dots == "./" || dots == "../"
    ensures Folder(base, "a") == Folder(base, dots + "a") && Leaf(dots + "a") == Leaf("a")
  {
    var s := dots + "a";
    assert NoSlash("a");
    StripNone("a");
    SplitNone("a");
    if dots == "../" {
      assert s[..3] == "../" && s[3..] == "a";
    } else {
      assert s[..3] == "./a" && s[1..] == "/a";
      assert Strip(s) == s;
      assert s == "." + "/" + "a";
      SplitSlash(".", "a");
      SplitNone(".");
      assert Split(s)[..1] == ["."];
      assert ["."][1..] == [];
    }
    assert Walk(false, [], []) == [];
  }

  lemma OneTexture(base: string, a: string, b: string)
    requires Opened(base, SkinName(a, 1) + TEXTURE) == Opened(base, SkinName(b, 1) + TEXTURE)
    ensures SkinFiles(base, a, 1, false) == SkinFiles(base, b, 1, false)
  {
    hide Opened, SkinName;
  }

  // Names that differ, and are one behind "./" or "../": the texture of one player is the texture of the other.
  lemma DotsOverwritten(names: Names, base: string, dots: string)
    requires dots == "./" || dots == "../"
    ensures FinalPair(RunFrom(names, Saver(map[], map[]), NamingRun("a", dots + "a")), "a", dots + "a")
    ensures SkinFiles(base, "a", 1, false) == SkinFiles(base, dots + "a", 1, false)
  {
    hide *;
    assert |dots + "a"| > 1;
    NamesMeet(names, "a", dots + "a");
    BothFinal(RunFrom(names, Saver(map[], map[]), NamingRun("a", dots + "a")), "a", dots + "a");
    DotsVanish(base, dots);
    SameFileIff(base, "a", 1, TEXTURE, dots + "a", 1, TEXTURE);
    OneTexture(base, "a", dots + "a");
  }
}
