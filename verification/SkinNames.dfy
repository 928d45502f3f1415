// handlers/skins.go: every player gets a name of his own, once and for all, for the files his skins are saved in.

module SkinNames {
  import opened Common

  type Uuid = nat

  // ---- decimal numbers ----

  function Digit(d: nat): char
    requires d < 10
  {
    "0123456789"[d]
  }

  predicate IsDigit(c: char) { '0' <= c <= '9' }

  // strconv.Itoa, and %d.
  function Decimal(n: nat): (r: string)
    ensures r != [] && forall i :: 0 <= i < |r| ==> IsDigit(r[i])
  {
    if n < 10 then [Digit(n)] else Decimal(n / 10) + [Digit(n % 10)]
  }

  // A number is read back from its digits.
  function Number(s: string): int {
    if s == "" then 0 else Number(s[..|s| - 1]) * 10 + (s[|s| - 1] as int - '0' as int)
  }

  lemma {:induction false} DecimalReadsBack(n: nat)
    ensures Number(Decimal(n)) == n && (n > 0 ==> Decimal(n)[0] != '0')
  {
    var d := Decimal(n);
    if n < 10 {
      assert d[..0] == "" && d[0] as int == '0' as int + n;
    } else {
      DecimalReadsBack(n / 10);
      assert d[..|d| - 1] == Decimal(n / 10) && d[|d| - 1] as int == '0' as int + n % 10;
    }
  }

  lemma DecimalInjective(m: nat, n: nat)
    requires Decimal(m) == Decimal(n)
    ensures m == n
  {
    DecimalReadsBack(m);
    DecimalReadsBack(n);
  }

  // ---- candidates ----

  // The i-th name that is tried: name, name_1, name_2, ...
  function Candidate(name: string, i: nat): string {
    if i == 0 then name else name + "_" + Decimal(i)
  }

  lemma CandidatesDiffer(name: string, i: nat, j: nat)
    requires Candidate(name, i) == Candidate(name, j)
    ensures i == j
  {
    assert (i > 0 ==> |Candidate(name, i)| > |name|) && (j > 0 ==> |Candidate(name, j)| > |name|);
    if i > 0 && j > 0 {
      var p := name + "_";
      assert (p + Decimal(i))[|p|..] == Decimal(i) && (p + Decimal(j))[|p|..] == Decimal(j);
      DecimalInjective(i, j);
    }
  }

  ghost function CandidatesBelow(name: string, n: nat): set<string> {
    if n == 0 then {} else CandidatesBelow(name, n - 1) + {Candidate(name, n - 1)}
  }

  lemma {:induction false} ManyCandidates(name: string, n: nat)
    ensures |CandidatesBelow(name, n)| == n
    ensures forall c :: c in CandidatesBelow(name, n) ==> exists i :: 0 <= i < n && c == Candidate(name, i)
  {
    if n > 0 {
      ManyCandidates(name, n - 1);
      if Candidate(name, n - 1) in CandidatesBelow(name, n - 1) {
        var i :| 0 <= i < n - 1 && Candidate(name, n - 1) == Candidate(name, i);
        CandidatesDiffer(name, n - 1, i);
      }
    }
  }

  // There are not more taken candidates than names.
  lemma TakenBound<V>(byName: map<string, V>, name: string, n: nat)
    requires forall i :: 0 <= i < n ==> Candidate(name, i) in byName
    ensures n <= |byName|
  {
    ManyCandidates(name, n);
    SubsetSize(CandidatesBelow(name, n), byName.Keys);
  }

  // The first candidate from i on that is free: there is one among the first |byName| + 1.
  function FirstFree(byName: map<string, Uuid>, name: string, i: nat): (r: nat)
    requires forall j :: 0 <= j < i ==> Candidate(name, j) in byName
    ensures i <= r <= |byName|
    ensures Candidate(name, r) !in byName && forall j :: 0 <= j < r ==> Candidate(name, j) in byName
    decreases |byName| + 1 - i
  {
    TakenBound(byName, name, i);
    if Candidate(name, i) !in byName then i
    else
      TakenBound(byName, name, i + 1);
      FirstFree(byName, name, i + 1)
  }

  // ---- the saver ----

  datatype Player = Player(name: string, altName: string, nameFinal: bool)

  datatype Saver = Saver(byId: map<Uuid, Player>, byName: map<string, Uuid>)

  // CleanupName and UUID.String: the second is never empty.
  datatype Names = Names(cleanup: string -> string, show: Uuid -> string)

  ghost predicate Shows(names: Names) {
    forall id :: names.show(id) != ""
  }

  // AddOrGetPlayer.
  function AddOrGet(names: Names, s: Saver, id: Uuid, name: string): Saver {
    var p := if id in s.byId then s.byId[id] else Player("", "", false);
    s.(byId := s.byId[id := if p.name == "" && name != "" then p.(name := names.cleanup(name)) else p])
  }

  // An AddPlayer packet brings another name.
  function SetAltName(s: Saver, id: Uuid, altName: string): Saver {
    if id in s.byId then s.(byId := s.byId[id := s.byId[id].(altName := altName)]) else s
  }

  function BaseName(names: Names, p: Player, id: Uuid): string {
    if p.name != "" then p.name else if p.altName != "" then p.altName else names.show(id)
  }

  // ensureFinalName.
  function EnsureFinal(names: Names, s: Saver, id: Uuid): Saver {
    if id !in s.byId || s.byId[id].nameFinal then s
    else
      var p := s.byId[id];
      var base := BaseName(names, p, id);
      var name := Candidate(base, FirstFree(s.byName, base, 0));
      Saver(s.byId[id := p.(name := name, nameFinal := true)], s.byName[name := id])
  }

  datatype Op = AddOp(id: Uuid, name: string) | AltOp(id: Uuid, altName: string) | FinalOp(id: Uuid)

  function Do(names: Names, s: Saver, op: Op): Saver {
    match op
    case AddOp(id, name) => AddOrGet(names, s, id, name)
    case AltOp(id, altName) => SetAltName(s, id, altName)
    case FinalOp(id) => EnsureFinal(names, s, id)
  }

  function RunFrom(names: Names, s: Saver, ops: seq<Op>): Saver
    decreases |ops|
  {
    if ops == [] then s else RunFrom(names, Do(names, s, ops[0]), ops[1..])
  }

  // playersByName is the inverse of the final names.
  ghost predicate Inverse(s: Saver) {
    && (forall id :: id in s.byId && s.byId[id].nameFinal ==>
          s.byId[id].name != "" && s.byId[id].name in s.byName && s.byName[s.byId[id].name] == id)
    && (forall n :: n in s.byName ==>
          s.byName[n] in s.byId && s.byId[s.byName[n]].nameFinal && s.byId[s.byName[n]].name == n)
  }

  // The final names of `s` are final names of `r`, of the same players.
  ghost predicate NamesKept(s: Saver, r: Saver) {
    forall id :: id in s.byId && s.byId[id].nameFinal ==>
      id in r.byId && r.byId[id].nameFinal && r.byId[id].name == s.byId[id].name
  }

  lemma DoKeeps(names: Names, s: Saver, op: Op)
    requires Inverse(s) && Shows(names)
    ensures Inverse(Do(names, s, op)) && NamesKept(s, Do(names, s, op))
  {
    if op.FinalOp? && op.id in s.byId && !s.byId[op.id].nameFinal {
      var p := s.byId[op.id];
      var base := BaseName(names, p, op.id);
      assert base != "";
      var i := FirstFree(s.byName, base, 0);
      assert Candidate(base, i) != "";
    }
  }

  lemma {:induction false} RunKeeps(names: Names, s: Saver, ops: seq<Op>)
    requires Inverse(s) && Shows(names)
    ensures Inverse(RunFrom(names, s, ops)) && NamesKept(s, RunFrom(names, s, ops))
    decreases |ops|
  {
    if ops != [] {
      DoKeeps(names, s, ops[0]);
      RunKeeps(names, Do(names, s, ops[0]), ops[1..]);
    }
  }

  // In every run: final names are pairwise distinct, they are never taken back, and playersByName leads from a name to
  // the player who has it.
  lemma FinalNames(names: Names, before: seq<Op>, after: seq<Op>)
    requires Shows(names)
    ensures var s := RunFrom(names, Saver(map[], map[]), before);
            var r := RunFrom(names, s, after);
            && (forall a, b :: a in r.byId && b in r.byId && r.byId[a].nameFinal && r.byId[b].nameFinal && a != b ==>
                  r.byId[a].name != r.byId[b].name)
            && NamesKept(s, r) && Inverse(r)
  {
    RunKeeps(names, Saver(map[], map[]), before);
    RunKeeps(names, RunFrom(names, Saver(map[], map[]), before), after);
  }

  // ---- which name becomes final ----

  // The player has been seen.
  predicate Seen(ops: seq<Op>, id: Uuid) {
    exists i :: 0 <= i < |ops| && ops[i].AddOp? && ops[i].id == id
  }

  // The name the player list gives: the first one of which cleaning up leaves something.
  function Given(names: Names, ops: seq<Op>, id: Uuid): string {
    if ops == [] then "" else
      var last, before := ops[|ops| - 1], Given(names, ops[..|ops| - 1], id);
      if last.AddOp? && last.id == id && last.name != "" && before == "" then names.cleanup(last.name) else before
  }

  // The name that spawning gives a player who has been seen: the last one.
  function Spawned(ops: seq<Op>, id: Uuid): string {
    if ops == [] then "" else
      var last, before := ops[|ops| - 1], ops[..|ops| - 1];
      if last.AltOp? && last.id == id && Seen(before, id) then last.altName else Spawned(before, id)
  }

  lemma {:induction false} RunLast(names: Names, s: Saver, ops: seq<Op>)
    requires ops != []
    ensures RunFrom(names, s, ops) == Do(names, RunFrom(names, s, ops[..|ops| - 1]), ops[|ops| - 1])
    decreases |ops|
  {
    hide Do;
    var before := ops[..|ops| - 1];
    if before == [] {
      assert ops[1..] == [];
    } else {
      RunLast(names, Do(names, s, ops[0]), ops[1..]);
      assert ops[1..][..|ops| - 2] == before[1..];
    }
  }

  lemma SeenStep(ops: seq<Op>, id: Uuid)
    requires ops != []
    ensures var last := ops[|ops| - 1]; Seen(ops, id) <==> Seen(ops[..|ops| - 1], id) || (last.AddOp? && last.id == id)
  {
    assert forall i :: 0 <= i < |ops| - 1 ==> ops[..|ops| - 1][i] == ops[i];
  }

  // Until his name is final a player has the names that history says.
  lemma {:induction false} NamesTold(names: Names, ops: seq<Op>, id: Uuid)
    ensures var s := RunFrom(names, Saver(map[], map[]), ops);
            && (id in s.byId <==> Seen(ops, id))
            && (id in s.byId && !s.byId[id].nameFinal ==>
                  s.byId[id].name == Given(names, ops, id) && s.byId[id].altName == Spawned(ops, id))
            && (id !in s.byId ==> Given(names, ops, id) == "" && Spawned(ops, id) == "")
    decreases |ops|
  {
    if ops != [] {
      var before := ops[..|ops| - 1];
      NamesTold(names, before, id);
      RunLast(names, Saver(map[], map[]), ops);
      SeenStep(ops, id);
      hide RunFrom, Seen, Candidate, FirstFree;
    }
  }

  // From `s` to `r` the player gets the name with suffix _i, or none, as the first one that is free.
  predicate NamedFirst(s: Saver, r: Saver, id: Uuid, base: string, i: nat) {
    var name := if i == 0 then base else base + "_" + Decimal(i);
    && id in r.byId && r.byId[id].nameFinal && r.byId[id].name == name
    && name !in s.byName && r.byName == s.byName[name := id]
    && (i > 0 ==> base in s.byName) && forall j :: 0 < j < i ==> base + "_" + Decimal(j) in s.byName
  }

  // The name that becomes final is the one of the player list, cleaned up, or else the one of spawning, or else the
  // UUID; with the first suffix _1, _2, ... with which it is free, if it is not free as it is.
  lemma FinalNameIs(names: Names, ops: seq<Op>, id: Uuid)
    ensures var s := RunFrom(names, Saver(map[], map[]), ops);
            var given, spawned := Given(names, ops, id), Spawned(ops, id);
            var base := if given != "" then given else if spawned != "" then spawned else names.show(id);
            id in s.byId && !s.byId[id].nameFinal ==>
              exists i: nat :: NamedFirst(s, Do(names, s, FinalOp(id)), id, base, i)
  {
    NamesTold(names, ops, id);
    var s := RunFrom(names, Saver(map[], map[]), ops);
    hide RunFrom, Given, Spawned, Seen;
    if id in s.byId && !s.byId[id].nameFinal {
      var base := BaseName(names, s.byId[id], id);
      var i := FirstFree(s.byName, base, 0);
      forall j | 0 < j < i ensures base + "_" + Decimal(j) in s.byName {
        assert Candidate(base, j) in s.byName;
      }
      assert i > 0 ==> Candidate(base, 0) in s.byName;
      assert NamedFirst(s, Do(names, s, FinalOp(id)), id, base, i);
    }
  }

  // ---- any two names come together ----

  // Two players who are seen before the player list names them, as with AddPlayer packets (lines 240-242).
  function NamingRun(m: string, n: string): seq<Op> {
    [AddOp(0, ""), AltOp(0, m), AddOp(1, ""), AltOp(1, n), FinalOp(0), FinalOp(1)]
  }

  lemma RunNext(names: Names, s: Saver, op: Op, rest: seq<Op>)
    ensures RunFrom(names, s, [op] + rest) == RunFrom(names, Do(names, s, op), rest)
    ensures RunFrom(names, s, []) == s
  {
    hide Do;
    assert ([op] + rest)[1..] == rest;
  }

  lemma RunOfThree(names: Names, s: Saver, a: Op, b: Op, c: Op, rest: seq<Op>)
    ensures RunFrom(names, s, [a, b, c] + rest) == RunFrom(names, Do(names, Do(names, Do(names, s, a), b), c), rest)
  {
    hide *;
    RunNext(names, s, a, [b, c] + rest);
    RunNext(names, Do(names, s, a), b, [c] + rest);
    RunNext(names, Do(names, Do(names, s, a), b), c, rest);
    assert [a] + ([b, c] + rest) == [a, b, c] + rest && [b] + ([c] + rest) == [b, c] + rest;
  }

  lemma NamingFirst(names: Names, m: string)
    ensures Do(names, Do(names, Do(names, Saver(map[], map[]), AddOp(0, "")), AltOp(0, m)), AddOp(1, "")) ==
            Saver(map[0 := Player("", m, false), 1 := Player("", "", false)], map[])
  {
    var s1 := Do(names, Saver(map[], map[]), AddOp(0, ""));
    assert s1 == Saver(map[0 := Player("", "", false)], map[]);
  }

  lemma NamingSecond(names: Names, m: string, n: string)
    requires m != "" && n != "" && m != n
    ensures var s := Saver(map[0 := Player("", m, false), 1 := Player("", "", false)], map[]);
            Do(names, Do(names, Do(names, s, AltOp(1, n)), FinalOp(0)), FinalOp(1)).byId ==
            map[0 := Player(m, m, true), 1 := Player(n, n, true)]
  {
    var s := Saver(map[0 := Player("", m, false), 1 := Player("", "", false)], map[]);
    var s1 := Do(names, s, AltOp(1, n));
    assert s1 == Saver(map[0 := Player("", m, false), 1 := Player("", n, false)], map[]);
    assert Candidate(m, 0) == m && Candidate(n, 0) == n;
    var s2 := Do(names, s1, FinalOp(0));
    assert s2 == Saver(map[0 := Player(m, m, true), 1 := Player("", n, false)], map[m := 0]);
  }

  // Any two names become final in one run: the name of an AddPlayer packet is not cleaned up.
  lemma NamesMeet(names: Names, m: string, n: string)
    requires m != "" && n != "" && m != n
    ensures var s := RunFrom(names, Saver(map[], map[]), NamingRun(m, n));
            s.byId == map[0 := Player(m, m, true), 1 := Player(n, n, true)]
  {
    var ops := [AltOp(1, n), FinalOp(0), FinalOp(1)];
    assert NamingRun(m, n) == [AddOp(0, ""), AltOp(0, m), AddOp(1, "")] + (ops + []);
    hide *;
    var s := Saver(map[0 := Player("", m, false), 1 := Player("", "", false)], map[]);
    NamingFirst(names, m);
    NamingSecond(names, m, n);
    RunOfThree(names, Saver(map[], map[]), AddOp(0, ""), AltOp(0, m), AddOp(1, ""), ops + []);
    RunOfThree(names, s, AltOp(1, n), FinalOp(0), FinalOp(1), []);
    RunNext(names, Do(names, Do(names, Do(names, s, AltOp(1, n)), FinalOp(0)), FinalOp(1)), AddOp(0, ""), []);
  }
}
