// The client's own misses: what it reports is sent to it once the server has answered.

module BlobClients {
  import opened Common
  import opened BlobPackets
  import opened Occurrences
  import opened BlobSpec
  import opened BlobInvariant
  import opened BlobReachable
  import opened BlobRecords
  import opened BlobTheorems
  import opened BlobFlight

  // ---- counters of client waits ----

  ghost function KeysOf(m: map<Hash, nat>, c: nat): set<Hash> {
    set h | h in m && m[h] == c
  }

  // A client wait's counter is the number of hashes that still point to it.
  ghost predicate ClientCounts(cws: seq<ClientWait>, m: map<Hash, nat>) {
    && (forall h :: h in m ==> m[h] < |cws|)
    && forall c :: 0 <= c < |cws| ==> cws[c].count == |KeysOf(m, c)|
  }

  ghost function SetOf(hs: seq<Hash>): set<Hash> {
    set h | h in hs
  }

  ghost function Point(m: map<Hash, nat>, hs: seq<Hash>, c: nat): map<Hash, nat> {
    map h | h in m.Keys + SetOf(hs) :: if h in hs then c else m[h]
  }

  lemma PointStep(m: map<Hash, nat>, h: Hash, rest: seq<Hash>, c: nat)
    ensures Point(m[h := c], rest, c) == Point(m, [h] + rest, c)
  {
    assert SetOf([h] + rest) == {h} + SetOf(rest);
    assert m[h := c].Keys + SetOf(rest) == m.Keys + SetOf([h] + rest);
    assert forall x :: x in [h] + rest <==> x == h || x in rest;
  }

  // Wait `c` gets the hashes of `f`, which from now on point to it.
  ghost function Noted(s: State, c: nat, f: seq<Hash>): State
    requires c < |s.clientWaits|
  {
    var w := s.clientWaits[c];
    s.(clientWaits := s.clientWaits[c := ClientWait(w.count + |f|, w.hashes + f)],
      clientWait := Point(s.clientWait, f, c))
  }

  lemma NotedNone(s: State, c: nat)
    requires c < |s.clientWaits|
    ensures Noted(s, c, []) == s
  {
    var w := s.clientWaits[c];
    assert Point(s.clientWait, [], c) == s.clientWait;
    assert w.hashes + [] == w.hashes;
  }

  lemma NotedStep(s: State, c: nat, h: Hash, rest: seq<Hash>)
    requires c < |s.clientWaits| && h !in s.db
    ensures Noted(StatusStep(s, c, h), c, rest) == Noted(s, c, [h] + rest)
  {
    hide Point;
    var w := s.clientWaits[c];
    PointStep(s.clientWait, h, rest, c);
    assert StatusStep(s, c, h).clientWaits[c] == ClientWait(w.count + 1, w.hashes + [h]);
    assert (w.hashes + [h]) + rest == w.hashes + ([h] + rest);
  }

  // HandleClientCacheBlobStatus's loop in one piece.
  lemma {:induction false} StatusLoopForm(s: State, c: nat, hs: seq<Hash>)
    requires c < |s.clientWaits|
    ensures StatusLoop(s, c, hs) == Noted(s, c, Missing(s.db, hs))
    decreases |hs|
  {
    if hs == [] {
      NotedNone(s, c);
    } else {
      var s1 := StatusStep(s, c, hs[0]);
      var rest := Missing(s.db, hs[1..]);
      hide Noted;
      StatusLoopForm(s1, c, hs[1..]);
      if hs[0] !in s.db {
        NotedStep(s, c, hs[0], rest);
      } else {
        assert [] + rest == rest;
      }
    }
  }

  lemma StatusParts(s: State, misses: seq<Hash>)
    ensures var s1 := s.(clientWaits := s.clientWaits + [ClientWait(0, [])], toClient := s.toClient + [Missed(misses)]);
            var s2 := StatusLoop(s1, |s.clientWaits|, misses);
            var blobs := ClientPayloads(s.db, misses);
            ClientStatus(s, misses) == if blobs == [] then s2 else s2.(toClient := s2.toClient + [Blobs(blobs)])
  {
    hide StatusLoop, ClientPayloads;
  }

  lemma NotedNew(s: State, s1: State, f: seq<Hash>)
    requires s1.clientWaits == s.clientWaits + [ClientWait(0, [])] && s1.clientWait == s.clientWait
    ensures var n := |s.clientWaits|;
            Noted(s1, n, f) ==
            s1.(clientWaits := s.clientWaits + [ClientWait(|f|, f)], clientWait := Point(s.clientWait, f, n))
  {
    hide Point;
    assert [] + f == f;
    assert s1.clientWaits[|s.clientWaits| := ClientWait(|f|, f)] == s.clientWaits + [ClientWait(|f|, f)];
  }

  // HandleClientCacheBlobStatus in one piece.
  lemma ClientStatusForm(s: State, misses: seq<Hash>)
    ensures var f := Missing(s.db, misses);
            var blobs := ClientPayloads(s.db, misses);
            var t := s.toClient + [Missed(misses)];
            ClientStatus(s, misses) ==
            s.(clientWaits := s.clientWaits + [ClientWait(|f|, f)],
              clientWait := Point(s.clientWait, f, |s.clientWaits|),
               toClient := if blobs == [] then t else t + [Blobs(blobs)])
  {
    hide *;
    var n := |s.clientWaits|;
    var s1 := s.(clientWaits := s.clientWaits + [ClientWait(0, [])], toClient := s.toClient + [Missed(misses)]);
    StatusLoopForm(s1, n, misses);
    StatusParts(s, misses);
    NotedNew(s, s1, Missing(s.db, misses));
  }

  // What the client misses is new: no hash twice, and none it waits for already.
  ghost predicate Clean(s: State, misses: seq<Hash>) {
    NoDuplicates(Missing(s.db, misses)) && forall h :: h in Missing(s.db, misses) ==> h !in s.clientWait
  }

  lemma NoDuplicatesLast(p: seq<Hash>, h: Hash)
    requires h !in p
    ensures NoDuplicates(p + [h]) <==> NoDuplicates(p)
  {
    var l := p + [h];
    assert forall i :: 0 <= i < |p| ==> l[i] == p[i] && p[i] in p;
    if NoDuplicates(l) {
      forall i, j | 0 <= i < j < |p| ensures p[i] != p[j] { assert l[i] != l[j]; }
    }
  }

  lemma {:induction false} SetOfSize(l: seq<Hash>)
    ensures |SetOf(l)| <= |l|
    ensures |SetOf(l)| == |l| <==> NoDuplicates(l)
  {
    if l == [] {
      assert SetOf(l) == {};
    } else {
      var n := |l| - 1;
      var p := l[..n];
      assert l == p + [l[n]];
      SetOfSize(p);
      assert SetOf(l) == SetOf(p) + {l[n]};
      if l[n] in p {
        assert SetOf(l) == SetOf(p);
        var i :| 0 <= i < n && p[i] == l[n];
        assert l[i] == l[n];
      } else {
        assert l[n] !in SetOf(p);
        NoDuplicatesLast(p, l[n]);
      }
    }
  }

  lemma SetMinus(a: set<Hash>, b: set<Hash>)
    ensures |a - b| == |a| <==> a !! b
  {
    if a !! b {
      assert a - b == a;
    } else {
      var h :| h in a && h in b;
      assert a - b <= a - {h};
      SubsetSize(a - b, a - {h});
    }
  }

  lemma PointKeys(m: map<Hash, nat>, f: seq<Hash>, c: nat, x: nat)
    requires forall h :: h in m ==> m[h] != c
    ensures KeysOf(Point(m, f, c), x) == if x == c then SetOf(f) else KeysOf(m, x) - SetOf(f)
  {
  }

  lemma PointedAt(cws: seq<ClientWait>, m: map<Hash, nat>, f: seq<Hash>)
    requires forall h :: h in m ==> m[h] < |cws|
    ensures forall h :: h in Point(m, f, |cws|) ==> Point(m, f, |cws|)[h] < |cws| + 1
  {
  }

  lemma CleanKeeps(cws: seq<ClientWait>, m: map<Hash, nat>, f: seq<Hash>)
    requires ClientCounts(cws, m) && NoDuplicates(f) && forall h :: h in f ==> h !in m
    ensures ClientCounts(cws + [ClientWait(|f|, f)], Point(m, f, |cws|))
  {
    var n := |cws|;
    var cws' := cws + [ClientWait(|f|, f)];
    var m' := Point(m, f, n);
    PointedAt(cws, m, f);
    SetOfSize(f);
    forall c | 0 <= c <= n ensures cws'[c].count == |KeysOf(m', c)| {
      PointKeys(m, f, n, c);
      if c < n {
        assert KeysOf(m, c) - SetOf(f) == KeysOf(m, c);
      }
    }
    hide KeysOf, Point, SetOf, NoDuplicates;
  }

  // Before the call: the counters stay right if and only if the report is clean.
  lemma CountsKeptIff(s: State, misses: seq<Hash>)
    requires ClientCounts(s.clientWaits, s.clientWait)
    ensures var r := ClientStatus(s, misses);
            ClientCounts(r.clientWaits, r.clientWait) <==> Clean(s, misses)
  {
    var n := |s.clientWaits|;
    var f := Missing(s.db, misses);
    var fs := SetOf(f);
    var r := ClientStatus(s, misses);
    ClientStatusForm(s, misses);
    SetOfSize(f);
    hide ClientStatus, Missing, Point, ClientPayloads;
    if Clean(s, misses) {
      hide ClientCounts, NoDuplicates;
      CleanKeeps(s.clientWaits, s.clientWait, f);
    } else if NoDuplicates(f) {
      var h :| h in f && h in s.clientWait;
      var c := s.clientWait[h];
      PointKeys(s.clientWait, f, n, c);
      assert h in KeysOf(s.clientWait, c) && h in fs;
      SetMinus(KeysOf(s.clientWait, c), fs);
      assert r.clientWaits[c] == s.clientWaits[c];
    } else {
      PointKeys(s.clientWait, f, n, n);
      assert r.clientWaits[n].count == |f|;
    }
  }

  // A wait with more references than hashes that point to it.
  ghost predicate Starved(s: State, c: nat) {
    c < |s.clientWaits| && s.clientWaits[c].count > |KeysOf(s.clientWait, c)|
  }

  // Such a wait never gets an answer: no blob completes it, and no later report mends it.
  lemma StarvedForever(s: State, c: nat, h: Hash, misses: seq<Hash>)
    requires Starved(s, c)
    ensures var r := ClientStep(s, h);
            Starved(r, c) && (h in s.clientWait && s.clientWait[h] == c ==> r.toClient == s.toClient)
    ensures Starved(ClientStatus(s, misses), c)
  {
    var keys := KeysOf(s.clientWait, c);
    if h in s.clientWait && s.clientWait[h] < |s.clientWaits| {
      var m := s.clientWait - {h};
      assert KeysOf(m, c) == keys - {h};
      if s.clientWait[h] == c { assert h in keys; }
    }
    var n := |s.clientWaits|;
    var f := Missing(s.db, misses);
    ClientStatusForm(s, misses);
    hide ClientStatus, ClientPayloads, Missing;
    assert KeysOf(Point(s.clientWait, f, n), c) <= keys;
    SubsetSize(KeysOf(Point(s.clientWait, f, n), c), keys);
  }

  // An unclean report leaves a starved wait behind: a hash reported twice starves the report itself,
  // one the client waits for already starves the earlier report.
  lemma UncleanStarves(s: State, misses: seq<Hash>)
    requires ClientCounts(s.clientWaits, s.clientWait) && !Clean(s, misses)
    ensures exists c :: Starved(ClientStatus(s, misses), c)
  {
    var n := |s.clientWaits|;
    var f := Missing(s.db, misses);
    var fs := SetOf(f);
    var r := ClientStatus(s, misses);
    ClientStatusForm(s, misses);
    SetOfSize(f);
    hide ClientStatus, Missing, Point, ClientPayloads;
    if NoDuplicates(f) {
      var h :| h in f && h in s.clientWait;
      var c := s.clientWait[h];
      PointKeys(s.clientWait, f, n, c);
      assert h in KeysOf(s.clientWait, c) && h in fs;
      SetMinus(KeysOf(s.clientWait, c), fs);
      SubsetSize(KeysOf(s.clientWait, c) - fs, KeysOf(s.clientWait, c));
      assert Starved(r, c);
    } else {
      PointKeys(s.clientWait, f, n, n);
      assert Starved(r, n);
    }
  }

  // ---- conservation ----

  ghost function CountOf(hs: seq<Hash>, h: Hash): nat {
    multiset(hs)[h]
  }

  // How many of the blobs are named by the hash.
  ghost function BlobsFor(blobs: seq<CacheBlob>, h: Hash): nat {
    if blobs == [] then 0 else (if blobs[0].hash == h then 1 else 0) + BlobsFor(blobs[1..], h)
  }

  // How often the client reported the hash, and how often its blob was sent to it.
  ghost function Reported(t: seq<ToClient>, h: Hash): nat {
    if t == [] then 0 else
      Reported(t[..|t| - 1], h) + if t[|t| - 1].Missed? then CountOf(t[|t| - 1].hashes, h) else 0
  }

  ghost function Sent(t: seq<ToClient>, h: Hash): nat {
    if t == [] then 0 else
      Sent(t[..|t| - 1], h) + if t[|t| - 1].Blobs? then BlobsFor(t[|t| - 1].blobs, h) else 0
  }

  ghost function Part(w: ClientWait, h: Hash): nat {
    if w.count > 0 then CountOf(w.hashes, h) else 0
  }

  // How often the hash is in the waits that were not answered yet.
  ghost function Owed(cws: seq<ClientWait>, h: Hash): nat {
    if cws == [] then 0 else Owed(cws[..|cws| - 1], h) + Part(cws[|cws| - 1], h)
  }

  ghost predicate Conserved(s: State) {
    forall h :: Reported(s.toClient, h) == Sent(s.toClient, h) + Owed(s.clientWaits, h)
  }

  lemma TalkAppend(t: seq<ToClient>, e: ToClient, h: Hash)
    ensures Reported(t + [e], h) == Reported(t, h) + if e.Missed? then CountOf(e.hashes, h) else 0
    ensures Sent(t + [e], h) == Sent(t, h) + if e.Blobs? then BlobsFor(e.blobs, h) else 0
  {
    assert (t + [e])[..|t|] == t;
  }

  lemma OwedAppend(cws: seq<ClientWait>, w: ClientWait, h: Hash)
    ensures Owed(cws + [w], h) == Owed(cws, h) + Part(w, h)
  {
    assert (cws + [w])[..|cws|] == cws;
  }

  lemma {:induction false} OwedUpdate(cws: seq<ClientWait>, c: nat, w: ClientWait, h: Hash)
    requires c < |cws|
    ensures Owed(cws[c := w], h) + Part(cws[c], h) == Owed(cws, h) + Part(w, h)
    decreases |cws|
  {
    var n := |cws| - 1;
    if c < n {
      OwedUpdate(cws[..n], c, w, h);
      assert cws[c := w][..n] == cws[..n][c := w];
    } else {
      assert cws[c := w][..n] == cws[..n];
    }
  }

  lemma CountStep(x: Hash, hs: seq<Hash>, h: Hash)
    ensures CountOf([x] + hs, h) == (if x == h then 1 else 0) + CountOf(hs, h)
  {
  }

  lemma BlobsForStep(b: CacheBlob, rest: seq<CacheBlob>, h: Hash)
    ensures BlobsFor([b] + rest, h) == (if b.hash == h then 1 else 0) + BlobsFor(rest, h)
  {
    assert ([b] + rest)[1..] == rest;
  }

  lemma PayloadForms(db: Db, hs: seq<Hash>)
    requires hs != []
    ensures var rest, missing := ClientPayloads(db, hs[1..]), Missing(db, hs[1..]);
            if hs[0] in db then
              ClientPayloads(db, hs) == [CacheBlob(hs[0], db[hs[0]])] + rest && Missing(db, hs) == missing
            else
              ClientPayloads(db, hs) == rest && Missing(db, hs) == [hs[0]] + missing
  {
  }

  lemma NoPayloads(db: Db, h: Hash)
    ensures BlobsFor(ClientPayloads(db, []), h) == 0 && CountOf(Missing(db, []), h) == 0 && CountOf([], h) == 0
  {
  }

  lemma {:induction false} PayloadHashes(db: Db, hs: seq<Hash>, h: Hash)
    ensures BlobsFor(ClientPayloads(db, hs), h) + CountOf(Missing(db, hs), h) == CountOf(hs, h)
    decreases |hs|
  {
    hide *;
    if hs == [] {
      NoPayloads(db, h);
    } else {
      PayloadForms(db, hs);
      PayloadHashes(db, hs[1..], h);
      assert hs == [hs[0]] + hs[1..];
      CountStep(hs[0], hs[1..], h);
      if hs[0] in db {
        BlobsForStep(CacheBlob(hs[0], db[hs[0]]), ClientPayloads(db, hs[1..]), h);
      } else {
        CountStep(hs[0], Missing(db, hs[1..]), h);
      }
    }
  }

  lemma {:induction false} MissingMembers(db: Db, hs: seq<Hash>)
    ensures forall h :: h in Missing(db, hs) <==> h in hs && h !in db
    decreases |hs|
  {
    if hs != [] { MissingMembers(db, hs[1..]); }
  }

  // ---- the invariant of clean runs ----

  // The hashes of a wait are distinct, and each points to the wait or its blob is stored; no other hash points to it.
  ghost predicate Pointed(s: State, c: nat) {
    c < |s.clientWaits| ==>
      && NoDuplicates(s.clientWaits[c].hashes)
      && (forall h :: h in s.clientWaits[c].hashes ==> h in s.db || (h in s.clientWait && s.clientWait[h] == c))
      && (forall h :: h in s.clientWait && s.clientWait[h] == c ==> h in s.clientWaits[c].hashes)
  }

  ghost predicate Served(s: State) {
    && ClientCounts(s.clientWaits, s.clientWait)
    && (forall c :: 0 <= c < |s.clientWaits| ==> Pointed(s, c))
    && s.clientWait.Keys <= s.serverWait.Keys
    && s.clientWait.Keys !! s.db.Keys
    && Conserved(s)
  }

  // Resolving writes only filled packets to the client.
  ghost predicate SameTalk(s: State, r: State) {
    forall h :: Reported(r.toClient, h) == Reported(s.toClient, h) && Sent(r.toClient, h) == Sent(s.toClient, h)
  }

  lemma ProcessTalk(s: State, id: nat, client: Client)
    ensures SameTalk(s, Process(s, id, client))
  {
    if id < |s.fills| {
      forall h { TalkAppend(s.toClient, Filled(FillPacket(s.db, s.fills[id])), h); }
    }
  }

  lemma WakeNone(repaired: bool, s: State, id: nat, client: Client)
    ensures SameTalk(s, WakeLoop(repaired, s, id, [], client))
  {
  }

  lemma AddCountTalk(s: State, id: nat, d: int)
    ensures AddCount(s, id, d).toClient == s.toClient && AddCount(s, id, d).subs == s.subs
  {
  }

  lemma WakeTurn(repaired: bool, s: State, id: nat, l: seq<nat>, client: Client)
    requires l != []
    ensures var s1 := AddCount(s, l[0], -1);
            var s2 := s1.(woken := s1.woken + [l[0]]);
            var s3 := if Complete(s1, l[0]) then Resolve(repaired, s2, if repaired then l[0] else id, client) else s1;
            WakeLoop(repaired, s, id, l, client) == WakeLoop(repaired, s3, id, l[1..], client)
  {
    hide Resolve, AddCount, Complete;
  }

  lemma TalkKept(s: State, t: State, r: State)
    requires s.toClient == t.toClient || SameTalk(s, t)
    requires t.toClient == r.toClient || SameTalk(t, r)
    ensures SameTalk(s, r)
  {
    hide Reported, Sent;
  }

  lemma {:induction false} WakeTalk(repaired: bool, s: State, id: nat, l: seq<nat>, client: Client)
    ensures SameTalk(s, WakeLoop(repaired, s, id, l, client))
    decreases s.subs.Keys, 1, |l|
  {
    hide *;
    if l != [] {
      var s1 := AddCount(s, l[0], -1);
      var s2 := s1.(woken := s1.woken + [l[0]]);
      var x := if repaired then l[0] else id;
      AddCountTalk(s, l[0], -1);
      WakeTurn(repaired, s, id, l, client);
      ResolveTalk(repaired, s2, x, client);
      var s3 := if Complete(s1, l[0]) then Resolve(repaired, s2, x, client) else s1;
      assert s3.subs.Keys <= s.subs.Keys;
      WakeTalk(repaired, s3, id, l[1..], client);
      TalkKept(s, s2, Resolve(repaired, s2, x, client));
      TalkKept(s, s3, WakeLoop(repaired, s3, id, l[1..], client));
    } else {
      WakeNone(repaired, s, id, client);
    }
  }

  lemma {:induction false} ResolveTalk(repaired: bool, s: State, id: nat, client: Client)
    ensures SameTalk(s, Resolve(repaired, s, id, client))
    decreases s.subs.Keys, 0, 0
  {
    ProcessTalk(s, id, client);
    if HasWaiters(s, id) {
      WakeTalk(repaired, TakeWaiters(Process(s, id, client), id), id, Waiters(s, id), client);
    }
  }

  lemma {:induction false} WaitersTalk(repaired: bool, s: State, l: seq<nat>, client: Client)
    ensures SameTalk(s, WaiterLoop(repaired, s, l, client))
    decreases |l|
  {
    if l != [] {
      var s1 := AddCount(s, l[0], -1);
      ResolveTalk(repaired, s1, l[0], client);
      WaitersTalk(repaired, if Complete(s1, l[0]) then Resolve(repaired, s1, l[0], client) else s1, l[1..], client);
    }
  }

  // A step that leaves the client's waits alone, keeps the database and only adds to serverWait.
  lemma ServedFrame(s: State, r: State)
    requires Served(s) && SameTalk(s, r) && r.db == s.db && r.clientWaits == s.clientWaits
             && r.clientWait == s.clientWait
    requires s.serverWait.Keys <= r.serverWait.Keys
    ensures Served(r)
  {
    assert forall c :: Pointed(s, c) ==> Pointed(r, c);
  }

  lemma FinishServed(repaired: bool, s: State, b: Build, id: nat, client: Client)
    requires Served(s) && b.s.db == s.db && b.s.clientWaits == s.clientWaits && b.s.clientWait == s.clientWait
    requires b.s.toClient == s.toClient && s.serverWait.Keys <= b.s.serverWait.Keys
    ensures Served(FinishState(repaired, b, id, client))
  {
    AnnounceSame(b);
    var a := Announce(b);
    FinishOutside(repaired, b, id, client);
    ResolveTalk(repaired, a, id, client);
    var r := FinishState(repaired, b, id, client);
    assert SameTalk(s, r);
    assert r.db == s.db && r.clientWaits == s.clientWaits && r.clientWait == s.clientWait
           && r.serverWait == b.s.serverWait;
    hide *;
    ServedFrame(s, r);
  }

  lemma {:induction false} LevelLoopClient(b: Build, id: nat, pos: ChunkPos, hs: seq<Hash>)
    ensures var r := LevelLoop(b, id, pos, hs).s;
            && r.db == b.s.db && r.clientWaits == b.s.clientWaits && r.clientWait == b.s.clientWait
            && r.toClient == b.s.toClient && b.s.serverWait.Keys <= r.serverWait.Keys
    decreases |hs|
  {
    if hs != [] { LevelLoopClient(LevelStep(b, id, pos, hs[0]), id, pos, hs[1..]); }
  }

  lemma {:induction false} SubLoopClient(b: Build, id: nat, es: seq<Entry>)
    ensures var r := SubLoop(b, id, es).s;
            && r.db == b.s.db && r.clientWaits == b.s.clientWaits && r.clientWait == b.s.clientWait
            && r.toClient == b.s.toClient && b.s.serverWait.Keys <= r.serverWait.Keys
    decreases |es|
  {
    if es != [] { SubLoopClient(SubStep(b, id, es[0]), id, es[1..]); }
  }

  // ---- a report ----

  // The client reports hashes of packets the cache has received.
  ghost predicate Known(s: State, misses: seq<Hash>) {
    forall h :: h in misses ==> exists id :: NeedsHash(s.received, h, id)
  }

  // And each once.
  ghost predicate Honest(s: State, misses: seq<Hash>) {
    Clean(s, misses) && Known(s, misses)
  }

  // The blob of every hash in a received packet is stored or has been asked for.
  lemma KnownHash(repaired: bool, s: State, h: Hash, id: nat)
    requires Quiet(repaired, s) && Records(Unchecked, s) && NeedsHash(s.received, h, id)
    ensures h in s.db || h in s.serverWait
  {
    if id in DoneIds(s.processed) {
      var d: Db :| Needs(s.received[id].pk) <= d.Keys <= s.db.Keys;
    }
  }

  lemma CountsInRange(s: State)
    requires ClientCounts(s.clientWaits, s.clientWait)
    ensures forall h :: h in s.clientWait ==> s.clientWait[h] < |s.clientWaits|
  {
  }

  lemma PointDomain(m: map<Hash, nat>, f: seq<Hash>, c: nat)
    ensures forall h :: h in Point(m, f, c) <==> h in m || h in f
  {
  }

  lemma ReportTalk(s: State, r: State, misses: seq<Hash>)
    requires Conserved(s)
    requires var f := Missing(s.db, misses);
             var blobs := ClientPayloads(s.db, misses);
             var t := s.toClient + [Missed(misses)];
             r.clientWaits == s.clientWaits + [ClientWait(|f|, f)]
               && r.toClient == if blobs == [] then t else t + [Blobs(blobs)]
    ensures Conserved(r)
  {
    var f := Missing(s.db, misses);
    var blobs := ClientPayloads(s.db, misses);
    var t := s.toClient + [Missed(misses)];
    forall h ensures Reported(r.toClient, h) == Sent(r.toClient, h) + Owed(r.clientWaits, h) {
      assert Reported(s.toClient, h) == Sent(s.toClient, h) + Owed(s.clientWaits, h);
      PayloadHashes(s.db, misses, h);
      OwedAppend(s.clientWaits, ClientWait(|f|, f), h);
      TalkAppend(s.toClient, Missed(misses), h);
      TalkAppend(t, Blobs(blobs), h);
      assert Part(ClientWait(|f|, f), h) == CountOf(f, h);
      assert blobs == [] ==> BlobsFor(blobs, h) == 0;
      hide Reported, Sent, Owed, Part, CountOf, BlobsFor, ClientPayloads, Missing;
    }
  }

  lemma ReportPointed(s: State, r: State, f: seq<Hash>)
    requires (forall c :: 0 <= c < |s.clientWaits| ==> Pointed(s, c))
             && (forall h :: h in s.clientWait ==> s.clientWait[h] < |s.clientWaits|)
    requires NoDuplicates(f) && forall h :: h in f ==> h !in s.clientWait && h !in s.db
    requires r.clientWaits == s.clientWaits + [ClientWait(|f|, f)]
             && r.clientWait == Point(s.clientWait, f, |s.clientWaits|)
    requires r.db == s.db
    ensures forall c :: 0 <= c < |r.clientWaits| ==> Pointed(r, c)
  {
    forall c | 0 <= c < |r.clientWaits| ensures Pointed(r, c) {
      if c < |s.clientWaits| {
        assert r.clientWaits[c] == s.clientWaits[c];
        assert Pointed(s, c);
      }
    }
  }

  lemma ReportServed(repaired: bool, s: State, misses: seq<Hash>)
    requires Quiet(repaired, s) && Records(Unchecked, s) && Served(s) && Honest(s, misses)
    ensures Served(ClientStatus(s, misses))
  {
    var f := Missing(s.db, misses);
    var r := ClientStatus(s, misses);
    ClientStatusForm(s, misses);
    MissingMembers(s.db, misses);
    forall h | h in f ensures h in s.serverWait {
      var id :| NeedsHash(s.received, h, id);
      KnownHash(repaired, s, h, id);
    }
    CountsKeptIff(s, misses);
    hide Quiet, Records, ClientStatus, Needs, NeedsHash, Missing, ClientPayloads, ClientCounts, Conserved;
    ReportTalk(s, r, misses);
    CountsInRange(s);
    ReportPointed(s, r, f);
    PointDomain(s.clientWait, f, |s.clientWaits|);
    hide Point, NoDuplicates;
  }

  // ---- an answer ----

  lemma ReceiveClient(s: State, blob: CacheBlob)
    requires blob.hash in s.clientWait && s.clientWait[blob.hash] < |s.clientWaits|
    ensures var r := Receive(s, blob);
            var c := s.clientWait[blob.hash];
            var w := s.clientWaits[c].(count := s.clientWaits[c].count - 1);
            && r.clientWaits == s.clientWaits[c := w] && r.clientWait == s.clientWait - {blob.hash}
            && r.toClient == if w.count == 0 then s.toClient + [Blobs(ClientPayloads(r.db, w.hashes))] else s.toClient
  {
  }

  lemma KeysOfRemove(m: map<Hash, nat>, h: Hash)
    requires h in m
    ensures forall c :: KeysOf(m - {h}, c) == if c == m[h] then KeysOf(m, c) - {h} else KeysOf(m, c)
    ensures h in KeysOf(m, m[h]) && |KeysOf(m, m[h])| > 0
    ensures |KeysOf(m - {h}, m[h])| == |KeysOf(m, m[h])| - 1
  {
    assert h in KeysOf(m, m[h]);
    assert KeysOf(m - {h}, m[h]) == KeysOf(m, m[h]) - {h};
    forall c ensures KeysOf(m - {h}, c) == if c == m[h] then KeysOf(m, c) - {h} else KeysOf(m, c) {
      assert c != m[h] ==> h !in KeysOf(m, c);
    }
  }

  lemma AnswerCounts(s: State, h: Hash)
    requires ClientCounts(s.clientWaits, s.clientWait) && h in s.clientWait
    ensures var c := s.clientWait[h];
            ClientCounts(s.clientWaits[c := s.clientWaits[c].(count := s.clientWaits[c].count - 1)], s.clientWait - {h})
  {
    KeysOfRemove(s.clientWait, h);
    hide KeysOf;
  }

  lemma AnswerPointed(s: State, r: State, h: Hash)
    requires ClientCounts(s.clientWaits, s.clientWait) && h in s.clientWait
    requires forall c :: 0 <= c < |s.clientWaits| ==> Pointed(s, c)
    requires r.clientWait == s.clientWait - {h} && h in r.db && s.db.Keys <= r.db.Keys
    requires |r.clientWaits| == |s.clientWaits|
    requires forall c :: 0 <= c < |s.clientWaits| ==> r.clientWaits[c].hashes == s.clientWaits[c].hashes
    ensures forall c :: 0 <= c < |r.clientWaits| ==> Pointed(r, c)
  {
    hide ClientCounts;
    forall c | 0 <= c < |r.clientWaits| ensures Pointed(r, c) {
      assert Pointed(s, c);
      assert r.clientWaits[c].hashes == s.clientWaits[c].hashes;
    }
  }

  // When the last hash of a wait arrives, all its blobs are stored.
  lemma LastAnswer(r: State, c: nat, w: ClientWait, h: Hash)
    requires c < |r.clientWaits| && r.clientWaits[c] == w && |KeysOf(r.clientWait, c)| == 0 && Pointed(r, c)
    ensures BlobsFor(ClientPayloads(r.db, w.hashes), h) == CountOf(w.hashes, h)
  {
    assert KeysOf(r.clientWait, c) == {};
    assert forall x :: x in r.clientWait ==> r.clientWait[x] != c by {
      assert forall x :: x in r.clientWait && r.clientWait[x] == c ==> x in KeysOf(r.clientWait, c);
    }
    MissingMembers(r.db, w.hashes);
    assert h !in Missing(r.db, w.hashes);
    assert h !in multiset(Missing(r.db, w.hashes));
    PayloadHashes(r.db, w.hashes, h);
  }

  // Then all of them are sent; until then nothing is.
  lemma AnswerTalk(s: State, r: State, h: Hash, w1: ClientWait)
    requires Conserved(s)
    requires h in s.clientWait && s.clientWait[h] < |s.clientWaits|
    requires var c := s.clientWait[h];
             && s.clientWaits[c].count > 0 && w1 == s.clientWaits[c].(count := s.clientWaits[c].count - 1)
             && r.clientWaits == s.clientWaits[c := w1] && r.clientWait == s.clientWait - {h}
             && (w1.count == 0 ==> Pointed(r, c) && |KeysOf(r.clientWait, c)| == 0)
             && r.toClient == if w1.count == 0 then s.toClient + [Blobs(ClientPayloads(r.db, w1.hashes))]
               else s.toClient
    ensures Conserved(r)
  {
    var c := s.clientWait[h];
    var w := s.clientWaits[c];
    hide Pointed, KeysOf;
    forall x ensures Reported(r.toClient, x) == Sent(r.toClient, x) + Owed(r.clientWaits, x) {
      assert Reported(s.toClient, x) == Sent(s.toClient, x) + Owed(s.clientWaits, x);
      OwedUpdate(s.clientWaits, c, w1, x);
      assert Part(w, x) == CountOf(w.hashes, x);
      assert Part(w1, x) == if w1.count == 0 then 0 else CountOf(w.hashes, x);
      hide Reported, Sent, Owed, Part, CountOf, BlobsFor, ClientPayloads;
      if w1.count == 0 {
        LastAnswer(r, c, w1, x);
        TalkAppend(s.toClient, Blobs(ClientPayloads(r.db, w1.hashes)), x);
      }
    }
  }

  // A wait that a hash points to has references left, and as many as hashes when one has come in.
  lemma CountedDown(s: State, h: Hash)
    requires ClientCounts(s.clientWaits, s.clientWait) && h in s.clientWait
    ensures var c := s.clientWait[h];
            s.clientWaits[c].count > 0 && s.clientWaits[c].count - 1 == |KeysOf(s.clientWait - {h}, c)|
  {
    KeysOfRemove(s.clientWait, h);
    hide KeysOf;
  }

  lemma AnswerServed(s: State, blob: CacheBlob)
    requires Served(s)
    ensures var s1 := Receive(s, blob); Served(s1.(serverWait := s1.serverWait - {blob.hash}))
  {
    var h := blob.hash;
    var s1 := Receive(s, blob);
    var s2 := s1.(serverWait := s1.serverWait - {h});
    ReceiveOutside(s, blob);
    assert s2.serverWait.Keys == s.serverWait.Keys - {h};
    if h in s.clientWait {
      var c := s.clientWait[h];
      var w1 := s.clientWaits[c].(count := s.clientWaits[c].count - 1);
      ReceiveClient(s, blob);
      hide Receive, ClientCounts, KeysOf, Pointed, Conserved;
      AnswerCounts(s, h);
      AnswerPointed(s, s2, h);
      CountedDown(s, h);
      AnswerTalk(s, s2, h, w1);
    } else {
      assert s1.clientWaits == s.clientWaits && s1.clientWait == s.clientWait && s1.toClient == s.toClient;
      assert Conserved(s2);
      hide Receive, ClientStep, Conserved;
      assert forall c :: Pointed(s, c) ==> Pointed(s2, c);
    }
  }

  lemma BlobStepServed(repaired: bool, s: State, blob: CacheBlob, client: Client)
    requires Quiet(repaired, s) && Served(s)
    ensures Served(BlobStep(repaired, s, blob, client))
  {
    var s1 := Receive(s, blob);
    var s2 := s1.(serverWait := s1.serverWait - {blob.hash});
    var r := BlobStep(repaired, s, blob, client);
    AnswerServed(s, blob);
    BlobStepOutside(repaired, s, blob, client);
    WaitersTalk(repaired, s2, At(s1.serverWait, blob.hash), client);
    assert r.db == s2.db && r.clientWaits == s2.clientWaits && r.clientWait == s2.clientWait
           && r.serverWait == s2.serverWait;
    hide *;
    ServedFrame(s2, r);
  }

  lemma {:induction false} BlobLoopServed(repaired: bool, s: State, blobs: seq<CacheBlob>, client: Client)
    requires Quiet(repaired, s) && Served(s)
    ensures Served(BlobLoop(repaired, s, blobs, client))
    decreases |blobs|
  {
    if blobs != [] {
      hide Quiet, Served, BlobStep;
      BlobStepServed(repaired, s, blobs[0], client);
      BlobStepKeeps(repaired, s, blobs[0], client);
      BlobLoopServed(repaired, BlobStep(repaired, s, blobs[0], client), blobs[1..], client);
    }
  }

  // ---- runs ----

  ghost predicate HonestRun(repaired: bool, db: Db, inputs: seq<Input>) {
    forall i :: 0 <= i < |inputs| && inputs[i].ClientStatusIn?
      ==> Honest(Run(repaired, db, inputs[..i]), inputs[i].misses)
  }

  lemma ServedArrive(s: State, p: ChunkPos)
    requires Served(s)
    ensures Served(s.(arrived := s.arrived + {p}))
  {
    assert forall c :: Pointed(s, c) ==> Pointed(s.(arrived := s.arrived + {p}), c);
  }

  lemma AddSubsClient(s: State, id: nat, ps: set<ChunkPos>)
    ensures var r := AddSubs(s, id, ps);
            && r.db == s.db && r.clientWaits == s.clientWaits && r.clientWait == s.clientWait
            && r.toClient == s.toClient && r.serverWait == s.serverWait
  {
    hide AppendAll;
  }

  lemma BuildSubClient(s: State, sc: SubChunk)
    ensures var b := SubLoop(Build(NewWait(s, Sub(sc)), Reply([], []), []), |s.counts|, sc.entries).s;
            var r := BuildSub(s, sc).s;
            && r.db == b.db && r.clientWaits == b.clientWaits && r.clientWait == b.clientWait
            && r.toClient == b.toClient && r.serverWait == b.serverWait
  {
    hide Touches, SubLoop, AppendAll, NewWait;
    var b := SubLoop(Build(NewWait(s, Sub(sc)), Reply([], []), []), |s.counts|, sc.entries).s;
    AddSubsClient(b, |s.counts|, Touches(sc.position, sc.entries) * b.levelChunksWaiting.Keys);
    hide AddSubs;
  }

  lemma NewClient(s: State, pk: Packet)
    ensures var r := NewWait(s, pk);
            && r.db == s.db && r.clientWaits == s.clientWaits && r.clientWait == s.clientWait
            && r.toClient == s.toClient && r.serverWait == s.serverWait
  {
  }

  lemma LevelServed(repaired: bool, s: State, lc: LevelChunk, client: Client)
    requires Served(s)
    ensures Served(HandleLevelChunk(repaired, s, lc, client))
  {
    hide *;
    var b := BuildLevel(s, lc);
    LevelForms(repaired, s, lc, client);
    NewClient(s, Level(lc));
    LevelLoopClient(Build(NewWait(s, Level(lc)), Reply([], []), []), |s.counts|, lc.pos, lc.blobHashes);
    FinishServed(repaired, s, b, |s.counts|, client);
    ServedArrive(FinishState(repaired, b, |s.counts|, client), lc.pos);
  }

  lemma SubServed(repaired: bool, s: State, sc: SubChunk, client: Client)
    requires Served(s)
    ensures Served(HandleSubChunk(repaired, s, sc, client))
  {
    hide *;
    NewClient(s, Sub(sc));
    SubLoopClient(Build(NewWait(s, Sub(sc)), Reply([], []), []), |s.counts|, sc.entries);
    BuildSubClient(s, sc);
    SubHandled(repaired, s, sc, client);
    FinishServed(repaired, s, BuildSub(s, sc), |s.counts|, client);
  }

  lemma HandleServed(repaired: bool, s: State, i: Input)
    requires Quiet(repaired, s) && Records(Unchecked, s) && Served(s)
    requires i.ClientStatusIn? ==> Honest(s, i.misses)
    ensures Served(Handle(repaired, s, i))
  {
    hide Quiet, Records, Served, Honest, HandleLevelChunk, HandleSubChunk, BlobLoop, ClientStatus;
    match i
    case LevelChunkIn(lc, client) => LevelServed(repaired, s, lc, client);
    case SubChunkIn(sc, client) => SubServed(repaired, s, sc, client);
    case BlobsIn(blobs, client) => BlobLoopServed(repaired, s, blobs, client);
    case ClientStatusIn(misses) => ReportServed(repaired, s, misses);
  }

  lemma {:induction false} RunServed(repaired: bool, db: Db, inputs: seq<Input>)
    requires HonestRun(repaired, db, inputs)
    ensures Served(Run(repaired, db, inputs))
    decreases |inputs|
  {
    if inputs == [] {
      assert KeysOf(map[], 0) == {};
    } else {
      var before := inputs[..|inputs| - 1];
      assert forall i :: 0 <= i < |before| ==> before[..i] == inputs[..i] && before[i] == inputs[i];
      RunServed(repaired, db, before);
      RunKeeps(repaired, db, before);
      RunRecords(Unchecked, repaired, db, before);
      hide Served, Quiet, Records, Handle, Honest;
      HandleServed(repaired, Run(repaired, db, before), inputs[|inputs| - 1]);
    }
  }

  lemma {:induction false} NothingOwed(cws: seq<ClientWait>, h: Hash)
    requires forall c :: 0 <= c < |cws| ==> cws[c].count == 0
    ensures Owed(cws, h) == 0
  {
    if cws != [] { NothingOwed(cws[..|cws| - 1], h); }
  }

  // No client miss starves: what the client waits for has been asked for and not answered, and what it reported is
  // what was sent to it plus what the unanswered waits still owe. Once no blob is outstanding, each reported hash
  // has been sent exactly as often as it was reported.
  lemma ClientMissesAreServed(repaired: bool, db: Db, inputs: seq<Input>)
    requires HonestRun(repaired, db, inputs)
    ensures var s := Run(repaired, db, inputs);
            && s.clientWait.Keys <= InFlight(s.wire)
            && (forall h :: Reported(s.toClient, h) == Sent(s.toClient, h) + Owed(s.clientWaits, h))
            && (InFlight(s.wire) == {} ==> forall h :: Reported(s.toClient, h) == Sent(s.toClient, h))
  {
    RunServed(repaired, db, inputs);
    OneFlightPerBlob(repaired, db, inputs);
    var s := Run(repaired, db, inputs);
    hide Run;
    if s.serverWait.Keys == {} {
      assert s.clientWait.Keys == {};
      forall c | 0 <= c < |s.clientWaits| ensures s.clientWaits[c].count == 0 {
        assert KeysOf(s.clientWait, c) == {};
      }
      forall h ensures Owed(s.clientWaits, h) == 0 { NothingOwed(s.clientWaits, h); }
    }
  }
}
