// What a packet looks like when it is processed, and what has been processed before it.

module BlobRecords {
  import opened RawBytes
  import opened BlobPackets
  import opened Occurrences
  import opened BlobSpec
  import opened BlobInvariant
  import opened BlobReachable

  // What is known about blobs: nothing, or that each is the one its hash names.
  datatype Naming = Unchecked | ByContent(content: Hash -> Bytes)

  ghost predicate Named(n: Naming, db: Db) {
    n.ByContent? ==> ContentAddressed(db, n.content)
  }

  // `pk` is `orig` filled in from a database with all the blobs it needs.
  ghost predicate Faithful(n: Naming, orig: Packet, pk: Packet, db: Db) {
    exists d: Db :: Named(n, d) && Needs(orig) <= d.Keys <= db.Keys && pk == FillPacket(d, InitialFill(orig))
  }

  // The columns of a sub chunk that had a level chunk before it have had one processed.
  ghost predicate InOrder(r: Received, before: seq<Done>) {
    r.pk.Sub? ==> forall p :: p in TouchedBy(r.pk) && p in r.after ==> p in ProcessedAt(before)
  }

  ghost predicate RecordOk(n: Naming, rs: seq<Received>, db: Db, processed: seq<Done>, i: nat) {
    i < |processed| && processed[i].id < |rs|
    && Faithful(n, rs[processed[i].id].pk, processed[i].pk, db)
    && InOrder(rs[processed[i].id], processed[..i])
  }

  ghost predicate Records(n: Naming, s: State) {
    && Named(n, s.db)
    && |s.fills| == |s.received|
    && (forall i :: 0 <= i < |s.processed| ==> RecordOk(n, s.received, s.db, s.processed, i))
    && (forall id :: id in DoneIds(s.processed) ==>
          id < |s.fills| && Faithful(n, s.received[id].pk, s.fills[id], s.db))
  }

  // A complete wait has its blobs, and its columns have been processed.
  lemma CompleteHasAll(repaired: bool, s: State, id: nat, pend: multiset<nat>, open: set<nat>, g: nat)
    requires Inv(repaired, s, pend, open, g) && id < g && id < |s.counts| && s.counts[id] == 0
             && id !in DoneIds(s.processed)
    ensures Needs(s.received[id].pk) <= s.db.Keys
    ensures InOrder(s.received[id], s.processed)
  {
    OccZero(s.serverWait, id);
    OccZero(s.subs, id);
    forall h | h in Needs(s.received[id].pk) ensures h in s.db {
      assert NeedsHash(s.received, h, id);
    }
    if s.received[id].pk.Sub? {
      forall p | p in TouchedBy(s.received[id].pk) && p in s.received[id].after ensures p in ProcessedAt(s.processed) {
        assert TouchesPos(s.received, p, id);
      }
    }
  }

  lemma RecordsAppend(n: Naming, rs: seq<Received>, db: Db, processed: seq<Done>, d: Done)
    requires forall i :: 0 <= i < |processed| ==> RecordOk(n, rs, db, processed, i)
    requires d.id < |rs| && Faithful(n, rs[d.id].pk, d.pk, db) && InOrder(rs[d.id], processed)
    ensures forall i :: 0 <= i < |processed| + 1 ==> RecordOk(n, rs, db, processed + [d], i)
  {
    var more := processed + [d];
    assert more[..|processed|] == processed;
    hide Faithful, InOrder;
    forall i | 0 <= i < |more| ensures RecordOk(n, rs, db, more, i) {
      if i < |processed| {
        assert more[..i] == processed[..i] && more[i] == processed[i];
        assert RecordOk(n, rs, db, processed, i);
      }
    }
  }

  // What is filled in when a wait is resolved, for the first time or again.
  lemma FilledFaithfully(n: Naming, repaired: bool, s: State, id: nat, pend: multiset<nat>, open: set<nat>)
    requires Resolvable(repaired, s, id, open) && Inv(repaired, s, pend, open, |s.received|) && Records(n, s)
    ensures id < |s.fills| && Faithful(n, s.received[id].pk, FillPacket(s.db, s.fills[id]), s.db)
    ensures InOrder(s.received[id], s.processed)
  {
    InvFacts(repaired, s, pend, open, |s.received|);
    if id in DoneIds(s.processed) {
      var d: Db :| Named(n, d) && Needs(s.received[id].pk) <= d.Keys <= s.db.Keys
                   && s.fills[id] == FillPacket(d, InitialFill(s.received[id].pk));
      FillIdempotent(d, s.db, InitialFill(s.received[id].pk));
      assert FillPacket(s.db, s.fills[id]) == s.fills[id];
    } else {
      CompleteHasAll(repaired, s, id, pend, open, |s.received|);
      assert s.fills[id] == InitialFill(s.received[id].pk);
      hide Inv;
      assert Named(n, s.db) && Needs(s.received[id].pk) <= s.db.Keys <= s.db.Keys;
    }
  }

  lemma RecordsProcess(n: Naming, s: State, s1: State, id: nat, pk: Packet)
    requires Records(n, s) && id < |s.fills| && Faithful(n, s.received[id].pk, pk, s.db)
             && InOrder(s.received[id], s.processed)
    requires s1.processed == s.processed + [Done(id, pk)] && s1.fills == s.fills[id := pk]
    requires s1.received == s.received && s1.db == s.db
    ensures Records(n, s1)
  {
    hide Faithful, InOrder, RecordOk, Named;
    RecordsAppend(n, s.received, s.db, s.processed, Done(id, pk));
    ProcessedAppend(s.processed, Done(id, pk));
  }

  lemma ProcessRecords(n: Naming, repaired: bool, s: State, id: nat, client: Client, pend: multiset<nat>,
                       open: set<nat>)
    requires Resolvable(repaired, s, id, open) && Inv(repaired, s, pend, open, |s.received|) && Records(n, s)
    ensures Records(n, ProcessAndTake(s, id, client))
  {
    FilledFaithfully(n, repaired, s, id, pend, open);
    ProcessAndTakeFields(s, id, client);
    hide Inv, Resolvable;
    RecordsProcess(n, s, ProcessAndTake(s, id, client), id, FillPacket(s.db, s.fills[id]));
  }

  lemma {:induction false} WakeRecords(n: Naming, repaired: bool, s: State, id: nat, l: seq<nat>, client: Client,
                                       pend: multiset<nat>)
    requires id < |s.received| && id in DoneIds(s.processed) && s.received[id].pk.Level?
    requires forall i :: 0 <= i < |l| ==> l[i] < |s.received| && s.received[l[i]].pk.Sub?
    requires Inv(repaired, s, pend + multiset(l), {}, |s.received|) && Records(n, s)
    ensures Records(n, WakeLoop(repaired, s, id, l, client))
    decreases s.subs.Keys, 1, |l|
  {
    hide Inv, Records;
    if l != [] {
      var g := |s.received|;
      var rest := pend + multiset(l[1..]);
      assert l == [l[0]] + l[1..];
      assert pend + multiset(l) == rest + multiset{l[0]};
      InvFacts(repaired, s, pend + multiset(l), {}, g);
      CountDown(repaired, s, l[0], rest, g);
      CountRecords(n, s, l[0], [l[0]]);
      var s1 := AddCount(s, l[0], -1);
      if s1.counts[l[0]] == 0 {
        WokenKeeps(repaired, s1, l[0], rest, g);
        var s2 := s1.(woken := s1.woken + [l[0]]);
        var x := if repaired then l[0] else id;
        ResolveRecords(n, repaired, s2, x, client, rest, if repaired then {l[0]} else {});
        ResolveKeeps(repaired, s2, x, client, rest, if repaired then {l[0]} else {}, g);
        var s3 := Resolve(repaired, s2, x, client);
        ResolveOutside(repaired, s2, x, client);
        DoneMonotone(s2.processed, s3.processed);
        WakeRecords(n, repaired, s3, id, l[1..], client, pend);
      } else {
        WakeRecords(n, repaired, s1, id, l[1..], client, pend);
      }
    }
  }

  lemma {:induction false} ResolveRecords(n: Naming, repaired: bool, s: State, id: nat, client: Client,
                                          pend: multiset<nat>, open: set<nat>)
    requires Resolvable(repaired, s, id, open) && Inv(repaired, s, pend, open, |s.received|) && Records(n, s)
    ensures Records(n, Resolve(repaired, s, id, client))
    decreases s.subs.Keys, 0, 0
  {
    ResolveSteps(repaired, s, id, client);
    hide *;
    ProcessRecords(n, repaired, s, id, client, pend, open);
    if HasWaiters(s, id) {
      ProcessKeeps(repaired, s, id, client, pend, open, |s.received|);
      WaitersAreSubs(repaired, s, id, pend, open, |s.received|);
      InvFacts(repaired, s, pend, open, |s.received|);
      ProcessAndTakeFields(s, id, client);
      WakeRecords(n, repaired, ProcessAndTake(s, id, client), id, Waiters(s, id), client, pend);
    }
  }

  lemma CountRecords(n: Naming, s: State, x: nat, woken: seq<nat>)
    requires Records(n, s)
    ensures var s1 := AddCount(s, x, -1); Records(n, s1) && Records(n, s1.(woken := s1.woken + woken))
  {
    hide RecordOk, Faithful;
  }

  lemma TurnRecords(n: Naming, repaired: bool, s: State, l: seq<nat>, client: Client)
    requires l != [] && l[0] < |s.received| && Inv(repaired, s, multiset(l), {}, |s.received|) && Records(n, s)
    ensures Records(n, Turn(repaired, s, l[0], client))
  {
    hide *;
    var x, rest := l[0], multiset(l[1..]);
    FirstOff(l);
    InvFacts(repaired, s, multiset(l), {}, |s.received|);
    CountDown(repaired, s, x, rest, |s.received|);
    CountRecords(n, s, x, []);
    DownResolvable(repaired, s, x);
    TurnForm(repaired, s, x, client);
    if Complete(AddCount(s, x, -1), x) {
      ResolveRecords(n, repaired, AddCount(s, x, -1), x, client, rest, {x});
    }
  }

  lemma {:induction false} WaiterRecords(n: Naming, repaired: bool, s: State, l: seq<nat>, client: Client)
    requires forall i :: 0 <= i < |l| ==> l[i] < |s.received|
    requires Inv(repaired, s, multiset(l), {}, |s.received|) && Records(n, s)
    ensures Records(n, WaiterLoop(repaired, s, l, client))
    decreases |l|
  {
    hide *;
    LoopTurn(repaired, s, l, client);
    if l != [] {
      TurnKeeps(repaired, s, l, client, |s.received|);
      TurnRecords(n, repaired, s, l, client);
      WaiterRecords(n, repaired, Turn(repaired, s, l[0], client), l[1..], client);
    }
  }

  // ---- the other steps leave records alone ----

  lemma FaithfulMore(n: Naming, orig: Packet, pk: Packet, db: Db, db': Db)
    requires Faithful(n, orig, pk, db) && db.Keys <= db'.Keys
    ensures Faithful(n, orig, pk, db')
  {
    var d: Db :| Named(n, d) && Needs(orig) <= d.Keys <= db.Keys && pk == FillPacket(d, InitialFill(orig));
    assert d.Keys <= db'.Keys;
  }

  // More waits, more blobs, other counters: what was processed stays as it was.
  lemma RecordsMore(n: Naming, s: State, r: State)
    requires Records(n, s) && Named(n, r.db) && s.db.Keys <= r.db.Keys && r.processed == s.processed
    requires s.received <= r.received && s.fills <= r.fills && |r.fills| == |r.received|
    ensures Records(n, r)
  {
    forall i | 0 <= i < |r.processed| ensures RecordOk(n, r.received, r.db, r.processed, i) {
      assert RecordOk(n, s.received, s.db, s.processed, i);
      var id := s.processed[i].id;
      assert r.received[id] == s.received[id];
      FaithfulMore(n, s.received[id].pk, s.processed[i].pk, s.db, r.db);
    }
    forall id | id in DoneIds(r.processed) ensures id < |r.fills| && Faithful(n, r.received[id].pk, r.fills[id], r.db) {
      assert r.received[id] == s.received[id] && r.fills[id] == s.fills[id];
      FaithfulMore(n, s.received[id].pk, s.fills[id], s.db, r.db);
    }
  }

  lemma FinishRecords(n: Naming, repaired: bool, b: Build, id: nat, client: Client)
    requires |b.s.received| == id + 1 == |b.s.counts| && id !in DoneIds(b.s.processed) && id !in b.s.woken
    requires Inv(repaired, b.s, multiset{}, {id}, id + 1) && Records(n, b.s)
    ensures Records(n, FinishState(repaired, b, id, client))
  {
    var s := Announce(b);
    AnnounceSame(b);
    AnnounceKeeps(repaired, b, multiset{}, {id}, id + 1);
    RecordsMore(n, b.s, s);
    if b.s.counts[id] == 0 {
      assert Resolvable(repaired, s, id, {id});
      hide Inv, Records;
      ResolveRecords(n, repaired, s, id, client, multiset{}, {id});
    }
  }

  lemma RecordsArrive(n: Naming, s: State, p: ChunkPos)
    requires Records(n, s)
    ensures Records(n, s.(arrived := s.arrived + {p}))
  {
    hide RecordOk, Faithful;
  }

  lemma {:induction false} LevelLoopFills(b: Build, id: nat, pos: ChunkPos, hs: seq<Hash>)
    ensures LevelLoop(b, id, pos, hs).s.fills == b.s.fills
    decreases |hs|
  {
    if hs != [] { LevelLoopFills(LevelStep(b, id, pos, hs[0]), id, pos, hs[1..]); }
  }

  lemma LevelFills(s: State, lc: LevelChunk)
    ensures BuildLevel(s, lc).s.fills == s.fills + [Level(lc)]
  {
    LevelLoopFills(Build(NewWait(s, Level(lc)), Reply([], []), []), |s.counts|, lc.pos, lc.blobHashes);
  }

  lemma HandleLevelChunkRecords(n: Naming, repaired: bool, s: State, lc: LevelChunk, client: Client)
    requires Quiet(repaired, s) && Records(n, s)
    ensures Records(n, HandleLevelChunk(repaired, s, lc, client))
  {
    var id := |s.received|;
    LevelBuilt(repaired, s, lc);
    var b := BuildLevel(s, lc);
    var r := FinishState(repaired, b, id, client);
    assert HandleLevelChunk(repaired, s, lc, client) == r.(arrived := r.arrived + {lc.pos});
    assert TouchedBy(Level(lc)) == {};
    LevelFills(s, lc);
    RecordsMore(n, s, b.s) by { BuildingParts(repaired, b.s, id); }
    hide *;
    BuildingDone(repaired, b.s, id);
    BuildingParts(repaired, b.s, id);
    FinishRecords(n, repaired, b, id, client);
    RecordsArrive(n, r, lc.pos);
  }

  lemma HandleSubChunkRecords(n: Naming, repaired: bool, s: State, sc: SubChunk, client: Client)
    requires Quiet(repaired, s) && Records(n, s)
    ensures Records(n, HandleSubChunk(repaired, s, sc, client))
  {
    var id := |s.received|;
    SubBuilt(repaired, s, sc);
    var b := BuildSub(s, sc);
    RecordsMore(n, s, b.s);
    assert HandleSubChunk(repaired, s, sc, client) == FinishState(repaired, b, id, client);
    hide *;
    FinishRecords(n, repaired, b, id, client);
  }

  lemma BlobStepRecords(n: Naming, repaired: bool, s: State, blob: CacheBlob, client: Client)
    requires Quiet(repaired, s) && Records(n, s) && Named(n, s.db[blob.hash := blob.payload])
    ensures Records(n, BlobStep(repaired, s, blob, client))
  {
    var s1 := Receive(s, blob);
    var s2 := s1.(serverWait := s1.serverWait - {blob.hash});
    ReceiveOutside(s, blob);
    ReceiveKeeps(repaired, s, blob);
    WaitersInRange(repaired, s, blob.hash);
    RecordsMore(n, s, s2);
    hide Inv, Records, Receive;
    WaiterRecords(n, repaired, s2, At(s1.serverWait, blob.hash), client);
  }
}
