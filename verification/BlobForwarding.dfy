// What the client is written: packets that are complete at once, forwarded while their wait fills them in.

module BlobForwarding {
  import opened BlobPackets
  import opened Occurrences
  import opened BlobSpec
  import opened BlobInvariant
  import opened BlobReachable
  import opened BlobRecords
  import opened BlobTheorems
  import opened BlobDefects
  import opened BlobDrops

  // ---- line 162: the forwarded packet shares its entries ----

  // Before the call: nothing is missing and no column of the packet waits for its level chunk.
  ghost predicate Immediate(s: State, sc: SubChunk) {
    EntryHashes(sc.entries) <= s.db.Keys && Touches(sc.position, sc.entries) !! s.levelChunksWaiting.Keys
  }

  lemma {:induction false} SubLoopHits(b: Build, id: nat, es: seq<Entry>)
    requires EntryHashes(es) <= b.s.db.Keys
    ensures SubLoop(b, id, es).s == b.s
    decreases |es|
  {
    if es != [] {
      assert es[0].result == Success ==> es[0].blobHash in EntryHashes(es);
      forall h | h in EntryHashes(es[1..]) ensures h in EntryHashes(es) {
        var i :| 0 <= i < |es[1..]| && es[1..][i].result == Success && es[1..][i].blobHash == h;
        assert es[i + 1].blobHash == h;
      }
      SubLoopHits(SubStep(b, id, es[0]), id, es[1..]);
    }
  }

  lemma ImmediateCounts(repaired: bool, s: State, sc: SubChunk)
    requires Quiet(repaired, s) && Immediate(s, sc)
    ensures |s.counts| == |s.received| && BuildSub(s, sc).s.counts == s.counts + [0]
  {
    NewWaitKeeps(repaired, s, Sub(sc));
    NewWaitFields(s, Sub(sc));
    var b0 := Build(NewWait(s, Sub(sc)), Reply([], []), []);
    hide Inv, NewWait, Quiet, Building;
    SubLoopHits(b0, |s.received|, sc.entries);
    assert Touches(sc.position, sc.entries) * s.levelChunksWaiting.Keys == {};
    hide Touches, EntryHashes, SubLoop;
    Counted(b0.s, |s.received|, 0);
  }

  lemma BuildSubCounts(s: State, sc: SubChunk)
    ensures var s1 := SubLoop(Build(NewWait(s, Sub(sc)), Reply([], []), []), |s.counts|, sc.entries).s;
            var ps := Touches(sc.position, sc.entries) * s1.levelChunksWaiting.Keys;
            BuildSub(s, sc).s.counts == AddCount(s1, |s.counts|, |ps|).counts
  {
    hide SubLoop, NewWait, Touches, AppendAll;
  }

  lemma NewWaitSub(s: State, sc: SubChunk)
    ensures var r := NewWait(s, Sub(sc));
            r.levelChunksWaiting == s.levelChunksWaiting && |r.received| == |s.received| + 1
            && r.received[|s.received|].pk == Sub(sc)
            && forall i :: 0 <= i < |sc.entries| ==> sc.entries[i] in r.received[|s.received|].pk.sc.entries
  {
  }

  // A sub chunk that lies in a waiting column has a reference.
  lemma SubWaitsForColumns(repaired: bool, s: State, sc: SubChunk)
    requires Quiet(repaired, s) && !(Touches(sc.position, sc.entries) !! s.levelChunksWaiting.Keys)
    ensures var c := BuildSub(s, sc).s.counts; |c| == |s.received| + 1 && c[|s.received|] > 0
  {
    var id := |s.received|;
    hide *;
    NewWaitKeeps(repaired, s, Sub(sc));
    NewWaitSub(s, sc);
    var b0 := Build(NewWait(s, Sub(sc)), Reply([], []), []);
    var s1 := SubLoop(b0, id, sc.entries).s;
    var ps := Touches(sc.position, sc.entries) * s1.levelChunksWaiting.Keys;
    BuildSubCounts(s, sc);
    SubLoopKeeps(repaired, b0, id, sc.entries);
    BuildingParts(repaired, s1, id);
    assert ps == Touches(sc.position, sc.entries) * s.levelChunksWaiting.Keys;
    var p :| p in Touches(sc.position, sc.entries) && p in s.levelChunksWaiting.Keys;
    assert p in ps;
    Counted(s1, id, |ps|);
  }

  lemma SubNeeds(sc: SubChunk)
    ensures Needs(Sub(sc)) == EntryHashes(sc.entries)
  {
  }

  // A sub chunk that has no references has all its blobs.
  lemma CompleteHasBlobs(repaired: bool, s: State, sc: SubChunk)
    requires Quiet(repaired, s)
    ensures var c := BuildSub(s, sc).s.counts; |c| == |s.received| + 1
    ensures BuildSub(s, sc).s.counts[|s.received|] == 0 ==> EntryHashes(sc.entries) <= s.db.Keys
  {
    hide *;
    var id := |s.received|;
    SubBuilt(repaired, s, sc);
    var r := BuildSub(s, sc).s;
    if r.counts[id] == 0 {
      CompleteHasAll(repaired, r, id, multiset{}, {id}, id + 1);
      SubNeeds(sc);
    }
  }

  lemma ImmediateParts(s: State, sc: SubChunk)
    ensures Immediate(s, sc) <==>
            EntryHashes(sc.entries) <= s.db.Keys && Touches(sc.position, sc.entries) !! s.levelChunksWaiting.Keys
  {
  }

  lemma ImmediateIsComplete(repaired: bool, s: State, sc: SubChunk)
    requires Quiet(repaired, s)
    ensures var c := BuildSub(s, sc).s.counts;
            |c| == |s.received| + 1 && (Immediate(s, sc) <==> c[|s.received|] == 0)
  {
    hide *;
    CompleteHasBlobs(repaired, s, sc);
    ImmediateParts(s, sc);
    if Immediate(s, sc) {
      ImmediateCounts(repaired, s, sc);
    } else if !(Touches(sc.position, sc.entries) !! s.levelChunksWaiting.Keys) {
      SubWaitsForColumns(repaired, s, sc);
    }
  }

  lemma BuiltFills(repaired: bool, s: State, sc: SubChunk)
    requires Quiet(repaired, s)
    ensures var r := BuildSub(s, sc).s;
            |r.fills| == |s.received| + 1 && r.fills[|s.received|] == InitialFill(Sub(sc)) && r.db == s.db
  {
    SubBuilt(repaired, s, sc);
    InvFacts(repaired, s, multiset{}, {}, |s.received|);
  }

  // A complete sub chunk is filled in by its own handler, and one that waits is not.
  lemma SubFills(repaired: bool, s: State, sc: SubChunk, client: Client)
    requires Quiet(repaired, s)
    ensures var r := HandleSubChunk(repaired, s, sc, client);
            && |r.fills| == |s.received| + 1 && |r.counts| == |s.received| + 1
            && (Immediate(s, sc) <==> Complete(r, |s.received|))
            && r.fills[|s.received|] == if Immediate(s, sc) then FillPacket(s.db, InitialFill(Sub(sc)))
              else InitialFill(Sub(sc))
  {
    var id := |s.received|;
    ImmediateIsComplete(repaired, s, sc);
    SubBuilt(repaired, s, sc);
    var b := BuildSub(s, sc);
    var a := Announce(b);
    AnnounceSame(b);
    hide Inv, BuildSub, Announce, Immediate, Quiet;
    BuiltFills(repaired, s, sc);
    assert !HasWaiters(a, id);
    assert HandleSubChunk(repaired, s, sc, client) == if Complete(a, id) then Process(a, id, client) else a;
  }

  lemma FillOf(db: Db, sc: SubChunk)
    ensures InitialFill(Sub(sc)) == Sub(sc.(cacheEnabled := false))
    ensures FillPacket(db, InitialFill(Sub(sc))) ==
            Sub(sc.(cacheEnabled := false, entries := FillEntries(db, sc.entries)))
  {
  }

  lemma ForwardOf(r: State, id: nat, sc: SubChunk, es: seq<Entry>)
    requires id < |r.fills| && r.fills[id] == Sub(sc.(cacheEnabled := false, entries := es))
    ensures FinishForward(r, id, Sub(sc), CachingClient) == [Sub(sc.(entries := es))]
    ensures FinishForward(r, id, Sub(sc), CachingClient) == [Sub(sc)] <==> es == sc.entries
  {
  }

  lemma FillUnchangedIff(db: Db, es: seq<Entry>)
    ensures FillEntries(db, es) == es <==> forall e :: e in es ==> e.blobHash == 0
  {
    var filled := FillEntries(db, es);
    if forall e :: e in es ==> e.blobHash == 0 {
      assert filled == es;
    } else {
      var e :| e in es && e.blobHash != 0;
      var i :| 0 <= i < |es| && es[i] == e;
      assert filled[i].blobHash == 0;
    }
  }

  // A caching client gets the packet as it was received, unless the packet was complete at once and named a blob:
  // then its entries have been filled in and their hashes cleared, while it still says that it uses the cache.
  lemma ForwardedUnchangedIff(repaired: bool, s: State, sc: SubChunk)
    requires Quiet(repaired, s)
    ensures var r := HandleSubChunk(repaired, s, sc, CachingClient);
            && |r.fills| == |s.received| + 1
            && (FinishForward(r, |s.received|, Sub(sc), CachingClient) == [Sub(sc)]
                <==> (Immediate(s, sc) ==> forall e :: e in sc.entries ==> e.blobHash == 0))
            && (Immediate(s, sc) ==>
                  FinishForward(r, |s.received|, Sub(sc), CachingClient)
                    == [Sub(sc.(entries := FillEntries(s.db, sc.entries)))])
  {
    SubFills(repaired, s, sc, CachingClient);
    FillUnchangedIff(s.db, sc.entries);
    var es := if Immediate(s, sc) then FillEntries(s.db, sc.entries) else sc.entries;
    hide *;
    FillOf(s.db, sc);
    ForwardOf(HandleSubChunk(repaired, s, sc, CachingClient), |s.received|, sc, es);
  }

  lemma AnnounceTalk(b: Build)
    ensures Announce(b).toClient == b.s.toClient
  {
  }

  lemma PlainFinish(repaired: bool, s: State, sc: SubChunk)
    requires Quiet(repaired, s)
    requires var b := BuildSub(s, sc).s;
             |b.counts| == |s.received| + 1 && |b.fills| == |s.received| + 1
               && b.fills[|s.received|] == InitialFill(Sub(sc)) && b.db == s.db
    ensures var b := BuildSub(s, sc).s;
            HandleSubChunk(repaired, s, sc, PlainClient).toClient ==
            if b.counts[|s.received|] == 0 then b.toClient + [Filled(FillPacket(s.db, InitialFill(Sub(sc))))]
              else b.toClient
  {
    var b := BuildSub(s, sc);
    AnnounceSame(b);
    assert |s.counts| == |s.received| by { NewWaitKeeps(repaired, s, Sub(sc)); }
    hide Quiet, BuildSub, Announce, FillPacket;
    assert Announce(b).toClient == b.s.toClient by { AnnounceTalk(b); }
    assert HandleSubChunk(repaired, s, sc, PlainClient) ==
           if Complete(Announce(b), |s.counts|) then Process(Announce(b), |s.counts|, PlainClient) else Announce(b);
  }

  lemma {:induction false} SubLoopTalk(b: Build, id: nat, es: seq<Entry>)
    ensures SubLoop(b, id, es).s.toClient == b.s.toClient
    decreases |es|
  {
    if es != [] { SubLoopTalk(SubStep(b, id, es[0]), id, es[1..]); }
  }

  lemma ClientLoop(s: State, sc: SubChunk)
    ensures BuildSub(s, sc).s.toClient == s.toClient
  {
    SubLoopTalk(Build(NewWait(s, Sub(sc)), Reply([], []), []), |s.counts|, sc.entries);
    hide SubLoop, Touches, AppendAll;
  }

  // ---- what the session writes ----

  // The session asks only whether the handler returned a packet, and then writes the one it received: the same object,
  // whose entries are those of the wait.
  function SessionWrites(r: State, id: nat, pk: Packet, client: Client): seq<Packet>
    requires id < |r.fills|
  {
    if FinishForward(r, id, pk, client) == [] then [] else [Forward(pk, r.fills[id])]
  }

  lemma SubWrites(r: State, id: nat, sc: SubChunk, es: seq<Entry>)
    requires id < |r.fills| && r.fills[id] == Sub(sc.(cacheEnabled := false, entries := es))
    ensures SessionWrites(r, id, Sub(sc), PlainClient) == if Complete(r, id) then [Sub(sc.(entries := es))] else []
  {
  }

  // A client without a cache gets a sub chunk packet that is complete at once twice: filled in by its wait when that is
  // resolved, and as it was received, with the entries filled in and still marked as cached, by the session.
  // A packet that waits is not written at all.
  lemma PlainClientGetsSubTwice(repaired: bool, s: State, sc: SubChunk)
    requires Quiet(repaired, s)
    ensures var r := HandleSubChunk(repaired, s, sc, PlainClient);
            var es := FillEntries(s.db, sc.entries);
            && |r.fills| == |s.received| + 1
            && r.toClient == s.toClient
               + (if Immediate(s, sc) then [Filled(Sub(sc.(cacheEnabled := false, entries := es)))] else [])
            && SessionWrites(r, |s.received|, Sub(sc), PlainClient)
               == if Immediate(s, sc) then [Sub(sc.(entries := es))] else []
  {
    hide *;
    SubFills(repaired, s, sc, PlainClient);
    FillOf(s.db, sc);
    var es := if Immediate(s, sc) then FillEntries(s.db, sc.entries) else sc.entries;
    SubWrites(HandleSubChunk(repaired, s, sc, PlainClient), |s.received|, sc, es);
    ImmediateIsComplete(repaired, s, sc);
    BuiltFills(repaired, s, sc);
    PlainFinish(repaired, s, sc);
    ClientLoop(s, sc);
  }

  // Before the call: no blob of the level chunk is missing.
  predicate AllStored(s: State, lc: LevelChunk) {
    forall h :: h in lc.blobHashes ==> h in s.db
  }

  lemma CountTalk(s: State, x: nat)
    ensures AddCount(s, x, -1).toClient == s.toClient && AddCount(s, x, -1).subs == s.subs
  {
  }

  lemma ProcessTalks(s: State, id: nat, client: Client)
    ensures s.toClient <= Process(s, id, client).toClient
  {
  }

  lemma {:induction false} WakeTalkGrows(repaired: bool, s: State, id: nat, l: seq<nat>, client: Client)
    ensures s.toClient <= WakeLoop(repaired, s, id, l, client).toClient
    decreases s.subs.Keys, 1, |l|
  {
    if l != [] {
      CountTalk(s, l[0]);
      hide Process, AddCount;
      var s1 := AddCount(s, l[0], -1);
      var s2 := s1.(woken := s1.woken + [l[0]]);
      var x := if repaired then l[0] else id;
      var s3 := if Complete(s1, l[0]) then Resolve(repaired, s2, x, client) else s1;
      if Complete(s1, l[0]) {
        ResolveTalkGrows(repaired, s2, x, client);
        ProcessTalks(s2, x, client);
      }
      WakeTalkGrows(repaired, s3, id, l[1..], client);
    }
  }

  lemma {:induction false} ResolveTalkGrows(repaired: bool, s: State, id: nat, client: Client)
    ensures Process(s, id, client).toClient <= Resolve(repaired, s, id, client).toClient
    decreases s.subs.Keys, 0, 0
  {
    if HasWaiters(s, id) {
      WakeTalkGrows(repaired, TakeWaiters(Process(s, id, client), id), id, Waiters(s, id), client);
    }
  }

  lemma {:induction false} LevelLoopTalk(b: Build, id: nat, pos: ChunkPos, hs: seq<Hash>)
    ensures LevelLoop(b, id, pos, hs).s.toClient == b.s.toClient && LevelLoop(b, id, pos, hs).s.fills == b.s.fills
    decreases |hs|
  {
    if hs != [] { LevelLoopTalk(LevelStep(b, id, pos, hs[0]), id, pos, hs[1..]); }
  }

  lemma LevelBuiltTalk(s: State, lc: LevelChunk)
    requires |s.counts| == |s.fills|
    ensures var b := BuildLevel(s, lc).s; b.toClient == s.toClient && b.fills == s.fills + [Level(lc)]
  {
    LevelLoopTalk(Build(NewWait(s, Level(lc)), Reply([], []), []), |s.counts|, lc.pos, lc.blobHashes);
  }

  lemma DoneMore(s: State, r: State, id: nat)
    requires s.processed <= r.processed && id in DoneIds(s.processed)
    ensures id in DoneIds(r.processed)
  {
    var i :| 0 <= i < |s.processed| && s.processed[i].id == id;
    assert r.processed[i] == s.processed[i];
  }

  // The resolved wait of a level chunk, and what its resolving has written first.
  lemma LevelResolved(repaired: bool, a: State, id: nat, lc: LevelChunk)
    requires id < |a.fills| && a.fills[id] == Level(lc)
    ensures var r := Resolve(repaired, a, id, PlainClient);
            a.toClient + [Filled(Level(FillLevel(a.db, lc)))] <= r.toClient && id in DoneIds(r.processed)
  {
    var p := Process(a, id, PlainClient);
    ResolveTalkGrows(repaired, a, id, PlainClient);
    assert p.toClient == a.toClient + [Filled(Level(FillLevel(a.db, lc)))];
    var d := Done(id, FillPacket(a.db, a.fills[id]));
    ProcessedAppend(a.processed, d);
    assert p.processed == a.processed + [d];
    if HasWaiters(a, id) {
      WakeOutside(repaired, TakeWaiters(p, id), id, Waiters(a, id), PlainClient);
      DoneMore(p, Resolve(repaired, a, id, PlainClient), id);
    }
  }

  lemma LevelWrites(r: State, id: nat, lc: LevelChunk)
    requires id < |r.fills|
    ensures SessionWrites(r, id, Level(lc), PlainClient) == if Complete(r, id) then [Level(lc)] else []
  {
  }

  lemma DoneIsComplete(repaired: bool, s: State, id: nat)
    requires Quiet(repaired, s) && id in DoneIds(s.processed)
    ensures Complete(s, id)
  {
    InvFacts(repaired, s, multiset{}, {}, |s.received|);
  }

  lemma LevelHandled(repaired: bool, s: State, lc: LevelChunk)
    ensures var a := Announce(BuildLevel(s, lc));
            var r := HandleLevelChunk(repaired, s, lc, PlainClient);
            var r0 := if Complete(a, |s.counts|) then Resolve(repaired, a, |s.counts|, PlainClient) else a;
            r == r0.(arrived := r.arrived)
  {
    hide BuildLevel, Announce, Resolve, Complete;
  }

  lemma LevelStaysOpen(repaired: bool, s: State, lc: LevelChunk)
    requires !Complete(Announce(BuildLevel(s, lc)), |s.counts|)
    ensures !Complete(HandleLevelChunk(repaired, s, lc, PlainClient), |s.counts|)
  {
    LevelHandled(repaired, s, lc);
    hide BuildLevel, Announce, Resolve, HandleLevelChunk;
  }

  lemma LevelComplete(repaired: bool, s: State, lc: LevelChunk)
    requires Quiet(repaired, s)
    ensures Complete(Announce(BuildLevel(s, lc)), |s.received|) <==> AllStored(s, lc)
  {
    LevelIsComplete(repaired, s, lc);
    AnnounceSame(BuildLevel(s, lc));
    hide BuildLevel, Announce, Quiet;
  }

  lemma QuietSizes(repaired: bool, s: State)
    requires Quiet(repaired, s)
    ensures |s.counts| == |s.fills| == |s.received|
  {
    InvFacts(repaired, s, multiset{}, {}, |s.received|);
  }

  lemma OutsideSizes(s: State, r: State)
    requires SameOutside(s, r)
    ensures |r.fills| == |s.fills|
  {
  }

  // So does a level chunk whose blobs are all stored: filled in, and then as it was received, with hashes in place of
  // blobs. Whatever else resolving it writes comes in between.
  lemma PlainClientGetsLevelTwice(repaired: bool, s: State, lc: LevelChunk)
    requires Quiet(repaired, s)
    ensures var r := HandleLevelChunk(repaired, s, lc, PlainClient);
            && |r.fills| == |s.received| + 1
            && (if AllStored(s, lc) then s.toClient + [Filled(Level(FillLevel(s.db, lc)))] <= r.toClient
                else r.toClient == s.toClient)
            && SessionWrites(r, |s.received|, Level(lc), PlainClient) == if AllStored(s, lc) then [Level(lc)] else []
  {
    var id, b := |s.received|, BuildLevel(s, lc);
    var a, r := Announce(b), HandleLevelChunk(repaired, s, lc, PlainClient);
    hide *;
    QuietSizes(repaired, s);
    LevelBuiltTalk(s, lc);
    LevelBuilt(repaired, s, lc);
    AnnounceSame(b);
    LevelComplete(repaired, s, lc);
    LevelHandled(repaired, s, lc);
    HandleLevelChunkKeeps(repaired, s, lc, PlainClient);
    ResolveOutside(repaired, a, id, PlainClient);
    OutsideSizes(a, Resolve(repaired, a, id, PlainClient));
    LevelWrites(r, id, lc);
    if AllStored(s, lc) {
      LevelResolved(repaired, a, id, lc);
      DoneIsComplete(repaired, r, id);
    } else {
      LevelStaysOpen(repaired, s, lc);
    }
  }

  lemma ForwardCases(r: State, id: nat, pk: Packet, client: Client)
    requires id < |r.fills|
    ensures FinishForward(r, id, pk, client) != [] <==>
            client.CachingClient? || (client.PlainClient? && Complete(r, id))
    ensures pk.Level? && client.CachingClient? ==> FinishForward(r, id, pk, client) == [pk]
  {
  }

  // Something is forwarded if and only if there is a client, and it uses the cache or the packet is complete at once.
  lemma SubForwardsIff(repaired: bool, s: State, sc: SubChunk, client: Client)
    requires Quiet(repaired, s)
    ensures var r := HandleSubChunk(repaired, s, sc, client);
            && |r.fills| == |s.received| + 1
            && (FinishForward(r, |s.received|, Sub(sc), client) != []
                <==> client.CachingClient? || (client.PlainClient? && Immediate(s, sc)))
  {
    hide *;
    SubFills(repaired, s, sc, client);
    ForwardCases(HandleSubChunk(repaired, s, sc, client), |s.received|, Sub(sc), client);
  }

  lemma WritesIff(r: State, id: nat, pk: Packet, client: Client)
    requires id < |r.fills|
    ensures SessionWrites(r, id, pk, client) == [] <==> FinishForward(r, id, pk, client) == []
  {
  }

  lemma OneMore(s: State, r: State, arrived: set<ChunkPos>, x: Received)
    requires Grows(s, r, arrived, [x])
    ensures |r.received| == |s.received| + 1
  {
  }

  // The same for a level chunk; a client that uses the cache gets it as it was received.
  lemma LevelForwardsIff(repaired: bool, s: State, lc: LevelChunk, client: Client)
    requires Quiet(repaired, s)
    ensures var r := HandleLevelChunk(repaired, s, lc, client);
            && |r.fills| == |s.received| + 1
            && (FinishForward(r, |s.received|, Level(lc), client) != []
                <==> client.CachingClient? || (client.PlainClient? && AllStored(s, lc)))
            && (client.CachingClient? ==> FinishForward(r, |s.received|, Level(lc), client) == [Level(lc)])
  {
    hide *;
    var r := HandleLevelChunk(repaired, s, lc, client);
    LevelChunkHistory(repaired, s, lc, client);
    OneMore(s, r, {lc.pos}, Received(Level(lc), s.arrived));
    HandleLevelChunkKeeps(repaired, s, lc, client);
    QuietSizes(repaired, r);
    ForwardCases(r, |s.received|, Level(lc), client);
    if client.PlainClient? {
      PlainClientGetsLevelTwice(repaired, s, lc);
      WritesIff(r, |s.received|, Level(lc), client);
    }
  }

  // ---- a packet whose hashes are cleared on the way ----

  lemma PieceImmediate()
    ensures Immediate(Initial(STORED), PIECE)
  {
    hide Touches;
  }

  lemma PieceFilled()
    ensures FillEntries(STORED, PIECE.entries) == [Entry(Success, Vec3(0, 0, 0), 0, [1], [])] != PIECE.entries
  {
  }

  lemma PieceHandled(s: State)
    requires s == Initial(STORED)
    ensures Handle(false, s, SubChunkIn(PIECE, CachingClient)) == HandleSubChunk(false, s, PIECE, CachingClient)
    ensures PIECE.cacheEnabled && s.received == [] && s.db == STORED
  {
    hide HandleSubChunk;
  }

  // A client that uses the cache is given the sub chunk with its blob in it and no hash, marked as cached.
  lemma ForwardedFilled()
    ensures var r := Run(false, STORED, [SubChunkIn(PIECE, CachingClient)]);
            var given := Sub(PIECE.(entries := [Entry(Success, Vec3(0, 0, 0), 0, [1], [])]));
            && |r.fills| == 1 && given.sc.cacheEnabled && given != Sub(PIECE)
            && FinishForward(r, 0, Sub(PIECE), CachingClient) == [given]
  {
    hide *;
    var s, i := Initial(STORED), SubChunkIn(PIECE, CachingClient);
    RunKeeps(false, STORED, []);
    RunOfNone(STORED);
    RunOfOne(STORED, i);
    PieceHandled(s);
    PieceImmediate();
    PieceFilled();
    ForwardedUnchangedIff(false, s, PIECE);
  }
}
