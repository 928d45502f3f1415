// The conversation with the server: a blob is asked for once at a time.

module BlobFlight {
  import opened BlobPackets
  import opened Occurrences
  import opened BlobSpec
  import opened BlobInvariant
  import opened BlobReachable
  import opened BlobTheorems

  ghost function Asks(m: Wire): set<Hash> {
    if m.Status? then set h | h in m.reply.miss else {}
  }

  ghost function Answers(m: Wire): set<Hash> {
    if m.Answer? then {m.blob.hash} else {}
  }

  // The hashes asked for and not answered yet.
  ghost function InFlight(w: seq<Wire>): set<Hash> {
    if w == [] then {} else InFlight(w[..|w| - 1]) + Asks(w[|w| - 1]) - Answers(w[|w| - 1])
  }

  ghost predicate Fresh(before: seq<Wire>, m: Wire) {
    m.Status? ==> NoDuplicates(m.reply.miss) && forall h :: h in m.reply.miss ==> h !in InFlight(before)
  }

  // No message asks twice for a hash, or for one that is in flight.
  ghost predicate SingleFlight(w: seq<Wire>) {
    forall i :: 0 <= i < |w| ==> Fresh(w[..i], w[i])
  }

  // Hashes reported as hits are in the database.
  ghost predicate HitsStored(w: seq<Wire>, db: Db) {
    forall i, h :: 0 <= i < |w| && w[i].Status? && h in w[i].reply.hit ==> h in db
  }

  ghost predicate Flights(s: State) {
    InFlight(s.wire) == s.serverWait.Keys && SingleFlight(s.wire) && HitsStored(s.wire, s.db)
  }

  lemma WireAppend(w: seq<Wire>, m: Wire, db: Db)
    requires SingleFlight(w) && HitsStored(w, db) && Fresh(w, m)
    requires m.Status? ==> forall h :: h in m.reply.hit ==> h in db
    ensures SingleFlight(w + [m]) && HitsStored(w + [m], db)
    ensures InFlight(w + [m]) == InFlight(w) + Asks(m) - Answers(m)
  {
    var more := w + [m];
    assert more[..|w|] == w;
    forall i | 0 <= i < |more| ensures Fresh(more[..i], more[i]) {
      if i < |w| { assert more[..i] == w[..i]; }
    }
  }

  // ---- building a reply ----

  // The misses of a reply are the keys that `m0` did not have.
  ghost predicate Asked(m0: Lists<Hash>, b: Build) {
    && NoDuplicates(b.reply.miss)
    && (forall h :: h in b.reply.miss ==> h !in m0)
    && b.s.serverWait.Keys == m0.Keys + Asks(Status(b.reply))
    && forall h :: h in b.reply.hit ==> h in b.s.db
  }

  lemma AskedRegister(m0: Lists<Hash>, b: Build, id: nat, h: Hash)
    requires Asked(m0, b)
    ensures Asked(m0, AddServerWait(b, id, h)) && AddServerWait(b, id, h).s.db == b.s.db
  {
    var r := AddServerWait(b, id, h);
    assert r.s.serverWait.Keys == b.s.serverWait.Keys + {h};
    if h !in b.s.serverWait {
      assert h !in Asks(Status(b.reply));
      assert h !in b.reply.miss;
      var more := b.reply.miss + [h];
      assert r.reply.miss == more;
      forall i, j | 0 <= i < j < |more| ensures more[i] != more[j] {
        if j == |b.reply.miss| { assert more[i] in b.reply.miss; }
      }
    }
    assert r.s.serverWait.Keys == m0.Keys + Asks(Status(r.reply));
  }

  lemma AskedHit(m0: Lists<Hash>, b: Build, h: Hash)
    requires Asked(m0, b) && h in b.s.db
    ensures Asked(m0, Hit(b, h))
  {
  }

  lemma {:induction false} AskedLevel(m0: Lists<Hash>, b: Build, id: nat, pos: ChunkPos, hs: seq<Hash>)
    requires Asked(m0, b)
    ensures var r := LevelLoop(b, id, pos, hs); Asked(m0, r) && r.s.wire == b.s.wire && r.s.db == b.s.db
    decreases |hs|
  {
    if hs != [] {
      var h := hs[0];
      AskedRegister(m0, b, id, h);
      if h in b.s.db { AskedHit(m0, b, h); }
      var b1 := LevelStep(b, id, pos, h);
      assert Asked(m0, b1);
      hide Asked;
      AskedLevel(m0, b1, id, pos, hs[1..]);
    }
  }

  lemma {:induction false} AskedSub(m0: Lists<Hash>, b: Build, id: nat, es: seq<Entry>)
    requires Asked(m0, b)
    ensures var r := SubLoop(b, id, es); Asked(m0, r) && r.s.wire == b.s.wire && r.s.db == b.s.db
    decreases |es|
  {
    if es != [] {
      var h := es[0].blobHash;
      AskedRegister(m0, b, id, h);
      if h in b.s.db { AskedHit(m0, b, h); }
      var b1 := SubStep(b, id, es[0]);
      assert Asked(m0, b1);
      hide Asked;
      AskedSub(m0, b1, id, es[1..]);
    }
  }

  lemma AskedFresh(s: State, b: Build)
    requires Flights(s) && Asked(s.serverWait, b) && b.s.db == s.db
    ensures Fresh(s.wire, Status(b.reply))
    ensures forall h :: h in b.reply.hit ==> h in s.db
    ensures b.s.serverWait.Keys == s.serverWait.Keys + Asks(Status(b.reply))
  {
  }

  lemma FlightsIntro(s: State, b: Build, a: State)
    requires Flights(s) && Fresh(s.wire, Status(b.reply)) && a.wire == s.wire + [Status(b.reply)]
    requires a.serverWait.Keys == s.serverWait.Keys + Asks(Status(b.reply)) && a.db == s.db
    requires forall h :: h in b.reply.hit ==> h in s.db
    ensures Flights(a)
  {
    hide SingleFlight, HitsStored, Fresh, Asks;
    WireAppend(s.wire, Status(b.reply), s.db);
  }

  lemma AnnounceFlight(s: State, b: Build)
    requires Flights(s) && Asked(s.serverWait, b) && b.s.wire == s.wire && b.s.db == s.db
    ensures Flights(Announce(b))
  {
    var a := Announce(b);
    var m := Status(b.reply);
    AnnounceSame(b);
    AskedFresh(s, b);
    if b.reply.hit == [] && b.reply.miss == [] {
      assert Asks(m) == {};
      assert a.wire == s.wire;
      hide Announce, SingleFlight, HitsStored, InFlight;
    } else {
      assert a.wire == s.wire + [m];
      hide *;
      FlightsIntro(s, b, a);
    }
  }

  lemma FinishFlight(repaired: bool, s: State, b: Build, id: nat, client: Client)
    requires Flights(s) && Asked(s.serverWait, b) && b.s.wire == s.wire && b.s.db == s.db
    ensures Flights(FinishState(repaired, b, id, client))
  {
    AnnounceFlight(s, b);
    FinishOutside(repaired, b, id, client);
    hide FinishState, Announce, SingleFlight, HitsStored;
  }

  lemma NothingAsked(s: State, pk: Packet)
    ensures Asked(s.serverWait, Build(NewWait(s, pk), Reply([], []), []))
  {
    assert (set h: Hash | h in []) == {};
  }

  lemma BuildSubAsked(s: State, sc: SubChunk)
    requires Asked(s.serverWait, SubLoop(Build(NewWait(s, Sub(sc)), Reply([], []), []), |s.counts|, sc.entries))
    ensures var b := SubLoop(Build(NewWait(s, Sub(sc)), Reply([], []), []), |s.counts|, sc.entries);
            var r := BuildSub(s, sc);
            Asked(s.serverWait, r) && r.s.wire == b.s.wire && r.s.db == b.s.db
  {
    hide Touches, SubLoop, AppendAll;
  }

  lemma FlightArrive(s: State, p: ChunkPos)
    requires Flights(s)
    ensures Flights(s.(arrived := s.arrived + {p}))
  {
  }

  lemma HitsMore(w: seq<Wire>, db: Db, blob: CacheBlob)
    requires HitsStored(w, db)
    ensures HitsStored(w, db[blob.hash := blob.payload])
  {
  }

  lemma BlobStepFlight(repaired: bool, s: State, blob: CacheBlob, client: Client)
    requires Quiet(repaired, s) && Flights(s)
    ensures Flights(BlobStep(repaired, s, blob, client))
  {
    ReceiveOutside(s, blob);
    BlobStepOutside(repaired, s, blob, client);
    hide Quiet, BlobStep, Receive, SingleFlight, HitsStored, NoDuplicates;
    HitsMore(s.wire, s.db, blob);
    WireAppend(s.wire, Answer(blob), s.db[blob.hash := blob.payload]);
  }

  lemma {:induction false} BlobLoopFlight(repaired: bool, s: State, blobs: seq<CacheBlob>, client: Client)
    requires Quiet(repaired, s) && Flights(s)
    ensures Flights(BlobLoop(repaired, s, blobs, client))
    decreases |blobs|
  {
    if blobs != [] {
      hide Quiet, Flights, BlobStep;
      BlobStepFlight(repaired, s, blobs[0], client);
      BlobStepKeeps(repaired, s, blobs[0], client);
      BlobLoopFlight(repaired, BlobStep(repaired, s, blobs[0], client), blobs[1..], client);
    }
  }

  lemma LevelForms(repaired: bool, s: State, lc: LevelChunk, client: Client)
    ensures var b0, r := Build(NewWait(s, Level(lc)), Reply([], []), []),
            FinishState(repaired, BuildLevel(s, lc), |s.counts|, client);
            && BuildLevel(s, lc) == LevelLoop(b0, |s.counts|, lc.pos, lc.blobHashes)
            && b0.s.wire == s.wire && b0.s.db == s.db
            && HandleLevelChunk(repaired, s, lc, client) == r.(arrived := r.arrived + {lc.pos})
  {
    hide FinishState, LevelLoop;
  }

  lemma LevelFlight(repaired: bool, s: State, lc: LevelChunk, client: Client)
    requires Flights(s)
    ensures Flights(HandleLevelChunk(repaired, s, lc, client))
  {
    hide *;
    var b := BuildLevel(s, lc);
    NothingAsked(s, Level(lc));
    AskedLevel(s.serverWait, Build(NewWait(s, Level(lc)), Reply([], []), []), |s.counts|, lc.pos, lc.blobHashes);
    LevelForms(repaired, s, lc, client);
    FinishFlight(repaired, s, b, |s.counts|, client);
    FlightArrive(FinishState(repaired, b, |s.counts|, client), lc.pos);
  }

  lemma NewSubWire(s: State, sc: SubChunk)
    ensures NewWait(s, Sub(sc)).wire == s.wire
  {
  }

  lemma SubFlight(repaired: bool, s: State, sc: SubChunk, client: Client)
    requires Flights(s)
    ensures Flights(HandleSubChunk(repaired, s, sc, client))
  {
    hide *;
    NothingAsked(s, Sub(sc));
    AskedSub(s.serverWait, Build(NewWait(s, Sub(sc)), Reply([], []), []), |s.counts|, sc.entries);
    NewSub(s, sc);
    NewSubWire(s, sc);
    BuildSubAsked(s, sc);
    SubHandled(repaired, s, sc, client);
    FinishFlight(repaired, s, BuildSub(s, sc), |s.counts|, client);
  }

  lemma StatusFlight(s: State, misses: seq<Hash>)
    requires Flights(s)
    ensures Flights(ClientStatus(s, misses))
  {
    var s1 := s.(clientWaits := s.clientWaits + [ClientWait(0, [])], toClient := s.toClient + [Missed(misses)]);
    StatusLoopOutside(s1, |s.clientWaits|, misses);
    hide StatusLoop, ClientPayloads, SingleFlight, HitsStored, InFlight;
  }

  lemma HandleFlight(repaired: bool, s: State, i: Input)
    requires Quiet(repaired, s) && Flights(s)
    ensures Flights(Handle(repaired, s, i))
  {
    hide Quiet, Flights, HandleLevelChunk, HandleSubChunk, BlobLoop, ClientStatus;
    match i
    case LevelChunkIn(lc, client) => LevelFlight(repaired, s, lc, client);
    case SubChunkIn(sc, client) => SubFlight(repaired, s, sc, client);
    case BlobsIn(blobs, client) => BlobLoopFlight(repaired, s, blobs, client);
    case ClientStatusIn(misses) => StatusFlight(s, misses);
  }

  lemma {:induction false} RunFlight(repaired: bool, db: Db, inputs: seq<Input>)
    ensures Flights(Run(repaired, db, inputs))
    decreases |inputs|
  {
    if inputs != [] {
      var before := inputs[..|inputs| - 1];
      RunFlight(repaired, db, before);
      RunKeeps(repaired, db, before);
      HandleFlight(repaired, Run(repaired, db, before), inputs[|inputs| - 1]);
    }
  }

  // The keys of serverWait are the hashes asked for and not answered; no hash is asked for while it is in flight,
  // in flight or stored are exclusive, and every reported hit is stored.
  lemma OneFlightPerBlob(repaired: bool, db: Db, inputs: seq<Input>)
    ensures var s := Run(repaired, db, inputs);
            && s.serverWait.Keys == InFlight(s.wire) && SingleFlight(s.wire)
            && s.serverWait.Keys !! s.db.Keys && HitsStored(s.wire, s.db)
  {
    RunFlight(repaired, db, inputs);
    RunKeeps(repaired, db, inputs);
    var s := Run(repaired, db, inputs);
    assert forall h :: h in s.serverWait ==> h !in s.db;
  }

  // ---- what a reply says ----

  function SuccessHashes(es: seq<Entry>): seq<Hash> {
    if es == [] then [] else (if es[0].result == Success then [es[0].blobHash] else []) + SuccessHashes(es[1..])
  }

  // The hashes a handler looks up, in order: those of the successful entries of a sub chunk packet.
  function Looked(pk: Packet): seq<Hash> {
    if pk.Level? then pk.lc.blobHashes else SuccessHashes(pk.sc.entries)
  }

  function Stored(db: Db, hs: seq<Hash>): seq<Hash> {
    if hs == [] then [] else (if hs[0] in db then [hs[0]] else []) + Stored(db, hs[1..])
  }

  // The hashes that are not stored.
  ghost function Missing(db: Db, hs: seq<Hash>): seq<Hash> {
    if hs == [] then [] else (if hs[0] in db then [] else [hs[0]]) + Missing(db, hs[1..])
  }

  function BlobsOf(db: Db, hs: seq<Hash>): seq<CacheBlob>
    requires forall h :: h in hs ==> h in db
  {
    seq(|hs|, i requires 0 <= i < |hs| => CacheBlob(hs[i], db[hs[i]]))
  }

  // Hits and blobs go on from what was found before; the new misses are what is neither stored nor waited for.
  ghost predicate Replied(b: Build, r: Build, hs: seq<Hash>) {
    && r.s.db == b.s.db
    && r.reply.hit == b.reply.hit + Stored(b.s.db, hs)
    && (forall h :: h in Stored(b.s.db, hs) ==> h in b.s.db)
    && r.hitBlobs == b.hitBlobs + BlobsOf(b.s.db, Stored(b.s.db, hs))
    && b.reply.miss <= r.reply.miss
    && (forall h :: h in r.reply.miss <==> h in b.reply.miss || (h in hs && h !in b.s.db && h !in b.s.serverWait))
    && (forall h :: h in r.s.serverWait <==> h in b.s.serverWait || (h in hs && h !in b.s.db))
  }

  lemma RepliedNone(b: Build)
    ensures Replied(b, b, [])
  {
    assert b.reply.hit + [] == b.reply.hit && b.hitBlobs + [] == b.hitBlobs;
  }

  // One hash: stored, or filed under.
  lemma RepliedOne(b: Build, r: Build, h: Hash)
    requires r.s.db == b.s.db
    requires h in b.s.db ==>
               && r.reply == b.reply.(hit := b.reply.hit + [h]) && r.hitBlobs == b.hitBlobs + [CacheBlob(h, b.s.db[h])]
               && r.s.serverWait == b.s.serverWait
    requires h !in b.s.db ==>
               && r.hitBlobs == b.hitBlobs && r.s.serverWait.Keys == b.s.serverWait.Keys + {h}
               && r.reply == if h in b.s.serverWait then b.reply else b.reply.(miss := b.reply.miss + [h])
    ensures Replied(b, r, [h])
  {
    assert [h][1..] == [];
    assert Stored(b.s.db, [h]) == if h in b.s.db then [h] else [];
    assert b.reply.hit + [] == b.reply.hit && b.hitBlobs + [] == b.hitBlobs;
    assert forall x :: x in b.reply.miss + [h] <==> x in b.reply.miss || x == h;
  }

  lemma StoredNext(db: Db, hs: seq<Hash>)
    requires hs != []
    ensures Stored(db, hs) == (if hs[0] in db then [hs[0]] else []) + Stored(db, hs[1..])
  {
  }

  lemma StoredNone(db: Db, b: seq<Hash>)
    ensures Stored(db, [] + b) == Stored(db, []) + Stored(db, b)
  {
    assert [] + b == b;
  }

  lemma {:induction false} StoredSplit(db: Db, a: seq<Hash>, b: seq<Hash>)
    ensures Stored(db, a + b) == Stored(db, a) + Stored(db, b)
  {
    hide *;
    if a == [] {
      StoredNone(db, b);
    } else {
      StoredNext(db, a + b);
      StoredNext(db, a);
      assert (a + b)[1..] == a[1..] + b;
      StoredSplit(db, a[1..], b);
    }
  }

  lemma BlobsOfSplit(db: Db, x: seq<Hash>, y: seq<Hash>)
    requires (forall h :: h in x ==> h in db) && (forall h :: h in y ==> h in db)
    ensures forall h :: h in x + y ==> h in db
    ensures BlobsOf(db, x + y) == BlobsOf(db, x) + BlobsOf(db, y)
  {
    assert forall h :: h in x + y ==> h in x || h in y;
  }

  lemma RepliedTrans(b: Build, m: Build, r: Build, x: seq<Hash>, y: seq<Hash>)
    requires Replied(b, m, x) && Replied(m, r, y)
    ensures Replied(b, r, x + y)
  {
    hide Stored, BlobsOf;
    StoredSplit(b.s.db, x, y);
    BlobsOfSplit(b.s.db, Stored(b.s.db, x), Stored(b.s.db, y));
    assert forall h :: h in x + y <==> h in x || h in y;
  }

  lemma LevelStepReplied(b: Build, id: nat, pos: ChunkPos, h: Hash)
    ensures Replied(b, LevelStep(b, id, pos, h), [h])
  {
    hide Replied;
    RepliedOne(b, LevelStep(b, id, pos, h), h);
  }

  lemma LevelLoopForm(b: Build, id: nat, pos: ChunkPos, hs: seq<Hash>)
    ensures LevelLoop(b, id, pos, hs) ==
            if hs == [] then b else LevelLoop(LevelStep(b, id, pos, hs[0]), id, pos, hs[1..])
  {
    hide LevelStep;
  }

  lemma {:induction false} LevelReplied(b: Build, id: nat, pos: ChunkPos, hs: seq<Hash>)
    ensures Replied(b, LevelLoop(b, id, pos, hs), hs)
    decreases |hs|
  {
    hide *;
    LevelLoopForm(b, id, pos, hs);
    if hs == [] {
      RepliedNone(b);
    } else {
      var m := LevelStep(b, id, pos, hs[0]);
      LevelStepReplied(b, id, pos, hs[0]);
      LevelReplied(m, id, pos, hs[1..]);
      RepliedTrans(b, m, LevelLoop(m, id, pos, hs[1..]), [hs[0]], hs[1..]);
      assert [hs[0]] + hs[1..] == hs;
    }
  }

  lemma SubStepReplied(b: Build, id: nat, e: Entry)
    ensures Replied(b, SubStep(b, id, e), if e.result == Success then [e.blobHash] else [])
  {
    hide Replied;
    if e.result == Success {
      RepliedOne(b, SubStep(b, id, e), e.blobHash);
    } else {
      RepliedNone(b);
    }
  }

  lemma {:induction false} SubReplied(b: Build, id: nat, es: seq<Entry>)
    ensures Replied(b, SubLoop(b, id, es), SuccessHashes(es))
    decreases |es|
  {
    if es == [] {
      RepliedNone(b);
    } else {
      var m := SubStep(b, id, es[0]);
      var first := if es[0].result == Success then [es[0].blobHash] else [];
      SubStepReplied(b, id, es[0]);
      SubReplied(m, id, es[1..]);
      assert SubLoop(b, id, es) == SubLoop(m, id, es[1..]) && SuccessHashes(es) == first + SuccessHashes(es[1..]);
      hide *;
      RepliedTrans(b, m, SubLoop(m, id, es[1..]), first, SuccessHashes(es[1..]));
    }
  }

  lemma SubReplySame(s: State, sc: SubChunk)
    ensures var b := SubLoop(Build(NewWait(s, Sub(sc)), Reply([], []), []), |s.counts|, sc.entries);
            BuildSub(s, sc).reply == b.reply && BuildSub(s, sc).hitBlobs == b.hitBlobs
  {
    hide SubLoop, NewWait, Touches, AddSubs;
  }

  // The status for a packet names every hash the packet needs: those that are stored, in order and as often as the
  // packet names them, with their blobs for the capture; and those that are neither stored nor waited for yet.
  lemma ReplyIsComplete(s: State, pk: Packet)
    ensures var b := if pk.Level? then BuildLevel(s, pk.lc) else BuildSub(s, pk.sc);
            var hits := Stored(s.db, Looked(pk));
            && b.reply.hit == hits
            && (forall h :: h in hits ==> h in s.db) && b.hitBlobs == BlobsOf(s.db, hits)
            && (forall h :: h in b.reply.miss <==> h in Looked(pk) && h !in s.db && h !in s.serverWait)
  {
    var b0 := Build(NewWait(s, pk), Reply([], []), []);
    assert b0.s.db == s.db && b0.s.serverWait == s.serverWait;
    assert [] + Stored(s.db, Looked(pk)) == Stored(s.db, Looked(pk));
    hide Stored, NewWait, LevelLoop, SubLoop, SuccessHashes;
    match pk
    case Level(lc) => LevelReplied(b0, |s.counts|, lc.pos, lc.blobHashes);
    case Sub(sc) =>
      SubReplied(b0, |s.counts|, sc.entries);
      SubReplySame(s, sc);
  }
}
