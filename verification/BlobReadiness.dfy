// When a packet is ready, told from what the cache was given and what it has handed on, without its queues.

module BlobReadiness {
  import opened BlobPackets
  import opened Occurrences
  import opened BlobSpec
  import opened BlobInvariant
  import opened BlobReachable
  import opened BlobTheorems
  import opened BlobDrops

  // ---- what processing takes out of the queues ----

  // The columns of the level chunks that were processed from place n on.
  ghost function Since(ps: seq<Done>, n: nat): set<ChunkPos> {
    if n <= |ps| then ProcessedAt(ps[n..]) else {}
  }

  lemma ProcessedConcat(a: seq<Done>, b: seq<Done>)
    ensures ProcessedAt(a + b) == ProcessedAt(a) + ProcessedAt(b)
  {
    var c := a + b;
    assert forall i :: 0 <= i < |a| ==> c[i] == a[i];
    assert forall i :: 0 <= i < |b| ==> c[|a| + i] == b[i];
    forall p | p in ProcessedAt(b) ensures p in ProcessedAt(c) {
      var i :| 0 <= i < |b| && b[i].pk.Level? && b[i].pk.lc.pos == p;
      assert c[|a| + i] == b[i];
    }
    forall p | p in ProcessedAt(c) ensures p in ProcessedAt(a) + ProcessedAt(b) {
      var i :| 0 <= i < |c| && c[i].pk.Level? && c[i].pk.lc.pos == p;
      if i >= |a| { assert b[i - |a|] == c[i]; }
    }
  }

  lemma SinceNone(ps: seq<Done>)
    ensures Since(ps, |ps|) == {}
  {
    assert ps[|ps|..] == [];
  }

  lemma SinceSplit(a: seq<Done>, b: seq<Done>, c: seq<Done>)
    requires a <= b <= c
    ensures Since(c, |a|) == Since(b, |a|) + Since(c, |b|)
  {
    assert c[|a|..] == b[|a|..] + c[|b|..];
    ProcessedConcat(b[|a|..], c[|b|..]);
  }

  // Between the two states level chunks were processed, and their columns have left the queues; no others have.
  ghost predicate Settles(s: State, r: State) {
    && s.processed <= r.processed
    && r.levelChunksWaiting.Keys == s.levelChunksWaiting.Keys - Since(r.processed, |s.processed|)
    && forall p, x :: Filing(r.subs, p, x) <==> Filing(s.subs, p, x) && p !in Since(r.processed, |s.processed|)
  }

  lemma SettlesSame(s: State, r: State)
    requires r.processed == s.processed && r.levelChunksWaiting == s.levelChunksWaiting && r.subs == s.subs
    ensures Settles(s, r)
  {
    SinceNone(s.processed);
    hide Since, Filing;
  }

  lemma SettlesTrans(s: State, t: State, r: State)
    requires Settles(s, t) && Settles(t, r)
    ensures Settles(s, r)
  {
    SinceSplit(s.processed, t.processed, r.processed);
    hide Since, Filing;
  }

  // A packet is processed, and the sub chunks that wait for its column are taken.
  lemma TakeSettles(s: State, id: nat, client: Client)
    ensures Settles(s, if HasWaiters(s, id) then TakeWaiters(Process(s, id, client), id) else Process(s, id, client))
  {
    if id < |s.fills| {
      var pk := FillPacket(s.db, s.fills[id]);
      var r := Process(s, id, client);
      var left := if pk.Level? then {pk.lc.pos} else {};
      assert r.processed == s.processed + [Done(id, pk)];
      assert r.processed[|s.processed|..] == [Done(id, pk)];
      assert ProcessedAt([Done(id, pk)]) == left by {
        ProcessedAppend([], Done(id, pk));
        assert [] + [Done(id, pk)] == [Done(id, pk)];
      }
      assert Since(r.processed, |s.processed|) == left;
      assert r.levelChunksWaiting.Keys == s.levelChunksWaiting.Keys - left;
    } else {
      SettlesSame(s, s);
    }
  }

  lemma CountSettles(s: State, x: nat)
    ensures var s1 := AddCount(s, x, -1);
            Settles(s, s1) && Settles(s, s1.(woken := s1.woken + [x])) && s1.subs == s.subs
  {
    var s1 := AddCount(s, x, -1);
    hide Settles;
    SettlesSame(s, s1);
    SettlesSame(s, s1.(woken := s1.woken + [x]));
  }

  lemma {:induction false} ResolveSettles(repaired: bool, s: State, id: nat, client: Client)
    ensures Settles(s, Resolve(repaired, s, id, client))
    decreases s.subs.Keys, 0, 0
  {
    TakeSettles(s, id, client);
    if HasWaiters(s, id) {
      var s1 := TakeWaiters(Process(s, id, client), id);
      WakeSettles(repaired, s1, id, Waiters(s, id), client);
      hide Settles;
      SettlesTrans(s, s1, WakeLoop(repaired, s1, id, Waiters(s, id), client));
    }
  }

  lemma {:induction false} WakeSettles(repaired: bool, s: State, id: nat, l: seq<nat>, client: Client)
    ensures Settles(s, WakeLoop(repaired, s, id, l, client))
    decreases s.subs.Keys, 1, |l|
  {
    hide *;
    WakeForm(repaired, s, id, l, client);
    if l == [] {
      SettlesSame(s, s);
    } else {
      CountSettles(s, l[0]);
      var s1 := AddCount(s, l[0], -1);
      var s2 := s1.(woken := s1.woken + [l[0]]);
      var x := if repaired then l[0] else id;
      var s3 := if Complete(s1, l[0]) then Resolve(repaired, s2, x, client) else s1;
      if Complete(s1, l[0]) {
        ResolveSettles(repaired, s2, x, client);
        SettlesTrans(s, s2, s3);
      }
      WakeSettles(repaired, s3, id, l[1..], client);
      SettlesTrans(s, s3, WakeLoop(repaired, s3, id, l[1..], client));
    }
  }

  lemma {:induction false} WaitersSettle(repaired: bool, s: State, l: seq<nat>, client: Client)
    ensures Settles(s, WaiterLoop(repaired, s, l, client))
    decreases |l|
  {
    if l == [] {
      SettlesSame(s, s);
    } else {
      hide Settles, AddCount, Resolve;
      CountSettles(s, l[0]);
      var s1 := AddCount(s, l[0], -1);
      var s2 := if Complete(s1, l[0]) then Resolve(repaired, s1, l[0], client) else s1;
      if Complete(s1, l[0]) {
        ResolveSettles(repaired, s1, l[0], client);
        SettlesTrans(s, s1, s2);
      }
      WaitersSettle(repaired, s2, l[1..], client);
      SettlesTrans(s, s2, WaiterLoop(repaired, s2, l[1..], client));
    }
  }

  lemma {:induction false} BlobsSettle(repaired: bool, s: State, blobs: seq<CacheBlob>, client: Client)
    ensures Settles(s, BlobLoop(repaired, s, blobs, client))
    decreases |blobs|
  {
    if blobs == [] {
      SettlesSame(s, s);
    } else {
      var s1 := Receive(s, blobs[0]);
      var s2 := s1.(serverWait := s1.serverWait - {blobs[0].hash});
      ReceiveOutside(s, blobs[0]);
      hide Settles, Receive, WaiterLoop;
      SettlesSame(s, s2);
      var l := At(s1.serverWait, blobs[0].hash);
      var s3 := WaiterLoop(repaired, s2, l, client);
      WaitersSettle(repaired, s2, l, client);
      SettlesTrans(s, s2, s3);
      BlobsSettle(repaired, s3, blobs[1..], client);
      SettlesTrans(s, s3, BlobLoop(repaired, s3, blobs[1..], client));
    }
  }

  // ---- what a call puts into the queues ----

  // The column that a level chunk marks as waiting: its own, if a blob of it is missing.
  ghost function Opens(stored: set<Hash>, i: Input): set<ChunkPos> {
    if i.LevelChunkIn? && exists h :: h in i.lc.blobHashes && h !in stored then {i.lc.pos} else {}
  }

  // The columns a sub chunk is filed under: those of its columns that wait.
  ghost function Files(waiting: set<ChunkPos>, i: Input): set<ChunkPos> {
    if i.SubChunkIn? then Touches(i.sc.position, i.sc.entries) * waiting else {}
  }

  ghost predicate HandleForm(s: State, i: Input, r: State) {
    var since := Since(r.processed, |s.processed|);
    && s.processed <= r.processed
    && r.levelChunksWaiting.Keys == s.levelChunksWaiting.Keys + Opens(s.db.Keys, i) - since
    && forall p, x ::
         Filing(r.subs, p, x) <==>
         p !in since && (Filing(s.subs, p, x) || (x == |s.received| && p in Files(s.levelChunksWaiting.Keys, i)))
  }

  // `b` is the state that is finished.
  lemma FormIntro(s: State, i: Input, b: State, r: State)
    requires b.processed == s.processed && Settles(b, r)
    requires b.levelChunksWaiting.Keys == s.levelChunksWaiting.Keys + Opens(s.db.Keys, i)
    requires forall p, x :: Filing(b.subs, p, x) <==>
               Filing(s.subs, p, x) || (x == |s.received| && p in Files(s.levelChunksWaiting.Keys, i))
    ensures HandleForm(s, i, r)
  {
    hide Since, Filing, Opens, Files;
  }

  lemma LevelStepQueues(b: Build, id: nat, pos: ChunkPos, h: Hash)
    ensures var r := LevelStep(b, id, pos, h).s;
            && r.subs == b.s.subs && r.processed == b.s.processed && r.db == b.s.db
            && r.levelChunksWaiting.Keys == b.s.levelChunksWaiting.Keys + if h in b.s.db then {} else {pos}
  {
  }

  lemma {:induction false} LevelLoopQueues(b: Build, id: nat, pos: ChunkPos, hs: seq<Hash>)
    ensures var r := LevelLoop(b, id, pos, hs).s;
            && r.subs == b.s.subs && r.processed == b.s.processed
            && r.levelChunksWaiting.Keys ==
               b.s.levelChunksWaiting.Keys + if exists h :: h in hs && h !in b.s.db then {pos} else {}
    decreases |hs|
  {
    if hs != [] {
      var b1 := LevelStep(b, id, pos, hs[0]);
      LevelStepQueues(b, id, pos, hs[0]);
      LevelLoopQueues(b1, id, pos, hs[1..]);
      assert LevelLoop(b, id, pos, hs) == LevelLoop(b1, id, pos, hs[1..]);
      hide LevelLoop, LevelStep;
      assert forall h :: h in hs <==> h == hs[0] || h in hs[1..];
    }
  }

  lemma {:induction false} SubLoopQueues(b: Build, id: nat, es: seq<Entry>)
    ensures var r := SubLoop(b, id, es).s;
            r.subs == b.s.subs && r.processed == b.s.processed && r.levelChunksWaiting == b.s.levelChunksWaiting
    decreases |es|
  {
    if es != [] { SubLoopQueues(SubStep(b, id, es[0]), id, es[1..]); }
  }

  lemma FilingAppendAll(subs: Lists<ChunkPos>, ps: set<ChunkPos>, id: nat)
    ensures forall p, x :: Filing(AppendAll(subs, ps, id), p, x) <==> Filing(subs, p, x) || (x == id && p in ps)
  {
    var m := AppendAll(subs, ps, id);
    forall p, x ensures Filing(m, p, x) <==> Filing(subs, p, x) || (x == id && p in ps) {
      if p in ps {
        assert m[p] == At(subs, p) + [id];
        assert x in m[p] <==> x in At(subs, p) || x == id;
      }
    }
  }

  lemma LevelBuiltQueues(s: State, lc: LevelChunk, client: Client)
    ensures var b := BuildLevel(s, lc).s;
            && b.subs == s.subs && b.processed == s.processed
            && b.levelChunksWaiting.Keys == s.levelChunksWaiting.Keys + Opens(s.db.Keys, LevelChunkIn(lc, client))
  {
    LevelLoopQueues(Build(NewWait(s, Level(lc)), Reply([], []), []), |s.counts|, lc.pos, lc.blobHashes);
    hide LevelLoop;
  }

  lemma LevelFinished(repaired: bool, s: State, lc: LevelChunk, client: Client)
    ensures var a, r := Announce(BuildLevel(s, lc)), HandleLevelChunk(repaired, s, lc, client);
            (if Complete(a, |s.counts|) then Resolve(repaired, a, |s.counts|, client) else a).(arrived := r.arrived)
              == r
  {
    hide BuildLevel, Announce, Resolve, Complete;
  }

  lemma FormArrived(s: State, i: Input, r: State, r1: State)
    requires HandleForm(s, i, r) && r.(arrived := r1.arrived) == r1
    ensures HandleForm(s, i, r1)
  {
    hide Since, Filing, Opens, Files;
  }

  lemma QueuesOf(stored: set<Hash>, waiting: set<ChunkPos>, i: Input)
    ensures !i.LevelChunkIn? ==> Opens(stored, i) == {}
    ensures Files(waiting, i) == if i.SubChunkIn? then Touches(i.sc.position, i.sc.entries) * waiting else {}
  {
    hide Touches;
  }

  lemma LevelQueues(repaired: bool, s: State, lc: LevelChunk, client: Client)
    requires Quiet(repaired, s)
    ensures HandleForm(s, LevelChunkIn(lc, client), HandleLevelChunk(repaired, s, lc, client))
  {
    hide *;
    var i, b := LevelChunkIn(lc, client), BuildLevel(s, lc);
    var a, id := Announce(b), |s.counts|;
    LevelBuiltQueues(s, lc, client);
    AnnounceSame(b);
    QueuesOf(s.db.Keys, s.levelChunksWaiting.Keys, i);
    LevelFinished(repaired, s, lc, client);
    ResolveSettles(repaired, a, id, client);
    SettlesSame(a, a);
    FormIntro(s, i, a, if Complete(a, id) then Resolve(repaired, a, id, client) else a);
    FormArrived(s, i, if Complete(a, id) then Resolve(repaired, a, id, client) else a,
                HandleLevelChunk(repaired, s, lc, client));
  }

  lemma SubBuiltQueues(s: State, sc: SubChunk)
    ensures var b, ps := BuildSub(s, sc).s, Touches(sc.position, sc.entries) * s.levelChunksWaiting.Keys;
            && b.processed == s.processed && b.levelChunksWaiting == s.levelChunksWaiting
            && forall p, x :: Filing(b.subs, p, x) <==> Filing(s.subs, p, x) || (x == |s.counts| && p in ps)
  {
    SubLoopQueues(Build(NewWait(s, Sub(sc)), Reply([], []), []), |s.counts|, sc.entries);
    FilingAppendAll(s.subs, Touches(sc.position, sc.entries) * s.levelChunksWaiting.Keys, |s.counts|);
    hide SubLoop, Touches, AppendAll, Filing;
  }

  lemma SubHandledForm(repaired: bool, s: State, sc: SubChunk, client: Client)
    ensures var a := Announce(BuildSub(s, sc));
            HandleSubChunk(repaired, s, sc, client) ==
            if Complete(a, |s.counts|) then Resolve(repaired, a, |s.counts|, client) else a
  {
    hide BuildSub, Announce, Resolve, Complete;
  }

  lemma SubQueues(repaired: bool, s: State, sc: SubChunk, client: Client)
    requires Quiet(repaired, s)
    ensures HandleForm(s, SubChunkIn(sc, client), HandleSubChunk(repaired, s, sc, client))
  {
    hide *;
    var i, b := SubChunkIn(sc, client), BuildSub(s, sc);
    var a, id := Announce(b), |s.received|;
    SubBuilt(repaired, s, sc);
    AnnounceSame(b);
    SubBuiltQueues(s, sc);
    QueuesOf(s.db.Keys, s.levelChunksWaiting.Keys, i);
    SubHandledForm(repaired, s, sc, client);
    ResolveSettles(repaired, a, id, client);
    SettlesSame(a, a);
    FormIntro(s, i, a, HandleSubChunk(repaired, s, sc, client));
  }

  lemma OtherQueues(s: State, i: Input, r: State)
    requires Settles(s, r) && !i.LevelChunkIn? && !i.SubChunkIn?
    ensures HandleForm(s, i, r)
  {
    hide *;
    QueuesOf(s.db.Keys, s.levelChunksWaiting.Keys, i);
    FormIntro(s, i, s, r);
  }

  lemma StatusSettles(s: State, misses: seq<Hash>)
    ensures Settles(s, ClientStatus(s, misses))
  {
    var s1 := s.(clientWaits := s.clientWaits + [ClientWait(0, [])], toClient := s.toClient + [Missed(misses)]);
    StatusLoopOutside(s1, |s.clientWaits|, misses);
    hide Settles, StatusLoop, ClientPayloads;
    SettlesSame(s, ClientStatus(s, misses));
  }

  // What a call does to the two queues: it adds the columns above, and takes away those of processed level chunks.
  lemma HandleQueues(repaired: bool, s: State, i: Input)
    requires Quiet(repaired, s)
    ensures HandleForm(s, i, Handle(repaired, s, i))
  {
    hide Quiet, HandleForm, HandleLevelChunk, HandleSubChunk, BlobLoop, ClientStatus;
    match i
    case LevelChunkIn(lc, client) => LevelQueues(repaired, s, lc, client);
    case SubChunkIn(sc, client) => SubQueues(repaired, s, sc, client);
    case BlobsIn(blobs, client) =>
      BlobsSettle(repaired, s, blobs, client);
      OtherQueues(s, i, BlobLoop(repaired, s, blobs, client));
    case ClientStatusIn(misses) =>
      StatusSettles(s, misses);
      OtherQueues(s, i, ClientStatus(s, misses));
  }

  // ---- what is stored ----

  function BlobHashes(blobs: seq<CacheBlob>): set<Hash> {
    if blobs == [] then {} else {blobs[0].hash} + BlobHashes(blobs[1..])
  }

  // The hashes of the database and of all blobs that have arrived.
  function StoredBy(db: Db, inputs: seq<Input>): set<Hash> {
    if inputs == [] then db.Keys else
      var last := inputs[|inputs| - 1];
      StoredBy(db, inputs[..|inputs| - 1]) + if last.BlobsIn? then BlobHashes(last.blobs) else {}
  }

  lemma BlobStepStored(repaired: bool, s: State, blob: CacheBlob, client: Client)
    requires Quiet(repaired, s)
    ensures BlobStep(repaired, s, blob, client).db.Keys == s.db.Keys + {blob.hash}
  {
    BlobStepOutside(repaired, s, blob, client);
    ReceiveOutside(s, blob);
    hide Quiet, BlobStep, Receive;
  }

  lemma {:induction false} BlobsStored(repaired: bool, s: State, blobs: seq<CacheBlob>, client: Client)
    requires Quiet(repaired, s)
    ensures BlobLoop(repaired, s, blobs, client).db.Keys == s.db.Keys + BlobHashes(blobs)
    decreases |blobs|
  {
    if blobs != [] {
      hide Quiet, BlobStep;
      BlobStepStored(repaired, s, blobs[0], client);
      BlobStepKeeps(repaired, s, blobs[0], client);
      BlobsStored(repaired, BlobStep(repaired, s, blobs[0], client), blobs[1..], client);
    }
  }

  lemma OutsideDb(s: State, r: State)
    requires SameOutside(s, r)
    ensures r.db == s.db
  {
  }

  lemma LevelDb(repaired: bool, s: State, lc: LevelChunk, client: Client)
    ensures HandleLevelChunk(repaired, s, lc, client).db == FinishState(repaired, BuildLevel(s, lc), |s.counts|,
            client).db
  {
    hide BuildLevel, FinishState;
  }

  lemma LevelStored(repaired: bool, s: State, lc: LevelChunk, client: Client)
    requires Quiet(repaired, s)
    ensures HandleLevelChunk(repaired, s, lc, client).db == s.db
  {
    hide *;
    var b := BuildLevel(s, lc);
    LevelBuilt(repaired, s, lc);
    AnnounceSame(b);
    FinishOutside(repaired, b, |s.counts|, client);
    OutsideDb(Announce(b), FinishState(repaired, b, |s.counts|, client));
    LevelDb(repaired, s, lc, client);
  }

  lemma SubStored(repaired: bool, s: State, sc: SubChunk, client: Client)
    requires Quiet(repaired, s)
    ensures HandleSubChunk(repaired, s, sc, client).db == s.db
  {
    hide *;
    var b := BuildSub(s, sc);
    SubBuilt(repaired, s, sc);
    AnnounceSame(b);
    FinishOutside(repaired, b, |s.counts|, client);
    OutsideDb(Announce(b), FinishState(repaired, b, |s.counts|, client));
    SubHandled(repaired, s, sc, client);
  }

  lemma StatusStored(s: State, misses: seq<Hash>)
    ensures ClientStatus(s, misses).db == s.db
  {
    var s1 := s.(clientWaits := s.clientWaits + [ClientWait(0, [])], toClient := s.toClient + [Missed(misses)]);
    StatusLoopOutside(s1, |s.clientWaits|, misses);
    hide StatusLoop, ClientPayloads;
  }

  lemma HandleStored(repaired: bool, s: State, i: Input)
    requires Quiet(repaired, s)
    ensures Handle(repaired, s, i).db.Keys == s.db.Keys + if i.BlobsIn? then BlobHashes(i.blobs) else {}
  {
    hide Quiet, HandleLevelChunk, HandleSubChunk, BlobLoop, ClientStatus;
    match i
    case LevelChunkIn(lc, client) => LevelStored(repaired, s, lc, client);
    case SubChunkIn(sc, client) => SubStored(repaired, s, sc, client);
    case BlobsIn(blobs, client) => BlobsStored(repaired, s, blobs, client);
    case ClientStatusIn(misses) => StatusStored(s, misses);
  }

  lemma {:induction false} StoredIsInputs(repaired: bool, db: Db, inputs: seq<Input>)
    ensures Run(repaired, db, inputs).db.Keys == StoredBy(db, inputs)
    decreases |inputs|
  {
    if inputs != [] {
      var n := |inputs| - 1;
      StoredIsInputs(repaired, db, inputs[..n]);
      RunKeeps(repaired, db, inputs[..n]);
      RunStep(repaired, db, inputs);
      hide Run, Handle, Quiet;
      HandleStored(repaired, Run(repaired, db, inputs[..n]), inputs[n]);
    }
  }

  // ---- the queues told from the history ----

  // The packets handed to processPacket.
  function Output(repaired: bool, db: Db, inputs: seq<Input>): seq<Done> {
    Run(repaired, db, inputs).processed
  }

  // The columns of the level chunks that were processed since input k came in.
  ghost function SinceInput(repaired: bool, db: Db, inputs: seq<Input>, k: nat): set<ChunkPos> {
    if k <= |inputs| then Since(Output(repaired, db, inputs), |Output(repaired, db, inputs[..k])|) else {}
  }

  // Input k was a level chunk at p with a missing blob, and none at p was processed since.
  ghost predicate OpenedAt(repaired: bool, db: Db, inputs: seq<Input>, p: ChunkPos, k: nat) {
    k < |inputs| && p in Opens(StoredBy(db, inputs[..k]), inputs[k]) && p !in SinceInput(repaired, db, inputs, k)
  }

  ghost predicate WaitsFor(repaired: bool, db: Db, inputs: seq<Input>, p: ChunkPos) {
    exists k: nat :: OpenedAt(repaired, db, inputs, p, k)
  }

  // Input k was the sub chunk with this id and an entry at column p, which was waiting, and no level chunk at p was
  // processed since.
  ghost predicate FiledAt(repaired: bool, db: Db, inputs: seq<Input>, p: ChunkPos, id: nat, k: nat) {
    && k < |inputs| && inputs[k].SubChunkIn? && |Log(inputs[..k])| == id
    && HasEntryAt(inputs[k].sc.position, inputs[k].sc.entries, p)
    && WaitsFor(repaired, db, inputs[..k], p) && p !in SinceInput(repaired, db, inputs, k)
  }

  // Column p keeps the packet back.
  ghost predicate KeptBack(repaired: bool, db: Db, inputs: seq<Input>, p: ChunkPos, id: nat) {
    exists k: nat :: FiledAt(repaired, db, inputs, p, id, k)
  }

  lemma OutputStep(repaired: bool, db: Db, inputs: seq<Input>)
    requires inputs != []
    ensures Output(repaired, db, inputs[..|inputs| - 1]) <= Output(repaired, db, inputs)
    ensures HandleForm(Run(repaired, db, inputs[..|inputs| - 1]), inputs[|inputs| - 1], Run(repaired, db, inputs))
  {
    var n := |inputs| - 1;
    RunKeeps(repaired, db, inputs[..n]);
    RunStep(repaired, db, inputs);
    hide Run, Handle, Quiet, Filing, Since, Opens, Files;
    HandleQueues(repaired, Run(repaired, db, inputs[..n]), inputs[n]);
  }

  lemma {:induction false} OutputGrows(repaired: bool, db: Db, inputs: seq<Input>, k: nat)
    requires k <= |inputs|
    ensures Output(repaired, db, inputs[..k]) <= Output(repaired, db, inputs)
    decreases |inputs|
  {
    if k == |inputs| {
      assert inputs[..k] == inputs;
    } else {
      hide *;
      var before := inputs[..|inputs| - 1];
      assert before[..k] == inputs[..k];
      OutputGrows(repaired, db, before, k);
      OutputStep(repaired, db, inputs);
    }
  }

  lemma SinceForm(repaired: bool, db: Db, inputs: seq<Input>, k: nat)
    requires k <= |inputs|
    ensures SinceInput(repaired, db, inputs, k)
            == Since(Output(repaired, db, inputs), |Output(repaired, db, inputs[..k])|)
  {
    hide Since, Output;
  }

  lemma SinceStep(repaired: bool, db: Db, inputs: seq<Input>, k: nat)
    requires k < |inputs|
    ensures var n := |inputs| - 1;
            SinceInput(repaired, db, inputs, k)
            == SinceInput(repaired, db, inputs[..n], k) + SinceInput(repaired, db, inputs, n)
  {
    hide *;
    var n := |inputs| - 1;
    assert inputs[..n][..k] == inputs[..k];
    SinceForm(repaired, db, inputs, k);
    SinceForm(repaired, db, inputs[..n], k);
    SinceForm(repaired, db, inputs, n);
    OutputGrows(repaired, db, inputs[..n], k);
    OutputStep(repaired, db, inputs);
    SinceSplit(Output(repaired, db, inputs[..k]), Output(repaired, db, inputs[..n]), Output(repaired, db, inputs));
  }

  // At the end of a run the last input is treated like those before it.
  lemma OpenedStep(repaired: bool, db: Db, inputs: seq<Input>, p: ChunkPos, k: nat)
    requires inputs != []
    ensures var n := |inputs| - 1;
            OpenedAt(repaired, db, inputs, p, k) <==>
            && p !in SinceInput(repaired, db, inputs, n)
            && if k < n then OpenedAt(repaired, db, inputs[..n], p, k)
               else k == n && p in Opens(StoredBy(db, inputs[..n]), inputs[n])
  {
    var n := |inputs| - 1;
    hide SinceInput, Opens, StoredBy;
    if k < n {
      assert inputs[..n][..k] == inputs[..k];
      SinceStep(repaired, db, inputs, k);
    }
  }

  lemma WaitsStep(repaired: bool, db: Db, inputs: seq<Input>, p: ChunkPos)
    requires inputs != []
    ensures var n := |inputs| - 1;
            WaitsFor(repaired, db, inputs, p) <==>
            && p !in SinceInput(repaired, db, inputs, n)
            && (WaitsFor(repaired, db, inputs[..n], p) || p in Opens(StoredBy(db, inputs[..n]), inputs[n]))
  {
    var n := |inputs| - 1;
    forall k: nat ensures k < n || k == n || !OpenedAt(repaired, db, inputs, p, k) {}
    forall k: nat ensures k < n || !OpenedAt(repaired, db, inputs[..n], p, k) {}
    hide OpenedAt, SinceInput, Opens, StoredBy;
    if k: nat :| OpenedAt(repaired, db, inputs, p, k) {
      OpenedStep(repaired, db, inputs, p, k);
    } else if p !in SinceInput(repaired, db, inputs, n) {
      OpenedStep(repaired, db, inputs, p, n);
      if k: nat :| OpenedAt(repaired, db, inputs[..n], p, k) {
        OpenedStep(repaired, db, inputs, p, k);
      }
    }
  }

  lemma NothingWaitsFor(repaired: bool, db: Db, p: ChunkPos)
    ensures p !in Run(repaired, db, []).levelChunksWaiting && !WaitsFor(repaired, db, [], p)
    ensures forall id :: !Filing(Run(repaired, db, []).subs, p, id) && !KeptBack(repaired, db, [], p, id)
  {
  }

  lemma SinceLast(repaired: bool, db: Db, inputs: seq<Input>)
    requires inputs != []
    ensures var n := |inputs| - 1;
            SinceInput(repaired, db, inputs, n)
            == Since(Run(repaired, db, inputs).processed, |Run(repaired, db, inputs[..n]).processed|)
  {
    hide Run, Since;
  }

  lemma FormOf(s: State, i: Input, r: State)
    requires HandleForm(s, i, r)
    ensures forall p :: p in r.levelChunksWaiting <==>
              (p in s.levelChunksWaiting || p in Opens(s.db.Keys, i)) && p !in Since(r.processed, |s.processed|)
    ensures forall p, x :: Filing(r.subs, p, x) <==>
              && p !in Since(r.processed, |s.processed|)
              && (Filing(s.subs, p, x) || (x == |s.received| && p in Files(s.levelChunksWaiting.Keys, i)))
  {
    hide Since, Filing, Opens, Files;
  }

  // levelChunksWaiting are the columns that wait.
  lemma {:induction false} WaitingIff(repaired: bool, db: Db, inputs: seq<Input>, p: ChunkPos)
    ensures p in Run(repaired, db, inputs).levelChunksWaiting <==> WaitsFor(repaired, db, inputs, p)
    decreases |inputs|
  {
    hide *;
    if inputs == [] {
      NothingWaitsFor(repaired, db, p);
    } else {
      var n := |inputs| - 1;
      var s, r := Run(repaired, db, inputs[..n]), Run(repaired, db, inputs);
      WaitingIff(repaired, db, inputs[..n], p);
      WaitsStep(repaired, db, inputs, p);
      OutputStep(repaired, db, inputs);
      StoredIsInputs(repaired, db, inputs[..n]);
      SinceLast(repaired, db, inputs);
      FormOf(s, inputs[n], r);
    }
  }

  lemma FiledStep(repaired: bool, db: Db, inputs: seq<Input>, p: ChunkPos, id: nat, k: nat)
    requires inputs != []
    ensures var n := |inputs| - 1;
            FiledAt(repaired, db, inputs, p, id, k) <==>
            && p !in SinceInput(repaired, db, inputs, n)
            && if k < n then FiledAt(repaired, db, inputs[..n], p, id, k)
               else k == n && inputs[n].SubChunkIn? && |Log(inputs[..n])| == id
                    && HasEntryAt(inputs[n].sc.position, inputs[n].sc.entries, p)
                    && WaitsFor(repaired, db, inputs[..n], p)
  {
    var n := |inputs| - 1;
    hide SinceInput, WaitsFor, HasEntryAt, Log;
    if k < n {
      assert inputs[..n][..k] == inputs[..k];
      SinceStep(repaired, db, inputs, k);
    }
  }

  lemma KeptStep(repaired: bool, db: Db, inputs: seq<Input>, p: ChunkPos, id: nat)
    requires inputs != []
    ensures var n := |inputs| - 1;
            KeptBack(repaired, db, inputs, p, id) <==>
            && p !in SinceInput(repaired, db, inputs, n)
            && (KeptBack(repaired, db, inputs[..n], p, id)
                || (inputs[n].SubChunkIn? && |Log(inputs[..n])| == id
                    && HasEntryAt(inputs[n].sc.position, inputs[n].sc.entries, p)
                    && WaitsFor(repaired, db, inputs[..n], p)))
  {
    var n := |inputs| - 1;
    forall k: nat ensures k < n || !FiledAt(repaired, db, inputs[..n], p, id, k) {}
    hide FiledAt, SinceInput, WaitsFor, HasEntryAt, Log;
    if k: nat :| FiledAt(repaired, db, inputs, p, id, k) {
      FiledStep(repaired, db, inputs, p, id, k);
    } else if p !in SinceInput(repaired, db, inputs, n) {
      FiledStep(repaired, db, inputs, p, id, n);
      if k: nat :| FiledAt(repaired, db, inputs[..n], p, id, k) {
        FiledStep(repaired, db, inputs, p, id, k);
      }
    }
  }

  // subs are the packets that are kept back, by the columns that keep them back.
  lemma {:induction false} KeptIff(repaired: bool, db: Db, inputs: seq<Input>, p: ChunkPos, id: nat)
    ensures Filing(Run(repaired, db, inputs).subs, p, id) <==> KeptBack(repaired, db, inputs, p, id)
    decreases |inputs|
  {
    hide *;
    if inputs == [] {
      NothingWaitsFor(repaired, db, p);
    } else {
      var n := |inputs| - 1;
      var s, r := Run(repaired, db, inputs[..n]), Run(repaired, db, inputs);
      KeptIff(repaired, db, inputs[..n], p, id);
      KeptStep(repaired, db, inputs, p, id);
      WaitingIff(repaired, db, inputs[..n], p);
      OutputStep(repaired, db, inputs);
      HistoryIsInputs(repaired, db, inputs[..n]);
      SinceLast(repaired, db, inputs);
      QueuesOf({}, s.levelChunksWaiting.Keys, inputs[n]);
      FormOf(s, inputs[n], r);
      if inputs[n].SubChunkIn? { TouchesIff(inputs[n].sc.position, inputs[n].sc.entries, p); }
      assert inputs[n].SubChunkIn? ==>
               (p in Files(s.levelChunksWaiting.Keys, inputs[n]) <==>
                  HasEntryAt(inputs[n].sc.position, inputs[n].sc.entries, p)
                  && WaitsFor(repaired, db, inputs[..n], p));
      assert Filing(r.subs, p, id) <==>
              && p !in Since(r.processed, |s.processed|)
              && (Filing(s.subs, p, id) || (id == |s.received| && p in Files(s.levelChunksWaiting.Keys, inputs[n])));
    }
  }

  // ---- ready ----

  // All blobs of the packet have arrived or were there, and no column keeps it back: told from the inputs and what was
  // handed on.
  ghost predicate ReadyByHistory(repaired: bool, db: Db, inputs: seq<Input>, id: nat) {
    && id < |Log(inputs)| && Needs(Log(inputs)[id].pk) <= StoredBy(db, inputs)
    && forall p :: !KeptBack(repaired, db, inputs, p, id)
  }

  lemma ReadyIff(repaired: bool, db: Db, inputs: seq<Input>, id: nat)
    ensures Ready(Run(repaired, db, inputs), id) <==> ReadyByHistory(repaired, db, inputs, id)
  {
    HistoryIsInputs(repaired, db, inputs);
    StoredIsInputs(repaired, db, inputs);
    hide Run, KeptBack, Needs, Log, StoredBy, Filing;
    forall p ensures Filing(Run(repaired, db, inputs).subs, p, id) <==> KeptBack(repaired, db, inputs, p, id) {
      KeptIff(repaired, db, inputs, p, id);
    }
  }

  // Every packet was handed on once if it is ready, and otherwise not.
  ghost predicate OnceByHistory(repaired: bool, db: Db, inputs: seq<Input>) {
    forall id :: 0 <= id < |Log(inputs)| ==>
      Times(Run(repaired, db, inputs), id) == if ReadyByHistory(repaired, db, inputs, id) then 1 else 0
  }

  // Every cached packet reaches processPacket exactly once when it is ready and not before, in all runs as meant, and
  // as written in exactly the runs in which no call meets what drops a sub chunk. The queue of sub chunks has no part
  // in it.
  lemma ExactlyOnceByHistory(repaired: bool, db: Db, inputs: seq<Input>)
    ensures OnceByHistory(repaired, db, inputs) <==> repaired || NoDrops(db, inputs)
  {
    ProcessedExactlyOnce(repaired, db, inputs);
    if !repaired { ExactlyOnceIff(db, inputs); }
    HistoryIsInputs(repaired, db, inputs);
    hide Run, ReadyByHistory, Ready, NoDrops, Times, Log;
    forall id ensures Ready(Run(repaired, db, inputs), id) <==> ReadyByHistory(repaired, db, inputs, id) {
      ReadyIff(repaired, db, inputs, id);
    }
  }
}
