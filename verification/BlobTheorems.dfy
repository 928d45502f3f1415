// The properties of the blob cache, in every state a run can reach.

module BlobTheorems {
  import opened RawBytes
  import opened BlobPackets
  import opened Occurrences
  import opened BlobSpec
  import opened BlobInvariant
  import opened BlobReachable
  import opened BlobRecords

  // ---- reference counts ----

  // A wait's counter is the number of its registrations, and whatever is registered has a positive counter.
  lemma CountsAreRegistrations(repaired: bool, db: Db, inputs: seq<Input>)
    ensures var s := Run(repaired, db, inputs);
            && (forall id :: 0 <= id < |s.counts| ==> s.counts[id] == Occ(s.serverWait, id) + Occ(s.subs, id))
            && (forall h, i :: h in s.serverWait && 0 <= i < |s.serverWait[h]| ==>
                  s.serverWait[h][i] < |s.counts| && s.counts[s.serverWait[h][i]] > 0)
            && (forall p, i :: p in s.subs && 0 <= i < |s.subs[p]| ==>
                  s.subs[p][i] < |s.counts| && s.counts[s.subs[p][i]] > 0)
  {
    var s := Run(repaired, db, inputs);
    RunKeeps(repaired, db, inputs);
    FiledIdsBelow(s.received, s.db, s.serverWait, s.subs, s.levelChunksWaiting.Keys);
    InvFacts(repaired, s, multiset{}, {}, |s.received|);
    assert Counts(s.counts, s.serverWait, s.subs, multiset{});
    hide Inv, Quiet, FiledHashes, FiledColumns, Run;
    forall h, i | h in s.serverWait && 0 <= i < |s.serverWait[h]| ensures s.counts[s.serverWait[h][i]] > 0 {
      var id := s.serverWait[h][i];
      if s.counts[id] == 0 { OccZero(s.serverWait, id); }
    }
    forall p, i | p in s.subs && 0 <= i < |s.subs[p]| ensures s.counts[s.subs[p][i]] > 0 {
      var id := s.subs[p][i];
      if s.counts[id] == 0 { OccZero(s.subs, id); }
    }
  }

  // ---- no packet is stranded ----

  // A level chunk at the column that was not processed and still waits for a blob that was asked for.
  ghost predicate StillWaits(s: State, p: ChunkPos, id: nat) {
    && id < |s.received| && s.received[id].pk.Level? && s.received[id].pk.lc.pos == p
    && id !in DoneIds(s.processed) && exists h :: Filing(s.serverWait, h, id)
  }

  lemma LevelNotInColumns(rs: seq<Received>, subs: Lists<ChunkPos>, waiting: set<ChunkPos>, id: nat)
    requires FiledColumns(rs, subs, waiting) && id < |rs| && rs[id].pk.Level?
    ensures Occ(subs, id) == 0
  {
    forall p, i | p in subs && 0 <= i < |subs[p]| ensures subs[p][i] != id {
      assert TouchesPos(rs, p, subs[p][i]);
    }
    OccPositive(subs, id);
  }

  lemma WitnessStillWaits(repaired: bool, s: State, p: ChunkPos)
    requires Quiet(repaired, s) && p in s.levelChunksWaiting
    ensures exists id :: StillWaits(s, p, id)
  {
    var id :| WaitingLevel(s.received, s.counts, {}, p, id);
    LevelNotInColumns(s.received, s.subs, s.levelChunksWaiting.Keys, id);
    OccPositive(s.serverWait, id);
    var h :| h in s.serverWait && id in s.serverWait[h];
    assert Filing(s.serverWait, h, id);
    assert StillWaits(s, p, id);
  }

  // Sub chunks wait only for columns that wait for a level chunk, and every such column has one that waits for a blob:
  // once no blob is outstanding, nothing waits.
  lemma NothingStranded(repaired: bool, db: Db, inputs: seq<Input>)
    ensures var s := Run(repaired, db, inputs);
            && s.subs.Keys <= s.levelChunksWaiting.Keys
            && (forall p :: p in s.levelChunksWaiting ==> exists id :: StillWaits(s, p, id))
            && (s.serverWait == map[] ==> s.levelChunksWaiting == map[] && s.subs == map[])
  {
    var s := Run(repaired, db, inputs);
    RunKeeps(repaired, db, inputs);
    forall p | p in s.levelChunksWaiting ensures exists id :: StillWaits(s, p, id) {
      WitnessStillWaits(repaired, s, p);
    }
    assert s.subs.Keys <= s.levelChunksWaiting.Keys;
    hide Inv, Quiet, Run;
    if s.levelChunksWaiting != map[] {
      var p :| p in s.levelChunksWaiting;
      var id :| StillWaits(s, p, id);
      var h :| Filing(s.serverWait, h, id);
      assert h in s.serverWait;
    } else {
      assert s.subs.Keys == {};
    }
  }

  // ---- exactly once ----

  ghost function IdsOf(ps: seq<Done>): seq<nat> {
    seq(|ps|, i requires 0 <= i < |ps| => ps[i].id)
  }

  // How often a wait was handed to processPacket.
  ghost function Times(s: State, id: nat): nat {
    multiset(IdsOf(s.processed))[id]
  }

  // All its misses are answered, and no column it lies in still keeps it waiting.
  ghost predicate Ready(s: State, id: nat) {
    id < |s.received| && Needs(s.received[id].pk) <= s.db.Keys && forall p :: !Filing(s.subs, p, id)
  }

  lemma {:induction false} DistinctCount(l: seq<nat>, x: nat)
    requires NoDuplicates(l)
    ensures multiset(l)[x] == if x in l then 1 else 0
  {
    if l != [] {
      var last := |l| - 1;
      assert l == l[..last] + [l[last]];
      DistinctCount(l[..last], x);
      assert forall i :: 0 <= i < last ==> l[..last][i] != l[last];
    }
  }

  lemma IdsOfDone(ps: seq<Done>, id: nat)
    ensures id in IdsOf(ps) <==> id in DoneIds(ps)
  {
    if id in DoneIds(ps) {
      var i :| 0 <= i < |ps| && ps[i].id == id;
      assert IdsOf(ps)[i] == id;
    }
  }

  // A wait is processed just when it is ready.
  lemma DoneIffReady(repaired: bool, s: State, id: nat)
    requires Quiet(repaired, s) && Records(Unchecked, s) && id < |s.received|
    requires repaired || id !in s.woken
    ensures id in DoneIds(s.processed) <==> Ready(s, id)
  {
    if id in DoneIds(s.processed) {
      OccZero(s.subs, id);
      var d: Db :| Needs(s.received[id].pk) <= d.Keys <= s.db.Keys;
    } else {
      OccPositive(s.serverWait, id);
      OccPositive(s.subs, id);
      if Mentions(s.subs, id) {
        var p :| p in s.subs && id in s.subs[p];
        assert Filing(s.subs, p, id);
      } else {
        var h :| h in s.serverWait && id in s.serverWait[h];
        var i :| 0 <= i < |s.serverWait[h]| && s.serverWait[h][i] == id;
        assert NeedsHash(s.received, h, s.serverWait[h][i]);
      }
    }
  }

  ghost predicate EachOnce(s: State) {
    forall id :: 0 <= id < |s.received| ==> Times(s, id) == if Ready(s, id) then 1 else 0
  }

  lemma EachOnceIff(repaired: bool, s: State)
    requires Quiet(repaired, s) && Records(Unchecked, s)
    ensures EachOnce(s) <==> repaired || s.woken == []
  {
    if repaired || s.woken == [] {
      assert NoDuplicates(IdsOf(s.processed));
      forall id | 0 <= id < |s.received| ensures Times(s, id) == if Ready(s, id) then 1 else 0 {
        DoneIffReady(repaired, s, id);
        DistinctCount(IdsOf(s.processed), id);
        IdsOfDone(s.processed, id);
      }
    } else {
      var x := s.woken[0];
      assert x in s.woken;
      assert x !in DoneIds(s.processed);
      IdsOfDone(s.processed, x);
      assert Times(s, x) == 0;
      CompleteHasAll(repaired, s, x, multiset{}, {}, |s.received|);
      OccZero(s.subs, x);
      assert Ready(s, x);
    }
  }

  // The blobs of an input are the ones their hashes name.
  ghost predicate NamedInput(n: Naming, i: Input) {
    n.ByContent? && i.BlobsIn? ==> forall b :: b in i.blobs ==> b.payload == n.content(b.hash)
  }

  lemma {:induction false} BlobLoopRecords(n: Naming, repaired: bool, s: State, blobs: seq<CacheBlob>, client: Client)
    requires Quiet(repaired, s) && Records(n, s) && NamedInput(n, BlobsIn(blobs, client))
    ensures Records(n, BlobLoop(repaired, s, blobs, client))
    decreases |blobs|
  {
    if blobs != [] {
      var b := blobs[0];
      assert n.ByContent? ==> b.payload == n.content(b.hash);
      assert Named(n, s.db[b.hash := b.payload]);
      assert NamedInput(n, BlobsIn(blobs[1..], client));
      hide Quiet, Records, BlobStep, Named;
      BlobStepRecords(n, repaired, s, b, client);
      BlobStepKeeps(repaired, s, b, client);
      BlobLoopRecords(n, repaired, BlobStep(repaired, s, b, client), blobs[1..], client);
    }
  }

  lemma ClientStatusRecords(n: Naming, s: State, misses: seq<Hash>)
    requires Records(n, s)
    ensures Records(n, ClientStatus(s, misses))
  {
    var s1 := s.(clientWaits := s.clientWaits + [ClientWait(0, [])], toClient := s.toClient + [Missed(misses)]);
    StatusLoopOutside(s1, |s.clientWaits|, misses);
    RecordsMore(n, s, ClientStatus(s, misses));
  }

  lemma {:induction false} RunRecords(n: Naming, repaired: bool, db: Db, inputs: seq<Input>)
    requires Named(n, db) && forall i :: 0 <= i < |inputs| ==> NamedInput(n, inputs[i])
    ensures Records(n, Run(repaired, db, inputs))
    decreases |inputs|
  {
    if inputs != [] {
      var before := inputs[..|inputs| - 1];
      var s := Run(repaired, db, before);
      RunRecords(n, repaired, db, before);
      RunKeeps(repaired, db, before);
      hide Quiet, Records, Named;
      match inputs[|inputs| - 1]
      case LevelChunkIn(lc, client) => HandleLevelChunkRecords(n, repaired, s, lc, client);
      case SubChunkIn(sc, client) => HandleSubChunkRecords(n, repaired, s, sc, client);
      case BlobsIn(blobs, client) => BlobLoopRecords(n, repaired, s, blobs, client);
      case ClientStatusIn(misses) => ClientStatusRecords(n, s, misses);
    }
  }

  // With line 359 resolving the sub chunk, every cached packet reaches processPacket exactly once when it is ready,
  // and not before. As the code is written this holds of a run just when the test at line 358 never succeeded.
  lemma ProcessedExactlyOnce(repaired: bool, db: Db, inputs: seq<Input>)
    ensures var s := Run(repaired, db, inputs);
            EachOnce(s) <==> repaired || s.woken == []
  {
    RunKeeps(repaired, db, inputs);
    RunRecords(Unchecked, repaired, db, inputs);
    EachOnceIff(repaired, Run(repaired, db, inputs));
  }

  // ---- the cache is transparent ----

  // A packet carries what the uncached stream would have carried.
  ghost predicate Transparent(content: Hash -> Bytes, orig: Packet, pk: Packet) {
    match (orig, pk)
    case (Level(_), _) => pk == PlainPacket(content, orig)
    case (Sub(o), Sub(p)) =>
      var plain := PlainPacket(content, orig).sc.entries;
      && p == o.(cacheEnabled := false, entries := p.entries)
      && |p.entries| == |o.entries| == |plain|
      && (forall i :: 0 <= i < |o.entries| && o.entries[i].result == Success ==> p.entries[i] == plain[i])
      && ((forall i :: 0 <= i < |o.entries| && o.entries[i].result != Success ==> o.entries[i].blobHash == 0) ==>
            pk == PlainPacket(content, orig))
    case (Sub(_), Level(_)) => false
  }

  lemma FaithfulIsTransparent(content: Hash -> Bytes, orig: Packet, pk: Packet, db: Db)
    requires Faithful(ByContent(content), orig, pk, db)
    ensures Transparent(content, orig, pk)
  {
    var d: Db :| Named(ByContent(content), d) && Needs(orig) <= d.Keys <= db.Keys
      && pk == FillPacket(d, InitialFill(orig));
    assert FillPacket(d, InitialFill(orig)) == FillPacket(d, orig);
    FillIsPlain(d, content, orig);
  }

  // When every blob is the one its hash names, every packet that reaches processPacket is the packet a server
  // without the cache would have sent.
  lemma CacheIsTransparent(repaired: bool, content: Hash -> Bytes, db: Db, inputs: seq<Input>)
    requires ContentAddressed(db, content)
    requires forall i :: 0 <= i < |inputs| ==> NamedInput(ByContent(content), inputs[i])
    ensures var s := Run(repaired, db, inputs);
            forall i :: 0 <= i < |s.processed| ==>
              s.processed[i].id < |s.received|
              && Transparent(content, s.received[s.processed[i].id].pk, s.processed[i].pk)
  {
    var s := Run(repaired, db, inputs);
    RunRecords(ByContent(content), repaired, db, inputs);
    hide Run, Transparent, Faithful;
    forall i | 0 <= i < |s.processed|
      ensures s.processed[i].id < |s.received|
              && Transparent(content, s.received[s.processed[i].id].pk, s.processed[i].pk)
    {
      assert RecordOk(ByContent(content), s.received, s.db, s.processed, i);
      FaithfulIsTransparent(content, s.received[s.processed[i].id].pk, s.processed[i].pk, s.db);
    }
  }

  // ---- level chunks first ----

  // A level chunk at the column was processed before position i.
  ghost predicate LevelBefore(ps: seq<Done>, i: nat, p: ChunkPos) {
    exists j :: 0 <= j < i && j < |ps| && ps[j].pk.Level? && ps[j].pk.lc.pos == p
  }

  // A sub chunk is never processed before a level chunk at each column that an entry of it lies in, if one was received
  // before it.
  lemma LevelChunksFirst(repaired: bool, db: Db, inputs: seq<Input>)
    ensures var s := Run(repaired, db, inputs);
            forall i, p :: 0 <= i < |s.processed| && s.processed[i].id < |s.received|
              && s.received[s.processed[i].id].pk.Sub? && p in s.received[s.processed[i].id].after
              && HasEntryAt(s.received[s.processed[i].id].pk.sc.position, s.received[s.processed[i].id].pk.sc.entries,
                p)
              ==> LevelBefore(s.processed, i, p)
  {
    var s := Run(repaired, db, inputs);
    RunRecords(Unchecked, repaired, db, inputs);
    hide Run, Faithful;
    forall i, p | 0 <= i < |s.processed| && s.processed[i].id < |s.received| && s.received[s.processed[i].id].pk.Sub?
      && p in s.received[s.processed[i].id].after
      && HasEntryAt(s.received[s.processed[i].id].pk.sc.position, s.received[s.processed[i].id].pk.sc.entries, p)
      ensures LevelBefore(s.processed, i, p)
    {
      var sc := s.received[s.processed[i].id].pk.sc;
      TouchesIff(sc.position, sc.entries, p);
      assert RecordOk(Unchecked, s.received, s.db, s.processed, i);
      var before := s.processed[..i];
      assert p in ProcessedAt(before);
      var j :| 0 <= j < |before| && before[j].pk.Level? && before[j].pk.lc.pos == p;
      assert s.processed[j] == before[j];
    }
  }

  lemma RunStep(repaired: bool, db: Db, inputs: seq<Input>)
    requires inputs != []
    ensures Run(repaired, db, inputs) ==
            Handle(repaired, Run(repaired, db, inputs[..|inputs| - 1]), inputs[|inputs| - 1])
  {
    hide Handle;
  }

  // The columns of the level chunks among the inputs.
  function Arrivals(inputs: seq<Input>): set<ChunkPos> {
    set i | 0 <= i < |inputs| && inputs[i].LevelChunkIn? :: inputs[i].lc.pos
  }

  // The packets the cache was given, each with the columns of the level chunks before it.
  function Log(inputs: seq<Input>): seq<Received> {
    if inputs == [] then [] else
      var before := inputs[..|inputs| - 1];
      Log(before) + match inputs[|inputs| - 1]
                    case LevelChunkIn(lc, _) => [Received(Level(lc), Arrivals(before))]
                    case SubChunkIn(sc, _) => [Received(Sub(sc), Arrivals(before))]
                    case _ => []
  }

  lemma ArrivalsStep(inputs: seq<Input>)
    requires inputs != []
    ensures var n := |inputs| - 1;
            Arrivals(inputs) == Arrivals(inputs[..n]) + if inputs[n].LevelChunkIn? then {inputs[n].lc.pos} else {}
  {
    var n := |inputs| - 1;
    assert forall i :: 0 <= i < n ==> inputs[..n][i] == inputs[i];
  }

  ghost predicate Grows(s: State, r: State, arrived: set<ChunkPos>, more: seq<Received>) {
    r.arrived == s.arrived + arrived && r.received == s.received + more
  }

  lemma GrowsIntro(s: State, r: State, arrived: set<ChunkPos>, more: seq<Received>)
    requires r.arrived == s.arrived + arrived && r.received == s.received + more
    ensures Grows(s, r, arrived, more)
  {
  }

  lemma FinishOutside(repaired: bool, b: Build, id: nat, client: Client)
    ensures SameOutside(Announce(b), FinishState(repaired, b, id, client))
  {
    ResolveOutside(repaired, Announce(b), id, client);
  }

  lemma FinishHistory(repaired: bool, b: Build, id: nat, client: Client)
    ensures var r := FinishState(repaired, b, id, client); r.arrived == b.s.arrived && r.received == b.s.received
  {
    FinishOutside(repaired, b, id, client);
    AnnounceSame(b);
  }

  lemma LevelChunkHistory(repaired: bool, s: State, lc: LevelChunk, client: Client)
    requires Quiet(repaired, s)
    ensures Grows(s, HandleLevelChunk(repaired, s, lc, client), {lc.pos}, [Received(Level(lc), s.arrived)])
  {
    LevelBuilt(repaired, s, lc);
    var r := FinishState(repaired, BuildLevel(s, lc), |s.counts|, client);
    assert HandleLevelChunk(repaired, s, lc, client) == r.(arrived := r.arrived + {lc.pos});
    hide *;
    FinishHistory(repaired, BuildLevel(s, lc), |s.counts|, client);
    GrowsIntro(s, HandleLevelChunk(repaired, s, lc, client), {lc.pos}, [Received(Level(lc), s.arrived)]);
  }

  lemma SubHandled(repaired: bool, s: State, sc: SubChunk, client: Client)
    ensures HandleSubChunk(repaired, s, sc, client) == FinishState(repaired, BuildSub(s, sc), |s.counts|, client)
  {
    hide FinishState, BuildSub;
  }

  lemma SubChunkHistory(repaired: bool, s: State, sc: SubChunk, client: Client)
    requires Quiet(repaired, s)
    ensures Grows(s, HandleSubChunk(repaired, s, sc, client), {}, [Received(Sub(sc), s.arrived)])
  {
    hide *;
    SubBuilt(repaired, s, sc);
    SubHandled(repaired, s, sc, client);
    FinishHistory(repaired, BuildSub(s, sc), |s.counts|, client);
    GrowsIntro(s, HandleSubChunk(repaired, s, sc, client), {}, [Received(Sub(sc), s.arrived)]);
  }

  lemma BlobStepOutside(repaired: bool, s: State, blob: CacheBlob, client: Client)
    requires Quiet(repaired, s)
    ensures var s1 := Receive(s, blob);
            SameOutside(s1.(serverWait := s1.serverWait - {blob.hash}), BlobStep(repaired, s, blob, client))
    ensures var r := BlobStep(repaired, s, blob, client); r.arrived == s.arrived && r.received == s.received
  {
    var s1 := Receive(s, blob);
    ReceiveOutside(s, blob);
    ReceiveKeeps(repaired, s, blob);
    WaitersInRange(repaired, s, blob.hash);
    hide Inv, Receive;
    WaitersKeep(repaired, s1.(serverWait := s1.serverWait - {blob.hash}), At(s1.serverWait, blob.hash), client,
      |s.received|);
  }

  lemma {:induction false} BlobLoopOutside(repaired: bool, s: State, blobs: seq<CacheBlob>, client: Client)
    requires Quiet(repaired, s)
    ensures var r := BlobLoop(repaired, s, blobs, client); r.arrived == s.arrived && r.received == s.received
    decreases |blobs|
  {
    if blobs != [] {
      BlobStepOutside(repaired, s, blobs[0], client);
      BlobStepKeeps(repaired, s, blobs[0], client);
      hide BlobStep, Quiet;
      BlobLoopOutside(repaired, BlobStep(repaired, s, blobs[0], client), blobs[1..], client);
    }
  }

  lemma HandleHistory(repaired: bool, s: State, i: Input)
    requires Quiet(repaired, s)
    ensures Grows(s, Handle(repaired, s, i), if i.LevelChunkIn? then {i.lc.pos} else {},
                  match i
                  case LevelChunkIn(lc, _) => [Received(Level(lc), s.arrived)]
                  case SubChunkIn(sc, _) => [Received(Sub(sc), s.arrived)]
                  case _ => [])
  {
    hide Quiet;
    match i
    case LevelChunkIn(lc, client) => LevelChunkHistory(repaired, s, lc, client);
    case SubChunkIn(sc, client) => SubChunkHistory(repaired, s, sc, client);
    case BlobsIn(blobs, client) => BlobLoopOutside(repaired, s, blobs, client);
    case ClientStatusIn(misses) =>
      var s1 := s.(clientWaits := s.clientWaits + [ClientWait(0, [])], toClient := s.toClient + [Missed(misses)]);
      StatusLoopOutside(s1, |s.clientWaits|, misses);
  }

  // The history in the state is the history of the inputs.
  lemma {:induction false} HistoryIsInputs(repaired: bool, db: Db, inputs: seq<Input>)
    ensures var s := Run(repaired, db, inputs); s.arrived == Arrivals(inputs) && s.received == Log(inputs)
    decreases |inputs|
  {
    if inputs != [] {
      var n := |inputs| - 1;
      var before := inputs[..n];
      HistoryIsInputs(repaired, db, before);
      RunKeeps(repaired, db, before);
      HandleHistory(repaired, Run(repaired, db, before), inputs[n]);
      ArrivalsStep(inputs);
      hide Quiet, Handle, Arrivals;
    }
  }
}
