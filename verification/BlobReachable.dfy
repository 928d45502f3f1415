// Every handler keeps the invariant, so it holds in every reachable state.

module BlobReachable {
  import opened RawBytes
  import opened BlobPackets
  import opened Occurrences
  import opened BlobSpec
  import opened BlobInvariant

  // Between handlers nothing is pending, open or half built.
  ghost predicate Quiet(repaired: bool, s: State) {
    Inv(repaired, s, multiset{}, {}, |s.received|)
  }

  // ---- building a wait ----

  // The last wait is being built: it is filed as far as its loop has come.
  ghost predicate Building(repaired: bool, s: State, id: nat) {
    && |s.received| == id + 1 && |s.counts| == id + 1 && |s.fills| == id + 1
    && id !in DoneIds(s.processed) && id !in s.woken
    && Inv(repaired, s, multiset{}, {id}, id)
  }

  lemma FiledIdsBelow(rs: seq<Received>, db: Db, serverWait: Lists<Hash>, subs: Lists<ChunkPos>, waiting: set<ChunkPos>)
    requires FiledHashes(rs, db, serverWait) && FiledColumns(rs, subs, waiting)
    ensures forall h, i :: h in serverWait && 0 <= i < |serverWait[h]| ==> serverWait[h][i] < |rs|
    ensures forall p, i :: p in subs && 0 <= i < |subs[p]| ==> subs[p][i] < |rs|
  {
    forall h, i | h in serverWait && 0 <= i < |serverWait[h]| ensures serverWait[h][i] < |rs| {
      assert NeedsHash(rs, h, serverWait[h][i]);
    }
    forall p, i | p in subs && 0 <= i < |subs[p]| ensures subs[p][i] < |rs| {
      assert TouchesPos(rs, p, subs[p][i]);
    }
  }

  lemma NewWaitCounts(s: State)
    requires Counts(s.counts, s.serverWait, s.subs, multiset{}) && |s.counts| == |s.received|
    requires FiledHashes(s.received, s.db, s.serverWait) && FiledColumns(s.received, s.subs, s.levelChunksWaiting.Keys)
    ensures Counts(s.counts + [0], s.serverWait, s.subs, multiset{})
  {
    FiledIdsBelow(s.received, s.db, s.serverWait, s.subs, s.levelChunksWaiting.Keys);
    OccPositive(s.serverWait, |s.counts|);
    OccPositive(s.subs, |s.counts|);
  }

  lemma NewWaitProgress(repaired: bool, rs: seq<Received>, r: Received, counts: seq<int>, fills: seq<Packet>,
                        done: set<nat>, woken: seq<nat>)
    requires Progress(repaired, rs, counts, done, woken, {}) && Fills(rs, fills, done)
    ensures Progress(repaired, rs + [r], counts + [0], done, woken, {|rs|})
    ensures Fills(rs + [r], fills + [InitialFill(r.pk)], done)
    ensures |rs| !in done && |rs| !in woken
  {
  }

  lemma NewWaitFiles(rs: seq<Received>, r: Received, db: Db, serverWait: Lists<Hash>, subs: Lists<ChunkPos>,
                     waiting: set<ChunkPos>)
    requires FiledHashes(rs, db, serverWait) && FiledColumns(rs, subs, waiting)
    ensures FiledHashes(rs + [r], db, serverWait) && FiledColumns(rs + [r], subs, waiting)
  {
    assert forall h, id :: NeedsHash(rs, h, id) ==> NeedsHash(rs + [r], h, id);
    assert forall p, id :: TouchesPos(rs, p, id) ==> TouchesPos(rs + [r], p, id);
  }

  lemma NewWaitWitness(rs: seq<Received>, r: Received, counts: seq<int>, waiting: set<ChunkPos>, open: set<nat>)
    requires Witnessed(rs, counts, waiting, {})
    ensures Witnessed(rs + [r], counts + [0], waiting, open)
  {
    forall p | p in waiting ensures exists id :: WaitingLevel(rs + [r], counts + [0], open, p, id) {
      var id :| WaitingLevel(rs, counts, {}, p, id);
      assert WaitingLevel(rs + [r], counts + [0], open, p, id);
    }
  }

  lemma NewWaitCover(rs: seq<Received>, r: Received, done: set<nat>, db: Db, serverWait: Lists<Hash>,
                     at: set<ChunkPos>, subs: Lists<ChunkPos>)
    requires Provided(rs, done, db, serverWait, |rs|) && Gated(rs, done, at, subs, |rs|)
    ensures Provided(rs + [r], done, db, serverWait, |rs|) && Gated(rs + [r], done, at, subs, |rs|)
  {
    forall id, h | 0 <= id < |rs| && id !in done && NeedsHash(rs + [r], h, id)
      ensures h in db || Filing(serverWait, h, id)
    {
      assert NeedsHash(rs, h, id);
    }
    forall id, p | 0 <= id < |rs| && id !in done && TouchesPos(rs + [r], p, id) && p in (rs + [r])[id].after
      ensures p in at || Filing(subs, p, id)
    {
      assert TouchesPos(rs, p, id);
    }
  }

  lemma NewWaitKeeps(repaired: bool, s: State, pk: Packet)
    requires Quiet(repaired, s)
    ensures |s.counts| == |s.received| && Building(repaired, NewWait(s, pk), |s.received|)
  {
    var n := |s.received|;
    var r := Received(pk, s.arrived);
    NewWaitCounts(s);
    NewWaitProgress(repaired, s.received, r, s.counts, s.fills, DoneIds(s.processed), s.woken);
    NewWaitFiles(s.received, r, s.db, s.serverWait, s.subs, s.levelChunksWaiting.Keys);
    NewWaitWitness(s.received, r, s.counts, s.levelChunksWaiting.Keys, {n});
    NewWaitCover(s.received, r, DoneIds(s.processed), s.db, s.serverWait, ProcessedAt(s.processed), s.subs);
    hide Counts, FiledHashes, FiledColumns, Fills, Progress, Once, Provided, Gated, Witnessed;
  }

  // ---- registering for a blob ----

  lemma AppendFiles(rs: seq<Received>, db: Db, m: Lists<Hash>, h: Hash, id: nat)
    requires FiledHashes(rs, db, m) && h !in db && NeedsHash(rs, h, id)
    ensures FiledHashes(rs, db, Append(m, h, id))
  {
  }

  lemma AppendFiling<K(!new)>(m: Lists<K>, k: K, id: nat)
    ensures Filing(Append(m, k, id), k, id)
    ensures forall q, x :: Filing(m, q, x) ==> Filing(Append(m, k, id), q, x)
    ensures forall q, x :: Filing(Append(m, k, id), q, x) ==> Filing(m, q, x) || (q == k && x == id)
  {
    var l := At(m, k) + [id];
    assert l[|l| - 1] == id;
    assert forall q, x :: Filing(m, q, x) ==> Filing(Append(m, k, id), q, x);
  }

  lemma AppendCounts(counts: seq<int>, m: Lists<Hash>, subs: Lists<ChunkPos>, h: Hash, id: nat)
    requires id < |counts| && Counts(counts, m, subs, multiset{})
    ensures Counts(counts[id := counts[id] + 1], Append(m, h, id), subs, multiset{})
  {
    forall x | 0 <= x < |counts| ensures Occ(Append(m, h, id), x) == Occ(m, x) + if x == id then 1 else 0 {
      OccAppend(m, h, id, x);
    }
  }

  lemma MoreWitnessed(rs: seq<Received>, counts: seq<int>, waiting: set<ChunkPos>, id: nat, d: int)
    requires id < |counts| && d >= 0 && Witnessed(rs, counts, waiting, {id})
    ensures Witnessed(rs, counts[id := counts[id] + d], waiting, {id})
  {
    var more := counts[id := counts[id] + d];
    forall p | p in waiting ensures exists x :: WaitingLevel(rs, more, {id}, p, x) {
      var x :| WaitingLevel(rs, counts, {id}, p, x);
      assert WaitingLevel(rs, more, {id}, p, x);
    }
  }

  lemma MoreProvided(rs: seq<Received>, done: set<nat>, db: Db, m: Lists<Hash>, m': Lists<Hash>, g: nat)
    requires Provided(rs, done, db, m, g) && forall q, x :: Filing(m, q, x) ==> Filing(m', q, x)
    ensures Provided(rs, done, db, m', g)
  {
  }

  lemma MoreProgress(repaired: bool, rs: seq<Received>, counts: seq<int>, done: set<nat>, woken: seq<nat>, id: nat,
                     d: int)
    requires id < |counts| && counts[id] >= 0 && d >= 0 && id !in done && id !in woken
    requires Progress(repaired, rs, counts, done, woken, {id})
    ensures Progress(repaired, rs, counts[id := counts[id] + d], done, woken, {id})
  {
  }

  // The parts of the invariant, for proofs that look into none of them.
  lemma BuildingParts(repaired: bool, s: State, id: nat)
    requires Building(repaired, s, id)
    ensures id < |s.counts| && s.counts[id] >= 0
    ensures Counts(s.counts, s.serverWait, s.subs, multiset{})
    ensures FiledHashes(s.received, s.db, s.serverWait)
    ensures FiledColumns(s.received, s.subs, s.levelChunksWaiting.Keys)
    ensures Fills(s.received, s.fills, DoneIds(s.processed))
    ensures Progress(repaired, s.received, s.counts, DoneIds(s.processed), s.woken, {id})
    ensures Once(repaired, s.processed, s.woken)
    ensures Witnessed(s.received, s.counts, s.levelChunksWaiting.Keys, {id})
    ensures Provided(s.received, DoneIds(s.processed), s.db, s.serverWait, id)
    ensures Gated(s.received, DoneIds(s.processed), ProcessedAt(s.processed), s.subs, id)
    ensures s.arrived <= ProcessedAt(s.processed) + s.levelChunksWaiting.Keys
    ensures |s.received| == id + 1 && |s.counts| == id + 1 && |s.fills| == id + 1
    ensures id !in DoneIds(s.processed) && id !in s.woken
  {
  }

  lemma BuildingIntro(repaired: bool, s: State, id: nat)
    requires Counts(s.counts, s.serverWait, s.subs, multiset{})
    requires FiledHashes(s.received, s.db, s.serverWait)
    requires FiledColumns(s.received, s.subs, s.levelChunksWaiting.Keys)
    requires Fills(s.received, s.fills, DoneIds(s.processed))
    requires Progress(repaired, s.received, s.counts, DoneIds(s.processed), s.woken, {id})
    requires Once(repaired, s.processed, s.woken)
    requires Witnessed(s.received, s.counts, s.levelChunksWaiting.Keys, {id})
    requires Provided(s.received, DoneIds(s.processed), s.db, s.serverWait, id)
    requires Gated(s.received, DoneIds(s.processed), ProcessedAt(s.processed), s.subs, id)
    requires s.arrived <= ProcessedAt(s.processed) + s.levelChunksWaiting.Keys
    requires |s.received| == id + 1 && |s.counts| == id + 1 && |s.fills| == id + 1
    requires id !in DoneIds(s.processed) && id !in s.woken
    ensures Building(repaired, s, id)
  {
  }

  lemma NeedsIntro(s: State, id: nat, h: Hash)
    requires id < |s.received| && h in Needs(s.received[id].pk)
    ensures NeedsHash(s.received, h, id)
  {
  }

  lemma RegisterParts(repaired: bool, s: State, id: nat, h: Hash)
    requires Building(repaired, s, id) && h !in s.db && h in Needs(s.received[id].pk)
    ensures Counts(s.counts[id := s.counts[id] + 1], Append(s.serverWait, h, id), s.subs, multiset{})
    ensures FiledHashes(s.received, s.db, Append(s.serverWait, h, id))
    ensures Progress(repaired, s.received, s.counts[id := s.counts[id] + 1], DoneIds(s.processed), s.woken, {id})
    ensures Witnessed(s.received, s.counts[id := s.counts[id] + 1], s.levelChunksWaiting.Keys, {id})
    ensures Provided(s.received, DoneIds(s.processed), s.db, Append(s.serverWait, h, id), id)
  {
    hide *;
    BuildingParts(repaired, s, id);
    NeedsIntro(s, id, h);
    AppendFiles(s.received, s.db, s.serverWait, h, id);
    AppendFiling(s.serverWait, h, id);
    AppendCounts(s.counts, s.serverWait, s.subs, h, id);
    MoreWitnessed(s.received, s.counts, s.levelChunksWaiting.Keys, id, 1);
    MoreProvided(s.received, DoneIds(s.processed), s.db, s.serverWait, Append(s.serverWait, h, id), id);
    MoreProgress(repaired, s.received, s.counts, DoneIds(s.processed), s.woken, id, 1);
  }

  lemma RegisterKeeps(repaired: bool, s: State, id: nat, h: Hash)
    requires Building(repaired, s, id) && h !in s.db && h in Needs(s.received[id].pk)
    ensures Building(repaired, AddCount(s, id, 1).(serverWait := Append(s.serverWait, h, id)), id)
  {
    var s1 := AddCount(s, id, 1).(serverWait := Append(s.serverWait, h, id));
    Counted(s, id, 1);
    hide *;
    BuildingParts(repaired, s, id);
    RegisterParts(repaired, s, id, h);
    BuildingIntro(repaired, s1, id);
  }

  lemma ColumnNoted(s: State, p: ChunkPos, h: Hash)
    ensures var r := NoteLevelChunk(s, p, h);
            && r == s.(levelChunksWaiting := r.levelChunksWaiting)
            && r.levelChunksWaiting.Keys == s.levelChunksWaiting.Keys + {p}
  {
  }

  // One more column may wait, if there is a level chunk for it.
  lemma MoreColumns(rs: seq<Received>, counts: seq<int>, subs: Lists<ChunkPos>, waiting: set<ChunkPos>, id: nat)
    requires FiledColumns(rs, subs, waiting) && Witnessed(rs, counts, waiting, {id})
    requires id < |rs| && id < |counts| && rs[id].pk.Level?
    ensures FiledColumns(rs, subs, waiting + {rs[id].pk.lc.pos})
    ensures Witnessed(rs, counts, waiting + {rs[id].pk.lc.pos}, {id})
  {
    assert WaitingLevel(rs, counts, {id}, rs[id].pk.lc.pos, id);
  }

  lemma NoteKeeps(repaired: bool, s: State, id: nat, h: Hash)
    requires Building(repaired, s, id) && s.received[id].pk.Level?
    ensures Building(repaired, NoteLevelChunk(s, s.received[id].pk.lc.pos, h), id)
  {
    hide *;
    BuildingParts(repaired, s, id);
    var p := s.received[id].pk.lc.pos;
    ColumnNoted(s, p, h);
    MoreColumns(s.received, s.counts, s.subs, s.levelChunksWaiting.Keys, id);
    BuildingIntro(repaired, NoteLevelChunk(s, p, h), id);
  }

  // ---- the loops that build a wait ----

  // What building a wait changes and what it does not.
  ghost predicate Built(s: State, r: State) {
    && r.db == s.db && r.received == s.received && r.fills == s.fills && r.processed == s.processed
    && r.woken == s.woken && r.arrived == s.arrived && r.clientWaits == s.clientWaits && r.clientWait == s.clientWait
    && r.toClient == s.toClient && r.wire == s.wire && r.hits == s.hits && |r.counts| == |s.counts|
    && forall h, x :: Filing(s.serverWait, h, x) ==> Filing(r.serverWait, h, x)
  }

  ghost predicate HasOrFiled(s: State, id: nat, h: Hash) {
    h in s.db || Filing(s.serverWait, h, id)
  }

  // A level chunk's column is marked as waiting as soon as the level chunk waits.
  ghost predicate Marked(s: State, id: nat, p: ChunkPos) {
    id < |s.counts| && (s.counts[id] != 0 ==> p in s.levelChunksWaiting)
  }

  lemma LevelStepBuilt(b: Build, id: nat, p: ChunkPos, h: Hash)
    requires h !in b.s.db && id < |b.s.counts|
    ensures var r := LevelStep(b, id, p, h);
            && Built(b.s, r.s) && HasOrFiled(r.s, id, h) && p in r.s.levelChunksWaiting && r.s.subs == b.s.subs
            && |r.s.counts| == |b.s.counts|
  {
    AppendFiling(b.s.serverWait, h, id);
    hide Append, Filing;
  }

  lemma LevelStepKeeps(repaired: bool, b: Build, id: nat, h: Hash)
    requires Building(repaired, b.s, id) && b.s.received[id].pk.Level? && h in b.s.received[id].pk.lc.blobHashes
    requires Marked(b.s, id, b.s.received[id].pk.lc.pos)
    ensures var p := b.s.received[id].pk.lc.pos;
            var r := LevelStep(b, id, p, h);
            && Building(repaired, r.s, id) && Built(b.s, r.s) && HasOrFiled(r.s, id, h) && Marked(r.s, id, p)
            && r.s.subs == b.s.subs
  {
    var p := b.s.received[id].pk.lc.pos;
    if h !in b.s.db {
      var b1 := AddServerWait(b, id, h);
      LevelStepBuilt(b, id, p, h);
      hide Inv, Built, Filing;
      RegisterKeeps(repaired, b.s, id, h);
      Counted(b.s, id, 1);
      NoteKeeps(repaired, b1.s, id, h);
    } else {
      hide Inv;
    }
  }

  lemma BuiltTrans(s: State, t: State, r: State)
    requires Built(s, t) && Built(t, r)
    ensures Built(s, r)
  {
  }

  lemma {:induction false} LevelLoopKeeps(repaired: bool, b: Build, id: nat, hs: seq<Hash>)
    requires Building(repaired, b.s, id) && b.s.received[id].pk.Level?
    requires forall i :: 0 <= i < |hs| ==> hs[i] in b.s.received[id].pk.lc.blobHashes
    requires Marked(b.s, id, b.s.received[id].pk.lc.pos)
    ensures var p := b.s.received[id].pk.lc.pos;
            var r := LevelLoop(b, id, p, hs);
            && Building(repaired, r.s, id) && Built(b.s, r.s) && Marked(r.s, id, p) && r.s.subs == b.s.subs
            && forall i :: 0 <= i < |hs| ==> HasOrFiled(r.s, id, hs[i])
    decreases |hs|
  {
    if hs != [] {
      hide Inv, LevelStep;
      var p := b.s.received[id].pk.lc.pos;
      var b1 := LevelStep(b, id, p, hs[0]);
      LevelStepKeeps(repaired, b, id, hs[0]);
      LevelLoopKeeps(repaired, b1, id, hs[1..]);
      var r := LevelLoop(b1, id, p, hs[1..]);
      BuiltTrans(b.s, b1.s, r.s);
      assert HasOrFiled(r.s, id, hs[0]);
      forall i | 0 <= i < |hs| ensures HasOrFiled(r.s, id, hs[i]) {
        if i > 0 { assert hs[i] == hs[1..][i - 1]; }
      }
    }
  }

  lemma SubStepKeeps(repaired: bool, b: Build, id: nat, e: Entry)
    requires Building(repaired, b.s, id) && b.s.received[id].pk.Sub? && e in b.s.received[id].pk.sc.entries
    ensures var r := SubStep(b, id, e);
            && Building(repaired, r.s, id) && Built(b.s, r.s)
              && (e.result == Success ==> HasOrFiled(r.s, id, e.blobHash))
            && r.s.subs == b.s.subs && r.s.levelChunksWaiting == b.s.levelChunksWaiting
  {
    if e.result == Success && e.blobHash !in b.s.db {
      RegisterKeeps(repaired, b.s, id, e.blobHash);
      AppendFiling(b.s.serverWait, e.blobHash, id);
    }
    hide Inv;
  }

  lemma {:induction false} SubLoopKeeps(repaired: bool, b: Build, id: nat, es: seq<Entry>)
    requires Building(repaired, b.s, id) && b.s.received[id].pk.Sub?
    requires forall i :: 0 <= i < |es| ==> es[i] in b.s.received[id].pk.sc.entries
    ensures var r := SubLoop(b, id, es);
            && Building(repaired, r.s, id) && Built(b.s, r.s)
            && r.s.subs == b.s.subs && r.s.levelChunksWaiting == b.s.levelChunksWaiting
            && forall i :: 0 <= i < |es| && es[i].result == Success ==> HasOrFiled(r.s, id, es[i].blobHash)
    decreases |es|
  {
    if es != [] {
      hide Inv, SubStep;
      var b1 := SubStep(b, id, es[0]);
      SubStepKeeps(repaired, b, id, es[0]);
      SubLoopKeeps(repaired, b1, id, es[1..]);
      var r := SubLoop(b1, id, es[1..]);
      BuiltTrans(b.s, b1.s, r.s);
      forall i | 0 <= i < |es| && es[i].result == Success ensures HasOrFiled(r.s, id, es[i].blobHash) {
        if i > 0 { assert es[i] == es[1..][i - 1]; }
      }
    }
  }

  // ---- waiting for level chunks ----

  lemma AddSubsCounts(s: State, id: nat, ps: set<ChunkPos>)
    requires id < |s.counts| && Counts(s.counts, s.serverWait, s.subs, multiset{})
    ensures Counts(s.counts[id := s.counts[id] + |ps|], s.serverWait, AppendAll(s.subs, ps, id), multiset{})
  {
    forall x | 0 <= x < |s.counts|
      ensures Occ(AppendAll(s.subs, ps, id), x) == Occ(s.subs, x) + if x == id then |ps| else 0
    {
      OccAppendAll(s.subs, ps, id, x);
    }
  }

  lemma AppendAllFiling(m: Lists<ChunkPos>, ps: set<ChunkPos>, id: nat)
    ensures forall p :: p in ps ==> Filing(AppendAll(m, ps, id), p, id)
    ensures forall p, x :: Filing(m, p, x) ==> Filing(AppendAll(m, ps, id), p, x)
  {
    var r := AppendAll(m, ps, id);
    forall p | p in ps ensures Filing(r, p, id) {
      assert r[p][|At(m, p)|] == id;
    }
    forall p, x | Filing(m, p, x) ensures Filing(r, p, x) {
      if p in ps {
        var i :| 0 <= i < |m[p]| && m[p][i] == x;
        assert r[p][i] == x;
      }
    }
  }

  lemma AppendAllTouches(rs: seq<Received>, m: Lists<ChunkPos>, waiting: set<ChunkPos>, ps: set<ChunkPos>, id: nat)
    requires id < |rs| && rs[id].pk.Sub? && ps <= TouchedBy(rs[id].pk) && FiledColumns(rs, m, waiting)
    ensures var r := AppendAll(m, ps, id);
            forall p, i :: p in r && 0 <= i < |r[p]| ==> TouchesPos(rs, p, r[p][i])
  {
    var r := AppendAll(m, ps, id);
    forall p, i | p in r && 0 <= i < |r[p]| ensures TouchesPos(rs, p, r[p][i]) {
      if p in m && i < |m[p]| {
        assert TouchesPos(rs, p, m[p][i]);
      } else {
        assert r[p][i] == id;
      }
    }
  }

  lemma AppendAllAt(m: Lists<ChunkPos>, ps: set<ChunkPos>, id: nat, p: ChunkPos)
    ensures p in AppendAll(m, ps, id) <==> p in m || p in ps
    ensures p in ps ==> AppendAll(m, ps, id)[p] == (if p in m then m[p] else []) + [id]
    ensures p in m && p !in ps ==> AppendAll(m, ps, id)[p] == m[p]
  {
  }

  lemma OneMoreId(l: seq<nat>, id: nat)
    requires id !in l
    ensures NoDuplicates(l) ==> NoDuplicates(l + [id])
    ensures NoDuplicates<nat>([])
  {
  }

  lemma AppendAllFiles(rs: seq<Received>, m: Lists<ChunkPos>, waiting: set<ChunkPos>, ps: set<ChunkPos>, id: nat)
    requires id < |rs| && rs[id].pk.Sub? && ps <= TouchedBy(rs[id].pk) && ps <= waiting
    requires FiledColumns(rs, m, waiting)
    requires forall p :: p in ps ==> !Filing(m, p, id)
    ensures FiledColumns(rs, AppendAll(m, ps, id), waiting)
  {
    var r := AppendAll(m, ps, id);
    AppendAllTouches(rs, m, waiting, ps, id);
    hide TouchesPos, NoDuplicates, AppendAll;
    forall p | p in r ensures p in waiting && r[p] != [] && NoDuplicates(r[p]) {
      AppendAllAt(m, ps, id, p);
      if p in ps {
        assert !Filing(m, p, id);
        OneMoreId(if p in m then m[p] else [], id);
        assert [] + [id] == [id];
      }
    }
  }

  lemma MoreGated(rs: seq<Received>, done: set<nat>, at: set<ChunkPos>, m: Lists<ChunkPos>, m': Lists<ChunkPos>, g: nat)
    requires Gated(rs, done, at, m, g) && forall q, x :: Filing(m, q, x) ==> Filing(m', q, x)
    ensures Gated(rs, done, at, m', g)
  {
  }

  lemma AddSubsParts(repaired: bool, s: State, id: nat, ps: set<ChunkPos>)
    requires Building(repaired, s, id) && s.received[id].pk.Sub?
    requires ps <= TouchedBy(s.received[id].pk) && ps <= s.levelChunksWaiting.Keys
    requires forall p :: p in ps ==> !Filing(s.subs, p, id)
    ensures Counts(s.counts[id := s.counts[id] + |ps|], s.serverWait, AppendAll(s.subs, ps, id), multiset{})
    ensures FiledColumns(s.received, AppendAll(s.subs, ps, id), s.levelChunksWaiting.Keys)
    ensures Progress(repaired, s.received, s.counts[id := s.counts[id] + |ps|], DoneIds(s.processed), s.woken, {id})
    ensures Witnessed(s.received, s.counts[id := s.counts[id] + |ps|], s.levelChunksWaiting.Keys, {id})
    ensures Gated(s.received, DoneIds(s.processed), ProcessedAt(s.processed), AppendAll(s.subs, ps, id), id)
    ensures forall p :: p in ps ==> Filing(AppendAll(s.subs, ps, id), p, id)
  {
    hide *;
    BuildingParts(repaired, s, id);
    AddSubsCounts(s, id, ps);
    AppendAllFiles(s.received, s.subs, s.levelChunksWaiting.Keys, ps, id);
    AppendAllFiling(s.subs, ps, id);
    MoreWitnessed(s.received, s.counts, s.levelChunksWaiting.Keys, id, |ps|);
    MoreGated(s.received, DoneIds(s.processed), ProcessedAt(s.processed), s.subs, AppendAll(s.subs, ps, id), id);
    MoreProgress(repaired, s.received, s.counts, DoneIds(s.processed), s.woken, id, |ps|);
  }

  lemma AddSubsBuilt(s: State, id: nat, ps: set<ChunkPos>)
    requires id < |s.counts|
    ensures var r := AddSubs(s, id, ps);
            r == s.(counts := s.counts[id := s.counts[id] + |ps|], subs := AppendAll(s.subs, ps, id)) && Built(s, r)
  {
    hide AppendAll, Filing;
  }

  lemma AddSubsKeeps(repaired: bool, s: State, id: nat, ps: set<ChunkPos>)
    requires Building(repaired, s, id) && s.received[id].pk.Sub?
    requires ps <= TouchedBy(s.received[id].pk) && ps <= s.levelChunksWaiting.Keys
    requires forall p :: p in ps ==> !Filing(s.subs, p, id)
    ensures var r := AddSubs(s, id, ps);
            && Building(repaired, r, id) && Built(s, r) && r.serverWait == s.serverWait
            && r.levelChunksWaiting == s.levelChunksWaiting
            && (forall p :: p in ps ==> Filing(r.subs, p, id))
  {
    var r := AddSubs(s, id, ps);
    AddSubsBuilt(s, id, ps);
    hide *;
    BuildingParts(repaired, s, id);
    AddSubsParts(repaired, s, id, ps);
    BuildingIntro(repaired, r, id);
  }

  // ---- finishing ----

  // The invariant does not look at the conversation, or at the client's waits.
  lemma InvSame(repaired: bool, s: State, r: State, pend: multiset<nat>, open: set<nat>, g: nat)
    requires Inv(repaired, s, pend, open, g)
    requires r == s.(hits := r.hits, wire := r.wire, clientWaits := r.clientWaits, clientWait := r.clientWait,
                     toClient := r.toClient)
    ensures Inv(repaired, r, pend, open, g)
  {
    hide *;
    InvParts(repaired, s, pend, open, g);
    InvIntro(repaired, r, pend, open, g);
  }

  lemma AnnounceSame(b: Build)
    ensures Announce(b) == b.s.(hits := Announce(b).hits, wire := Announce(b).wire)
  {
  }

  lemma AnnounceKeeps(repaired: bool, b: Build, pend: multiset<nat>, open: set<nat>, g: nat)
    requires Inv(repaired, b.s, pend, open, g)
    ensures Inv(repaired, Announce(b), pend, open, g)
  {
    hide *;
    AnnounceSame(b);
    InvSame(repaired, b.s, Announce(b), pend, open, g);
  }

  lemma ProvidedNext(rs: seq<Received>, done: set<nat>, db: Db, m: Lists<Hash>, id: nat)
    requires id < |rs| && Provided(rs, done, db, m, id)
             && forall h :: h in Needs(rs[id].pk) ==> h in db || Filing(m, h, id)
    ensures Provided(rs, done, db, m, id + 1)
  {
  }

  lemma GatedNext(rs: seq<Received>, done: set<nat>, at: set<ChunkPos>, m: Lists<ChunkPos>, id: nat)
    requires id < |rs| && Gated(rs, done, at, m, id)
    requires forall p :: p in TouchedBy(rs[id].pk) && p in rs[id].after ==> p in at || Filing(m, p, id)
    ensures Gated(rs, done, at, m, id + 1)
  {
  }

  lemma ClosedWait(repaired: bool, rs: seq<Received>, counts: seq<int>, done: set<nat>, woken: seq<nat>,
                   waiting: set<ChunkPos>, id: nat)
    requires id < |counts| && counts[id] > 0
    requires Progress(repaired, rs, counts, done, woken, {id}) && Witnessed(rs, counts, waiting, {id})
    ensures Progress(repaired, rs, counts, done, woken, {}) && Witnessed(rs, counts, waiting, {})
  {
    forall p | p in waiting ensures exists x :: WaitingLevel(rs, counts, {}, p, x) {
      var x :| WaitingLevel(rs, counts, {id}, p, x);
      assert WaitingLevel(rs, counts, {}, p, x);
    }
  }

  // The last wait is complete: all it needs is there or it is filed for it.
  lemma BuildingDone(repaired: bool, s: State, id: nat)
    requires Building(repaired, s, id)
    requires forall h :: h in Needs(s.received[id].pk) ==> HasOrFiled(s, id, h)
    requires forall p :: p in TouchedBy(s.received[id].pk) && p in s.received[id].after
                         ==> p in ProcessedAt(s.processed) || Filing(s.subs, p, id)
    ensures Inv(repaired, s, multiset{}, {id}, id + 1)
    ensures s.counts[id] != 0 ==> Inv(repaired, s, multiset{}, {}, id + 1)
  {
    var done := DoneIds(s.processed);
    InvFacts(repaired, s, multiset{}, {id}, id);
    hide Counts, FiledHashes, FiledColumns, Fills, Progress, Once, Provided, Gated, Witnessed;
    ProvidedNext(s.received, done, s.db, s.serverWait, id);
    GatedNext(s.received, done, ProcessedAt(s.processed), s.subs, id);
    if s.counts[id] != 0 {
      ClosedWait(repaired, s.received, s.counts, done, s.woken, s.levelChunksWaiting.Keys, id);
    }
  }

  lemma QuietIntro(repaired: bool, s: State, r: State)
    requires SameOutside(s, r) && Inv(repaired, r, multiset{}, {}, |s.received|)
    ensures Quiet(repaired, r)
  {
  }

  lemma ProcessedMonotone(ps: seq<Done>, qs: seq<Done>)
    requires ps <= qs
    ensures DoneIds(ps) <= DoneIds(qs) && ProcessedAt(ps) <= ProcessedAt(qs)
  {
    assert forall i :: 0 <= i < |ps| ==> qs[i] == ps[i];
  }

  // Resolving a wait processes it first.
  lemma ProcessesFirst(repaired: bool, s: State, id: nat, client: Client)
    requires id < |s.fills|
    ensures s.processed + [Done(id, FillPacket(s.db, s.fills[id]))] <= Resolve(repaired, s, id, client).processed
  {
    var s1 := Process(s, id, client);
    if HasWaiters(s, id) {
      WakeOutside(repaired, TakeWaiters(s1, id), id, Waiters(s, id), client);
    }
  }

  lemma FirstProcessed(repaired: bool, s: State, id: nat, client: Client, pend: multiset<nat>, open: set<nat>, g: nat)
    requires Resolvable(repaired, s, id, open) && Inv(repaired, s, pend, open, g)
    ensures var r := Resolve(repaired, s, id, client);
            && id in DoneIds(r.processed)
            && (s.received[id].pk.Level? ==> s.received[id].pk.lc.pos in ProcessedAt(r.processed))
  {
    InvFacts(repaired, s, pend, open, g);
    var d := Done(id, FillPacket(s.db, s.fills[id]));
    assert s.fills[id].Level? ==> s.fills[id].lc.pos == s.received[id].pk.lc.pos;
    assert (d.pk.Level? <==> s.received[id].pk.Level?) && (d.pk.Level? ==> d.pk.lc.pos == s.fills[id].lc.pos);
    hide *;
    ProcessesFirst(repaired, s, id, client);
    ProcessedAppend(s.processed, d);
    ProcessedMonotone(s.processed + [d], Resolve(repaired, s, id, client).processed);
  }

  // The last wait is resolved at once if nothing was missing, and left to wait otherwise.
  lemma FinishForm(repaired: bool, b: Build, id: nat, client: Client)
    requires id < |b.s.received| && id < |b.s.counts| && id !in DoneIds(b.s.processed) && id !in b.s.woken
    ensures var s, r := Announce(b), FinishState(repaired, b, id, client);
            if b.s.counts[id] == 0 then r == Resolve(repaired, s, id, client) && Resolvable(repaired, s, id, {id})
            else r == s
  {
    AnnounceSame(b);
    hide Announce, Resolve, DoneIds;
  }

  lemma OutsideItself(s: State)
    ensures SameOutside(s, s)
  {
  }

  lemma FinishKeeps(repaired: bool, b: Build, id: nat, client: Client)
    requires |b.s.received| == id + 1 == |b.s.counts| && id !in DoneIds(b.s.processed) && id !in b.s.woken
    requires Inv(repaired, b.s, multiset{}, {id}, id + 1)
    requires b.s.counts[id] != 0 ==> Inv(repaired, b.s, multiset{}, {}, id + 1)
    ensures var r := FinishState(repaired, b, id, client);
            && Quiet(repaired, r) && SameOutside(Announce(b), r)
            && (b.s.counts[id] != 0 ==> r == Announce(b))
            && (b.s.counts[id] == 0 ==> id in DoneIds(r.processed))
            && (b.s.counts[id] == 0 && b.s.received[id].pk.Level?
              ==> b.s.received[id].pk.lc.pos in ProcessedAt(r.processed))
  {
    hide *;
    var s, r := Announce(b), FinishState(repaired, b, id, client);
    AnnounceSame(b);
    FinishForm(repaired, b, id, client);
    OutsideItself(s);
    if b.s.counts[id] == 0 {
      AnnounceKeeps(repaired, b, multiset{}, {id}, id + 1);
      ResolveKeeps(repaired, s, id, client, multiset{}, {id}, id + 1);
      FirstProcessed(repaired, s, id, client, multiset{}, {id}, id + 1);
      ResolveOutside(repaired, s, id, client);
      QuietIntro(repaired, s, r);
    } else {
      AnnounceKeeps(repaired, b, multiset{}, {}, id + 1);
      QuietIntro(repaired, s, r);
    }
  }

  lemma NewWaitFields(s: State, pk: Packet)
    ensures NewWait(s, pk) == s.(counts := s.counts + [0], fills := s.fills + [InitialFill(pk)],
                                 received := s.received + [Received(pk, s.arrived)])
  {
  }

  // A level chunk, once built, has each blob or waits for it.
  lemma LevelBuilt(repaired: bool, s: State, lc: LevelChunk)
    requires Quiet(repaired, s)
    ensures var id := |s.received|;
            var r := BuildLevel(s, lc).s;
            && Building(repaired, r, id) && r.received == s.received + [Received(Level(lc), s.arrived)]
            && Marked(r, id, lc.pos) && (forall h :: h in Needs(Level(lc)) ==> HasOrFiled(r, id, h))
            && r.processed == s.processed && r.arrived == s.arrived && r.db == s.db
            && r.clientWaits == s.clientWaits && r.clientWait == s.clientWait
            && |s.counts| == id
  {
    var id := |s.received|;
    NewWaitKeeps(repaired, s, Level(lc));
    var b0 := Build(NewWait(s, Level(lc)), Reply([], []), []);
    hide Inv, NewWait, Quiet;
    LevelLoopKeeps(repaired, b0, id, lc.blobHashes) by { NewWaitFields(s, Level(lc)); }
    NewWaitFields(s, Level(lc));
  }

  lemma MarkedFinish(repaired: bool, b: Build, id: nat, p: ChunkPos)
    requires Marked(b.s, id, p) && b.s.counts[id] != 0
    ensures p in Announce(b).levelChunksWaiting
  {
  }

  lemma ArriveKeeps(repaired: bool, s: State, p: ChunkPos)
    requires Quiet(repaired, s) && (p in ProcessedAt(s.processed) || p in s.levelChunksWaiting)
    ensures Quiet(repaired, s.(arrived := s.arrived + {p}))
  {
  }

  lemma HandleLevelChunkKeeps(repaired: bool, s: State, lc: LevelChunk, client: Client)
    requires Quiet(repaired, s)
    ensures Quiet(repaired, HandleLevelChunk(repaired, s, lc, client))
  {
    var id := |s.received|;
    LevelBuilt(repaired, s, lc);
    var b := BuildLevel(s, lc);
    var r := FinishState(repaired, b, id, client);
    assert HandleLevelChunk(repaired, s, lc, client) == r.(arrived := r.arrived + {lc.pos});
    assert TouchedBy(Level(lc)) == {};
    hide *;
    BuildingDone(repaired, b.s, id);
    BuildingParts(repaired, b.s, id);
    FinishKeeps(repaired, b, id, client);
    if b.s.counts[id] != 0 { MarkedFinish(repaired, b, id, lc.pos); }
    ArriveKeeps(repaired, r, lc.pos);
  }

  lemma NotYetFiled(repaired: bool, s: State, id: nat)
    requires Quiet(repaired, s) && id >= |s.received|
    ensures forall p :: !Filing(s.subs, p, id)
    ensures forall p :: p in s.arrived ==> p in ProcessedAt(s.processed) || p in s.levelChunksWaiting
  {
    FiledIdsBelow(s.received, s.db, s.serverWait, s.subs, s.levelChunksWaiting.Keys);
  }

  // A sub chunk, once built, has each blob or waits for it, and waits for the level chunks that are missing.
  lemma NewSub(s: State, sc: SubChunk)
    ensures var r, id := NewWait(s, Sub(sc)), |s.received|;
            && r.received == s.received + [Received(Sub(sc), s.arrived)] && r.fills == s.fills + [InitialFill(Sub(sc))]
            && r.received[id].pk.Sub? && r.received[id].after == s.arrived
            && (forall i :: 0 <= i < |sc.entries| ==> sc.entries[i] in r.received[id].pk.sc.entries)
            && r.processed == s.processed && r.arrived == s.arrived && r.db == s.db && r.woken == s.woken
            && r.clientWaits == s.clientWaits && r.clientWait == s.clientWait
            && r.subs == s.subs && r.levelChunksWaiting == s.levelChunksWaiting
  {
    hide InitialFill;
  }

  lemma BuiltFields(s: State, r: State)
    requires Built(s, r)
    ensures r.db == s.db && r.received == s.received && r.fills == s.fills && r.processed == s.processed
    ensures r.woken == s.woken && r.arrived == s.arrived && r.clientWaits == s.clientWaits
    ensures r.clientWait == s.clientWait && |r.counts| == |s.counts|
  {
    hide Filing;
  }

  lemma SubForm(s: State, sc: SubChunk)
    ensures var b1 := SubLoop(Build(NewWait(s, Sub(sc)), Reply([], []), []), |s.counts|, sc.entries);
            BuildSub(s, sc).s ==
            AddSubs(b1.s, |s.counts|, Touches(sc.position, sc.entries) * b1.s.levelChunksWaiting.Keys)
  {
    hide SubLoop, Touches, NewWait, AddSubs;
  }

  // Once it is built, a sub chunk has each blob or waits for it, and is filed under each of its columns that has a
  // level chunk to wait for.
  lemma SubComplete(s: State, b1: State, r: State, sc: SubChunk, id: nat)
    requires id < |r.received| && r.received[id] == Received(Sub(sc), s.arrived)
    requires Built(b1, r)
    requires forall i :: 0 <= i < |sc.entries| && sc.entries[i].result == Success ==>
               HasOrFiled(b1, id, sc.entries[i].blobHash)
    requires r.serverWait == b1.serverWait && b1.levelChunksWaiting == s.levelChunksWaiting
    requires forall p :: p in Touches(sc.position, sc.entries) * s.levelChunksWaiting.Keys ==> Filing(r.subs, p, id)
    requires forall p :: p in s.arrived ==> p in ProcessedAt(s.processed) || p in s.levelChunksWaiting
    requires r.processed == s.processed
    ensures forall h :: h in Needs(r.received[id].pk) ==> HasOrFiled(r, id, h)
    ensures forall p :: p in TouchedBy(r.received[id].pk) && p in r.received[id].after
                        ==> p in ProcessedAt(r.processed) || Filing(r.subs, p, id)
  {
    hide Touches, ProcessedAt;
    assert r.received[id].pk == Sub(sc);
    forall h | h in Needs(Sub(sc)) ensures HasOrFiled(r, id, h) {
      var i :| 0 <= i < |sc.entries| && sc.entries[i].result == Success && sc.entries[i].blobHash == h;
    }
  }

  lemma BuildingFields(repaired: bool, s: State, id: nat)
    requires Building(repaired, s, id)
    ensures |s.counts| == id + 1 && |s.received| == id + 1 && id !in DoneIds(s.processed) && id !in s.woken
  {
    hide Inv;
  }

  lemma SubTouches(sc: SubChunk)
    ensures TouchedBy(Sub(sc)) == Touches(sc.position, sc.entries)
  {
    hide Touches;
  }

  lemma SubBuilt(repaired: bool, s: State, sc: SubChunk)
    requires Quiet(repaired, s)
    ensures var id := |s.received|;
            var r := BuildSub(s, sc).s;
            && |s.counts| == id && |r.counts| == id + 1 && id !in DoneIds(r.processed) && id !in r.woken
            && Inv(repaired, r, multiset{}, {id}, id + 1)
            && (r.counts[id] != 0 ==> Inv(repaired, r, multiset{}, {}, id + 1))
            && r.received == s.received + [Received(Sub(sc), s.arrived)] && r.fills == s.fills + [InitialFill(Sub(sc))]
            && r.processed == s.processed && r.arrived == s.arrived && r.db == s.db
            && r.clientWaits == s.clientWaits && r.clientWait == s.clientWait
  {
    hide *;
    var id := |s.received|;
    var b0 := Build(NewWait(s, Sub(sc)), Reply([], []), []);
    NewWaitKeeps(repaired, s, Sub(sc));
    NotYetFiled(repaired, s, id);
    NewSub(s, sc);
    SubLoopKeeps(repaired, b0, id, sc.entries);
    var b1 := SubLoop(b0, id, sc.entries).s;
    var ps := Touches(sc.position, sc.entries) * b1.levelChunksWaiting.Keys;
    BuiltFields(b0.s, b1);
    assert b1.received[id] == Received(Sub(sc), s.arrived);
    SubTouches(sc);
    AddSubsKeeps(repaired, b1, id, ps);
    SubForm(s, sc);
    var r := BuildSub(s, sc).s;
    BuiltFields(b1, r);
    BuildingFields(repaired, r, id);
    SubComplete(s, b1, r, sc, id);
    BuildingDone(repaired, r, id);
  }

  lemma HandleSubChunkKeeps(repaired: bool, s: State, sc: SubChunk, client: Client)
    requires Quiet(repaired, s)
    ensures Quiet(repaired, HandleSubChunk(repaired, s, sc, client))
  {
    SubBuilt(repaired, s, sc);
    assert HandleSubChunk(repaired, s, sc, client) == FinishState(repaired, BuildSub(s, sc), |s.received|, client);
    hide *;
    FinishKeeps(repaired, BuildSub(s, sc), |s.received|, client);
  }

  // ---- blobs ----

  lemma ClientStepOutside(s: State, h: Hash)
    ensures var r := ClientStep(s, h);
            && r.db == s.db && r.counts == s.counts && r.fills == s.fills && r.serverWait == s.serverWait
            && r.levelChunksWaiting == s.levelChunksWaiting && r.subs == s.subs && r.received == s.received
            && r.arrived == s.arrived && r.wire == s.wire && r.processed == s.processed && r.woken == s.woken
  {
  }

  lemma ProvidedReceive(rs: seq<Received>, done: set<nat>, db: Db, m: Lists<Hash>, g: nat, h: Hash, payload: Bytes)
    requires Provided(rs, done, db, m, g)
    ensures Provided(rs, done, db[h := payload], m - {h}, g)
  {
    forall id, k | 0 <= id < g && id !in done && NeedsHash(rs, k, id)
      ensures k in db[h := payload] || Filing(m - {h}, k, id) {
      assert k in db || Filing(m, k, id);
    }
  }

  lemma ReceiveOutside(s: State, blob: CacheBlob)
    ensures var r := Receive(s, blob);
            && r.db == s.db[blob.hash := blob.payload] && r.counts == s.counts && r.fills == s.fills
            && r.serverWait == s.serverWait && r.levelChunksWaiting == s.levelChunksWaiting && r.subs == s.subs
            && r.received == s.received && r.arrived == s.arrived && r.wire == s.wire + [Answer(blob)]
            && r.processed == s.processed && r.woken == s.woken
  {
    ClientStepOutside(s.(db := s.db[blob.hash := blob.payload], wire := s.wire + [Answer(blob)]), blob.hash);
  }

  lemma CountsReceive(counts: seq<int>, m: Lists<Hash>, subs: Lists<ChunkPos>, h: Hash)
    requires Counts(counts, m, subs, multiset{})
    ensures Counts(counts, m - {h}, subs, multiset(At(m, h)))
  {
    forall id | 0 <= id < |counts| ensures Occ(m, id) == Occ(m - {h}, id) + multiset(At(m, h))[id] {
      if h in m { OccRemove(m, h, id); } else { assert m - {h} == m; }
    }
  }

  lemma FiledReceive(rs: seq<Received>, db: Db, m: Lists<Hash>, h: Hash, payload: Bytes)
    requires FiledHashes(rs, db, m)
    ensures FiledHashes(rs, db[h := payload], m - {h})
  {
  }

  // Storing a blob and taking out its waiters, which are then to be counted down.
  lemma ReceiveKeeps(repaired: bool, s: State, blob: CacheBlob)
    requires Quiet(repaired, s)
    ensures var s1 := Receive(s, blob);
            Inv(repaired, s1.(serverWait := s1.serverWait - {blob.hash}), multiset(At(s.serverWait, blob.hash)), {},
              |s.received|)
  {
    var h := blob.hash;
    ReceiveOutside(s, blob);
    hide Receive, Counts, FiledHashes, FiledColumns, Provided, Gated, Witnessed, Once, Progress, Fills;
    ProvidedReceive(s.received, DoneIds(s.processed), s.db, s.serverWait, |s.received|, h, blob.payload);
    CountsReceive(s.counts, s.serverWait, s.subs, h);
    FiledReceive(s.received, s.db, s.serverWait, h, blob.payload);
  }

  lemma FirstOff(l: seq<nat>)
    requires l != []
    ensures multiset(l) == multiset(l[1..]) + multiset{l[0]}
  {
    assert l == [l[0]] + l[1..];
  }

  // A wait whose last reference is taken may be resolved.
  lemma DownResolvable(repaired: bool, s: State, x: nat)
    requires x < |s.counts| && x < |s.received| && x !in DoneIds(s.processed) && x !in s.woken
    ensures var s1 := AddCount(s, x, -1);
            && (Complete(s1, x) <==> s.counts[x] == 1)
            && (Complete(s1, x) ==> Resolvable(repaired, s1, x, {x}))
            && s1.received == s.received
  {
  }

  lemma OutsideReceived(s: State, r: State)
    requires SameOutside(s, r)
    ensures r.received == s.received && r.serverWait == s.serverWait
  {
  }

  // One turn of the loop over waiters.
  function Turn(repaired: bool, s: State, x: nat, client: Client): State {
    var s1 := AddCount(s, x, -1);
    if Complete(s1, x) then Resolve(repaired, s1, x, client) else s1
  }

  lemma TurnForm(repaired: bool, s: State, x: nat, client: Client)
    ensures var s1 := AddCount(s, x, -1);
            Turn(repaired, s, x, client) == if Complete(s1, x) then Resolve(repaired, s1, x, client) else s1
  {
    hide AddCount, Complete, Resolve;
  }

  lemma LoopTurn(repaired: bool, s: State, l: seq<nat>, client: Client)
    ensures WaiterLoop(repaired, s, l, client) ==
            if l == [] then s else WaiterLoop(repaired, Turn(repaired, s, l[0], client), l[1..], client)
  {
    hide AddCount, Complete, Resolve;
  }

  lemma TurnKeeps(repaired: bool, s: State, l: seq<nat>, client: Client, g: nat)
    requires l != [] && l[0] < |s.received| && Inv(repaired, s, multiset(l), {}, g)
    ensures var r := Turn(repaired, s, l[0], client);
            && Inv(repaired, r, multiset(l[1..]), {}, g) && SameOutside(s, r)
            && r.received == s.received && r.serverWait == s.serverWait
  {
    hide *;
    var x, rest := l[0], multiset(l[1..]);
    FirstOff(l);
    InvFacts(repaired, s, multiset(l), {}, g);
    CountDown(repaired, s, x, rest, g);
    CountOutside(s, x, []);
    DownResolvable(repaired, s, x);
    TurnForm(repaired, s, x, client);
    var s1 := AddCount(s, x, -1);
    if Complete(s1, x) {
      ResolveKeeps(repaired, s1, x, client, rest, {x}, g);
      ResolveOutside(repaired, s1, x, client);
      SameOutsideTrans(s, s1, Resolve(repaired, s1, x, client));
    }
    OutsideReceived(s, Turn(repaired, s, x, client));
  }

  lemma {:induction false} WaitersKeep(repaired: bool, s: State, l: seq<nat>, client: Client, g: nat)
    requires forall i :: 0 <= i < |l| ==> l[i] < |s.received|
    requires Inv(repaired, s, multiset(l), {}, g)
    ensures Inv(repaired, WaiterLoop(repaired, s, l, client), multiset{}, {}, g)
    ensures SameOutside(s, WaiterLoop(repaired, s, l, client))
    decreases |l|
  {
    hide *;
    LoopTurn(repaired, s, l, client);
    if l == [] {
      OutsideItself(s);
      assert multiset(l) == multiset{};
    } else {
      var r := Turn(repaired, s, l[0], client);
      TurnKeeps(repaired, s, l, client, g);
      WaitersKeep(repaired, r, l[1..], client, g);
      SameOutsideTrans(s, r, WaiterLoop(repaired, r, l[1..], client));
    }
  }

  lemma WaitersInRange(repaired: bool, s: State, h: Hash)
    requires Quiet(repaired, s)
    ensures forall i :: 0 <= i < |At(s.serverWait, h)| ==> At(s.serverWait, h)[i] < |s.received|
  {
    forall i | 0 <= i < |At(s.serverWait, h)| ensures At(s.serverWait, h)[i] < |s.received| {
      assert NeedsHash(s.received, h, s.serverWait[h][i]);
    }
  }

  lemma BlobStepKeeps(repaired: bool, s: State, blob: CacheBlob, client: Client)
    requires Quiet(repaired, s)
    ensures Quiet(repaired, BlobStep(repaired, s, blob, client))
  {
    var s1 := Receive(s, blob);
    ReceiveKeeps(repaired, s, blob);
    WaitersInRange(repaired, s, blob.hash);
    ReceiveOutside(s, blob);
    hide Inv, Receive;
    WaitersKeep(repaired, s1.(serverWait := s1.serverWait - {blob.hash}), At(s1.serverWait, blob.hash), client,
      |s.received|);
  }

  lemma {:induction false} BlobLoopKeeps(repaired: bool, s: State, blobs: seq<CacheBlob>, client: Client)
    requires Quiet(repaired, s)
    ensures Quiet(repaired, BlobLoop(repaired, s, blobs, client))
    decreases |blobs|
  {
    if blobs != [] {
      hide Quiet, BlobStep;
      BlobStepKeeps(repaired, s, blobs[0], client);
      BlobLoopKeeps(repaired, BlobStep(repaired, s, blobs[0], client), blobs[1..], client);
    }
  }

  lemma {:induction false} StatusLoopOutside(s: State, c: nat, hs: seq<Hash>)
    ensures var r := StatusLoop(s, c, hs);
            r == s.(clientWaits := r.clientWaits, clientWait := r.clientWait) && |r.clientWaits| == |s.clientWaits|
    decreases |hs|
  {
    if hs != [] { StatusLoopOutside(StatusStep(s, c, hs[0]), c, hs[1..]); }
  }

  lemma QuietForm(repaired: bool, s: State)
    ensures Quiet(repaired, s) <==> Inv(repaired, s, multiset{}, {}, |s.received|)
  {
    hide Inv;
  }

  lemma StatusOutside(s: State, misses: seq<Hash>)
    ensures var r := ClientStatus(s, misses);
            r == s.(clientWaits := r.clientWaits, clientWait := r.clientWait, toClient := r.toClient)
  {
    var s1 := s.(clientWaits := s.clientWaits + [ClientWait(0, [])], toClient := s.toClient + [Missed(misses)]);
    StatusLoopOutside(s1, |s.clientWaits|, misses);
    hide StatusLoop, ClientPayloads;
  }

  lemma ClientStatusKeeps(repaired: bool, s: State, misses: seq<Hash>)
    requires Quiet(repaired, s)
    ensures Quiet(repaired, ClientStatus(s, misses))
  {
    hide *;
    var r := ClientStatus(s, misses);
    StatusOutside(s, misses);
    QuietForm(repaired, s);
    QuietForm(repaired, r);
    InvSame(repaired, s, r, multiset{}, {}, |s.received|);
  }

  lemma HandleKeeps(repaired: bool, s: State, i: Input)
    requires Quiet(repaired, s)
    ensures Quiet(repaired, Handle(repaired, s, i))
  {
    hide Quiet;
    match i
    case LevelChunkIn(lc, client) => HandleLevelChunkKeeps(repaired, s, lc, client);
    case SubChunkIn(sc, client) => HandleSubChunkKeeps(repaired, s, sc, client);
    case BlobsIn(blobs, client) => BlobLoopKeeps(repaired, s, blobs, client);
    case ClientStatusIn(misses) => ClientStatusKeeps(repaired, s, misses);
  }

  // The invariant holds in every reachable state, of the code as written and as meant.
  lemma {:induction false} RunKeeps(repaired: bool, db: Db, inputs: seq<Input>)
    ensures Quiet(repaired, Run(repaired, db, inputs))
    decreases |inputs|
  {
    if inputs != [] {
      var before := inputs[..|inputs| - 1];
      RunKeeps(repaired, db, before);
      HandleKeeps(repaired, Run(repaired, db, before), inputs[|inputs| - 1]);
    }
  }
}
