// The store is one simple map of chunks, with one queue in order of arrival; and what is saved at the end.

module WorldStoreTheorems {
  import opened Common
  import opened WorldStore

  // ---- the simple store ----

  datatype Simple<T> = Simple(chunks: map<Pos, Chunk<T>>, queue: seq<Update>)

  // One update after the other, to the chunks that are there.
  function ApplyQueue<T>(lib: Library<T>, chunks: map<Pos, Chunk<T>>, queue: seq<Update>): map<Pos, Chunk<T>> {
    if queue == [] then chunks else
      var u := queue[0];
      var p := ChunkOf(u.pos);
      ApplyQueue(lib, if p in chunks then chunks[p := SetOne(lib, chunks[p], u)] else chunks, queue[1..])
  }

  // Without a write-back cache a load changes nothing, and a tick does no more than apply the queue.
  function DoSimple<T>(lib: Library<T>, s: Simple<T>, op: Op<T>): Simple<T> {
    match op
    case StoreOp(pos, ch) => s.(chunks := s.chunks[pos := ch])
    case LoadOp(pos) => s
    case QueueOp(u) => s.(queue := s.queue + [u])
    case NbtOp(bp, nbt, merge) =>
      var p := ChunkOf(bp);
      if p !in s.chunks then s else
        var entities := s.chunks[p].blockEntities;
        var entry := EntryAt(entities, bp);
        if merge && entry.NilMap? then s else
          var now := if merge then Fields(entry.fields + FieldsOf(nbt)) else nbt;
          s.(chunks := s.chunks[p := s.chunks[p].(blockEntities := entities[bp := now])])
    case TickOp => Simple(ApplyQueue(lib, s.chunks, s.queue), [])
  }

  function RunSimple<T>(lib: Library<T>, ops: seq<Op<T>>): Simple<T> {
    if ops == [] then Simple(map[], []) else DoSimple(lib, RunSimple(lib, ops[..|ops| - 1]), ops[|ops| - 1])
  }

  // The updates for one chunk, in order of arrival.
  function For(queue: seq<Update>, p: Pos): seq<Update> {
    if queue == [] then [] else
      var last := queue[|queue| - 1];
      For(queue[..|queue| - 1], p) + if ChunkOf(last.pos) == p then [last] else []
  }

  ghost predicate Grouped(updates: map<Pos, seq<Update>>, queue: seq<Update>) {
    forall p :: Queued(updates, p) == For(queue, p)
  }

  ghost predicate Same<T>(w: Store<T>, s: Simple<T>) {
    View(w) == s.chunks && Grouped(w.updates, s.queue)
  }

  // ---- chunk by chunk is the same as in order of arrival ----

  lemma {:induction false} ForFirst(queue: seq<Update>, p: Pos)
    requires queue != []
    ensures For(queue, p) == (if ChunkOf(queue[0].pos) == p then [queue[0]] else []) + For(queue[1..], p)
  {
    if |queue| > 1 {
      var most := queue[..|queue| - 1];
      ForFirst(most, p);
      assert most[1..] == queue[1..][..|queue| - 2];
    } else {
      assert queue[1..] == [] && queue[..0] == [];
    }
  }

  lemma SetAllFirst<T>(lib: Library<T>, ch: Chunk<T>, u: Update, rest: seq<Update>)
    ensures SetAll(lib, ch, [u] + rest) == SetAll(lib, SetOne(lib, ch, u), rest)
  {
    assert ([u] + rest)[1..] == rest;
  }

  lemma {:induction false} QueueByChunk<T>(lib: Library<T>, chunks: map<Pos, Chunk<T>>, queue: seq<Update>)
    ensures ApplyQueue(lib, chunks, queue).Keys == chunks.Keys
    ensures forall p :: p in chunks ==> ApplyQueue(lib, chunks, queue)[p] == SetAll(lib, chunks[p], For(queue, p))
  {
    if queue == [] {
    } else {
      hide For;
      var u := queue[0];
      var q := ChunkOf(u.pos);
      var next := if q in chunks then chunks[q := SetOne(lib, chunks[q], u)] else chunks;
      QueueByChunk(lib, next, queue[1..]);
      forall p | p in chunks ensures ApplyQueue(lib, chunks, queue)[p] == SetAll(lib, chunks[p], For(queue, p)) {
        ForFirst(queue, p);
        SetAllFirst(lib, chunks[p], u, For(queue[1..], p));
        assert [] + For(queue[1..], p) == For(queue[1..], p);
      }
    }
  }

  lemma SetNone<T>(lib: Library<T>, ch: Chunk<T>)
    ensures SetAll(lib, ch, []) == ch
  {
  }

  lemma AppliedAt<T>(lib: Library<T>, w: Store<T>, p: Pos)
    ensures var r := View(ApplyBlockUpdates(lib, w));
            && (p in r <==> p in View(w))
            && (p in View(w) ==> r[p] == SetAll(lib, View(w)[p], Queued(w.updates, p)))
  {
    if p in View(w) { SetNone(lib, View(w)[p]); }
    hide SetAll;
  }

  lemma AppliedView<T>(lib: Library<T>, w: Store<T>)
    ensures var r := View(ApplyBlockUpdates(lib, w));
            && r.Keys == View(w).Keys
            && forall p :: p in View(w) ==> r[p] == SetAll(lib, View(w)[p], Queued(w.updates, p))
  {
    hide *;
    var r := View(ApplyBlockUpdates(lib, w));
    forall p ensures p in r <==> p in View(w) { AppliedAt(lib, w, p); }
    forall p | p in View(w) ensures r[p] == SetAll(lib, View(w)[p], Queued(w.updates, p)) { AppliedAt(lib, w, p); }
  }

  // Flushing the queue chunk by chunk leaves the blocks that the whole queue in order of arrival leaves.
  lemma UpdatesByChunk<T>(lib: Library<T>, w: Store<T>, queue: seq<Update>)
    requires Grouped(w.updates, queue)
    ensures View(ApplyBlockUpdates(lib, w)) == ApplyQueue(lib, View(w), queue)
  {
    var r, s := View(ApplyBlockUpdates(lib, w)), ApplyQueue(lib, View(w), queue);
    QueueByChunk(lib, View(w), queue);
    AppliedView(lib, w);
    hide View, ApplyBlockUpdates, ApplyQueue, For, SetAll;
    forall p | p in View(w) ensures r[p] == s[p] {
      assert Queued(w.updates, p) == For(queue, p);
    }
  }

  // ---- where a chunk is makes no difference ----

  lemma LoadKeepsView<T>(w: Store<T>, pos: Pos)
    ensures var (ch, w1) := LoadChunk(w, pos);
            && View(w1) == View(w) && w1.updates == w.updates && w1.provider == w.provider && w1.stored == w.stored
            && ch == (if pos in View(w) then Some(View(w)[pos]) else None)
            && w1.mem == if ch.Some? then w.mem[pos := ch.value] else w.mem
  {
  }

  lemma FlushKeepsView<T>(lib: Library<T>, w: Store<T>)
    ensures View(Flush(lib, w)) == View(w)
  {
    var r := View(Flush(lib, w));
    assert r.Keys == View(w).Keys;
  }

  // The provider has the chunk as it is in memory.
  ghost predicate OnProviderAsIs<T>(w: Store<T>, p: Pos) {
    p in w.mem && p in OnProvider(w) && OnProvider(w)[p] == w.mem[p]
  }

  // Before the flush: it keeps what the store holds if and only if StoreColumn fails for no chunk that is not on the
  // provider already as it is in memory.
  lemma FailingFlushLosesIff<T>(lib: Library<T>, w: Store<T>, fails: set<Pos>)
    ensures View(FlushFailing(lib, w, fails)) == View(w) <==>
            forall p :: p in fails && p in w.mem && !lib.empty(w.mem[p].terrain) ==> OnProviderAsIs(w, p)
  {
    var r := FlushFailing(lib, w, fails);
    var full := FullOnes(lib, w.mem);
    if forall p :: p in fails && p in w.mem && !lib.empty(w.mem[p].terrain) ==> OnProviderAsIs(w, p) {
      assert View(r).Keys == View(w).Keys;
    } else {
      var p :| p in fails && p in w.mem && !lib.empty(w.mem[p].terrain) && !OnProviderAsIs(w, p);
      assert p in View(w) && View(w)[p] == w.mem[p];
      assert p in View(r) ==> View(r)[p] == OnProvider(w)[p];
    }
  }

  lemma FlushThatNeverFails<T>(lib: Library<T>, w: Store<T>)
    ensures FlushFailing(lib, w, {}) == Flush(lib, w)
  {
    assert FullOnes(lib, w.mem) - {} == FullOnes(lib, w.mem);
  }

  lemma StoreSetsView<T>(lib: Library<T>, w: Store<T>, pos: Pos, ch: Chunk<T>)
    ensures View(StoreChunk(lib, w, pos, ch)) == View(w)[pos := ch] && StoreChunk(lib, w, pos, ch).updates == w.updates
  {
  }

  lemma QueueIsSimple<T>(w: Store<T>, queue: seq<Update>, u: Update)
    requires Grouped(w.updates, queue)
    ensures View(QueueBlockUpdate(w, u)) == View(w) && Grouped(QueueBlockUpdate(w, u).updates, queue + [u])
  {
    var longer := queue + [u];
    assert longer[..|longer| - 1] == queue;
    assert OnProvider(QueueBlockUpdate(w, u)) == OnProvider(w);
  }

  lemma TickIsSimple<T>(lib: Library<T>, w: Store<T>, queue: seq<Update>)
    requires Grouped(w.updates, queue)
    ensures View(Tick(lib, w)) == ApplyQueue(lib, View(w), queue) && Grouped(Tick(lib, w).updates, [])
  {
    UpdatesByChunk(lib, w, queue);
    FlushKeepsView(lib, ApplyBlockUpdates(lib, w));
    hide View, ApplyQueue;
  }

  lemma NbtIsSimple<T>(lib: Library<T>, w: Store<T>, s: Simple<T>, bp: BlockPos, nbt: Nbt, merge: bool)
    requires Same(w, s)
    ensures Same(SetBlockNbt(lib, w, bp, nbt, merge).1, DoSimple(lib, s, NbtOp(bp, nbt, merge)))
  {
    var p := ChunkOf(bp);
    var (ch, w1) := LoadChunk(w, p);
    LoadKeepsView(w, p);
    if ch.Some? {
      StoreSetsView(lib, w1, p, SetBlockNbt(lib, w, bp, nbt, merge).1.mem[p]);
      assert View(w)[p := ch.value] == View(w);
    }
    hide View;
  }

  lemma DoIsSimple<T>(lib: Library<T>, w: Store<T>, s: Simple<T>, op: Op<T>)
    requires Same(w, s)
    ensures Same(Do(lib, w, op), DoSimple(lib, s, op))
  {
    hide View, StoreChunk, LoadChunk, SetBlockNbt, ApplyQueue, For, Flush, ApplyBlockUpdates;
    match op
    case StoreOp(pos, ch) => StoreSetsView(lib, w, pos, ch);
    case LoadOp(pos) => LoadKeepsView(w, pos);
    case QueueOp(u) => QueueIsSimple(w, s.queue, u);
    case NbtOp(bp, nbt, merge) => NbtIsSimple(lib, w, s, bp, nbt, merge);
    case TickOp => TickIsSimple(lib, w, s.queue);
  }

  // Whatever is stored, loaded, queued, merged and flushed, in any order: memory and provider together are the simple
  // store.
  lemma {:induction false} EveryRunIsSimple<T>(lib: Library<T>, ops: seq<Op<T>>)
    ensures Same(Run(lib, ops), RunSimple(lib, ops))
  {
    if ops != [] {
      var before := ops[..|ops| - 1];
      EveryRunIsSimple(lib, before);
      hide Same, Do, DoSimple;
      DoIsSimple(lib, Run(lib, before), RunSimple(lib, before), ops[|ops| - 1]);
    }
  }

  // Setting a block entity panics exactly when it merges something into an entry that is not there, or is a nil map.
  lemma NbtPanicsIff<T>(lib: Library<T>, w: Store<T>, bp: BlockPos, nbt: Nbt, merge: bool)
    ensures SetBlockNbt(lib, w, bp, nbt, merge).0 == Panic <==>
            && ChunkOf(bp) in View(w) && merge && nbt.Fields? && nbt.fields != map[]
            && (bp !in View(w)[ChunkOf(bp)].blockEntities || View(w)[ChunkOf(bp)].blockEntities[bp] == NilMap)
  {
    LoadKeepsView(w, ChunkOf(bp));
  }

  lemma RunForm<T>(lib: Library<T>, ops: seq<Op<T>>)
    requires ops != []
    ensures Run(lib, ops) == Do(lib, Run(lib, ops[..|ops| - 1]), ops[|ops| - 1])
    ensures Run(lib, []) == New<T>()
  {
    hide Do;
  }

  // A chunk without block entities is stored: merging the first one panics. So does merging into an entry that was set
  // to a nil map, although it is there.
  lemma MergePanics<T>(lib: Library<T>, bp: BlockPos, terrain: T)
    ensures var a, b := StoreOp(ChunkOf(bp), Chunk(terrain, map[])), NbtOp(bp, NilMap, false);
            var nbt := Fields(map["id" := "Chest"]);
            var w1, w2 := Run(lib, [a]), Run(lib, [a, b]);
            && SetBlockNbt(lib, w1, bp, nbt, true).0 == Panic
            && ChunkOf(bp) in View(w2) && bp in View(w2)[ChunkOf(bp)].blockEntities
            && SetBlockNbt(lib, w2, bp, nbt, true).0 == Panic
  {
    var p := ChunkOf(bp);
    var a: Op<T>, b: Op<T> := StoreOp(p, Chunk(terrain, map[])), NbtOp(bp, NilMap, false);
    assert [a, b][..1] == [a] && [a][..0] == [];
    RunForm(lib, [a]);
    RunForm(lib, [a, b]);
    hide Run;
    var w1 := Run(lib, [a]);
    assert p in w1.mem && w1.mem[p] == Chunk(terrain, map[]);
    var w2 := Run(lib, [a, b]);
    assert w2.mem[p] == Chunk(terrain, map[bp := NilMap]);
    assert "id" in map["id" := "Chest"];
  }

  // ---- blocks ----

  function BlockAt<T>(lib: Library<T>, chunks: map<Pos, Chunk<T>>, bp: BlockPos, layer: nat): Option<nat> {
    if ChunkOf(bp) in chunks then Some(lib.block(chunks[ChunkOf(bp)].terrain, CellOf(bp, layer))) else None
  }

  // Heights are cut off to int16: the update reaches the block if it names it or one that is a multiple of 65536 above
  // or below it.
  predicate Reaches(u: Update, bp: BlockPos, layer: nat) {
    u.pos.x == bp.x && u.pos.z == bp.z && (u.pos.y - bp.y) % 0x1_0000 == 0 && u.layer == layer
  }

  // What the last update that reaches a block says.
  function LastUpdate(queue: seq<Update>, bp: BlockPos, layer: nat): Option<nat> {
    if queue == [] then None else
      var last := queue[|queue| - 1];
      if Reaches(last, bp, layer) then Some(last.rid) else LastUpdate(queue[..|queue| - 1], bp, layer)
  }

  predicate InHeight(bp: BlockPos) {
    -0x8000 <= bp.y < 0x8000
  }

  // Of the blocks whose height is an int16, an update reaches the one it names and no other.
  lemma ReachesOne(u: Update, bp: BlockPos, layer: nat)
    requires InHeight(bp) && InHeight(u.pos)
    ensures Reaches(u, bp, layer) <==> u.pos == bp && u.layer == layer
  {
  }

  lemma OneBlock(u: Update, bp: BlockPos, layer: nat)
    ensures ChunkOf(bp) == ChunkOf(u.pos) && CellOf(bp, layer) == CellOf(u.pos, u.layer) <==> Reaches(u, bp, layer)
  {
    BlockIsRecovered(bp, layer);
    BlockIsRecovered(u.pos, u.layer);
  }

  lemma {:induction false} QueueLast<T>(lib: Library<T>, chunks: map<Pos, Chunk<T>>, queue: seq<Update>)
    requires queue != []
    ensures var u, r := queue[|queue| - 1], ApplyQueue(lib, chunks, queue[..|queue| - 1]);
            var p := ChunkOf(u.pos);
            ApplyQueue(lib, chunks, queue) == if p in r then r[p := SetOne(lib, r[p], u)] else r
  {
    if |queue| == 1 {
      assert queue[..0] == [] && queue[1..] == [];
    } else {
      var u := queue[0];
      var p := ChunkOf(u.pos);
      QueueLast(lib, if p in chunks then chunks[p := SetOne(lib, chunks[p], u)] else chunks, queue[1..]);
      assert queue[1..][..|queue| - 2] == queue[..|queue| - 1][1..];
    }
  }

  lemma LastForm(queue: seq<Update>, bp: BlockPos, layer: nat)
    requires queue != []
    ensures var u := queue[|queue| - 1];
            LastUpdate(queue, bp, layer) ==
            if Reaches(u, bp, layer) then Some(u.rid) else LastUpdate(queue[..|queue| - 1], bp, layer)
  {
    hide Reaches;
  }

  // After the queue is applied every block of a chunk that is there is what the last update that reaches it says, and
  // unchanged when there is none: for negative coordinates too.
  lemma {:induction false} LastUpdateWins<T(!new)>(
      lib: Library<T>, chunks: map<Pos, Chunk<T>>, queue: seq<Update>, bp: BlockPos, layer: nat)
    requires Lawful(lib)
    ensures BlockAt(lib, ApplyQueue(lib, chunks, queue), bp, layer) ==
            if ChunkOf(bp) !in chunks then None
            else if LastUpdate(queue, bp, layer).Some? then LastUpdate(queue, bp, layer)
            else BlockAt(lib, chunks, bp, layer)
  {
    if queue != [] {
      var before, u := queue[..|queue| - 1], queue[|queue| - 1];
      LastUpdateWins(lib, chunks, before, bp, layer);
      QueueLast(lib, chunks, queue);
      QueueByChunk(lib, chunks, before);
      OneBlock(u, bp, layer);
      hide ApplyQueue, For, ChunkOf, CellOf, LastUpdate, Reaches;
      LastForm(queue, bp, layer);
    }
  }

  lemma {:induction false} SetKeepsEntities<T>(lib: Library<T>, ch: Chunk<T>, us: seq<Update>)
    ensures SetAll(lib, ch, us).blockEntities == ch.blockEntities
    decreases |us|
  {
    if us != [] { SetKeepsEntities(lib, SetOne(lib, ch, us[0]), us[1..]); }
  }

  // Block updates leave the block entities alone.
  lemma UpdatesKeepEntities<T>(lib: Library<T>, chunks: map<Pos, Chunk<T>>, queue: seq<Update>, p: Pos)
    requires p in chunks
    ensures p in ApplyQueue(lib, chunks, queue)
            && ApplyQueue(lib, chunks, queue)[p].blockEntities == chunks[p].blockEntities
  {
    QueueByChunk(lib, chunks, queue);
    hide ApplyQueue, For;
    SetKeepsEntities(lib, chunks[p], For(queue, p));
  }

  // ---- block entities ----

  // What is read of an entry, whether it is there, a nil map or neither.
  function FieldAt(entities: map<BlockPos, Nbt>, bp: BlockPos, k: string): Option<string> {
    if bp in entities && entities[bp].Fields? && k in entities[bp].fields then Some(entities[bp].fields[k]) else None
  }

  // One entry is set, or merged into.
  ghost predicate SetsEntry(was: map<BlockPos, Nbt>, now: map<BlockPos, Nbt>, bp: BlockPos, nbt: Nbt, merge: bool) {
    if merge then
      || ((nbt == NilMap || nbt == Fields(map[])) && now == was)
      || (bp in was && was[bp].Fields? && now == was[bp := Fields(was[bp].fields + FieldsOf(nbt))])
    else now == was[bp := nbt]
  }

  lemma NbtWrites<T>(lib: Library<T>, w: Store<T>, bp: BlockPos, nbt: Nbt, merge: bool)
    requires SetBlockNbt(lib, w, bp, nbt, merge).0 == Done && ChunkOf(bp) in View(w)
    ensures var p, w1 := ChunkOf(bp), SetBlockNbt(lib, w, bp, nbt, merge).1;
            && p in w1.mem && View(w1) == View(w)[p := w1.mem[p]] && w1.mem[p].terrain == View(w)[p].terrain
            && SetsEntry(View(w)[p].blockEntities, w1.mem[p].blockEntities, bp, nbt, merge)
  {
    var p := ChunkOf(bp);
    var (ch, w1) := LoadChunk(w, p);
    LoadKeepsView(w, p);
    StoreSetsView(lib, w1, p, SetBlockNbt(lib, w, bp, nbt, merge).1.mem[p]);
    hide View, LoadChunk;
  }

  lemma EntryMerged(was: map<BlockPos, Nbt>, now: map<BlockPos, Nbt>, bp: BlockPos, nbt: Nbt, merge: bool)
    requires SetsEntry(was, now, bp, nbt, merge)
    ensures forall b :: b != bp ==> (b in now <==> b in was) && (b in now ==> now[b] == was[b])
    ensures !merge ==> bp in now && now[bp] == nbt
    ensures merge ==>
              forall k :: FieldAt(now, bp, k) ==
                          if nbt.Fields? && k in nbt.fields then Some(nbt.fields[k]) else FieldAt(was, bp, k)
  {
  }

  // Unless it panics, setting a block entity in a chunk that is there replaces the entry, or merges field by field, the
  // new fields winning; no other entry changes, nor the terrain, nor another chunk.
  lemma NbtSets<T>(lib: Library<T>, w: Store<T>, bp: BlockPos, nbt: Nbt, merge: bool)
    requires SetBlockNbt(lib, w, bp, nbt, merge).0 == Done && ChunkOf(bp) in View(w)
    ensures var p, r := ChunkOf(bp), View(SetBlockNbt(lib, w, bp, nbt, merge).1);
            && r.Keys == View(w).Keys && (forall q :: q in r && q != p ==> r[q] == View(w)[q])
            && r[p].terrain == View(w)[p].terrain
            && (forall b :: b != bp ==>
                  && (b in r[p].blockEntities <==> b in View(w)[p].blockEntities)
                  && (b in r[p].blockEntities ==> r[p].blockEntities[b] == View(w)[p].blockEntities[b]))
            && (!merge ==> bp in r[p].blockEntities && r[p].blockEntities[bp] == nbt)
            && (merge ==>
                  forall k :: FieldAt(r[p].blockEntities, bp, k) ==
                              if nbt.Fields? && k in nbt.fields then Some(nbt.fields[k])
                              else FieldAt(View(w)[p].blockEntities, bp, k))
  {
    hide *;
    var w1 := SetBlockNbt(lib, w, bp, nbt, merge).1;
    NbtWrites(lib, w, bp, nbt, merge);
    EntryMerged(View(w)[ChunkOf(bp)].blockEntities, w1.mem[ChunkOf(bp)].blockEntities, bp, nbt, merge);
    assert View(w1).Keys == View(w).Keys;
  }

  // ---- what is saved ----

  // The provider holds no empty chunks; what is not empty is in StoredChunks; StoredChunks means there is something to
  // save.
  ghost predicate Sound<T>(lib: Library<T>, w: Store<T>) {
    && (forall p :: p in OnProvider(w) ==> !lib.empty(OnProvider(w)[p].terrain))
    && (forall p :: p in View(w) && !lib.empty(View(w)[p].terrain) ==> p in w.stored)
    && (w.stored != {} ==> w.provider.Some? || w.mem != map[])
  }

  lemma StoreSound<T>(lib: Library<T>, w: Store<T>, pos: Pos, ch: Chunk<T>)
    requires Sound(lib, w)
    ensures Sound(lib, StoreChunk(lib, w, pos, ch))
  {
    assert pos in StoreChunk(lib, w, pos, ch).mem;
  }

  lemma LoadSound<T>(lib: Library<T>, w: Store<T>, pos: Pos)
    requires Sound(lib, w)
    ensures Sound(lib, LoadChunk(w, pos).1)
  {
    LoadKeepsView(w, pos);
  }

  lemma UpdatesSound<T>(lib: Library<T>, w: Store<T>)
    requires Sound(lib, w)
    ensures Sound(lib, ApplyBlockUpdates(lib, w))
  {
    var us, w1 := Updated(lib, w), ApplyBlockUpdates(lib, w);
    hide Updated;
    assert OnProvider(w1) == OnProvider(w);
    forall p | p in View(w1) && !lib.empty(View(w1)[p].terrain) ensures p in w1.stored {
      if p in us { assert p in FullOnes(lib, us); }
    }
    if w1.stored != {} && w.stored == {} {
      var p :| p in FullOnes(lib, us);
      assert p in w1.mem;
    }
    if w.mem != map[] {
      var p :| p in w.mem;
      assert p in w1.mem;
    }
  }

  lemma FlushSound<T>(lib: Library<T>, w: Store<T>)
    requires Sound(lib, w)
    ensures Sound(lib, Flush(lib, w))
  {
    FlushKeepsView(lib, w);
  }

  lemma TickSound<T>(lib: Library<T>, w: Store<T>)
    requires Sound(lib, w)
    ensures Sound(lib, Tick(lib, w))
  {
    hide Sound, ApplyBlockUpdates, Flush;
    UpdatesSound(lib, w);
    FlushSound(lib, ApplyBlockUpdates(lib, w));
  }

  lemma QueueSound<T>(lib: Library<T>, w: Store<T>, u: Update)
    requires Sound(lib, w)
    ensures Sound(lib, QueueBlockUpdate(w, u))
  {
    var r := QueueBlockUpdate(w, u);
    assert OnProvider(r) == OnProvider(w) && View(r) == View(w);
  }

  lemma NbtSound<T>(lib: Library<T>, w: Store<T>, bp: BlockPos, nbt: Nbt, merge: bool)
    requires Sound(lib, w)
    ensures Sound(lib, SetBlockNbt(lib, w, bp, nbt, merge).1)
  {
    LoadSound(lib, w, ChunkOf(bp));
    var w1, w2 := LoadChunk(w, ChunkOf(bp)).1, SetBlockNbt(lib, w, bp, nbt, merge).1;
    if w2 != w1 { StoreSound(lib, w1, ChunkOf(bp), w2.mem[ChunkOf(bp)]); }
  }

  lemma DoSound<T>(lib: Library<T>, w: Store<T>, op: Op<T>)
    requires Sound(lib, w)
    ensures Sound(lib, Do(lib, w, op))
  {
    hide Sound, StoreChunk, LoadChunk, QueueBlockUpdate, SetBlockNbt, Tick;
    match op
    case StoreOp(pos, ch) => StoreSound(lib, w, pos, ch);
    case LoadOp(pos) => LoadSound(lib, w, pos);
    case QueueOp(u) => QueueSound(lib, w, u);
    case NbtOp(bp, nbt, merge) => NbtSound(lib, w, bp, nbt, merge);
    case TickOp => TickSound(lib, w);
  }

  lemma {:induction false} EveryRunIsSound<T>(lib: Library<T>, ops: seq<Op<T>>)
    ensures Sound(lib, Run(lib, ops))
  {
    if ops != [] {
      hide Sound, Do;
      EveryRunIsSound(lib, ops[..|ops| - 1]);
      DoSound(lib, Run(lib, ops[..|ops| - 1]), ops[|ops| - 1]);
    } else {
      assert View(New<T>()) == map[];
    }
  }

  predicate FullAt<T>(lib: Library<T>, chunks: map<Pos, Chunk<T>>, p: Pos) {
    p in chunks && !lib.empty(chunks[p].terrain)
  }

  lemma AppliedStored<T>(lib: Library<T>, w: Store<T>)
    ensures var w1 := ApplyBlockUpdates(lib, w);
            w.stored <= w1.stored && forall p :: p in w1.stored - w.stored ==> FullAt(lib, View(w1), p)
  {
    var us, w1 := Updated(lib, w), ApplyBlockUpdates(lib, w);
    forall p | p in FullOnes(lib, us) ensures FullAt(lib, View(w1), p) {
      assert View(w1)[p] == us[p];
    }
  }

  // An operation adds to StoredChunks what is not empty after it, and no more.
  lemma DoStored<T>(lib: Library<T>, w: Store<T>, op: Op<T>)
    requires Sound(lib, w)
    ensures var r := Do(lib, w, op); w.stored <= r.stored && forall p ::
            p in r.stored - w.stored ==> FullAt(lib, View(r), p)
  {
    match op
    case StoreOp(pos, ch) => StoreSetsView(lib, w, pos, ch);
    case LoadOp(pos) =>
    case QueueOp(u) =>
    case NbtOp(bp, nbt, merge) =>
      var w1, w2 := LoadChunk(w, ChunkOf(bp)).1, SetBlockNbt(lib, w, bp, nbt, merge).1;
      if w2 != w1 { StoreSetsView(lib, w1, ChunkOf(bp), w2.mem[ChunkOf(bp)]); }
    case TickOp =>
      var w1 := ApplyBlockUpdates(lib, w);
      FlushKeepsView(lib, w1);
      AppliedStored(lib, w);
      hide ApplyBlockUpdates, View, FullAt;
  }

  // There was a chunk at the position that was not empty, at some time in the run.
  ghost predicate EverFull<T>(lib: Library<T>, ops: seq<Op<T>>, p: Pos) {
    exists k :: 0 <= k <= |ops| && FullAt(lib, RunSimple(lib, ops[..k]).chunks, p)
  }

  lemma SoundStored<T>(lib: Library<T>, w: Store<T>, p: Pos)
    requires Sound(lib, w)
    ensures FullAt(lib, View(w), p) ==> p in w.stored
  {
  }

  lemma NewHasNothing<T>(lib: Library<T>, p: Pos)
    ensures p !in Run(lib, []).stored && !FullAt(lib, RunSimple(lib, []).chunks, p)
  {
  }

  // StoredChunks are exactly the positions at which a chunk was ever anything but empty.
  lemma EverFullStep<T>(lib: Library<T>, ops: seq<Op<T>>, p: Pos)
    ensures EverFull(lib, ops, p) <==>
            || FullAt(lib, RunSimple(lib, ops).chunks, p)
            || (ops != [] && EverFull(lib, ops[..|ops| - 1], p))
  {
    hide RunSimple, FullAt;
    var n := |ops| - 1;
    assert ops[..|ops|] == ops;
    assert ops != [] ==> forall k :: 0 <= k <= n ==> ops[..n][..k] == ops[..k];
  }

  lemma SameView<T>(w: Store<T>, s: Simple<T>)
    requires Same(w, s)
    ensures View(w) == s.chunks
  {
  }

  lemma {:induction false} StoredIsEverFull<T>(lib: Library<T>, ops: seq<Op<T>>, p: Pos)
    ensures p in Run(lib, ops).stored <==> EverFull(lib, ops, p)
  {
    hide *;
    EverFullStep(lib, ops, p);
    if ops == [] {
      NewHasNothing(lib, p);
    } else {
      var before, w := ops[..|ops| - 1], Run(lib, ops);
      EveryRunIsSimple(lib, ops);
      SameView(w, RunSimple(lib, ops));
      EveryRunIsSound(lib, ops);
      SoundStored(lib, w, p);
      StoredIsEverFull(lib, before, p);
      EveryRunIsSound(lib, before);
      DoStored(lib, Run(lib, before), ops[|ops| - 1]);
      RunForm(lib, ops);
    }
  }

  lemma FlushLeavesEmpty<T>(lib: Library<T>, w: Store<T>)
    ensures var r := Flush(lib, w);
            && (forall p :: p in r.mem ==> lib.empty(r.mem[p].terrain))
            && (r.mem != map[] ==> r.provider.Some?)
  {
  }

  // The last tick, at the start of finalizeProvider: every chunk that is not empty is on the provider, unchanged, and
  // when StoredChunks is not empty (the guard of SaveAndReset) there is a provider to finish.
  lemma NothingIsLost<T>(lib: Library<T>, ops: seq<Op<T>>)
    ensures var w, chunks := Run(lib, ops + [TickOp]), RunSimple(lib, ops + [TickOp]).chunks;
            && (forall p :: p in chunks && !lib.empty(chunks[p].terrain) ==>
                  p in OnProvider(w) && OnProvider(w)[p] == chunks[p])
            && (w.stored != {} ==> w.provider.Some?)
  {
    var all := ops + [TickOp];
    EveryRunIsSimple(lib, all);
    EveryRunIsSound(lib, all);
    assert all[..|all| - 1] == ops && all[|all| - 1] == TickOp;
    var w1 := ApplyBlockUpdates(lib, Run(lib, ops));
    assert Run(lib, all) == Flush(lib, w1);
    hide Run, RunSimple, ApplyBlockUpdates;
    FlushLeavesEmpty(lib, w1);
  }

  // Before the flush: what is on the provider afterwards is exactly what is not empty, if and only if no chunk has
  // become empty in memory that an earlier flush had written. Such a chunk keeps its old contents on the provider.
  lemma SavedExactlyIff<T>(lib: Library<T>, w: Store<T>)
    requires Sound(lib, w)
    ensures var saved := OnProvider(Flush(lib, w));
            (forall p :: (p in saved <==> FullAt(lib, View(w), p)) && (p in saved ==> saved[p] == View(w)[p]))
            <==> forall p :: p in w.mem && lib.empty(w.mem[p].terrain) ==> p !in OnProvider(w)
  {
    var saved := OnProvider(Flush(lib, w));
    if p :| p in w.mem && lib.empty(w.mem[p].terrain) && p in OnProvider(w) {
      assert p in saved && !FullAt(lib, View(w), p);
    } else {
      forall p ensures (p in saved <==> FullAt(lib, View(w), p)) && (p in saved ==> saved[p] == View(w)[p]) {}
    }
  }

  // ---- what is on the provider ----

  lemma OtherKeepsProvider<T>(lib: Library<T>, w: Store<T>, op: Op<T>)
    requires !op.TickOp?
    ensures Do(lib, w, op).provider == w.provider
  {
  }

  // A tick opens the provider if there is anything, and what it writes is what the store holds.
  lemma TickProvides<T>(lib: Library<T>, w: Store<T>)
    ensures var r := Tick(lib, w);
            && (r.provider.Some? <==> w.provider.Some? || View(w) != map[])
            && forall p :: p in OnProvider(r) ==>
                 (p in OnProvider(w) && OnProvider(r)[p] == OnProvider(w)[p])
                 || (p in View(r) && OnProvider(r)[p] == View(r)[p])
  {
    var w1 := ApplyBlockUpdates(lib, w);
    FlushKeepsView(lib, w1);
    if w.provider.None? {
      assert View(w) == w.mem;
      assert w1.mem.Keys == w.mem.Keys;
    }
  }

  // A tick found something in the store.
  ghost predicate Opened<T>(lib: Library<T>, ops: seq<Op<T>>) {
    exists k :: 0 <= k < |ops| && ops[k].TickOp? && RunSimple(lib, ops[..k]).chunks != map[]
  }

  lemma OpenedStep<T>(lib: Library<T>, ops: seq<Op<T>>)
    ensures Opened(lib, ops) <==>
            ops != [] && var n := |ops| - 1;
                         Opened(lib, ops[..n]) || (ops[n].TickOp? && RunSimple(lib, ops[..n]).chunks != map[])
  {
    hide RunSimple;
    var n := |ops| - 1;
    assert ops != [] ==> forall k :: 0 <= k < n ==> ops[..n][..k] == ops[..k] && ops[..n][k] == ops[k];
  }

  lemma DoTick<T>(lib: Library<T>, w: Store<T>)
    ensures Do(lib, w, TickOp) == Tick(lib, w)
  {
    hide Tick;
  }

  // There is a provider, and so a world to save, if and only if there was a chunk when the ticker came.
  lemma {:induction false} ProviderOpenedIff<T>(lib: Library<T>, ops: seq<Op<T>>)
    ensures Run(lib, ops).provider.Some? <==> Opened(lib, ops)
  {
    OpenedStep(lib, ops);
    if ops != [] {
      var before, op := ops[..|ops| - 1], ops[|ops| - 1];
      ProviderOpenedIff(lib, before);
      EveryRunIsSimple(lib, before);
      RunForm(lib, ops);
      hide Run, RunSimple, Opened, Do;
      if op.TickOp? {
        TickProvides(lib, Run(lib, before));
        DoTick(lib, Run(lib, before));
      } else {
        OtherKeepsProvider(lib, Run(lib, before), op);
      }
    }
  }

  // The store held this chunk at the position at some time in the run.
  ghost predicate EverHeld<T>(lib: Library<T>, ops: seq<Op<T>>, p: Pos, ch: Chunk<T>) {
    exists k :: 0 <= k <= |ops| && p in RunSimple(lib, ops[..k]).chunks && RunSimple(lib, ops[..k]).chunks[p] == ch
  }

  lemma HeldLonger<T>(lib: Library<T>, ops: seq<Op<T>>, p: Pos, ch: Chunk<T>)
    requires ops != [] && EverHeld(lib, ops[..|ops| - 1], p, ch)
    ensures EverHeld(lib, ops, p, ch)
  {
    hide RunSimple;
    var n := |ops| - 1;
    assert forall k :: 0 <= k <= n ==> ops[..n][..k] == ops[..k];
  }

  lemma HeldNow<T>(lib: Library<T>, ops: seq<Op<T>>, p: Pos, ch: Chunk<T>)
    requires p in RunSimple(lib, ops).chunks && RunSimple(lib, ops).chunks[p] == ch
    ensures EverHeld(lib, ops, p, ch)
  {
    hide RunSimple;
    assert ops[..|ops|] == ops;
  }

  // Whatever is on the provider was in the store like that, and not empty: nothing is saved that was not stored, and a
  // position at which every chunk was empty is not saved.
  lemma {:induction false} SavedWasHeld<T>(lib: Library<T>, ops: seq<Op<T>>, p: Pos)
    requires p in OnProvider(Run(lib, ops))
    ensures var ch := OnProvider(Run(lib, ops))[p]; !lib.empty(ch.terrain) && EverHeld(lib, ops, p, ch)
  {
    EveryRunIsSound(lib, ops);
    if ops != [] {
      var before, op := ops[..|ops| - 1], ops[|ops| - 1];
      var w, ch := Run(lib, before), OnProvider(Run(lib, ops))[p];
      RunForm(lib, ops);
      EveryRunIsSimple(lib, ops);
      hide Run, RunSimple, EverHeld, Do;
      if op.TickOp? {
        TickProvides(lib, w);
        DoTick(lib, w);
      } else {
        OtherKeepsProvider(lib, w, op);
      }
      if p in OnProvider(w) && OnProvider(w)[p] == ch {
        SavedWasHeld(lib, before, p);
        HeldLonger(lib, ops, p, ch);
      } else {
        HeldNow(lib, ops, p, ch);
      }
    }
  }

  lemma NoUpdates<T>(lib: Library<T>, w: Store<T>)
    requires w.updates == map[]
    ensures Tick(lib, w) == Flush(lib, w)
  {
    var r := ApplyBlockUpdates(lib, w);
    assert r.mem == w.mem && r.stored == w.stored;
  }

  lemma StaleFirst<T>(lib: Library<T>, p: Pos, first: Chunk<T>)
    requires !lib.empty(first.terrain)
    ensures Do(lib, Do(lib, New(), StoreOp(p, first)), TickOp) == Store(map[], Some(map[p := first]), {p}, map[])
  {
    var w := Do(lib, New(), StoreOp(p, first));
    assert w == Store(map[p := first], None, {p}, map[]);
    NoUpdates(lib, w);
    assert EmptyAt(lib, w.mem) == {};
    assert FullOnes(lib, w.mem) == w.mem && OnProvider(w) + w.mem == map[p := first];
    var r := Flush(lib, w);
    assert r.mem == map[] && r.provider == Some(map[p := first]);
  }

  lemma StaleSecond<T>(lib: Library<T>, p: Pos, first: Chunk<T>, second: Chunk<T>)
    requires lib.empty(second.terrain)
    ensures var w := Do(lib, Do(lib, Store(map[], Some(map[p := first]), {p}, map[]), StoreOp(p, second)), TickOp);
            View(w) == map[p := second] && OnProvider(w) == map[p := first]
  {
    var w := Do(lib, Store(map[], Some(map[p := first]), {p}, map[]), StoreOp(p, second));
    assert w == Store(map[p := second], Some(map[p := first]), {p}, map[]);
    NoUpdates(lib, w);
    assert FullOnes(lib, w.mem) == map[];
  }

  // A chunk is stored, flushed, and then stored again, empty: the provider still has the first one.
  lemma StaleChunk<T>(lib: Library<T>, p: Pos, first: Chunk<T>, second: Chunk<T>)
    requires !lib.empty(first.terrain) && lib.empty(second.terrain)
    ensures var w := Run(lib, [StoreOp(p, first), TickOp, StoreOp(p, second), TickOp]);
            View(w) == map[p := second] && OnProvider(w) == map[p := first]
  {
    hide *;
    var a: Op<T>, b: Op<T>, c: Op<T>, d: Op<T> := StoreOp(p, first), TickOp, StoreOp(p, second), TickOp;
    assert [a, b, c, d][..3] == [a, b, c] && [a, b, c][..2] == [a, b] && [a, b][..1] == [a] && [a][..0] == [];
    RunForm(lib, [a]);
    RunForm(lib, [a, b]);
    RunForm(lib, [a, b, c]);
    RunForm(lib, [a, b, c, d]);
    StaleFirst(lib, p, first);
    StaleSecond(lib, p, first, second);
  }
}
