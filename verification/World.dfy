// handlers/worlds/worldstate/world.go: the object. stateLock makes every method one step.

module WorldObject {
  import opened Common
  import opened WorldStore
  import opened WorldStoreTheorems

  // One more chunk is stored, unless it is empty.
  lemma FullStep<T>(lib: Library<T>, mem: map<Pos, Chunk<T>>, fails: set<Pos>, rest: set<Pos>, pos: Pos,
                    before: map<Pos, Chunk<T>>)
    requires pos in rest && rest <= mem.Keys
    ensures var full := FullOnes(lib, mem);
            var saved := full - fails;
            && full.Keys - (rest - {pos}) == full.Keys - rest + (if lib.empty(mem[pos].terrain) then {} else {pos})
            && (if lib.empty(mem[pos].terrain) || pos in fails then saved - (rest - {pos}) == saved - rest
                else before + (saved - (rest - {pos})) == (before + (saved - rest))[pos := mem[pos]])
  {
  }

  // The groups of the chunks in `done` are applied.
  function Applied<T>(lib: Library<T>, w: Store<T>, done: set<Pos>): Store<T> {
    var us := Updated(lib, w);
    var now := us - (us.Keys - done);
    w.(mem := w.mem + now, stored := w.stored + FullOnes(lib, now).Keys)
  }

  lemma AppliedNone<T>(lib: Library<T>, w: Store<T>)
    ensures Applied(lib, w, {}) == w
  {
    var us := Updated(lib, w);
    assert us - us.Keys == map[];
  }

  lemma AppliedAll<T>(lib: Library<T>, w: Store<T>)
    ensures Applied(lib, w, w.updates.Keys).(updates := map[]) == WorldStore.ApplyBlockUpdates(lib, w)
  {
    var us := Updated(lib, w);
    assert us - (us.Keys - w.updates.Keys) == us;
  }

  lemma MergeNext<T>(mem: map<Pos, Chunk<T>>, now: map<Pos, Chunk<T>>, pos: Pos, ch: Chunk<T>)
    ensures mem + now[pos := ch] == (mem + now)[pos := ch]
  {
  }

  lemma UpdatedForm<T>(lib: Library<T>, w: Store<T>, pos: Pos)
    requires pos in w.updates
    ensures pos in Updated(lib, w) <==> pos in View(w)
    ensures pos in View(w) ==> Updated(lib, w)[pos] == SetAll(lib, View(w)[pos], w.updates[pos])
  {
  }

  lemma AppliedForm<T>(lib: Library<T>, w: Store<T>, done: set<Pos>)
    ensures var all := Updated(lib, w);
            var now := all - (all.Keys - done);
            Applied(lib, w, done) == w.(mem := w.mem + now, stored := w.stored + FullOnes(lib, now).Keys)
  {
  }

  lemma ApplyToForm<T>(lib: Library<T>, w: Store<T>, pos: Pos, us: seq<Update>)
    ensures var (ch, w1) := LoadChunk(w, pos);
            ApplyTo(lib, w, pos, us) == if ch.None? then w1 else StoreChunk(lib, w1, pos, SetAll(lib, ch.value, us))
  {
  }

  lemma StepNow<T>(lib: Library<T>, all: map<Pos, Chunk<T>>, done: set<Pos>, pos: Pos, ch: Chunk<T>)
    requires pos in all && all[pos] == ch && pos !in done
    ensures var now, next := all - (all.Keys - done), all - (all.Keys - (done + {pos}));
            && next == now[pos := ch]
            && FullOnes(lib, next).Keys == FullOnes(lib, now).Keys + if lib.empty(ch.terrain) then {} else {pos}
  {
  }

  // Loading the next chunk does no more than cache it.
  lemma StepLoad<T>(lib: Library<T>, w: Store<T>, done: set<Pos>, pos: Pos, us: map<Pos, seq<Update>>, c: Chunk<T>)
    requires pos !in done && pos in View(w)
    ensures var w1 := Applied(lib, w, done).(updates := us);
            var (ch, w2) := LoadChunk(w1, pos);
            && ch == Some(View(w)[pos])
            && StoreChunk(lib, w2, pos, c)
               == w1.(mem := w1.mem[pos := c], stored := w1.stored + if lib.empty(c.terrain) then {} else {pos})
  {
    hide SetAll, FullOnes;
  }

  lemma StepMiss<T>(lib: Library<T>, w: Store<T>, done: set<Pos>, pos: Pos, us: map<Pos, seq<Update>>)
    requires pos !in done && pos !in View(w)
    ensures var w1 := Applied(lib, w, done).(updates := us);
            LoadChunk(w1, pos) == (None, w1)
  {
    hide SetAll, FullOnes;
  }

  // One more group: whatever was applied before it, its chunk is as it was.
  lemma AppliedOne<T>(lib: Library<T>, w: Store<T>, done: set<Pos>, pos: Pos, us: map<Pos, seq<Update>>)
    requires pos in w.updates && pos !in done
    ensures ApplyTo(lib, Applied(lib, w, done).(updates := us), pos, w.updates[pos])
            == Applied(lib, w, done + {pos}).(updates := us)
  {
    hide *;
    var all := Updated(lib, w);
    var w1 := Applied(lib, w, done).(updates := us);
    UpdatedForm(lib, w, pos);
    AppliedForm(lib, w, done);
    AppliedForm(lib, w, done + {pos});
    ApplyToForm(lib, w1, pos, w.updates[pos]);
    if pos in View(w) {
      var ch := SetAll(lib, View(w)[pos], w.updates[pos]);
      StepLoad(lib, w, done, pos, us, ch);
      StepNow(lib, all, done, pos, ch);
      MergeNext(w.mem, all - (all.Keys - done), pos, ch);
    } else {
      StepMiss(lib, w, done, pos, us);
      assert all - (all.Keys - (done + {pos})) == all - (all.Keys - done);
    }
  }

  class World<T(!new)> {
    const lib: Library<T>
    var chunks: map<Pos, Chunk<T>>                 // memState.chunks
    var provider: Option<map<Pos, Chunk<T>>>
    var storedChunks: set<Pos>
    var blockUpdates: map<Pos, seq<Update>>

    function Abs(): Store<T>
      reads this
    {
      Store(chunks, provider, storedChunks, blockUpdates)
    }

    constructor (lib: Library<T>)
      ensures Abs() == New() && this.lib == lib
    {
      this.lib := lib;
      chunks, provider, storedChunks, blockUpdates := map[], None, {}, map[];
    }

    // storeMemToProvider: chunks are stored and deleted from memory while the map is ranged over; storing the ones at
    // `fails` fails.
    method StoreMemToProvider(fails: set<Pos>)
      modifies this`chunks, this`provider
      ensures Abs() == FlushFailing(lib, old(Abs()), fails)
    {
      if chunks == map[] {
        return;
      }
      if provider.None? {
        provider := Some(map[]);
      }
      var mem := chunks;
      ghost var full, before := FullOnes(lib, chunks), provider.value;
      var rest := chunks.Keys;
      assert full.Keys - rest == {} && full - fails - rest == map[] && before + map[] == before;
      while rest != {}
        invariant rest <= mem.Keys && provider.Some?
        invariant chunks == mem - (full.Keys - rest)
        invariant provider.value == before + (full - fails - rest)
        decreases rest
      {
        var pos :| pos in rest;
        FullStep(lib, mem, fails, rest, pos, before);
        rest := rest - {pos};
        var ch := mem[pos];
        if !lib.empty(ch.terrain) {
          if pos !in fails {
            provider := Some(provider.value[pos := ch]);
          }
          chunks := chunks - {pos};
        }
      }
      assert full - fails - {} == full - fails && full.Keys - {} == full.Keys;
    }

    // storeChunkLocked.
    method StoreChunkLocked(pos: Pos, ch: Chunk<T>)
      modifies this`chunks, this`storedChunks
      ensures Abs() == StoreChunk(lib, old(Abs()), pos, ch)
    {
      if !lib.empty(ch.terrain) {
        storedChunks := storedChunks + {pos};
      }
      chunks := chunks[pos := ch];
    }

    // loadChunkLocked: a chunk that comes from the provider is kept in memory.
    method LoadChunkLocked(pos: Pos) returns (ch: Option<Chunk<T>>)
      modifies this`chunks
      ensures (ch, Abs()) == LoadChunk(old(Abs()), pos)
    {
      if pos in chunks {
        return Some(chunks[pos]);
      }
      if provider.Some? && pos in provider.value {
        ch := Some(provider.value[pos]);
        chunks := chunks[pos := provider.value[pos]];
      } else {
        ch := None;
      }
    }

    method QueueBlockUpdate(pos: BlockPos, ridTo: nat, layer: nat)
      modifies this`blockUpdates
      ensures Abs() == WorldStore.QueueBlockUpdate(old(Abs()), Update(ridTo, pos, layer))
    {
      var cp := ChunkOf(pos);
      var l := if cp in blockUpdates then blockUpdates[cp] else [];
      blockUpdates := blockUpdates[cp := l + [Update(ridTo, pos, layer)]];
    }

    // One chunk of applyBlockUpdates (lines 432-450).
    method ApplyToChunk(pos: Pos, updates: seq<Update>)
      modifies this`chunks, this`storedChunks
      ensures Abs() == ApplyTo(lib, old(Abs()), pos, updates)
    {
      var found := LoadChunkLocked(pos);
      if found.None? {
        return;
      }
      var ch := found.value;
      var i := 0;
      while i < |updates|
        invariant 0 <= i <= |updates|
        invariant SetAll(lib, ch, updates[i..]) == SetAll(lib, found.value, updates)
      {
        assert updates[i..][0] == updates[i] && updates[i..][1..] == updates[i + 1..];
        ch := SetOne(lib, ch, updates[i]);
        i := i + 1;
      }
      StoreChunkLocked(pos, ch);
    }

    lemma AbsForm()
      ensures Abs() == Store(chunks, provider, storedChunks, blockUpdates)
    {
    }

    // applyBlockUpdates: the groups are deleted while the map is ranged over, in no particular order.
    method ApplyBlockUpdates()
      modifies this`chunks, this`storedChunks, this`blockUpdates
      ensures Abs() == WorldStore.ApplyBlockUpdates(lib, old(Abs()))
    {
      hide *;
      ghost var w0 := Abs();
      AbsForm();
      var updates := blockUpdates;
      var rest := updates.Keys;
      AppliedNone(lib, w0);
      assert updates - (updates.Keys - rest) == updates && updates.Keys - rest == {};
      while rest != {}
        invariant rest <= updates.Keys
        invariant blockUpdates == updates - (updates.Keys - rest)
        invariant Abs() == Applied(lib, w0, updates.Keys - rest).(updates := blockUpdates)
        decreases rest
      {
        var pos :| pos in rest;
        ghost var done := updates.Keys - rest;
        rest := rest - {pos};
        AbsForm();
        blockUpdates := blockUpdates - {pos};
        AbsForm();
        AppliedOne(lib, w0, done, pos, blockUpdates);
        assert updates.Keys - rest == done + {pos};
        ApplyToChunk(pos, updates[pos]);
        AbsForm();
      }
      assert updates.Keys - rest == updates.Keys && blockUpdates == map[];
      AppliedAll(lib, w0);
    }

    // SetBlockNBT.
    method SetBlockNbt(pos: BlockPos, nbt: Nbt, merge: bool) returns (outcome: Outcome)
      modifies this`chunks, this`storedChunks
      ensures (outcome, Abs()) == WorldStore.SetBlockNbt(lib, old(Abs()), pos, nbt, merge)
    {
      var chunkPos := ChunkOf(pos);
      var ch := LoadChunkLocked(chunkPos);
      if ch.None? {
        return Done;
      }
      var entities := ch.value.blockEntities;
      if merge {
        // maps.Copy writes to the entry.
        if EntryAt(entities, pos).Fields? {
          entities := entities[pos := Fields(entities[pos].fields + FieldsOf(nbt))];
        } else if FieldsOf(nbt) != map[] {
          return Panic;
        }
      } else {
        entities := entities[pos := nbt];
      }
      StoreChunkLocked(chunkPos, ch.value.(blockEntities := entities));
      outcome := Done;
    }

    // The ticker (lines 242-245), and the start of finalizeProvider (lines 596-597).
    method SaveChunks(fails: set<Pos>)
      modifies this
      ensures Abs() == FlushFailing(lib, WorldStore.ApplyBlockUpdates(lib, old(Abs())), fails)
      ensures fails == {} ==> Abs() == Tick(lib, old(Abs()))
    {
      ApplyBlockUpdates();
      FlushThatNeverFails(lib, Abs());
      StoreMemToProvider(fails);
    }
  }
}
