// handlers/worlds/worldstate/world.go: chunks are kept in memory and written back to a provider from time to time;
// block updates wait in a queue, grouped by chunk, until the next time.

module WorldStore {
  import opened Common

  // A chunk column.
  datatype Pos = Pos(x: int, z: int)

  // A block, in the int32 coordinates of the protocol.
  datatype BlockPos = BlockPos(x: int, y: int, z: int)

  // A block in its chunk: the storage of a chunk uses the low four bits of x and z.
  datatype Cell = Cell(x: nat, y: int, z: nat, layer: nat)

  // A Go map: the nil map reads as an empty one, but nothing can be written to it.
  datatype Nbt = NilMap | Fields(fields: map<string, string>)

  function FieldsOf(nbt: Nbt): map<string, string> {
    if nbt.NilMap? then map[] else nbt.fields
  }

  // `terrain` is everything but the block entities.
  datatype Chunk<T> = Chunk(terrain: T, blockEntities: map<BlockPos, Nbt>)

  // The chunk library: whether all sub chunks are empty, SetBlock and Block.
  datatype Library<!T> = Library(empty: T -> bool, setBlock: (T, Cell, nat) -> T, block: (T, Cell) -> nat)

  ghost predicate Lawful<T(!new)>(lib: Library<T>) {
    forall t: T, c: Cell, rid: nat, d: Cell :: lib.block(lib.setBlock(t, c, rid), d) == if c == d then rid
      else lib.block(t, d)
  }

  // ---- block positions ----

  function Uint8(x: int): nat { x % 256 }

  function Int16(x: int): int { (x + 0x8000) % 0x1_0000 - 0x8000 }

  // x >> 4: the shift rounds down.
  function Shift4(x: int): int { x / 16 }

  function ChunkOf(bp: BlockPos): Pos {
    Pos(Shift4(bp.x), Shift4(bp.z))
  }

  // blockPosInChunk, as the library reads its result.
  function CellOf(bp: BlockPos, layer: nat): Cell {
    Cell(Uint8(Rem(bp.x, 16)) % 16, Int16(bp.y), Uint8(Rem(bp.z, 16)) % 16, layer)
  }

  lemma CoordinateRecovers(x: int)
    ensures Shift4(x) * 16 + Uint8(Rem(x, 16)) % 16 == x
  {
    var q, r := Quo(x, 16), Rem(x, 16);
    assert x == 16 * q + r && -16 < r < 16;
    if r < 0 {
      assert Uint8(r) == 256 + r && (256 + r) % 16 == 16 + r;
      assert x / 16 == q - 1;
    }
  }

  // Chunk and cell name the block: positive or negative, no other block whose height is an int16 has the same.
  lemma BlockIsRecovered(bp: BlockPos, layer: nat)
    ensures var p, c := ChunkOf(bp), CellOf(bp, layer);
            && p.x * 16 + c.x == bp.x && p.z * 16 + c.z == bp.z && c.x < 16 && c.z < 16 && c.layer == layer
            && (c.y == bp.y <==> -0x8000 <= bp.y < 0x8000)
  {
    CoordinateRecovers(bp.x);
    CoordinateRecovers(bp.z);
  }

  // ---- the store ----

  datatype Update = Update(rid: nat, pos: BlockPos, layer: nat)

  // mem is memState.chunks, stored is StoredChunks, updates is blockUpdates.
  datatype Store<T> = Store(mem: map<Pos, Chunk<T>>, provider: Option<map<Pos, Chunk<T>>>, stored: set<Pos>,
    updates: map<Pos, seq<Update>>)

  function New<T>(): Store<T> {
    Store(map[], None, {}, map[])
  }

  function OnProvider<T>(w: Store<T>): map<Pos, Chunk<T>> {
    if w.provider.Some? then w.provider.value else map[]
  }

  // What the store holds, wherever it is.
  function View<T>(w: Store<T>): map<Pos, Chunk<T>> {
    OnProvider(w) + w.mem
  }

  function StoreChunk<T>(lib: Library<T>, w: Store<T>, pos: Pos, ch: Chunk<T>): Store<T> {
    w.(stored := if lib.empty(ch.terrain) then w.stored else w.stored + {pos}, mem := w.mem[pos := ch])
  }

  // A chunk that comes from the provider is cached.
  function LoadChunk<T>(w: Store<T>, pos: Pos): (Option<Chunk<T>>, Store<T>) {
    if pos in w.mem then (Some(w.mem[pos]), w)
    else if pos in OnProvider(w) then (Some(OnProvider(w)[pos]), w.(mem := w.mem[pos := OnProvider(w)[pos]]))
    else (None, w)
  }

  // The positions at which a map has an empty chunk.
  function EmptyAt<T>(lib: Library<T>, m: map<Pos, Chunk<T>>): set<Pos> {
    set p | p in m && lib.empty(m[p].terrain)
  }

  function FullOnes<T>(lib: Library<T>, m: map<Pos, Chunk<T>>): map<Pos, Chunk<T>> {
    m - EmptyAt(lib, m)
  }

  // storeMemToProvider: opens the provider if there is anything in memory, and leaves the empty chunks there.
  function Flush<T>(lib: Library<T>, w: Store<T>): Store<T> {
    if w.mem == map[] then w
    else w.(mem := w.mem - FullOnes(lib, w.mem).Keys, provider := Some(OnProvider(w) + FullOnes(lib, w.mem)))
  }

  // The same when StoreColumn fails for the chunks at `fails`, and writes nothing of them: the error is logged, and the
  // chunk is deleted from memory all the same.
  function FlushFailing<T>(lib: Library<T>, w: Store<T>, fails: set<Pos>): Store<T> {
    if w.mem == map[] then w
    else w.(mem := w.mem - FullOnes(lib, w.mem).Keys, provider := Some(OnProvider(w) + (FullOnes(lib, w.mem) - fails)))
  }

  // ---- block updates ----

  function Queued(m: map<Pos, seq<Update>>, pos: Pos): seq<Update> {
    if pos in m then m[pos] else []
  }

  function QueueBlockUpdate<T>(w: Store<T>, u: Update): Store<T> {
    w.(updates := w.updates[ChunkOf(u.pos) := Queued(w.updates, ChunkOf(u.pos)) + [u]])
  }

  function SetOne<T>(lib: Library<T>, ch: Chunk<T>, u: Update): Chunk<T> {
    ch.(terrain := lib.setBlock(ch.terrain, CellOf(u.pos, u.layer), u.rid))
  }

  function SetAll<T>(lib: Library<T>, ch: Chunk<T>, us: seq<Update>): Chunk<T>
    decreases |us|
  {
    if us == [] then ch else SetAll(lib, SetOne(lib, ch, us[0]), us[1..])
  }

  // The updates of one chunk; they are dropped when the chunk is not there.
  function ApplyTo<T>(lib: Library<T>, w: Store<T>, pos: Pos, us: seq<Update>): Store<T> {
    var (ch, w1) := LoadChunk(w, pos);
    if ch.None? then w1 else StoreChunk(lib, w1, pos, SetAll(lib, ch.value, us))
  }

  // The chunks that have updates, after them.
  function Updated<T>(lib: Library<T>, w: Store<T>): map<Pos, Chunk<T>> {
    map p | p in w.updates && p in View(w) :: SetAll(lib, View(w)[p], w.updates[p])
  }

  // applyBlockUpdates: the order in which the chunks are visited makes no difference.
  function ApplyBlockUpdates<T>(lib: Library<T>, w: Store<T>): Store<T> {
    w.(mem := w.mem + Updated(lib, w), stored := w.stored + FullOnes(lib, Updated(lib, w)).Keys, updates := map[])
  }

  // ---- block entities ----

  datatype Outcome = Done | Panic

  // An entry that is not there reads as the nil map.
  function EntryAt(entities: map<BlockPos, Nbt>, bp: BlockPos): Nbt {
    if bp in entities then entities[bp] else NilMap
  }

  // Merging into the nil map panics, unless there is nothing to write.
  function SetBlockNbt<T>(lib: Library<T>, w: Store<T>, bp: BlockPos, nbt: Nbt, merge: bool): (Outcome, Store<T>) {
    var (ch, w1) := LoadChunk(w, ChunkOf(bp));
    if ch.None? then (Done, w1)
    else
      var entities := ch.value.blockEntities;
      var entry := EntryAt(entities, bp);
      if merge && entry.NilMap? then
        if FieldsOf(nbt) == map[] then (Done, StoreChunk(lib, w1, ChunkOf(bp), ch.value)) else (Panic, w1)
      else
        var now := if merge then Fields(entry.fields + FieldsOf(nbt)) else nbt;
        (Done, StoreChunk(lib, w1, ChunkOf(bp), ch.value.(blockEntities := entities[bp := now])))
  }

  // ---- runs ----

  datatype Op<T> =
    | StoreOp(pos: Pos, ch: Chunk<T>)
    | LoadOp(pos: Pos)
    | QueueOp(u: Update)
    | NbtOp(bp: BlockPos, nbt: Nbt, merge: bool)
    | TickOp                                     // the ticker, and the start of finalizeProvider

  function Tick<T>(lib: Library<T>, w: Store<T>): Store<T> {
    Flush(lib, ApplyBlockUpdates(lib, w))
  }

  function Do<T>(lib: Library<T>, w: Store<T>, op: Op<T>): Store<T> {
    match op
    case StoreOp(pos, ch) => StoreChunk(lib, w, pos, ch)
    case LoadOp(pos) => LoadChunk(w, pos).1
    case QueueOp(u) => QueueBlockUpdate(w, u)
    case NbtOp(bp, nbt, merge) => SetBlockNbt(lib, w, bp, nbt, merge).1
    case TickOp => Tick(lib, w)
  }

  function Run<T>(lib: Library<T>, ops: seq<Op<T>>): Store<T> {
    if ops == [] then New() else Do(lib, Run(lib, ops[..|ops| - 1]), ops[|ops| - 1])
  }
}
