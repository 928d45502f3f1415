// The blob cache as a state machine: one mutex, so every handler is one step.
//
// `repaired` selects what line 359 of blobcache.go resolves when a sub chunk's last reference goes:
// the code as written resolves the level chunk again (false); resolving the sub chunk is what was meant (true).

module BlobSpec {
  import opened BlobPackets
  import opened Occurrences

  // History of a wait: the packet as received, and the columns for which a level chunk had been received before it.
  datatype Received = Received(pk: Packet, after: set<ChunkPos>)

  datatype ClientWait = ClientWait(count: int, hashes: seq<Hash>)

  // What getClient answers while a handler runs.
  datatype Client = NoClient | PlainClient | CachingClient

  datatype Reply = Reply(hit: seq<Hash>, miss: seq<Hash>)

  // The conversation with the server about blobs.
  datatype Wire = Status(reply: Reply) | Answer(blob: CacheBlob)

  // A packet handed to processPacket, with the wait it came from.
  datatype Done = Done(id: nat, pk: Packet)

  // The conversation with the client about blobs, and packets written to it.
  datatype ToClient = Filled(pk: Packet) | Missed(hashes: seq<Hash>) | Blobs(blobs: seq<CacheBlob>)

  // Waits are never freed here: an id is the index of a wait in `counts`, `fills` and `received`.
  datatype State = State(
    db: Db,
    counts: seq<int>,                          // serverWait.count
    fills: seq<Packet>,                        // serverWait.pkFill
    serverWait: Lists<Hash>,
    levelChunksWaiting: map<ChunkPos, seq<Hash>>,
    subs: Lists<ChunkPos>,
    clientWaits: seq<ClientWait>,
    clientWait: map<Hash, nat>,
    // history
    received: seq<Received>,
    arrived: set<ChunkPos>,                    // columns of the level chunks handled so far
    wire: seq<Wire>,
    hits: seq<seq<CacheBlob>>,                 // onHitBlobs
    processed: seq<Done>,
    toClient: seq<ToClient>,
    woken: seq<nat>)                           // sub chunks for which the test at line 358 succeeded

  function Initial(db: Db): State {
    State(db, [], [], map[], map[], map[], [], map[], [], {}, [], [], [], [], [])
  }

  // ---- resolving ----

  function AddCount(s: State, id: nat, d: int): State {
    if id < |s.counts| then s.(counts := s.counts[id := s.counts[id] + d]) else s
  }

  predicate Complete(s: State, id: nat) {
    id < |s.counts| && s.counts[id] == 0
  }

  // serverResolve up to the waiting sub chunks: fill in, process, and write to a client without a cache.
  function Process(s: State, id: nat, client: Client): State {
    if id >= |s.fills| then s else
      var pk := FillPacket(s.db, s.fills[id]);
      s.(fills := s.fills[id := pk],
         levelChunksWaiting := if pk.Level? then s.levelChunksWaiting - {pk.lc.pos} else s.levelChunksWaiting,
         processed := s.processed + [Done(id, pk)],
         toClient := if client.PlainClient? then s.toClient + [Filled(pk)] else s.toClient)
  }

  predicate HasWaiters(s: State, id: nat) {
    id < |s.fills| && s.fills[id].Level? && s.fills[id].lc.pos in s.subs
  }

  // The sub chunks that wait for the column of level chunk `id`; resolving it takes their list out of the map.
  function Waiters(s: State, id: nat): seq<nat>
    requires HasWaiters(s, id)
  {
    s.subs[s.fills[id].lc.pos]
  }

  function TakeWaiters(s: State, id: nat): State
    requires HasWaiters(s, id)
  {
    s.(subs := s.subs - {s.fills[id].lc.pos})
  }

  // The loop over the sub chunks that waited for level chunk `id` (lines 356-364).
  function WakeLoop(repaired: bool, s: State, id: nat, l: seq<nat>, client: Client): (r: State)
    ensures r.subs.Keys <= s.subs.Keys
    decreases s.subs.Keys, 1, |l|
  {
    if l == [] then s else
      var s1 := AddCount(s, l[0], -1);
      var s2 := if Complete(s1, l[0])
                then Resolve(repaired, s1.(woken := s1.woken + [l[0]]), if repaired then l[0] else id, client)
                else s1;
      WakeLoop(repaired, s2, id, l[1..], client)
  }

  function Resolve(repaired: bool, s: State, id: nat, client: Client): (r: State)
    ensures r.subs.Keys <= s.subs.Keys
    decreases s.subs.Keys, 0, 0
  {
    if HasWaiters(s, id) then WakeLoop(repaired, TakeWaiters(Process(s, id, client), id), id, Waiters(s, id), client)
    else Process(s, id, client)
  }

  // ---- packets from the server ----

  function NewWait(s: State, pk: Packet): State {
    s.(counts := s.counts + [0], fills := s.fills + [InitialFill(pk)], received := s.received
      + [Received(pk, s.arrived)])
  }

  // The state of a handler's first loop.
  datatype Build = Build(s: State, reply: Reply, hitBlobs: seq<CacheBlob>)

  // addServerWait.
  function AddServerWait(b: Build, id: nat, h: Hash): Build {
    b.(reply := if h in b.s.serverWait then b.reply else b.reply.(miss := b.reply.miss + [h]),
       s := AddCount(b.s, id, 1).(serverWait := Append(b.s.serverWait, h, id)))
  }

  function Hit(b: Build, h: Hash): Build
    requires h in b.s.db
  {
    b.(reply := b.reply.(hit := b.reply.hit + [h]), hitBlobs := b.hitBlobs + [CacheBlob(h, b.s.db[h])])
  }

  function NoteLevelChunk(s: State, pos: ChunkPos, h: Hash): State {
    var noted := if pos in s.levelChunksWaiting then s.levelChunksWaiting[pos] else [];
    s.(levelChunksWaiting := s.levelChunksWaiting[pos := noted + [h]])
  }

  function LevelStep(b: Build, id: nat, pos: ChunkPos, h: Hash): Build {
    if h in b.s.db then Hit(b, h) else
      var b1 := AddServerWait(b, id, h);
      b1.(s := NoteLevelChunk(b1.s, pos, h))
  }

  function LevelLoop(b: Build, id: nat, pos: ChunkPos, hs: seq<Hash>): Build
    decreases |hs|
  {
    if hs == [] then b else LevelLoop(LevelStep(b, id, pos, hs[0]), id, pos, hs[1..])
  }

  function SubStep(b: Build, id: nat, e: Entry): Build {
    if e.result != Success then b
    else if e.blobHash in b.s.db then Hit(b, e.blobHash)
    else AddServerWait(b, id, e.blobHash)
  }

  function SubLoop(b: Build, id: nat, es: seq<Entry>): Build
    decreases |es|
  {
    if es == [] then b else SubLoop(SubStep(b, id, es[0]), id, es[1..])
  }

  // One reference for every column in `ps` (lines 193-198): the order in which they are visited does not matter.
  function AddSubs(s: State, id: nat, ps: set<ChunkPos>): State {
    AddCount(s, id, |ps|).(subs := AppendAll(s.subs, ps, id))
  }

  // The packet that is forwarded shares its entries with the wait (line 162).
  function Forward(pk: Packet, fill: Packet): Packet {
    match (pk, fill)
    case (Sub(sc), Sub(f)) => Sub(sc.(entries := f.entries))
    case _ => pk
  }

  function Announce(b: Build): State {
    var s := if b.hitBlobs != [] then b.s.(hits := b.s.hits + [b.hitBlobs]) else b.s;
    if b.reply.hit == [] && b.reply.miss == [] then s else s.(wire := s.wire + [Status(b.reply)])
  }

  function FinishState(repaired: bool, b: Build, id: nat, client: Client): State {
    var s := Announce(b);
    if Complete(s, id) then Resolve(repaired, s, id, client) else s
  }

  // What finishWait returns: the packet to forward, if any.
  function FinishForward(s: State, id: nat, pk: Packet, client: Client): seq<Packet>
    requires id < |s.fills|
  {
    match client
    case NoClient => []
    case CachingClient => [Forward(pk, s.fills[id])]
    case PlainClient => if Complete(s, id) then [s.fills[id]] else []
  }

  function BuildLevel(s: State, lc: LevelChunk): Build {
    LevelLoop(Build(NewWait(s, Level(lc)), Reply([], []), []), |s.counts|, lc.pos, lc.blobHashes)
  }

  function BuildSub(s: State, sc: SubChunk): Build {
    var b := SubLoop(Build(NewWait(s, Sub(sc)), Reply([], []), []), |s.counts|, sc.entries);
    var ps := Touches(sc.position, sc.entries) * b.s.levelChunksWaiting.Keys;
    b.(s := AddSubs(b.s, |s.counts|, ps))
  }

  function HandleLevelChunk(repaired: bool, s: State, lc: LevelChunk, client: Client): State {
    var r := FinishState(repaired, BuildLevel(s, lc), |s.counts|, client);
    r.(arrived := r.arrived + {lc.pos})
  }

  function HandleSubChunk(repaired: bool, s: State, sc: SubChunk, client: Client): State {
    FinishState(repaired, BuildSub(s, sc), |s.counts|, client)
  }

  // ---- packets about blobs ----

  function ClientPayloads(db: Db, hashes: seq<Hash>): seq<CacheBlob> {
    if hashes == [] then []
    else (if hashes[0] in db then [CacheBlob(hashes[0], db[hashes[0]])] else []) + ClientPayloads(db, hashes[1..])
  }

  // A blob the client waits for has arrived (lines 261-267); clientResolve sends a finished wait.
  function ClientStep(s: State, h: Hash): State {
    if h !in s.clientWait || s.clientWait[h] >= |s.clientWaits| then s else
      var c := s.clientWait[h];
      var w := s.clientWaits[c].(count := s.clientWaits[c].count - 1);
      s.(clientWait := s.clientWait - {h},
         clientWaits := s.clientWaits[c := w],
         toClient := if w.count == 0 then s.toClient + [Blobs(ClientPayloads(s.db, w.hashes))] else s.toClient)
  }

  function WaiterLoop(repaired: bool, s: State, l: seq<nat>, client: Client): State
    decreases |l|
  {
    if l == [] then s else
      var s1 := AddCount(s, l[0], -1);
      var s2 := if Complete(s1, l[0]) then Resolve(repaired, s1, l[0], client) else s1;
      WaiterLoop(repaired, s2, l[1..], client)
  }

  // A blob is stored, and handed to the client if it waits for it.
  function Receive(s: State, blob: CacheBlob): State {
    ClientStep(s.(db := s.db[blob.hash := blob.payload], wire := s.wire + [Answer(blob)]), blob.hash)
  }

  function BlobStep(repaired: bool, s: State, blob: CacheBlob, client: Client): State {
    var s1 := Receive(s, blob);
    WaiterLoop(repaired, s1.(serverWait := s1.serverWait - {blob.hash}), At(s1.serverWait, blob.hash), client)
  }

  function BlobLoop(repaired: bool, s: State, blobs: seq<CacheBlob>, client: Client): State
    decreases |blobs|
  {
    if blobs == [] then s else BlobLoop(repaired, BlobStep(repaired, s, blobs[0], client), blobs[1..], client)
  }

  // HandleClientCacheBlobStatus: what the client misses and the cache does not have either.
  function StatusStep(s: State, c: nat, h: Hash): State {
    if h in s.db || c >= |s.clientWaits| then s else
      var w := s.clientWaits[c];
      s.(clientWaits := s.clientWaits[c := ClientWait(w.count + 1, w.hashes + [h])], clientWait := s.clientWait[h := c])
  }

  function StatusLoop(s: State, c: nat, hs: seq<Hash>): State
    decreases |hs|
  {
    if hs == [] then s else StatusLoop(StatusStep(s, c, hs[0]), c, hs[1..])
  }

  function ClientStatus(s: State, misses: seq<Hash>): State {
    var s1 := s.(clientWaits := s.clientWaits + [ClientWait(0, [])], toClient := s.toClient + [Missed(misses)]);
    var s2 := StatusLoop(s1, |s.clientWaits|, misses);
    var blobs := ClientPayloads(s.db, misses);
    if blobs == [] then s2 else s2.(toClient := s2.toClient + [Blobs(blobs)])
  }

  // ---- runs ----

  datatype Input =
    | LevelChunkIn(lc: LevelChunk, client: Client)
    | SubChunkIn(sc: SubChunk, client: Client)
    | BlobsIn(blobs: seq<CacheBlob>, client: Client)
    | ClientStatusIn(misses: seq<Hash>)

  function Handle(repaired: bool, s: State, i: Input): State {
    match i
    case LevelChunkIn(lc, client) => HandleLevelChunk(repaired, s, lc, client)
    case SubChunkIn(sc, client) => HandleSubChunk(repaired, s, sc, client)
    case BlobsIn(blobs, client) => BlobLoop(repaired, s, blobs, client)
    case ClientStatusIn(misses) => ClientStatus(s, misses)
  }

  // Everything that happened to a cache that starts with database `db`.
  function Run(repaired: bool, db: Db, inputs: seq<Input>): State {
    if inputs == [] then Initial(db)
    else Handle(repaired, Run(repaired, db, inputs[..|inputs| - 1]), inputs[|inputs| - 1])
  }
}
