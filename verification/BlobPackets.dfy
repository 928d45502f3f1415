// The packets the blob cache works on (utils/proxy/blobcache) and what it does to one packet.

module BlobPackets {
  import opened RawBytes

  // A uint64 blob hash.
  type Hash = h: nat | h < 0x1_0000_0000_0000_0000

  // A chunk column, in the int32 coordinates of the protocol.
  datatype ChunkPos = ChunkPos(x: int, z: int)

  datatype Vec3 = Vec3(x: int, y: int, z: int)

  datatype CacheBlob = CacheBlob(hash: Hash, payload: Bytes)

  datatype EntryResult = Success | SuccessAllAir | Failed(code: nat)

  // `rest` stands for the height maps, which the cache carries along untouched.
  datatype Entry = Entry(result: EntryResult, offset: Vec3, blobHash: Hash, payload: Bytes, rest: Bytes)

  datatype LevelChunk = LevelChunk(
    pos: ChunkPos, dimension: int, highestSubChunk: int, subChunkCount: int,
    cacheEnabled: bool, blobHashes: seq<Hash>, payload: Bytes)

  datatype SubChunk = SubChunk(cacheEnabled: bool, dimension: int, position: Vec3, entries: seq<Entry>)

  datatype Packet = Level(lc: LevelChunk) | Sub(sc: SubChunk)

  // A database of blobs, by hash.
  type Db = map<Hash, Bytes>

  // int32 addition wraps around.
  function Wrap32(x: int): (r: int)
    ensures -0x8000_0000 <= r < 0x8000_0000
    ensures (x - r) % 0x1_0000_0000 == 0 && (-0x8000_0000 <= x < 0x8000_0000 ==> r == x)
  {
    (x + 0x8000_0000) % 0x1_0000_0000 - 0x8000_0000
  }

  // The column a sub chunk entry lies in.
  function EntryPos(position: Vec3, e: Entry): ChunkPos {
    ChunkPos(Wrap32(position.x + e.offset.x), Wrap32(position.z + e.offset.z))
  }

  // The columns the successful entries of a sub chunk packet lie in.
  function Touches(position: Vec3, es: seq<Entry>): set<ChunkPos> {
    set i | 0 <= i < |es| && es[i].result == Success :: EntryPos(position, es[i])
  }

  // `r` is the int32 sum of `a` and `b`.
  predicate IsSum(r: int, a: int, b: int) {
    -0x8000_0000 <= r < 0x8000_0000 && (a + b - r) % 0x1_0000_0000 == 0
  }

  // An entry that was successful has its absolute coordinates at the column.
  ghost predicate HasEntryAt(position: Vec3, es: seq<Entry>, p: ChunkPos) {
    exists i :: 0 <= i < |es| && es[i].result == Success
      && IsSum(p.x, position.x, es[i].offset.x) && IsSum(p.z, position.z, es[i].offset.z)
  }

  lemma SumIsOne(r: int, a: int, b: int)
    ensures IsSum(r, a, b) <==> r == Wrap32(a + b)
    ensures -0x8000_0000 <= a + b < 0x8000_0000 ==> (IsSum(r, a, b) <==> r == a + b)
  {
  }

  lemma EntryPosIff(position: Vec3, e: Entry, p: ChunkPos)
    ensures p == EntryPos(position, e) <==>
            IsSum(p.x, position.x, e.offset.x) && IsSum(p.z, position.z, e.offset.z)
  {
    SumIsOne(p.x, position.x, e.offset.x);
    SumIsOne(p.z, position.z, e.offset.z);
  }

  // A packet touches exactly the columns that a successful entry lies in: x and z of the position plus those of the
  // offset, in int32 arithmetic.
  lemma TouchesIff(position: Vec3, es: seq<Entry>, p: ChunkPos)
    ensures p in Touches(position, es) <==> HasEntryAt(position, es, p)
    ensures (forall i :: 0 <= i < |es| ==>
               && -0x8000_0000 <= position.x + es[i].offset.x < 0x8000_0000
               && -0x8000_0000 <= position.z + es[i].offset.z < 0x8000_0000) ==>
              (p in Touches(position, es) <==>
                 exists i :: 0 <= i < |es| && es[i].result == Success
                   && p.x == position.x + es[i].offset.x && p.z == position.z + es[i].offset.z)
  {
    forall i | 0 <= i < |es|
      ensures p == EntryPos(position, es[i]) <==>
              IsSum(p.x, position.x, es[i].offset.x) && IsSum(p.z, position.z, es[i].offset.z)
    {
      EntryPosIff(position, es[i], p);
    }
    forall i | 0 <= i < |es|
      && -0x8000_0000 <= position.x + es[i].offset.x < 0x8000_0000
      && -0x8000_0000 <= position.z + es[i].offset.z < 0x8000_0000
      ensures IsSum(p.x, position.x, es[i].offset.x) <==> p.x == position.x + es[i].offset.x
      ensures IsSum(p.z, position.z, es[i].offset.z) <==> p.z == position.z + es[i].offset.z
    {
      SumIsOne(p.x, position.x, es[i].offset.x);
      SumIsOne(p.z, position.z, es[i].offset.z);
    }
    hide EntryPos, IsSum;
  }

  function TouchedBy(pk: Packet): set<ChunkPos> {
    if pk.Sub? then Touches(pk.sc.position, pk.sc.entries) else {}
  }

  function EntryHashes(es: seq<Entry>): set<Hash> {
    set i | 0 <= i < |es| && es[i].result == Success :: es[i].blobHash
  }

  // The hashes whose blobs a packet has to wait for.
  function Needs(pk: Packet): set<Hash> {
    match pk
    case Level(lc) => set h | h in lc.blobHashes
    case Sub(sc) => EntryHashes(sc.entries)
  }

  // ---- filling in a packet from the database ----

  // A missing blob reads as an empty one.
  function Load(db: Db, h: Hash): Bytes {
    if h in db then db[h] else []
  }

  function Assemble(db: Db, hashes: seq<Hash>): Bytes {
    if hashes == [] then [] else Load(db, hashes[0]) + Assemble(db, hashes[1..])
  }

  function FillEntry(db: Db, e: Entry): Entry {
    if e.blobHash == 0 then e else e.(payload := Load(db, e.blobHash), blobHash := 0)
  }

  function FillEntries(db: Db, es: seq<Entry>): seq<Entry> {
    seq(|es|, i requires 0 <= i < |es| => FillEntry(db, es[i]))
  }

  function FillLevel(db: Db, lc: LevelChunk): LevelChunk {
    lc.(payload := Assemble(db, lc.blobHashes) + lc.payload, cacheEnabled := false, blobHashes := [])
  }

  function FillPacket(db: Db, pk: Packet): Packet {
    match pk
    case Level(lc) => Level(FillLevel(db, lc))
    case Sub(sc) => Sub(sc.(entries := FillEntries(db, sc.entries), cacheEnabled := false))
  }

  // The packet a new wait starts from: a level chunk unchanged, a sub chunk with its flag cleared.
  function InitialFill(pk: Packet): Packet {
    match pk
    case Level(lc) => pk
    case Sub(sc) => Sub(sc.(cacheEnabled := false))
  }

  // ---- the stream without a cache ----

  // The packet a server that does not use the cache would have sent: blobs in place of hashes.
  // An entry that carries no data (not successful) keeps its own payload.
  function PlainEntry(content: Hash -> Bytes, e: Entry): Entry {
    if e.result == Success && e.blobHash != 0 then e.(payload := content(e.blobHash), blobHash := 0) else e
  }

  function ContentsOf(content: Hash -> Bytes, hashes: seq<Hash>): Bytes {
    if hashes == [] then [] else content(hashes[0]) + ContentsOf(content, hashes[1..])
  }

  function PlainPacket(content: Hash -> Bytes, pk: Packet): Packet {
    match pk
    case Level(lc) =>
      Level(lc.(payload := ContentsOf(content, lc.blobHashes) + lc.payload, cacheEnabled := false, blobHashes := []))
    case Sub(sc) =>
      Sub(sc.(entries := seq(|sc.entries|, i requires 0 <= i < |sc.entries| => PlainEntry(content, sc.entries[i])),
              cacheEnabled := false))
  }

  // Every blob the database holds is the one its hash names.
  ghost predicate ContentAddressed(db: Db, content: Hash -> Bytes) {
    forall h :: h in db ==> db[h] == content(h)
  }

  lemma {:induction false} AssembleIsConcat(db: Db, content: Hash -> Bytes, hashes: seq<Hash>)
    requires ContentAddressed(db, content)
    requires forall h :: h in hashes ==> h in db
    ensures Assemble(db, hashes) == ContentsOf(content, hashes)
  {
    if hashes != [] {
      AssembleIsConcat(db, content, hashes[1..]);
    }
  }

  // Filling a packet from a database that has all it needs gives the uncached packet, if and only if
  // no entry that failed names a blob.
  lemma {:induction false} FillIsPlain(db: Db, content: Hash -> Bytes, pk: Packet)
    requires ContentAddressed(db, content) && Needs(pk) <= db.Keys
    ensures FillPacket(db, pk) == PlainPacket(content, pk)
            <==> (pk.Sub? ==> forall e :: e in pk.sc.entries && e.result != Success ==> e.blobHash == 0)
    ensures pk.Sub? ==>
              var filled := FillPacket(db, pk).sc.entries;
              var plain := PlainPacket(content, pk).sc.entries;
              |filled| == |plain| == |pk.sc.entries|
              && forall i :: 0 <= i < |filled| && pk.sc.entries[i].result == Success ==> filled[i] == plain[i]
  {
    match pk
    case Level(lc) => AssembleIsConcat(db, content, lc.blobHashes);
    case Sub(sc) =>
      var filled := FillPacket(db, pk).sc.entries;
      var plain := PlainPacket(content, pk).sc.entries;
      forall i | 0 <= i < |sc.entries|
        ensures filled[i] == plain[i] <==> (sc.entries[i].result == Success || sc.entries[i].blobHash == 0)
      {
        var e := sc.entries[i];
        if e.result == Success && e.blobHash != 0 {
          assert e.blobHash in Needs(pk);
        }
      }
      if forall e :: e in sc.entries && e.result != Success ==> e.blobHash == 0 {
        assert filled == plain;
      } else {
        var e :| e in sc.entries && e.result != Success && e.blobHash != 0;
        var i :| 0 <= i < |sc.entries| && sc.entries[i] == e;
        assert filled[i] != plain[i];
      }
  }

  // Every entry that names a blob, failed or not, gets it, and an empty payload if there is none; it names none then,
  // and nothing else of it changes.
  lemma EntriesFilled(db: Db, sc: SubChunk, i: nat)
    requires i < |sc.entries|
    ensures var filled := FillPacket(db, Sub(sc));
            && filled.Sub? && |filled.sc.entries| == |sc.entries|
            && filled.sc.position == sc.position && filled.sc.dimension == sc.dimension
            && var e, f := sc.entries[i], filled.sc.entries[i];
               && f.blobHash == 0 && f.result == e.result && f.offset == e.offset && f.rest == e.rest
               && (e.blobHash == 0 ==> f.payload == e.payload)
               && (e.blobHash != 0 && e.blobHash in db ==> f.payload == db[e.blobHash])
               && (e.blobHash != 0 && e.blobHash !in db ==> f.payload == [])
  {
  }

  // Filling twice changes nothing.
  lemma {:induction false} FillIdempotent(db: Db, db': Db, pk: Packet)
    ensures FillPacket(db', FillPacket(db, pk)) == FillPacket(db, pk)
  {
    match pk
    case Level(lc) =>
    case Sub(sc) =>
      var once := FillEntries(db, sc.entries);
      assert FillEntries(db', once) == once;
  }
}
