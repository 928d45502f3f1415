// What the cache tells others: hits to the capture, statuses to the server, and packets and blobs to the client.

module BlobReports {
  import opened Common
  import opened RawBytes
  import opened BlobPackets
  import opened Occurrences
  import opened BlobSpec
  import opened BlobInvariant
  import opened BlobReachable
  import opened BlobTheorems
  import opened BlobFlight

  // ---- one packet ----

  // The hashes to ask for, in the order in which they are named first.
  function NewMisses(db: Db, waiting: set<Hash>, hs: seq<Hash>): seq<Hash>
    decreases |hs|
  {
    if hs == [] then []
    else if hs[0] in db || hs[0] in waiting then NewMisses(db, waiting, hs[1..])
    else [hs[0]] + NewMisses(db, waiting + {hs[0]}, hs[1..])
  }

  lemma {:induction false} NewMissesIff(db: Db, waiting: set<Hash>, hs: seq<Hash>)
    ensures forall h :: h in NewMisses(db, waiting, hs) <==> h in hs && h !in db && h !in waiting
    ensures NoDuplicates(NewMisses(db, waiting, hs))
    decreases |hs|
  {
    if hs != [] {
      var next := if hs[0] in db || hs[0] in waiting then waiting else waiting + {hs[0]};
      NewMissesIff(db, next, hs[1..]);
      assert hs == [hs[0]] + hs[1..];
    }
  }

  lemma MissStep(db: Db, waiting: set<Hash>, h: Hash, rest: seq<Hash>)
    ensures NewMisses(db, waiting, [h] + rest) ==
            if h in db || h in waiting then NewMisses(db, waiting, rest) else [h] + NewMisses(db, waiting + {h}, rest)
  {
    assert ([h] + rest)[1..] == rest;
  }

  lemma {:induction false} LevelMisses(b: Build, id: nat, pos: ChunkPos, hs: seq<Hash>)
    ensures LevelLoop(b, id, pos, hs).reply.miss == b.reply.miss + NewMisses(b.s.db, b.s.serverWait.Keys, hs)
    decreases |hs|
  {
    if hs != [] {
      var b1 := LevelStep(b, id, pos, hs[0]);
      LevelMisses(b1, id, pos, hs[1..]);
      if hs[0] !in b.s.db {
        assert b1.s.serverWait.Keys == b.s.serverWait.Keys + {hs[0]};
        if hs[0] in b.s.serverWait { assert b.s.serverWait.Keys + {hs[0]} == b.s.serverWait.Keys; }
      }
    }
  }

  lemma {:induction false} SubMisses(b: Build, id: nat, es: seq<Entry>)
    ensures SubLoop(b, id, es).reply.miss
            == b.reply.miss + NewMisses(b.s.db, b.s.serverWait.Keys, SuccessHashes(es))
    decreases |es|
  {
    if es != [] {
      var e, b1 := es[0], SubStep(b, id, es[0]);
      SubMisses(b1, id, es[1..]);
      if e.result == Success {
        MissStep(b.s.db, b.s.serverWait.Keys, e.blobHash, SuccessHashes(es[1..]));
        if e.blobHash !in b.s.db {
          assert b1.s.serverWait.Keys == b.s.serverWait.Keys + {e.blobHash};
          if e.blobHash in b.s.serverWait {
            assert b.s.serverWait.Keys + {e.blobHash} == b.s.serverWait.Keys;
          }
        }
      } else {
        assert SuccessHashes(es) == SuccessHashes(es[1..]);
      }
    }
  }

  // What the server is told about a packet.
  function ReplyTo(db: Db, waiting: set<Hash>, pk: Packet): Reply {
    Reply(Stored(db, Looked(pk)), NewMisses(db, waiting, Looked(pk)))
  }

  lemma {:induction false} StoredAre(db: Db, hs: seq<Hash>)
    ensures forall h :: h in Stored(db, hs) <==> h in hs && h in db
  {
    if hs != [] {
      StoredAre(db, hs[1..]);
      assert hs == [hs[0]] + hs[1..];
    }
  }

  // The stored blobs that a list of hashes names, in order.
  function FoundBlobs(db: Db, hs: seq<Hash>): seq<CacheBlob> {
    StoredAre(db, hs);
    BlobsOf(db, Stored(db, hs))
  }

  function BuiltFrom(s: State, pk: Packet): Build {
    if pk.Level? then BuildLevel(s, pk.lc) else BuildSub(s, pk.sc)
  }

  lemma MissesOf(s: State, pk: Packet)
    ensures BuiltFrom(s, pk).reply.miss == NewMisses(s.db, s.serverWait.Keys, Looked(pk))
  {
    var b0 := Build(NewWait(s, pk), Reply([], []), []);
    assert b0.s.db == s.db && b0.s.serverWait == s.serverWait;
    assert [] + NewMisses(s.db, s.serverWait.Keys, Looked(pk)) == NewMisses(s.db, s.serverWait.Keys, Looked(pk));
    hide NewMisses, NewWait, LevelLoop, SubLoop, SuccessHashes;
    match pk
    case Level(lc) => LevelMisses(b0, |s.counts|, lc.pos, lc.blobHashes);
    case Sub(sc) =>
      SubMisses(b0, |s.counts|, sc.entries);
      SubReplySame(s, sc);
  }

  lemma BuiltReply(s: State, pk: Packet)
    ensures BuiltFrom(s, pk).reply == ReplyTo(s.db, s.serverWait.Keys, pk)
    ensures BuiltFrom(s, pk).hitBlobs == FoundBlobs(s.db, Looked(pk))
  {
    MissesOf(s, pk);
    ReplyIsComplete(s, pk);
    hide NewMisses, Looked, Stored, BuildLevel, BuildSub;
  }

  lemma {:induction false} LevelKept(b: Build, id: nat, pos: ChunkPos, hs: seq<Hash>)
    ensures var r := LevelLoop(b, id, pos, hs).s;
            && r.wire == b.s.wire && r.hits == b.s.hits && r.db == b.s.db
            && r.toClient == b.s.toClient && r.processed == b.s.processed
    decreases |hs|
  {
    if hs != [] { LevelKept(LevelStep(b, id, pos, hs[0]), id, pos, hs[1..]); }
  }

  lemma {:induction false} SubKept(b: Build, id: nat, es: seq<Entry>)
    ensures var r := SubLoop(b, id, es).s;
            && r.wire == b.s.wire && r.hits == b.s.hits && r.db == b.s.db
            && r.toClient == b.s.toClient && r.processed == b.s.processed
    decreases |es|
  {
    if es != [] { SubKept(SubStep(b, id, es[0]), id, es[1..]); }
  }

  lemma BuiltKept(s: State, pk: Packet)
    ensures var r := BuiltFrom(s, pk).s;
            && r.wire == s.wire && r.hits == s.hits && r.db == s.db
            && r.toClient == s.toClient && r.processed == s.processed
  {
    var b0 := Build(NewWait(s, pk), Reply([], []), []);
    assert b0.s.wire == s.wire && b0.s.hits == s.hits && b0.s.db == s.db;
    hide LevelLoop, SubLoop, Touches, AppendAll, InitialFill;
    match pk
    case Level(lc) => LevelKept(b0, |s.counts|, lc.pos, lc.blobHashes);
    case Sub(sc) => SubKept(b0, |s.counts|, sc.entries);
  }

  function StatusIfAny(reply: Reply): seq<Wire> {
    if reply.hit == [] && reply.miss == [] then [] else [Status(reply)]
  }

  function HitsIfAny(blobs: seq<CacheBlob>): seq<seq<CacheBlob>> {
    if blobs == [] then [] else [blobs]
  }

  lemma AnnounceForm(b: Build)
    ensures Announce(b).hits == b.s.hits + HitsIfAny(b.hitBlobs)
    ensures Announce(b).wire == b.s.wire + StatusIfAny(b.reply)
  {
    assert b.s.hits + [] == b.s.hits && b.s.wire + [] == b.s.wire;
  }

  function InputOf(pk: Packet, client: Client): Input {
    match pk
    case Level(lc) => LevelChunkIn(lc, client)
    case Sub(sc) => SubChunkIn(sc, client)
  }

  // Handling a packet is building its wait and finishing it.
  lemma PacketForm(repaired: bool, s: State, pk: Packet, client: Client)
    ensures var r := Handle(repaired, s, InputOf(pk, client));
            r == FinishState(repaired, BuiltFrom(s, pk), |s.counts|, client).(arrived := r.arrived)
  {
    hide FinishState, BuildLevel, BuildSub;
  }

  // The blobs of a packet that are stored already go to the capture, in order. The server gets one status, with all
  // their hashes and those that were not asked for before, or none if there are neither.
  lemma PacketReports(repaired: bool, s: State, pk: Packet, client: Client)
    ensures var r := Handle(repaired, s, InputOf(pk, client));
            && r.hits == s.hits + HitsIfAny(FoundBlobs(s.db, Looked(pk)))
            && r.wire == s.wire + StatusIfAny(ReplyTo(s.db, s.serverWait.Keys, pk))
            && r.db == s.db
  {
    PacketForm(repaired, s, pk, client);
    BuiltReply(s, pk);
    BuiltKept(s, pk);
    var b := BuiltFrom(s, pk);
    AnnounceForm(b);
    AnnounceSame(b);
    FinishOutside(repaired, b, |s.counts|, client);
    hide Handle, FinishState, BuiltFrom, Announce, FoundBlobs, ReplyTo, StatusIfAny, HitsIfAny, Looked;
  }

  // ---- what a column waits for ----

  ghost function NotedAt(m: map<ChunkPos, seq<Hash>>, pos: ChunkPos): seq<Hash> {
    if pos in m then m[pos] else []
  }

  // From `m` to `r` the hashes are added to the column, and to no other.
  ghost predicate Notes(m: map<ChunkPos, seq<Hash>>, r: map<ChunkPos, seq<Hash>>, pos: ChunkPos, hs: seq<Hash>) {
    && NotedAt(r, pos) == NotedAt(m, pos) + hs
    && (pos in r <==> pos in m || hs != [])
    && forall p :: p != pos ==> (p in r <==> p in m) && NotedAt(r, p) == NotedAt(m, p)
  }

  lemma NotesTrans(m: map<ChunkPos, seq<Hash>>, t: map<ChunkPos, seq<Hash>>, r: map<ChunkPos, seq<Hash>>,
                   pos: ChunkPos, a: seq<Hash>, b: seq<Hash>)
    requires Notes(m, t, pos, a) && Notes(t, r, pos, b)
    ensures Notes(m, r, pos, a + b)
  {
    hide NotedAt;
    assert NotedAt(m, pos) + a + b == NotedAt(m, pos) + (a + b);
  }

  lemma LevelStepNotes(b: Build, id: nat, pos: ChunkPos, h: Hash)
    ensures var r := LevelStep(b, id, pos, h).s;
            Notes(b.s.levelChunksWaiting, r.levelChunksWaiting, pos, if h in b.s.db then [] else [h]) && r.db == b.s.db
  {
    assert NotedAt(b.s.levelChunksWaiting, pos) + [] == NotedAt(b.s.levelChunksWaiting, pos);
  }

  lemma {:induction false} LevelNotes(b: Build, id: nat, pos: ChunkPos, hs: seq<Hash>)
    ensures Notes(b.s.levelChunksWaiting, LevelLoop(b, id, pos, hs).s.levelChunksWaiting, pos, Missing(b.s.db, hs))
    decreases |hs|
  {
    if hs == [] {
      assert NotedAt(b.s.levelChunksWaiting, pos) + [] == NotedAt(b.s.levelChunksWaiting, pos);
    } else {
      var b1 := LevelStep(b, id, pos, hs[0]);
      var first := if hs[0] in b.s.db then [] else [hs[0]];
      LevelStepNotes(b, id, pos, hs[0]);
      LevelNotes(b1, id, pos, hs[1..]);
      assert LevelLoop(b, id, pos, hs) == LevelLoop(b1, id, pos, hs[1..]);
      assert Missing(b.s.db, hs) == first + Missing(b.s.db, hs[1..]);
      hide *;
      NotesTrans(b.s.levelChunksWaiting, b1.s.levelChunksWaiting, LevelLoop(b1, id, pos, hs[1..]).s.levelChunksWaiting,
        pos, first, Missing(b.s.db, hs[1..]));
    }
  }

  // A level chunk adds the hashes it misses to its column, in order, and leaves the other columns alone.
  lemma ColumnNotes(s: State, lc: LevelChunk)
    ensures Notes(s.levelChunksWaiting, BuildLevel(s, lc).s.levelChunksWaiting, lc.pos, Missing(s.db, lc.blobHashes))
  {
    LevelNotes(Build(NewWait(s, Level(lc)), Reply([], []), []), |s.counts|, lc.pos, lc.blobHashes);
    hide LevelLoop, Notes, Missing, InitialFill;
  }

  // ---- the database ----

  function Put(db: Db, blobs: seq<CacheBlob>): Db
    decreases |blobs|
  {
    if blobs == [] then db else Put(db[blobs[0].hash := blobs[0].payload], blobs[1..])
  }

  // The payload that came last for a hash.
  function LastBlob(blobs: seq<CacheBlob>, h: Hash): Option<Bytes> {
    if blobs == [] then None
    else if blobs[|blobs| - 1].hash == h then Some(blobs[|blobs| - 1].payload)
    else LastBlob(blobs[..|blobs| - 1], h)
  }

  lemma {:induction false} PutAppend(db: Db, a: seq<CacheBlob>, b: seq<CacheBlob>)
    ensures Put(db, a + b) == Put(Put(db, a), b)
    decreases |a|
  {
    if a == [] {
      assert a + b == b;
    } else {
      assert (a + b)[1..] == a[1..] + b;
      PutAppend(db[a[0].hash := a[0].payload], a[1..], b);
    }
  }

  lemma {:induction false} PutLast(db: Db, blobs: seq<CacheBlob>, h: Hash)
    ensures h in Put(db, blobs) <==> LastBlob(blobs, h).Some? || h in db
    ensures h in Put(db, blobs) ==>
              Put(db, blobs)[h] == if LastBlob(blobs, h).Some? then LastBlob(blobs, h).value else db[h]
    decreases |blobs|
  {
    if blobs != [] {
      var last := |blobs| - 1;
      PutAppend(db, blobs[..last], blobs[last..]);
      assert blobs[..last] + blobs[last..] == blobs;
      PutLast(db, blobs[..last], h);
      assert blobs[last..][1..] == [];
      assert Put(Put(db, blobs[..last]), blobs[last..]) == Put(db,
             blobs[..last])[blobs[last].hash := blobs[last].payload];
    }
  }

  function AnswersOf(blobs: seq<CacheBlob>): seq<Wire> {
    seq(|blobs|, i requires 0 <= i < |blobs| => Answer(blobs[i]))
  }

  lemma AnswersFirst(blobs: seq<CacheBlob>)
    requires blobs != []
    ensures AnswersOf(blobs) == [Answer(blobs[0])] + AnswersOf(blobs[1..])
  {
  }

  lemma BlobStepReports(repaired: bool, s: State, blob: CacheBlob, client: Client)
    requires Quiet(repaired, s)
    ensures var r := BlobStep(repaired, s, blob, client);
            r.hits == s.hits && r.wire == s.wire + [Answer(blob)] && r.db == s.db[blob.hash := blob.payload]
  {
    BlobStepOutside(repaired, s, blob, client);
    ReceiveOutside(s, blob);
    assert Receive(s, blob).hits == s.hits;
    hide Quiet, BlobStep, Receive;
  }

  lemma BlobLoopForm(repaired: bool, s: State, blobs: seq<CacheBlob>, client: Client)
    ensures BlobLoop(repaired, s, blobs, client) ==
            if blobs == [] then s else BlobLoop(repaired, BlobStep(repaired, s, blobs[0], client), blobs[1..], client)
  {
    hide BlobStep;
  }

  lemma AnswersNone(w: seq<Wire>, db: Db)
    ensures w + AnswersOf([]) == w && Put(db, []) == db
  {
  }

  lemma AnswersNext(w: seq<Wire>, db: Db, blobs: seq<CacheBlob>)
    requires blobs != []
    ensures w + AnswersOf(blobs) == w + [Answer(blobs[0])] + AnswersOf(blobs[1..])
    ensures Put(db, blobs) == Put(db[blobs[0].hash := blobs[0].payload], blobs[1..])
  {
    AnswersFirst(blobs);
    hide AnswersOf;
    assert w + ([Answer(blobs[0])] + AnswersOf(blobs[1..])) == w + [Answer(blobs[0])] + AnswersOf(blobs[1..]);
  }

  lemma {:induction false} BlobsReport(repaired: bool, s: State, blobs: seq<CacheBlob>, client: Client)
    requires Quiet(repaired, s)
    ensures var r := BlobLoop(repaired, s, blobs, client);
            r.hits == s.hits && r.wire == s.wire + AnswersOf(blobs) && r.db == Put(s.db, blobs)
    decreases |blobs|
  {
    hide *;
    BlobLoopForm(repaired, s, blobs, client);
    if blobs == [] {
      AnswersNone(s.wire, s.db);
    } else {
      BlobStepReports(repaired, s, blobs[0], client);
      BlobStepKeeps(repaired, s, blobs[0], client);
      AnswersNext(s.wire, s.db, blobs);
      BlobsReport(repaired, BlobStep(repaired, s, blobs[0], client), blobs[1..], client);
    }
  }

  // ---- runs ----

  function BlobsFrom(i: Input): seq<CacheBlob> {
    if i.BlobsIn? then i.blobs else []
  }

  // What an input sends to the capture, over a database.
  function HitsFrom(db: Db, i: Input): seq<seq<CacheBlob>> {
    match i
    case LevelChunkIn(lc, _) => HitsIfAny(FoundBlobs(db, Looked(Level(lc))))
    case SubChunkIn(sc, _) => HitsIfAny(FoundBlobs(db, Looked(Sub(sc))))
    case _ => []
  }

  // What is said to and by the server because of an input, when the hashes in `waiting` have been asked for.
  function SaidAbout(db: Db, waiting: set<Hash>, i: Input): seq<Wire> {
    match i
    case LevelChunkIn(lc, _) => StatusIfAny(ReplyTo(db, waiting, Level(lc)))
    case SubChunkIn(sc, _) => StatusIfAny(ReplyTo(db, waiting, Sub(sc)))
    case BlobsIn(blobs, _) => AnswersOf(blobs)
    case ClientStatusIn(_) => []
  }

  lemma HandleReports(repaired: bool, s: State, i: Input)
    requires Quiet(repaired, s)
    ensures var r := Handle(repaired, s, i);
            && r.db == Put(s.db, BlobsFrom(i))
            && r.hits == s.hits + HitsFrom(s.db, i)
            && r.wire == s.wire + SaidAbout(s.db, s.serverWait.Keys, i)
  {
    hide Quiet, HandleLevelChunk, HandleSubChunk, BlobLoop, ClientStatus, FoundBlobs, ReplyTo, AnswersOf;
    match i
    case LevelChunkIn(lc, client) => PacketReports(repaired, s, Level(lc), client);
    case SubChunkIn(sc, client) => PacketReports(repaired, s, Sub(sc), client);
    case BlobsIn(blobs, client) => BlobsReport(repaired, s, blobs, client);
    case ClientStatusIn(misses) => StatusOutside(s, misses);
  }

  // The blobs of all responses, in order.
  function AllBlobs(inputs: seq<Input>): seq<CacheBlob> {
    if inputs == [] then [] else AllBlobs(inputs[..|inputs| - 1]) + BlobsFrom(inputs[|inputs| - 1])
  }

  // What goes to the capture.
  function Captured(db: Db, inputs: seq<Input>): seq<seq<CacheBlob>> {
    if inputs == [] then [] else
      var before := inputs[..|inputs| - 1];
      Captured(db, before) + HitsFrom(Put(db, AllBlobs(before)), inputs[|inputs| - 1])
  }

  // What is said between cache and server.
  ghost function Conversation(db: Db, inputs: seq<Input>): seq<Wire> {
    if inputs == [] then [] else
      var before := inputs[..|inputs| - 1];
      var w := Conversation(db, before);
      w + SaidAbout(Put(db, AllBlobs(before)), InFlight(w), inputs[|inputs| - 1])
  }

  lemma ReportsLast(db: Db, inputs: seq<Input>)
    requires inputs != []
    ensures var before, last := inputs[..|inputs| - 1], inputs[|inputs| - 1];
            var now, w := Put(db, AllBlobs(before)), Conversation(db, before);
            && AllBlobs(inputs) == AllBlobs(before) + BlobsFrom(last)
            && Captured(db, inputs) == Captured(db, before) + HitsFrom(now, last)
            && Conversation(db, inputs) == w + SaidAbout(now, InFlight(w), last)
  {
    hide Put, BlobsFrom, HitsFrom, SaidAbout, InFlight;
  }

  lemma ReportsNone(repaired: bool, db: Db)
    ensures var s := Run(repaired, db, []);
            s.db == Put(db, AllBlobs([])) && s.hits == Captured(db, []) && s.wire == Conversation(db, [])
  {
  }

  // Told from the inputs alone: what is stored is what was there and what came in, the last one for each hash; and
  // everything that goes to the capture and to the server.
  lemma {:induction false} RunReports(repaired: bool, db: Db, inputs: seq<Input>)
    ensures var s := Run(repaired, db, inputs);
            && s.db == Put(db, AllBlobs(inputs))
            && s.hits == Captured(db, inputs)
            && s.wire == Conversation(db, inputs)
    decreases |inputs|
  {
    hide *;
    if inputs == [] {
      ReportsNone(repaired, db);
    } else {
      var before, last := inputs[..|inputs| - 1], inputs[|inputs| - 1];
      RunReports(repaired, db, before);
      RunKeeps(repaired, db, before);
      OneFlightPerBlob(repaired, db, before);
      HandleReports(repaired, Run(repaired, db, before), last);
      RunStep(repaired, db, inputs);
      ReportsLast(db, inputs);
      PutAppend(db, AllBlobs(before), BlobsFrom(last));
    }
  }
}
