// utils/proxy/blobcache/blobcache.go: the blob cache object, as written. The waits are shared heap objects;
// every handler is proved to do what BlobSpec says of the state they stand for.

module BlobcacheObject {
  import opened BlobPackets
  import opened Occurrences
  import opened BlobSpec

  // A decoded sub chunk packet: its entries are a slice, which several packets may share.
  datatype SubPacket = SubPacket(cacheEnabled: bool, dimension: int, position: Vec3, entries: array<Entry>)

  datatype FillRef = LevelFill(lc: LevelChunk) | SubFill(sp: SubPacket)

  ghost function SubValue(sp: SubPacket): SubChunk
    reads sp.entries
  {
    SubChunk(sp.cacheEnabled, sp.dimension, sp.position, sp.entries[..])
  }

  class ServerWait {
    var pkFill: FillRef
    var count: int
    ghost const id: nat

    constructor (pkFill: FillRef, ghost id: nat)
      ensures this.pkFill == pkFill && count == 0 && this.id == id
    {
      this.pkFill, this.count, this.id := pkFill, 0, id;
    }
  }

  class ClientWaitRef {
    var count: int
    var hashes: seq<Hash>
    ghost const id: nat

    constructor (ghost id: nat)
      ensures count == 0 && hashes == [] && this.id == id
    {
      count, hashes, this.id := 0, [], id;
    }
  }

  // What a handler returns: nothing, or a packet to forward.
  datatype Forwarded = Nothing | Forwarded(pk: FillRef)

  ghost function ForwardedValue(f: Forwarded): seq<Packet>
    reads if f.Forwarded? && f.pk.SubFill? then {f.pk.sp.entries} else {}
  {
    match f
    case Nothing => []
    case Forwarded(LevelFill(lc)) => [Level(lc)]
    case Forwarded(SubFill(sp)) => [Sub(SubValue(sp))]
  }

  // ---- object lists and id lists ----

  ghost function WaitIds(l: seq<ServerWait>): (r: seq<nat>)
    ensures |r| == |l| && forall i :: 0 <= i < |l| ==> r[i] == l[i].id
  {
    seq(|l|, i requires 0 <= i < |l| => l[i].id)
  }

  ghost function ListIds<K(!new)>(m: map<K, seq<ServerWait>>): Lists<K> {
    map k | k in m :: WaitIds(m[k])
  }

  ghost function ClientIds(m: map<Hash, ClientWaitRef>): map<Hash, nat> {
    map h | h in m :: m[h].id
  }

  lemma ListIdsUpdate<K(!new)>(m: map<K, seq<ServerWait>>, k: K, w: ServerWait)
    ensures var l := if k in m then m[k] else [];
            ListIds(m[k := l + [w]]) == Append(ListIds(m), k, w.id)
    ensures ListIds(m - {k}) == ListIds(m) - {k}
    ensures k in m ==> At(ListIds(m), k) == WaitIds(m[k])
  {
    var l := if k in m then m[k] else [];
    assert WaitIds(l + [w]) == WaitIds(l) + [w.id];
    assert WaitIds([]) == [];
  }

  // The lists of a map hold waits of `ws` only.
  ghost predicate Over<K(!new)>(m: map<K, seq<ServerWait>>, ws: seq<ServerWait>) {
    forall k, i :: k in m && 0 <= i < |m[k]| ==> m[k][i] in ws
  }

  lemma OverUpdate<K(!new)>(m: map<K, seq<ServerWait>>, ws: seq<ServerWait>, k: K, w: ServerWait)
    requires Over(m, ws) && w in ws
    ensures Over(m[k := (if k in m then m[k] else []) + [w]], ws)
  {
  }

  ghost predicate ClientsOver(m: map<Hash, ClientWaitRef>, cs: seq<ClientWaitRef>) {
    forall h :: h in m ==> m[h] in cs
  }

  lemma ClientIdsUpdate(m: map<Hash, ClientWaitRef>, cs: seq<ClientWaitRef>, h: Hash, c: ClientWaitRef)
    requires ClientsOver(m, cs)
    ensures ClientIds(m[h := c]) == ClientIds(m)[h := c.id] && ClientIds(m - {h}) == ClientIds(m) - {h}
    ensures ClientsOver(m - {h}, cs) && (c in cs ==> ClientsOver(m[h := c], cs)) && ClientsOver(m, cs + [c])
  {
  }

  // ---- the values of objects ----

  ghost function CountsOf(ws: seq<ServerWait>): (r: seq<int>)
    reads ws`count
    ensures |r| == |ws| && forall i :: 0 <= i < |ws| ==> r[i] == ws[i].count
  {
    if ws == [] then [] else CountsOf(ws[..|ws| - 1]) + [ws[|ws| - 1].count]
  }

  ghost function SliceOf(w: ServerWait): set<array<Entry>>
    reads w`pkFill
  {
    if w.pkFill.SubFill? then {w.pkFill.sp.entries} else {}
  }

  ghost function SlicesOf(ws: seq<ServerWait>): set<array<Entry>>
    reads ws`pkFill
  {
    set i, a | 0 <= i < |ws| && a in SliceOf(ws[i]) :: a
  }

  ghost function FillOf(w: ServerWait): Packet
    reads w`pkFill, SliceOf(w)
  {
    match w.pkFill
    case LevelFill(lc) => Level(lc)
    case SubFill(sp) => Sub(SubValue(sp))
  }

  ghost function FillsOf(ws: seq<ServerWait>): (r: seq<Packet>)
    reads ws`pkFill, SlicesOf(ws)
    ensures |r| == |ws| && forall i :: 0 <= i < |ws| ==> r[i] == FillOf(ws[i])
  {
    if ws == [] then [] else
      var n := |ws| - 1;
      assert forall i :: 0 <= i < n ==> ws[..n][i] == ws[i];
      FillsOf(ws[..n]) + [FillOf(ws[n])]
  }

  ghost function ClientsOf(cs: seq<ClientWaitRef>): (r: seq<ClientWait>)
    reads cs
    ensures |r| == |cs| && forall i :: 0 <= i < |cs| ==> r[i] == ClientWait(cs[i].count, cs[i].hashes)
  {
    if cs == [] then [] else ClientsOf(cs[..|cs| - 1]) + [ClientWait(cs[|cs| - 1].count, cs[|cs| - 1].hashes)]
  }

  lemma StatusForm(s: State, misses: seq<Hash>)
    ensures var s1 := s.(clientWaits := s.clientWaits + [ClientWait(0, [])], toClient := s.toClient + [Missed(misses)]);
            var s2 := StatusLoop(s1, |s.clientWaits|, misses);
            var blobs := ClientPayloads(s.db, misses);
            ClientStatus(s, misses) == if blobs == [] then s2 else s2.(toClient := s2.toClient + [Blobs(blobs)])
  {
  }

  lemma StatusStepForm(s: State, c: nat, hs: seq<Hash>)
    ensures hs == [] ==> StatusLoop(s, c, hs) == s
    ensures hs != [] && hs[0] in s.db ==> StatusLoop(s, c, hs) == StatusLoop(s, c, hs[1..])
    ensures hs != [] && hs[0] !in s.db && c < |s.clientWaits| ==>
              var w := s.clientWaits[c];
              StatusLoop(s, c, hs)
              == StatusLoop(s.(clientWaits := s.clientWaits[c := ClientWait(w.count + 1, w.hashes + [hs[0]])],
                               clientWait := s.clientWait[hs[0] := c]), c, hs[1..])
  {
  }

  lemma PayloadsForm(db: Db, hs: seq<Hash>)
    ensures hs == [] ==> ClientPayloads(db, hs) == []
    ensures hs != [] ==>
              ClientPayloads(db, hs) == (if hs[0] in db then [CacheBlob(hs[0], db[hs[0]])] else [])
                + ClientPayloads(db, hs[1..])
  {
  }

  lemma ClientForm(s: State, h: Hash)
    ensures h !in s.clientWait ==> ClientStep(s, h) == s
    ensures h in s.clientWait && s.clientWait[h] < |s.clientWaits| ==>
              var c := s.clientWait[h];
              var s1 := s.(clientWait := s.clientWait - {h});
              var w := s1.clientWaits[c].(count := s1.clientWaits[c].count - 1);
              var s2 := s1.(clientWaits := s1.clientWaits[c := w]);
              ClientStep(s, h) ==
              if w.count == 0 then s2.(toClient := s2.toClient + [Blobs(ClientPayloads(s2.db, w.hashes))]) else s2
  {
  }

  function AnswerStep(s: State, id: nat, client: Client): State {
    var s1 := AddCount(s, id, -1);
    if Complete(s1, id) then Resolve(false, s1, id, client) else s1
  }

  lemma AnswerForm(s: State, id: nat, client: Client)
    ensures var s1 := AddCount(s, id, -1);
            AnswerStep(s, id, client) ==
            if id < |s1.counts| && s1.counts[id] == 0 then Resolve(false, s1, id, client) else s1
  {
  }

  lemma WaiterForm(s: State, l: seq<nat>, client: Client)
    ensures l == [] ==> WaiterLoop(false, s, l, client) == s
    ensures l != [] ==>
              WaiterLoop(false, s, l, client) == WaiterLoop(false, AnswerStep(s, l[0], client), l[1..], client)
  {
  }

  lemma BlobForm(s: State, blob: CacheBlob, client: Client)
    ensures var s1 := ClientStep(s.(db := s.db[blob.hash := blob.payload], wire := s.wire + [Answer(blob)]), blob.hash);
            BlobStep(false, s, blob, client)
            == WaiterLoop(false, s1.(serverWait := s1.serverWait - {blob.hash}), At(s1.serverWait, blob.hash), client)
  {
  }

  lemma BlobLoopForm(s: State, blobs: seq<CacheBlob>, client: Client)
    ensures blobs == [] ==> BlobLoop(false, s, blobs, client) == s
    ensures blobs != [] ==>
              BlobLoop(false, s, blobs, client) == BlobLoop(false, BlobStep(false, s, blobs[0], client), blobs[1..],
                client)
  {
  }

  lemma AddSubsNone(s: State, id: nat)
    ensures AddSubs(s, id, {}) == s
  {
    assert AppendAll(s.subs, {}, id) == s.subs;
    hide AppendAll;
    assert id < |s.counts| ==> s.counts[id := s.counts[id] + 0] == s.counts;
  }

  lemma AddCountTwice(s: State, id: nat, a: int, b: int)
    ensures AddCount(AddCount(s, id, a), id, b) == AddCount(s, id, a + b)
  {
    if id < |s.counts| {
      assert s.counts[id := s.counts[id] + a][id := s.counts[id] + a + b] == s.counts[id := s.counts[id] + (a + b)];
    }
  }

  lemma AddCountSubs(s: State, id: nat, d: int, subs: Lists<ChunkPos>)
    ensures AddCount(s.(subs := subs), id, d) == AddCount(s, id, d).(subs := subs) && AddCount(s, id, d).subs == s.subs
  {
  }

  lemma AddSubsOne(s: State, id: nat, ps: set<ChunkPos>, p: ChunkPos)
    requires p !in ps
    ensures var s1 := AddCount(AddSubs(s, id, ps), id, 1);
            s1.(subs := Append(s1.subs, p, id)) == AddSubs(s, id, ps + {p})
  {
    AppendAllStep(s.subs, ps + {p}, id, p);
    assert ps + {p} - {p} == ps;
    AddCountTwice(s, id, |ps|, 1);
    AddCountSubs(AddCount(s, id, |ps|), id, 1, AppendAll(s.subs, ps, id));
    assert |ps + {p}| == |ps| + 1;
    hide AppendAll, Append, AddCount;
  }

  lemma TouchesStep(position: Vec3, es: seq<Entry>, i: nat)
    requires i <= |es|
    ensures i == 0 ==> Touches(position, es[..i]) == {}
    ensures i < |es| ==>
              Touches(position, es[..i + 1]) ==
              Touches(position, es[..i]) + if es[i].result == Success then {EntryPos(position, es[i])} else {}
  {
    if i < |es| {
      var a, b := es[..i], es[..i + 1];
      assert b[i] == es[i] && forall k :: 0 <= k < i ==> b[k] == a[k];
      forall p | p in Touches(position, b) && !(es[i].result == Success && p == EntryPos(position, es[i]))
        ensures p in Touches(position, a)
      {
        var k :| 0 <= k < |b| && b[k].result == Success && EntryPos(position, b[k]) == p;
        assert k < i && a[k] == b[k];
      }
      forall p | p in Touches(position, a) ensures p in Touches(position, b) {
        var k :| 0 <= k < |a| && a[k].result == Success && EntryPos(position, a[k]) == p;
        assert b[k] == a[k];
      }
    }
  }

  function Registered(s: State, id: nat, h: Hash): State {
    AddCount(s, id, 1).(serverWait := Append(s.serverWait, h, id))
  }

  lemma SubForm(s: State, reply: Reply, hitBlobs: seq<CacheBlob>, id: nat, es: seq<Entry>)
    ensures es == [] ==> SubLoop(Build(s, reply, hitBlobs), id, es) == Build(s, reply, hitBlobs)
    ensures es != [] && es[0].result != Success ==>
              SubLoop(Build(s, reply, hitBlobs), id, es) == SubLoop(Build(s, reply, hitBlobs), id, es[1..])
    ensures es != [] && es[0].result == Success && es[0].blobHash in s.db ==>
              var h := es[0].blobHash;
              SubLoop(Build(s, reply, hitBlobs), id, es)
              == SubLoop(Build(s, reply.(hit := reply.hit + [h]), hitBlobs + [CacheBlob(h, s.db[h])]), id, es[1..])
    ensures es != [] && es[0].result == Success && es[0].blobHash !in s.db ==>
              var h := es[0].blobHash;
              SubLoop(Build(s, reply, hitBlobs), id, es)
              == SubLoop(Build(Registered(s, id, h),
                               if h in s.serverWait then reply else reply.(miss := reply.miss + [h]), hitBlobs),
                         id, es[1..])
  {
  }

  lemma HandleSubForm(s: State, sc: SubChunk, client: Client)
    ensures var b := SubLoop(Build(NewWait(s, Sub(sc)), Reply([], []), []), |s.counts|, sc.entries);
            var ps := Touches(sc.position, sc.entries) * b.s.levelChunksWaiting.Keys;
            HandleSubChunk(false, s, sc, client)
            == FinishState(false, Build(AddSubs(b.s, |s.counts|, ps), b.reply, b.hitBlobs), |s.counts|, client)
  {
  }

  lemma InitialSub(sp: SubPacket, pkFill: SubPacket)
    requires pkFill == sp.(cacheEnabled := false)
    ensures InitialFill(Sub(SubValue(sp))) == Sub(SubValue(pkFill))
    ensures SubValue(sp) == SubChunk(sp.cacheEnabled, sp.dimension, sp.position, sp.entries[..])
  {
  }

  lemma SubHasSlice(w: ServerWait)
    ensures w.pkFill.SubFill? <==> SliceOf(w) != {}
    ensures w.pkFill.SubFill? ==> SliceOf(w) == {w.pkFill.sp.entries}
  {
  }

  lemma ForwardedSubForm(w: ServerWait, sp: SubPacket, sc: SubChunk)
    requires SliceOf(w) == {sp.entries} && w.pkFill.SubFill?
    requires sc.cacheEnabled == sp.cacheEnabled && sc.dimension == sp.dimension && sc.position == sp.position
    ensures ForwardedValue(Forwarded(w.pkFill)) == [FillOf(w)] && ForwardedValue(Nothing) == []
    ensures ForwardedValue(Forwarded(SubFill(sp))) == [Forward(Sub(sc), FillOf(w))]
  {
    assert w.pkFill.sp.entries in SliceOf(w);
  }

  lemma LevelHasNoSlice(w: ServerWait)
    ensures w.pkFill.LevelFill? ==> SliceOf(w) == {}
  {
  }

  lemma ForwardedForm(w: ServerWait, lc: LevelChunk)
    ensures ForwardedValue(Forwarded(w.pkFill)) == [FillOf(w)] && ForwardedValue(Nothing) == []
    ensures ForwardedValue(Forwarded(LevelFill(lc))) == [Level(lc)]
  {
  }

  lemma ForwardForm(s: State, id: nat, pk: Packet, client: Client)
    requires id < |s.fills|
    ensures FinishForward(s, id, pk, client) ==
            match client
            case NoClient => []
            case CachingClient => [Forward(pk, s.fills[id])]
            case PlainClient => if Complete(s, id) then [s.fills[id]] else []
    ensures pk.Level? ==> Forward(pk, s.fills[id]) == pk
  {
  }

  lemma HandleLevelForm(s: State, lc: LevelChunk, client: Client)
    ensures var b := LevelLoop(Build(NewWait(s, Level(lc)), Reply([], []), []), |s.counts|, lc.pos, lc.blobHashes);
            var r := FinishState(false, b, |s.counts|, client);
            HandleLevelChunk(false, s, lc, client) == r.(arrived := r.arrived + {lc.pos})
  {
  }

  lemma LevelForm(s: State, reply: Reply, hitBlobs: seq<CacheBlob>, id: nat, pos: ChunkPos, hs: seq<Hash>)
    ensures hs == [] ==> LevelLoop(Build(s, reply, hitBlobs), id, pos, hs) == Build(s, reply, hitBlobs)
    ensures hs != [] && hs[0] in s.db ==>
              LevelLoop(Build(s, reply, hitBlobs), id, pos, hs)
              == LevelLoop(Build(s, reply.(hit := reply.hit + [hs[0]]), hitBlobs + [CacheBlob(hs[0], s.db[hs[0]])]),
                id, pos, hs[1..])
    ensures hs != [] && hs[0] !in s.db ==>
              LevelLoop(Build(s, reply, hitBlobs), id, pos, hs)
              == LevelLoop(Build(NoteLevelChunk(Registered(s, id, hs[0]), pos, hs[0]),
                                 if hs[0] in s.serverWait then reply
                                   else reply.(miss := reply.miss + [hs[0]]), hitBlobs),
                           id, pos, hs[1..])
  {
  }

  lemma CompleteForm(s: State, id: nat)
    ensures Complete(s, id) <==> id < |s.counts| && s.counts[id] == 0
  {
  }

  lemma FinishForm(b: Build, id: nat, client: Client)
    ensures var s := Announce(b);
            FinishState(false, b, id, client) == if Complete(s, id) then Resolve(false, s, id, client) else s
  {
  }

  lemma NewWaitForm(s: State, pk: Packet)
    ensures NewWait(s, pk) == s.(counts := s.counts + [0], fills := s.fills + [InitialFill(pk)],
                                 received := s.received + [Received(pk, s.arrived)])
  {
  }

  lemma RegisteredForm(s: State, id: nat, h: Hash)
    ensures var s1 := AddCount(s, id, 1); Registered(s, id, h) == s1.(serverWait := Append(s1.serverWait, h, id))
  {
  }

  function WakeStep(s: State, id: nat, sub: nat, client: Client): State {
    var s1 := AddCount(s, sub, -1);
    if Complete(s1, sub) then Resolve(false, s1.(woken := s1.woken + [sub]), id, client) else s1
  }

  lemma WakeStepForm(s: State, id: nat, sub: nat, client: Client)
    ensures var s1 := AddCount(s, sub, -1);
            WakeStep(s, id, sub, client) ==
            if sub < |s1.counts| && s1.counts[sub] == 0 then Resolve(false, s1.(woken := s1.woken + [sub]), id, client)
              else s1
  {
  }

  lemma WakeForm(s: State, id: nat, l: seq<nat>, client: Client)
    ensures l == [] ==> WakeLoop(false, s, id, l, client) == s
    ensures l != [] ==>
              WakeLoop(false, s, id, l, client) == WakeLoop(false, WakeStep(s, id, l[0], client), id, l[1..], client)
  {
  }

  lemma FilledKind(d: Db, pk: Packet)
    ensures (FillPacket(d, pk).Level? <==> pk.Level?) && (pk.Level? ==> FillPacket(d, pk).lc.pos == pk.lc.pos)
  {
  }

  lemma ResolveForm(s: State, id: nat, client: Client)
    ensures HasWaiters(s, id) <==> HasWaiters(Process(s, id, client), id)
    ensures !HasWaiters(s, id) ==> Resolve(false, s, id, client) == Process(s, id, client)
    ensures HasWaiters(s, id) ==>
              HasWaiters(Process(s, id, client), id)
              && Waiters(Process(s, id, client), id) == Waiters(s, id)
              && Resolve(false, s, id, client) == WakeLoop(false, TakeWaiters(Process(s, id, client), id), id,
                Waiters(s, id), client)
  {
    if id < |s.fills| {
      FilledKind(s.db, s.fills[id]);
    }
  }

  lemma ProcessForm(s: State, id: nat, client: Client)
    requires id < |s.fills|
    ensures var pk := FillPacket(s.db, s.fills[id]);
            Process(s, id, client) == s.(
              fills := s.fills[id := pk],
              levelChunksWaiting := if s.fills[id].Level? then s.levelChunksWaiting - {s.fills[id].lc.pos}
                else s.levelChunksWaiting,
              processed := s.processed + [Done(id, pk)],
              toClient := if client.PlainClient? then s.toClient + [Filled(pk)] else s.toClient)
  {
  }

  lemma AssembleNext(db: Db, hs: seq<Hash>, i: nat)
    requires i <= |hs|
    ensures Assemble(db, hs[i..]) == if i == |hs| then [] else Load(db, hs[i]) + Assemble(db, hs[i + 1..])
  {
    if i < |hs| {
      assert hs[i..][0] == hs[i] && hs[i..][1..] == hs[i + 1..];
    }
  }

  class Blobcache {
    var db: Db
    var serverWait: map<Hash, seq<ServerWait>>
    var clientWait: map<Hash, ClientWaitRef>
    var levelChunksWaiting: map<ChunkPos, seq<Hash>>
    var subs: map<ChunkPos, seq<ServerWait>>

    // The waits allocated so far, and what was said to the cache's neighbours.
    ghost var waits: seq<ServerWait>
    ghost var clients: seq<ClientWaitRef>
    ghost var received: seq<Received>
    ghost var arrived: set<ChunkPos>
    ghost var wire: seq<Wire>
    ghost var hits: seq<seq<CacheBlob>>
    ghost var processed: seq<Done>
    ghost var toClient: seq<ToClient>
    ghost var woken: seq<nat>

    // ---- what the heap stands for ----

    ghost function Abs(): State
      reads this, waits, clients, SlicesOf(waits)
    {
      State(db, CountsOf(waits), FillsOf(waits), ListIds(serverWait), levelChunksWaiting, ListIds(subs),
        ClientsOf(clients),
            ClientIds(clientWait), received, arrived, wire, hits, processed, toClient, woken)
    }

    // Waits are told apart by their ids, and no two share a slice.
    ghost predicate Valid()
      reads this, waits, clients
    {
      && (forall i :: 0 <= i < |waits| ==> waits[i].id == i)
      && (forall i, j :: 0 <= i < j < |waits| && waits[i].pkFill.SubFill? && waits[j].pkFill.SubFill? ==>
            waits[i].pkFill.sp.entries != waits[j].pkFill.sp.entries)
      && (forall i :: 0 <= i < |clients| ==> clients[i].id == i)
      && Over(serverWait, waits) && Over(subs, waits)
      && ClientsOver(clientWait, clients)
    }

    constructor (db: Db)
      ensures Valid() && Abs() == Initial(db)
    {
      this.db, serverWait, clientWait, levelChunksWaiting, subs := db, map[], map[], map[], map[];
      waits, clients, received, arrived := [], [], [], {};
      wire, hits, processed, toClient, woken := [], [], [], [], [];
    }

    // Packets that were not written to keep their values.
    twostate lemma FillsKept()
      requires waits == old(waits) && forall v :: v in waits ==> v.pkFill == old(v.pkFill)
      requires forall a :: a in old(SlicesOf(waits)) ==> a[..] == old(a[..])
      ensures FillsOf(waits) == old(FillsOf(waits)) && SlicesOf(waits) == old(SlicesOf(waits))
    {
      forall i | 0 <= i < |waits|
        ensures FillOf(waits[i]) == old(FillOf(waits[i])) && SliceOf(waits[i]) == old(SliceOf(waits[i]))
      {
        var w := waits[i];
        assert old(SliceOf(w)) <= old(SlicesOf(waits)) by {
          forall a | a in old(SliceOf(w)) ensures a in old(SlicesOf(waits)) { assert w == old(waits)[i]; }
        }
      }
    }

    // Counters and client waits that were not written to keep theirs.
    twostate lemma CountsKept()
      requires waits == old(waits) && clients == old(clients)
      requires forall v :: v in waits ==> v.count == old(v.count)
      requires forall c :: c in clients ==> c.count == old(c.count) && c.hashes == old(c.hashes)
      ensures CountsOf(waits) == old(CountsOf(waits)) && ClientsOf(clients) == old(ClientsOf(clients))
    {
    }

    twostate lemma OneCount(w: ServerWait)
      requires old(Valid()) && waits == old(waits) && clients == old(clients) && w in waits
      requires forall v :: v in waits && v != w ==> v.count == old(v.count)
      requires forall c :: c in clients ==> c.count == old(c.count) && c.hashes == old(c.hashes)
      ensures CountsOf(waits) == old(CountsOf(waits))[w.id := w.count]
      ensures ClientsOf(clients) == old(ClientsOf(clients))
    {
    }

    twostate lemma ValidKept()
      requires old(Valid()) && waits == old(waits) && clients == old(clients)
      requires serverWait == old(serverWait) && subs == old(subs) && clientWait == old(clientWait)
      requires forall v :: v in waits ==> SliceOf(v) == old(SliceOf(v))
      ensures Valid()
    {
      forall i, j | 0 <= i < j < |waits| && waits[i].pkFill.SubFill? && waits[j].pkFill.SubFill?
        ensures waits[i].pkFill.sp.entries != waits[j].pkFill.sp.entries
      {
        assert waits[i].pkFill.sp.entries in SliceOf(waits[i]) && waits[j].pkFill.sp.entries in SliceOf(waits[j]);
      }
    }

    twostate lemma OneClient(c: ClientWaitRef)
      requires old(Valid()) && waits == old(waits) && clients == old(clients) && c in clients
      requires forall v :: v in waits ==> v.count == old(v.count)
      requires forall d :: d in clients && d != c ==> d.count == old(d.count) && d.hashes == old(d.hashes)
      ensures CountsOf(waits) == old(CountsOf(waits))
      ensures c.id < |clients| && old(ClientsOf(clients)[c.id]) == ClientWait(old(c.count), old(c.hashes))
      ensures ClientsOf(clients) == old(ClientsOf(clients))[c.id := ClientWait(c.count, c.hashes)]
    {
    }

    // wait.count += d.
    method Count(w: ServerWait, d: int)
      requires Valid() && w in waits
      modifies w`count
      ensures Valid() && Abs() == AddCount(old(Abs()), w.id, d)
      ensures w.count == old(w.count) + d
    {
      hide CountsOf, FillsOf, ClientsOf, FillOf, ListIds, SlicesOf, SliceOf, Over;
      w.count := w.count + d;
      FillsKept();
      OneCount(w);
      ValidKept();
    }

    // ---- serverResolve ----

    method FillLevelChunk(lc: LevelChunk) returns (r: LevelChunk)
      ensures r == FillLevel(db, lc)
    {
      hide Assemble;
      var payload, hs := [], lc.blobHashes;
      var i := 0;
      assert [] + Assemble(db, hs) == Assemble(db, hs) && hs[0..] == hs;
      while i < |hs|
        invariant 0 <= i <= |hs|
        invariant payload + Assemble(db, hs[i..]) == Assemble(db, hs)
      {
        AssembleNext(db, hs, i);
        var blob := Load(db, hs[i]);
        assert payload + (blob + Assemble(db, hs[i + 1..])) == payload + blob + Assemble(db, hs[i + 1..]);
        payload := payload + blob;
        i := i + 1;
      }
      AssembleNext(db, hs, i);
      assert payload + [] == payload;
      r := lc.(payload := payload + lc.payload, cacheEnabled := false, blobHashes := []);
    }

    method FillSlice(es: array<Entry>)
      modifies es
      ensures es[..] == FillEntries(db, old(es[..]))
    {
      for i := 0 to es.Length
        invariant forall k :: 0 <= k < i ==> es[k] == FillEntry(db, old(es[k]))
        invariant forall k :: i <= k < es.Length ==> es[k] == old(es[k])
      {
        if es[i].blobHash != 0 {
          es[i] := es[i].(payload := Load(db, es[i].blobHash), blobHash := 0);
        }
      }
    }

    // The packet of a wait is filled in where it is: a level chunk in the wait, a sub chunk in its slice.
    method FillIn(w: ServerWait)
      requires Valid() && w in waits
      modifies w`pkFill, SliceOf(w)
      ensures FillOf(w) == FillPacket(db, old(FillOf(w)))
      ensures SliceOf(w) == old(SliceOf(w))
    {
      match w.pkFill
      case LevelFill(lc) =>
        var filled := FillLevelChunk(lc);
        w.pkFill := LevelFill(filled);
      case SubFill(sp) =>
        FillSlice(sp.entries);
        w.pkFill := SubFill(sp.(cacheEnabled := false));
    }

    // Filling in one wait changes no other.
    twostate lemma OnlyOneFilled(w: ServerWait)
      requires old(Valid()) && w in old(waits) && waits == old(waits)
      requires SliceOf(w) == old(SliceOf(w))
      requires forall v :: v in waits && v != w ==> v.pkFill == old(v.pkFill)
      requires forall v :: v in waits && v != w && v.pkFill.SubFill? && v.pkFill.sp.entries !in SliceOf(w) ==>
                 v.pkFill.sp.entries[..] == old(v.pkFill.sp.entries[..])
      ensures FillsOf(waits) == old(FillsOf(waits))[w.id := FillOf(w)]
      ensures SlicesOf(waits) == old(SlicesOf(waits))
    {
      assert forall i :: 0 <= i < |waits| ==> SliceOf(waits[i]) == old(SliceOf(waits[i]));
      forall i | 0 <= i < |waits| && waits[i] != w ensures FillOf(waits[i]) == old(FillOf(waits[i])) {
        assert waits[i].id != w.id;
      }
    }

    // Fill in the packet of a wait: the state of the cache changes in that one packet.
    method FillWait(w: ServerWait)
      requires Valid() && w in waits
      modifies w`pkFill, SliceOf(w)
      ensures Valid() && SlicesOf(waits) == old(SlicesOf(waits))
      ensures forall v :: v in waits ==> SliceOf(v) == old(SliceOf(v))
      ensures w.id < |waits| && waits[w.id] == w
      ensures Abs() == (var s := old(Abs()); s.(fills := s.fills[w.id := FillPacket(s.db, s.fills[w.id])]))
      ensures FillOf(w) == Abs().fills[w.id]
    {
      hide CountsOf, FillsOf, ClientsOf, FillOf, SlicesOf, SliceOf, ListIds, FillPacket;
      FillIn(w);
      OnlyOneFilled(w);
      CountsKept();
      ValidKept();
    }

    // The objects of the cache are as they were: only its maps and its history may differ.
    twostate predicate ObjectsKept()
      reads this, waits, clients, SlicesOf(waits)
    {
      && waits == old(waits) && clients == old(clients)
      && (forall v :: v in waits ==> v.pkFill == old(v.pkFill) && v.count == old(v.count))
      && (forall c :: c in clients ==> c.count == old(c.count) && c.hashes == old(c.hashes))
      && (forall a :: a in old(SlicesOf(waits)) ==> a[..] == old(a[..]))
    }

    twostate lemma KeptValues()
      requires ObjectsKept()
      ensures CountsOf(waits) == old(CountsOf(waits)) && ClientsOf(clients) == old(ClientsOf(clients))
      ensures FillsOf(waits) == old(FillsOf(waits)) && SlicesOf(waits) == old(SlicesOf(waits))
    {
      CountsKept();
      FillsKept();
    }

    // A step that writes no object.
    twostate lemma KeptAbs()
      requires old(Valid()) && ObjectsKept()
      requires Over(serverWait, waits) && Over(subs, waits) && ClientsOver(clientWait, clients)
      ensures Valid() && SlicesOf(waits) == old(SlicesOf(waits))
      ensures var s := old(Abs());
              Abs() == State(db, s.counts, s.fills, ListIds(serverWait), levelChunksWaiting, ListIds(subs),
                s.clientWaits,
                             ClientIds(clientWait), received, arrived, wire, hits, processed, toClient, woken)
    {
      KeptValues();
      hide CountsOf, FillsOf, ClientsOf, FillOf, SlicesOf, SliceOf, ListIds, ClientIds, Over;
    }

    // Mark a column as processed (line 306).
    method Forget(pos: ChunkPos)
      requires Valid()
      modifies this`levelChunksWaiting
      ensures Valid() && SlicesOf(waits) == old(SlicesOf(waits))
      ensures Abs() == old(Abs()).(levelChunksWaiting := old(Abs()).levelChunksWaiting - {pos})
    {
      levelChunksWaiting := levelChunksWaiting - {pos};
      KeptAbs();
      hide Valid, CountsOf, FillsOf, ClientsOf, FillOf, SlicesOf, SliceOf, ListIds;
    }

    // processPacket, and WritePacket to a client without a cache (lines 338-351).
    method Deliver(w: ServerWait, client: Client)
      requires Valid() && w in waits
      modifies this`processed, this`toClient
      ensures Valid() && SlicesOf(waits) == old(SlicesOf(waits))
      ensures var s, pk := old(Abs()), old(FillOf(w));
              Abs() == s.(processed := s.processed + [Done(w.id, pk)],
                          toClient := if client.PlainClient? then s.toClient + [Filled(pk)] else s.toClient)
    {
      ghost var pk := FillOf(w);
      processed := processed + [Done(w.id, pk)];
      toClient := if client.PlainClient? then toClient + [Filled(pk)] else toClient;
      KeptAbs();
      hide Valid, CountsOf, FillsOf, ClientsOf, FillOf, SlicesOf, SliceOf, ListIds;
    }

    // The waiters of a column are taken out of their map (lines 354-355).
    method TakeSubs(pos: ChunkPos) returns (waiting: seq<ServerWait>)
      requires Valid() && pos in subs
      modifies this`subs
      ensures Valid() && SlicesOf(waits) == old(SlicesOf(waits))
      ensures waiting == old(subs[pos]) && subs == old(subs) - {pos}
      ensures (forall w :: w in waiting ==> w in waits) && WaitIds(waiting) == old(Abs()).subs[pos]
      ensures Abs() == old(Abs()).(subs := old(Abs()).subs - {pos})
    {
      waiting := subs[pos];
      subs := subs - {pos};
      KeptAbs();
      hide Valid, CountsOf, FillsOf, ClientsOf, FillOf, SlicesOf, SliceOf, Over;
    }

    method NoteWoken(w: ServerWait)
      requires Valid() && w in waits
      modifies this`woken
      ensures Valid() && SlicesOf(waits) == old(SlicesOf(waits))
      ensures Abs() == old(Abs()).(woken := old(Abs()).woken + [w.id])
    {
      woken := woken + [w.id];
      KeptAbs();
      hide Valid, CountsOf, FillsOf, ClientsOf, FillOf, SlicesOf, SliceOf, ListIds;
    }

    lemma AbsFields()
      ensures var s := Abs();
              && s.db == db && s.serverWait.Keys == serverWait.Keys && s.levelChunksWaiting == levelChunksWaiting
      ensures Abs().arrived == arrived
    {
    }

    // The wait an id stands for, and the kind of its packet.
    lemma WaitValues(w: ServerWait)
      requires Valid() && w in waits
      ensures w.id < |waits| && waits[w.id] == w
      ensures |Abs().fills| == |Abs().counts| == |waits| && Abs().fills[w.id] == FillOf(w)
              && Abs().counts[w.id] == w.count
      ensures FillOf(w).Level? <==> w.pkFill.LevelFill?
      ensures w.pkFill.LevelFill? ==> FillOf(w) == Level(w.pkFill.lc)
    {
    }

    // Fill in, process, and write to a client without a cache (lines 303-351).
    method ProcessWait(w: ServerWait, client: Client)
      requires Valid() && w in waits
      modifies this`levelChunksWaiting, this`processed, this`toClient, w`pkFill, SliceOf(w)
      ensures Valid() && SlicesOf(waits) == old(SlicesOf(waits))
      ensures forall v :: v in waits ==> SliceOf(v) == old(SliceOf(v))
      ensures Abs() == Process(old(Abs()), w.id, client)
    {
      hide *;
      WaitValues(w);
      ProcessForm(Abs(), w.id, client);
      if w.pkFill.LevelFill? {
        Forget(w.pkFill.lc.pos);
      }
      FillWait(w);
      Deliver(w, client);
    }

    lemma SliceIn(w: ServerWait)
      requires w in waits
      ensures SliceOf(w) <= SlicesOf(waits)
    {
    }

    // What the test at line 354 means for the state.
    lemma WaitersValue(w: ServerWait)
      requires Valid() && w in waits
      ensures HasWaiters(Abs(), w.id) <==> w.pkFill.LevelFill? && w.pkFill.lc.pos in subs
      ensures HasWaiters(Abs(), w.id) ==> var pos := w.pkFill.lc.pos;
                pos in Abs().subs && Waiters(Abs(), w.id) == Abs().subs[pos]
                && TakeWaiters(Abs(), w.id) == Abs().(subs := Abs().subs - {pos})
    {
      WaitValues(w);
      hide CountsOf, FillsOf, ClientsOf, FillOf, SlicesOf, SliceOf;
    }

    // One turn of the loop (lines 357-363).
    method WakeOne(w: ServerWait, sub: ServerWait, client: Client)
      requires Valid() && w in waits && sub in waits
      modifies this`levelChunksWaiting, this`processed, this`toClient, this`subs, this`woken, waits, SlicesOf(waits)
      ensures Valid() && SlicesOf(waits) == old(SlicesOf(waits))
      ensures forall v :: v in waits ==> SliceOf(v) == old(SliceOf(v))
      ensures Abs() == WakeStep(old(Abs()), w.id, sub.id, client)
      ensures subs.Keys <= old(subs.Keys)
      decreases subs.Keys, 1
    {
      hide *;
      WakeStepForm(Abs(), w.id, sub.id, client);
      Count(sub, -1);
      WaitValues(sub);
      if sub.count == 0 {
        NoteWoken(sub);
        ServerResolve(w, client);
      }
    }

    // serverResolve, as written: line 359 resolves `w` again.
    method ServerResolve(w: ServerWait, client: Client)
      requires Valid() && w in waits
      modifies this`levelChunksWaiting, this`processed, this`toClient, this`subs, this`woken, waits, SlicesOf(waits)
      ensures Valid() && SlicesOf(waits) == old(SlicesOf(waits))
      ensures forall v :: v in waits ==> SliceOf(v) == old(SliceOf(v))
      ensures Abs() == Resolve(false, old(Abs()), w.id, client)
      ensures subs.Keys <= old(subs.Keys)
      decreases subs.Keys, 0
    {
      hide *;
      ResolveForm(Abs(), w.id, client);
      SliceIn(w);
      ProcessWait(w, client);
      WaitersValue(w);
      if w.pkFill.LevelFill? {
        var pos := w.pkFill.lc.pos;
        if pos in subs {
          var waiting := TakeSubs(pos);
          ghost var ids, s0 := WaitIds(waiting), Abs();
          var j := 0;
          while j < |waiting|
            invariant 0 <= j <= |waiting| == |ids| && Valid() && SlicesOf(waits) == old(SlicesOf(waits))
            invariant forall v :: v in waiting ==> v in waits
            invariant forall v :: v in waits ==> SliceOf(v) == old(SliceOf(v))
            invariant subs.Keys < old(subs.Keys)
            invariant WakeLoop(false, Abs(), w.id, ids[j..], client) == WakeLoop(false, s0, w.id, ids, client)
          {
            WakeForm(Abs(), w.id, ids[j..], client);
            assert ids[j..][0] == waiting[j].id && ids[j..][1..] == ids[j + 1..];
            WakeOne(w, waiting[j], client);
            j := j + 1;
          }
          WakeForm(Abs(), w.id, ids[j..], client);
        }
      }
    }

    // ---- packets from the server ----

    // One more wait, and nothing else.
    twostate predicate OneMore(new w: ServerWait)
      reads this, waits, clients, w
    {
      && waits == old(waits) + [w] && clients == old(clients) && w.count == 0 && w.id == |old(waits)|
      && (forall v :: v in waits && v in old(waits) ==> v.count == old(v.count) && v.pkFill == old(v.pkFill))
      && (forall c :: c in clients ==> c.count == old(c.count) && c.hashes == old(c.hashes))
    }

    twostate lemma Grown(new w: ServerWait)
      requires OneMore(w) && forall a :: a in old(SlicesOf(waits)) ==> a[..] == old(a[..])
      ensures CountsOf(waits) == old(CountsOf(waits)) + [0] && FillsOf(waits) == old(FillsOf(waits)) + [FillOf(w)]
      ensures ClientsOf(clients) == old(ClientsOf(clients))
    {
      forall i | 0 <= i < |old(waits)| ensures FillOf(waits[i]) == old(FillOf(waits[i])) {
        var v := old(waits)[i];
        assert old(SliceOf(v)) <= old(SlicesOf(waits)) by {
          forall a | a in old(SliceOf(v)) ensures a in old(SlicesOf(waits)) { assert v == old(waits)[i]; }
        }
      }
      hide SlicesOf, FillOf, SliceOf;
    }

    twostate lemma GrownSlices(new w: ServerWait)
      requires OneMore(w)
      ensures SlicesOf(waits) == old(SlicesOf(waits)) + SliceOf(w)
    {
      forall i | 0 <= i < |old(waits)| ensures SliceOf(waits[i]) == old(SliceOf(waits[i])) {
        var v := old(waits)[i];
      }
      var slices := SlicesOf(waits);
      forall a | a in old(SlicesOf(waits)) + SliceOf(w) ensures a in slices {
        if a in SliceOf(w) {
          assert waits[|old(waits)|] == w;
        } else {
          var i :| 0 <= i < |old(waits)| && a in old(SliceOf(waits[i]));
          assert a in SliceOf(waits[i]);
        }
      }
      hide SliceOf;
    }

    twostate lemma GrownValid(new w: ServerWait)
      requires OneMore(w) && old(Valid())
      requires serverWait == old(serverWait) && subs == old(subs) && clientWait == old(clientWait)
      requires SliceOf(w) !! old(SlicesOf(waits))
      ensures Valid()
    {
      forall i | 0 <= i < |old(waits)| && waits[i].pkFill.SubFill?
        ensures w.pkFill.SubFill? ==> waits[i].pkFill.sp.entries != w.pkFill.sp.entries
      {
        var v := old(waits)[i];
        assert waits[i] == v && v.pkFill == old(v.pkFill);
        assert v.pkFill.sp.entries in old(SliceOf(v));
        assert v.pkFill.sp.entries in old(SlicesOf(waits));
      }
    }

    twostate lemma GrownAbs(new w: ServerWait)
      requires OneMore(w) && old(Valid()) && forall a :: a in old(SlicesOf(waits)) ==> a[..] == old(a[..])
      requires serverWait == old(serverWait) && subs == old(subs) && clientWait == old(clientWait)
      requires SliceOf(w) !! old(SlicesOf(waits))
      ensures Valid() && SlicesOf(waits) == old(SlicesOf(waits)) + SliceOf(w)
      ensures var s := old(Abs());
              Abs() == State(db, s.counts + [0], s.fills + [FillOf(w)], s.serverWait, levelChunksWaiting, s.subs,
                s.clientWaits,
                             s.clientWait, received, arrived, wire, hits, processed, toClient, woken)
    {
      Grown(w);
      GrownSlices(w);
      GrownValid(w);
      hide Valid, CountsOf, FillsOf, ClientsOf, SlicesOf, SliceOf, ListIds, FillOf, OneMore;
    }

    // The wait of a packet that has just been received (lines 122-131 and 158-165).
    lemma AbsCounts()
      requires Valid()
      ensures |Abs().counts| == |waits|
    {
    }

    lemma SliceApart(w: ServerWait, slices: set<array<Entry>>)
      requires w.pkFill.SubFill? ==> w.pkFill.sp.entries !in slices
      ensures SliceOf(w) !! slices
    {
    }

    lemma AllocatedFill(w: ServerWait, pk: Packet)
      requires w.pkFill.LevelFill? ==> pk == Level(w.pkFill.lc)
      requires w.pkFill.SubFill? ==> InitialFill(pk) == Sub(SubValue(w.pkFill.sp))
      ensures FillOf(w) == InitialFill(pk)
    {
      hide SubValue;
    }

    method AllocateWait(pkFill: FillRef, ghost pk: Packet) returns (w: ServerWait)
      requires Valid()
      requires pkFill.LevelFill? ==> pk == Level(pkFill.lc)
      requires pkFill.SubFill? ==> pkFill.sp.entries !in SlicesOf(waits) && InitialFill(pk) == Sub(SubValue(pkFill.sp))
      modifies this`waits, this`received
      ensures fresh(w) && waits == old(waits) + [w] && w.id == |old(Abs()).counts| && w.pkFill == pkFill
      ensures Valid() && SlicesOf(waits) == old(SlicesOf(waits)) + SliceOf(w)
      ensures Abs() == NewWait(old(Abs()), pk)
    {
      hide Valid, CountsOf, FillsOf, ClientsOf, ListIds, FillOf, InitialFill, NewWait;
      AbsCounts();
      w := new ServerWait(pkFill, |waits|);
      received := received + [Received(pk, arrived)];
      waits := waits + [w];
      SliceApart(w, old(SlicesOf(waits)));
      GrownAbs(w);
      AllocatedFill(w, pk);
      NewWaitForm(old(Abs()), pk);
    }

    method FileWait(w: ServerWait, h: Hash)
      requires Valid() && w in waits
      modifies this`serverWait
      ensures Valid() && SlicesOf(waits) == old(SlicesOf(waits))
      ensures Abs() == old(Abs()).(serverWait := Append(old(Abs()).serverWait, h, w.id))
    {
      var l := if h in serverWait then serverWait[h] else [];
      ListIdsUpdate(serverWait, h, w);
      OverUpdate(serverWait, waits, h, w);
      serverWait := serverWait[h := l + [w]];
      KeptAbs();
      hide Valid, CountsOf, FillsOf, ClientsOf, FillOf, SlicesOf, SliceOf, ListIds, Over;
    }

    // addServerWait: only the first wait for a blob asks for it.
    method AddServerWait(reply: Reply, w: ServerWait, h: Hash) returns (r: Reply)
      requires Valid() && w in waits
      modifies this`serverWait, w`count
      ensures Valid() && SlicesOf(waits) == old(SlicesOf(waits))
      ensures r == if h in old(Abs()).serverWait then reply else reply.(miss := reply.miss + [h])
      ensures Abs() == Registered(old(Abs()), w.id, h)
    {
      r := reply;
      if h !in serverWait {
        r := r.(miss := r.miss + [h]);
      }
      AbsFields();
      hide *;
      Count(w, 1);
      FileWait(w, h);
      RegisteredForm(old(Abs()), w.id, h);
    }

    // Line 196.
    method FileSub(w: ServerWait, pos: ChunkPos)
      requires Valid() && w in waits
      modifies this`subs
      ensures Valid() && SlicesOf(waits) == old(SlicesOf(waits))
      ensures Abs() == old(Abs()).(subs := Append(old(Abs()).subs, pos, w.id))
    {
      var l := if pos in subs then subs[pos] else [];
      ListIdsUpdate(subs, pos, w);
      OverUpdate(subs, waits, pos, w);
      subs := subs[pos := l + [w]];
      KeptAbs();
      hide Valid, CountsOf, FillsOf, ClientsOf, FillOf, SlicesOf, SliceOf, ListIds, Over;
    }

    // Line 144.
    method NoteLevelChunk(pos: ChunkPos, h: Hash)
      requires Valid()
      modifies this`levelChunksWaiting
      ensures Valid() && SlicesOf(waits) == old(SlicesOf(waits))
      ensures Abs() == BlobSpec.NoteLevelChunk(old(Abs()), pos, h)
    {
      var noted := if pos in levelChunksWaiting then levelChunksWaiting[pos] else [];
      levelChunksWaiting := levelChunksWaiting[pos := noted + [h]];
      KeptAbs();
      hide Valid, CountsOf, FillsOf, ClientsOf, FillOf, SlicesOf, SliceOf, ListIds;
    }

    // finishWait: onHitBlobs and the status for the server (lines 204-225).
    method Announce(reply: Reply, hitBlobs: seq<CacheBlob>)
      requires Valid()
      modifies this`hits, this`wire
      ensures Valid() && SlicesOf(waits) == old(SlicesOf(waits))
      ensures Abs() == BlobSpec.Announce(Build(old(Abs()), reply, hitBlobs))
    {
      if |hitBlobs| > 0 {
        hits := hits + [hitBlobs];
      }
      if |reply.hit| + |reply.miss| > 0 {
        wire := wire + [Status(reply)];
      }
      KeptAbs();
      hide Valid, CountsOf, FillsOf, ClientsOf, FillOf, SlicesOf, SliceOf, ListIds, Over;
    }

    // finishWait: the packet is processed if nothing is missing; what is returned is forwarded to the client.
    method FinishWait(reply: Reply, w: ServerWait, pk: FillRef, hitBlobs: seq<CacheBlob>, client: Client)
      returns (f: Forwarded)
      requires Valid() && w in waits
      modifies this`hits, this`wire, this`levelChunksWaiting, this`processed, this`toClient, this`subs, this`woken
      modifies waits, SlicesOf(waits)
      ensures Valid() && SlicesOf(waits) == old(SlicesOf(waits))
      ensures forall v :: v in waits ==> SliceOf(v) == old(SliceOf(v))
      ensures Abs() == FinishState(false, Build(old(Abs()), reply, hitBlobs), w.id, client)
      ensures f == if client.CachingClient? then Forwarded(pk)
                   else if client.PlainClient? && Complete(Abs(), w.id) then Forwarded(w.pkFill) else Nothing
    {
      hide *;
      FinishForm(Build(Abs(), reply, hitBlobs), w.id, client);
      Announce(reply, hitBlobs);
      WaitValues(w);
      CompleteForm(Abs(), w.id);
      if w.count == 0 {
        ServerResolve(w, client);
      }
      WaitValues(w);
      CompleteForm(Abs(), w.id);
      f := match client
        case NoClient => Nothing
        case CachingClient => Forwarded(pk)
        case PlainClient => if w.count == 0 then Forwarded(w.pkFill) else Nothing;
    }

    // The loop over the blobs of a level chunk (lines 134-146).
    method LevelHashes(w: ServerWait, lc: LevelChunk) returns (reply: Reply, hitBlobs: seq<CacheBlob>)
      requires Valid() && w in waits
      modifies this`serverWait, this`levelChunksWaiting, w`count
      ensures Valid() && SlicesOf(waits) == old(SlicesOf(waits))
      ensures Build(Abs(), reply, hitBlobs) ==
              LevelLoop(Build(old(Abs()), Reply([], []), []), w.id, lc.pos, lc.blobHashes)
    {
      hide *;
      reply, hitBlobs := Reply([], []), [];
      ghost var b0 := Build(Abs(), reply, hitBlobs);
      var hs := lc.blobHashes;
      var i := 0;
      while i < |hs|
        invariant 0 <= i <= |hs| && Valid() && SlicesOf(waits) == old(SlicesOf(waits))
        invariant LevelLoop(Build(Abs(), reply, hitBlobs), w.id, lc.pos, hs[i..]) == LevelLoop(b0, w.id, lc.pos, hs)
      {
        LevelForm(Abs(), reply, hitBlobs, w.id, lc.pos, hs[i..]);
        assert hs[i..] != [] && hs[i..][0] == hs[i] && hs[i..][1..] == hs[i + 1..];
        AbsFields();
        if hs[i] in db {
          reply := reply.(hit := reply.hit + [hs[i]]);
          hitBlobs := hitBlobs + [CacheBlob(hs[i], db[hs[i]])];
        } else {
          reply := AddServerWait(reply, w, hs[i]);
          NoteLevelChunk(lc.pos, hs[i]);
        }
        i := i + 1;
      }
      LevelForm(Abs(), reply, hitBlobs, w.id, lc.pos, hs[i..]);
    }

    method NoteArrived(pos: ChunkPos)
      requires Valid()
      modifies this`arrived
      ensures Valid() && SlicesOf(waits) == old(SlicesOf(waits))
      ensures Abs() == old(Abs()).(arrived := old(Abs()).arrived + {pos})
    {
      arrived := arrived + {pos};
      KeptAbs();
      hide Valid, CountsOf, FillsOf, ClientsOf, FillOf, SlicesOf, SliceOf, ListIds, Over;
    }

    method HandleLevelChunk(lc: LevelChunk, client: Client) returns (f: Forwarded)
      requires Valid()
      modifies this, waits, SlicesOf(waits)
      ensures Valid() && SlicesOf(waits) == old(SlicesOf(waits))
      ensures Abs() == BlobSpec.HandleLevelChunk(false, old(Abs()), lc, client)
      ensures |old(Abs()).counts| < |Abs().fills|
              && ForwardedValue(f) == FinishForward(Abs(), |old(Abs()).counts|, Level(lc), client)
    {
      hide *;
      HandleLevelForm(Abs(), lc, client);
      var w := AllocateWait(LevelFill(lc), Level(lc));
      LevelHasNoSlice(w);
      var reply, hitBlobs := LevelHashes(w, lc);
      f := FinishWait(reply, w, LevelFill(lc), hitBlobs, client);
      CompleteForm(Abs(), w.id);
      NoteArrived(lc.pos);
      CompleteForm(Abs(), w.id);
      WaitValues(w);
      ForwardForm(Abs(), w.id, Level(lc), client);
      ForwardedForm(w, lc);
    }

    // The loop over the entries of a sub chunk packet (lines 168-190).
    method SubHashes(w: ServerWait, sp: SubPacket)
      returns (reply: Reply, hitBlobs: seq<CacheBlob>, depending: set<ChunkPos>)
      requires Valid() && w in waits
      modifies this`serverWait, w`count
      ensures Valid() && SlicesOf(waits) == old(SlicesOf(waits))
      ensures Build(Abs(), reply, hitBlobs) == SubLoop(Build(old(Abs()), Reply([], []), []), w.id, sp.entries[..])
      ensures depending == Touches(sp.position, sp.entries[..])
    {
      hide *;
      reply, hitBlobs, depending := Reply([], []), [], {};
      ghost var b0 := Build(Abs(), reply, hitBlobs);
      ghost var es := sp.entries[..];
      var i := 0;
      TouchesStep(sp.position, es, 0);
      while i < sp.entries.Length
        invariant 0 <= i <= |es| == sp.entries.Length && es == sp.entries[..]
        invariant Valid() && SlicesOf(waits) == old(SlicesOf(waits))
        invariant SubLoop(Build(Abs(), reply, hitBlobs), w.id, es[i..]) == SubLoop(b0, w.id, es)
        invariant depending == Touches(sp.position, es[..i])
      {
        var entry := sp.entries[i];
        SubForm(Abs(), reply, hitBlobs, w.id, es[i..]);
        TouchesStep(sp.position, es, i);
        assert es[i..] != [] && es[i..][0] == entry && es[i..][1..] == es[i + 1..];
        AbsFields();
        if entry.result == Success {
          depending := depending + {EntryPos(sp.position, entry)};
          if entry.blobHash in db {
            reply := reply.(hit := reply.hit + [entry.blobHash]);
            hitBlobs := hitBlobs + [CacheBlob(entry.blobHash, db[entry.blobHash])];
          } else {
            reply := AddServerWait(reply, w, entry.blobHash);
          }
        }
        i := i + 1;
      }
      SubForm(Abs(), reply, hitBlobs, w.id, es[i..]);
      assert es[..i] == es;
    }

    // One reference for every column that waits for its level chunk (lines 193-198).
    method WaitForLevelChunks(w: ServerWait, depending: set<ChunkPos>)
      requires Valid() && w in waits
      modifies this`subs, w`count
      ensures Valid() && SlicesOf(waits) == old(SlicesOf(waits))
      ensures Abs() == AddSubs(old(Abs()), w.id, depending * old(Abs()).levelChunksWaiting.Keys)
    {
      hide *;
      ghost var s0, added: set<ChunkPos> := Abs(), {};
      var rest := depending;
      AbsFields();
      AddSubsNone(s0, w.id);
      while rest != {}
        invariant Valid() && SlicesOf(waits) == old(SlicesOf(waits))
        invariant rest !! added && rest <= depending
        invariant added == (depending - rest) * levelChunksWaiting.Keys
        invariant Abs() == AddSubs(s0, w.id, added)
        decreases rest
      {
        var pos :| pos in rest;
        rest := rest - {pos};
        if pos in levelChunksWaiting {
          AddSubsOne(s0, w.id, added, pos);
          Count(w, 1);
          FileSub(w, pos);
          added := added + {pos};
        }
      }
      assert added == depending * levelChunksWaiting.Keys;
    }

    // The slice of the packet is shared between the wait and the packet that is forwarded.
    method HandleSubChunk(sp: SubPacket, client: Client) returns (f: Forwarded)
      requires Valid() && sp.entries !in SlicesOf(waits)
      modifies this, waits, SlicesOf(waits), sp.entries
      ensures Valid() && SlicesOf(waits) == old(SlicesOf(waits)) + {sp.entries}
      ensures Abs() == BlobSpec.HandleSubChunk(false, old(Abs()), old(SubValue(sp)), client)
      ensures |old(Abs()).counts| < |Abs().fills|
              && ForwardedValue(f) == FinishForward(Abs(), |old(Abs()).counts|, Sub(old(SubValue(sp))), client)
    {
      hide *;
      ghost var sc := SubValue(sp);
      HandleSubForm(Abs(), sc, client);
      var pkFill := sp.(cacheEnabled := false);
      InitialSub(sp, pkFill);
      var w := AllocateWait(SubFill(pkFill), Sub(sc));
      SubHasSlice(w);
      var reply, hitBlobs, depending := SubHashes(w, sp);
      WaitForLevelChunks(w, depending);
      f := FinishWait(reply, w, SubFill(sp), hitBlobs, client);
      SubHasSlice(w);
      WaitValues(w);
      ForwardForm(Abs(), w.id, Sub(sc), client);
      ForwardedSubForm(w, sp, sc);
    }

    // ---- packets about blobs ----

    method StoreBlob(blob: CacheBlob)
      requires Valid()
      modifies this`db, this`wire
      ensures Valid() && SlicesOf(waits) == old(SlicesOf(waits)) && db == old(db)[blob.hash := blob.payload]
      ensures Abs() == old(Abs()).(db := old(Abs()).db[blob.hash := blob.payload],
                                        wire := old(Abs()).wire + [Answer(blob)])
    {
      db := db[blob.hash := blob.payload];
      wire := wire + [Answer(blob)];
      KeptAbs();
      hide Valid, CountsOf, FillsOf, ClientsOf, FillOf, SlicesOf, SliceOf, ListIds, Over;
    }

    // clientWait.count--.
    method CountClient(c: ClientWaitRef)
      requires Valid() && c in clients
      modifies c`count
      ensures Valid() && SlicesOf(waits) == old(SlicesOf(waits)) && c.count == old(c.count) - 1
      ensures c.id < |old(Abs()).clientWaits| && old(Abs()).clientWaits[c.id] == ClientWait(old(c.count), c.hashes)
      ensures Abs() == old(Abs()).(clientWaits := old(Abs()).clientWaits[c.id := ClientWait(c.count, c.hashes)])
    {
      hide CountsOf, FillsOf, ClientsOf, FillOf, ListIds, SlicesOf, SliceOf, Over, ClientIds;
      c.count := c.count - 1;
      FillsKept();
      OneClient(c);
      ValidKept();
    }

    method Send(blobs: seq<CacheBlob>)
      requires Valid()
      modifies this`toClient
      ensures Valid() && SlicesOf(waits) == old(SlicesOf(waits))
      ensures Abs() == old(Abs()).(toClient := old(Abs()).toClient + [Blobs(blobs)])
    {
      toClient := toClient + [Blobs(blobs)];
      KeptAbs();
      hide Valid, CountsOf, FillsOf, ClientsOf, FillOf, SlicesOf, SliceOf, ListIds, Over;
    }

    // clientResolve: what the client asked for and the database holds.
    method ClientResolve(hashes: seq<Hash>)
      requires Valid()
      modifies this`toClient
      ensures Valid() && SlicesOf(waits) == old(SlicesOf(waits))
      ensures Abs() == old(Abs()).(toClient := old(Abs()).toClient + [Blobs(ClientPayloads(old(Abs()).db, hashes))])
    {
      var blobs := [];
      var i := 0;
      while i < |hashes|
        invariant 0 <= i <= |hashes|
        invariant blobs + ClientPayloads(db, hashes[i..]) == ClientPayloads(db, hashes)
      {
        assert hashes[i..][0] == hashes[i] && hashes[i..][1..] == hashes[i + 1..];
        if hashes[i] in db {
          blobs := blobs + [CacheBlob(hashes[i], db[hashes[i]])];
        }
        i := i + 1;
      }
      assert blobs == ClientPayloads(db, hashes);
      Send(blobs);
      hide *;
      AbsFields();
    }

    lemma AbsClient(h: Hash)
      requires Valid()
      ensures h in clientWait <==> h in Abs().clientWait
      ensures h in clientWait ==>
                clientWait[h] in clients && Abs().clientWait[h] == clientWait[h].id < |Abs().clientWaits|
    {
    }

    method TakeClient(h: Hash) returns (w: ClientWaitRef)
      requires Valid() && h in clientWait
      modifies this`clientWait
      ensures Valid() && SlicesOf(waits) == old(SlicesOf(waits))
      ensures w in clients && w == old(clientWait[h])
      ensures Abs() == old(Abs()).(clientWait := old(Abs()).clientWait - {h})
    {
      w := clientWait[h];
      ClientIdsUpdate(clientWait, clients, h, w);
      clientWait := clientWait - {h};
      KeptAbs();
      hide Valid, ClientsOver, CountsOf, FillsOf, ClientsOf, FillOf, SlicesOf, SliceOf, ListIds, Over, ClientIds;
    }

    // Hand the blob to the client if it waits for it (lines 261-267).
    method ServeClient(h: Hash)
      requires Valid()
      modifies this`clientWait, this`toClient, clients
      ensures Valid() && SlicesOf(waits) == old(SlicesOf(waits))
      ensures Abs() == ClientStep(old(Abs()), h)
    {
      hide *;
      AbsClient(h);
      ClientForm(Abs(), h);
      if h in clientWait {
        var w := TakeClient(h);
        CountClient(w);
        if w.count == 0 {
          ClientResolve(w.hashes);
        }
      }
    }

    // The waits for a blob are taken out of their map (lines 270-272).
    method TakeWaits(h: Hash) returns (waiters: seq<ServerWait>)
      requires Valid()
      modifies this`serverWait
      ensures Valid() && SlicesOf(waits) == old(SlicesOf(waits))
      ensures (forall w :: w in waiters ==> w in waits) && WaitIds(waiters) == At(old(Abs()).serverWait, h)
      ensures Abs() == old(Abs()).(serverWait := old(Abs()).serverWait - {h})
    {
      waiters := if h in serverWait then serverWait[h] else [];
      serverWait := serverWait - {h};
      KeptAbs();
      assert ListIds(serverWait) == old(ListIds(serverWait)) - {h};
      hide Valid, CountsOf, FillsOf, ClientsOf, FillOf, SlicesOf, SliceOf, Over;
    }

    // One turn of the loop over the waits for a blob (lines 274-281).
    method AnswerOne(w: ServerWait, client: Client)
      requires Valid() && w in waits
      modifies this`levelChunksWaiting, this`processed, this`toClient, this`subs, this`woken, waits, SlicesOf(waits)
      ensures Valid() && SlicesOf(waits) == old(SlicesOf(waits))
      ensures Abs() == AnswerStep(old(Abs()), w.id, client)
    {
      hide *;
      AnswerForm(Abs(), w.id, client);
      Count(w, -1);
      WaitValues(w);
      if w.count == 0 {
        ServerResolve(w, client);
      }
    }

    // One blob of a miss response (lines 255-288).
    method HandleBlob(blob: CacheBlob, client: Client)
      requires Valid()
      modifies this, waits, SlicesOf(waits), clients
      ensures Valid() && SlicesOf(waits) == old(SlicesOf(waits)) && waits == old(waits) && clients == old(clients)
      ensures Abs() == BlobStep(false, old(Abs()), blob, client)
    {
      hide *;
      BlobForm(Abs(), blob, client);
      StoreBlob(blob);
      ServeClient(blob.hash);
      var waiters := TakeWaits(blob.hash);
      ghost var ids, s0 := WaitIds(waiters), Abs();
      var j := 0;
      while j < |waiters|
        invariant 0 <= j <= |waiters| == |ids| && Valid() && SlicesOf(waits) == old(SlicesOf(waits))
        invariant waits == old(waits) && clients == old(clients)
        invariant forall v :: v in waiters ==> v in waits
        invariant WaiterLoop(false, Abs(), ids[j..], client) == WaiterLoop(false, s0, ids, client)
      {
        WaiterForm(Abs(), ids[j..], client);
        assert ids[j..] != [] && ids[j..][0] == waiters[j].id && ids[j..][1..] == ids[j + 1..];
        AnswerOne(waiters[j], client);
        j := j + 1;
      }
      WaiterForm(Abs(), ids[j..], client);
    }

    method HandleClientCacheMissResponse(blobs: seq<CacheBlob>, client: Client)
      requires Valid()
      modifies this, waits, SlicesOf(waits), clients
      ensures Valid() && SlicesOf(waits) == old(SlicesOf(waits))
      ensures Abs() == BlobLoop(false, old(Abs()), blobs, client)
    {
      hide *;
      ghost var s0 := Abs();
      var i := 0;
      while i < |blobs|
        invariant 0 <= i <= |blobs| && Valid() && SlicesOf(waits) == old(SlicesOf(waits))
        invariant waits == old(waits) && clients == old(clients)
        invariant BlobLoop(false, Abs(), blobs[i..], client) == BlobLoop(false, s0, blobs, client)
      {
        BlobLoopForm(Abs(), blobs[i..], client);
        assert blobs[i..] != [] && blobs[i..][0] == blobs[i] && blobs[i..][1..] == blobs[i + 1..];
        HandleBlob(blobs[i], client);
        i := i + 1;
      }
      BlobLoopForm(Abs(), blobs[i..], client);
    }

    // The objects are as they were, and there is one more client wait.
    twostate predicate ObjectsKeptBut(new c: ClientWaitRef)
      reads this, waits, clients, SlicesOf(waits)
    {
      && waits == old(waits) && clients == old(clients) + [c]
      && (forall v :: v in waits ==> v.pkFill == old(v.pkFill) && v.count == old(v.count))
      && (forall v :: v in clients && v in old(clients) ==> v.count == old(v.count) && v.hashes == old(v.hashes))
      && (forall a :: a in old(SlicesOf(waits)) ==> a[..] == old(a[..]))
    }

    twostate lemma ClientsGrown(new c: ClientWaitRef)
      requires old(Valid()) && ObjectsKeptBut(c) && c.count == 0 && c.hashes == [] && c.id == |old(clients)|
      requires db == old(db) && serverWait == old(serverWait) && levelChunksWaiting == old(levelChunksWaiting)
               && subs == old(subs)
      requires clientWait == old(clientWait) && received == old(received) && arrived == old(arrived)
               && wire == old(wire)
      requires hits == old(hits) && processed == old(processed) && toClient == old(toClient) && woken == old(woken)
      requires ClientsOver(clientWait, clients)
      ensures Valid() && SlicesOf(waits) == old(SlicesOf(waits))
      ensures Abs() == old(Abs()).(clientWaits := old(Abs()).clientWaits + [ClientWait(0, [])])
    {
      hide ListIds, SlicesOf, Over, ClientIds, ClientsOver;
      FillsKept();
      assert CountsOf(waits) == old(CountsOf(waits));
      assert forall i :: 0 <= i < |old(clients)| ==> clients[i] == old(clients)[i];
      assert ClientsOf(clients) == old(ClientsOf(clients)) + [ClientWait(0, [])];
      hide CountsOf, FillsOf, ClientsOf, FillOf, SlicesOf, SliceOf, ListIds, Over, ClientIds, ClientsOver;
    }

    // Line 398.
    method AllocateClientWait() returns (c: ClientWaitRef)
      requires Valid()
      modifies this`clients
      ensures fresh(c) && Valid() && SlicesOf(waits) == old(SlicesOf(waits)) && c in clients
              && c.id == |old(Abs()).clientWaits|
      ensures Abs() == old(Abs()).(clientWaits := old(Abs()).clientWaits + [ClientWait(0, [])])
    {
      assert |Abs().clientWaits| == |clients|;
      c := new ClientWaitRef(|clients|);
      ClientIdsUpdate(clientWait, clients, 0, c);
      clients := clients + [c];
      ClientsGrown(c);
      hide *;
    }

    // The history notes what the client reported.
    ghost method NoteMissed(misses: seq<Hash>)
      requires Valid()
      modifies this`toClient
      ensures Valid() && SlicesOf(waits) == old(SlicesOf(waits))
      ensures Abs() == old(Abs()).(toClient := old(Abs()).toClient + [Missed(misses)])
    {
      toClient := toClient + [Missed(misses)];
      KeptAbs();
      hide Valid, CountsOf, FillsOf, ClientsOf, FillOf, SlicesOf, SliceOf, ListIds, Over;
    }

    method AddHash(c: ClientWaitRef, h: Hash)
      requires Valid() && c in clients
      modifies c
      ensures Valid() && SlicesOf(waits) == old(SlicesOf(waits))
      ensures c.id < |old(Abs()).clientWaits|
      ensures var s := old(Abs()); var w := s.clientWaits[c.id];
              Abs() == s.(clientWaits := s.clientWaits[c.id := ClientWait(w.count + 1, w.hashes + [h])])
    {
      hide CountsOf, FillsOf, ClientsOf, FillOf, ListIds, SlicesOf, SliceOf, Over, ClientIds;
      c.count := c.count + 1;
      c.hashes := c.hashes + [h];
      FillsKept();
      OneClient(c);
      ValidKept();
    }

    method FileClient(c: ClientWaitRef, h: Hash)
      requires Valid() && c in clients
      modifies this`clientWait
      ensures Valid() && SlicesOf(waits) == old(SlicesOf(waits))
      ensures Abs() == old(Abs()).(clientWait := old(Abs()).clientWait[h := c.id])
    {
      ClientIdsUpdate(clientWait, clients, h, c);
      clientWait := clientWait[h := c];
      KeptAbs();
      hide Valid, ClientsOver, CountsOf, FillsOf, ClientsOf, FillOf, SlicesOf, SliceOf, ListIds, Over, ClientIds;
    }

    // A blob neither the client nor the cache has (lines 406-408): an earlier wait for it is forgotten.
    method WaitForClient(c: ClientWaitRef, h: Hash)
      requires Valid() && c in clients
      modifies this`clientWait, c
      ensures Valid() && SlicesOf(waits) == old(SlicesOf(waits))
      ensures c.id < |old(Abs()).clientWaits|
      ensures var s := old(Abs()); var w := s.clientWaits[c.id];
              Abs() == s.(clientWaits := s.clientWaits[c.id := ClientWait(w.count + 1, w.hashes + [h])],
                          clientWait := s.clientWait[h := c.id])
    {
      hide *;
      AddHash(c, h);
      FileClient(c, h);
    }

    method HandleClientCacheBlobStatus(misses: seq<Hash>)
      requires Valid()
      modifies this`clients, this`toClient, this`clientWait
      ensures Valid() && SlicesOf(waits) == old(SlicesOf(waits))
      ensures Abs() == ClientStatus(old(Abs()), misses)
    {
      hide *;
      StatusForm(Abs(), misses);
      AbsFields();
      ghost var db0 := Abs().db;
      var c := AllocateClientWait();
      NoteMissed(misses);
      ghost var s1 := Abs();
      var blobs := [];
      var i := 0;
      while i < |misses|
        invariant 0 <= i <= |misses| && Valid() && SlicesOf(waits) == old(SlicesOf(waits)) && c in clients && db == db0
        invariant StatusLoop(Abs(), c.id, misses[i..]) == StatusLoop(s1, c.id, misses)
        invariant blobs + ClientPayloads(db0, misses[i..]) == ClientPayloads(db0, misses)
      {
        StatusStepForm(Abs(), c.id, misses[i..]);
        PayloadsForm(db0, misses[i..]);
        assert misses[i..] != [] && misses[i..][0] == misses[i] && misses[i..][1..] == misses[i + 1..];
        AbsFields();
        if misses[i] !in db {
          WaitForClient(c, misses[i]);
        } else {
          blobs := blobs + [CacheBlob(misses[i], db[misses[i]])];
        }
        i := i + 1;
      }
      StatusStepForm(Abs(), c.id, misses[i..]);
      PayloadsForm(db0, misses[i..]);
      assert blobs == ClientPayloads(db0, misses);
      if |blobs| > 0 {
        Send(blobs);
      }
    }
  }
}
