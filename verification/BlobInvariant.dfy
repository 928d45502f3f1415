// What every step of the blob cache keeps.
//
// `pend` are references already taken out of the maps by a running loop and not yet counted down;
// `open` holds a wait whose count just reached zero and that is about to be resolved, or one that is still being built;
// ids from `g` on are still being built, so nothing is said yet about what they wait for.
//
// The parts of the invariant name the fields they speak about, so that a step keeps a part whose fields it leaves
// alone.

module BlobInvariant {
  import opened BlobPackets
  import opened Occurrences
  import opened BlobSpec

  // ---- history ----

  ghost function DoneIds(ps: seq<Done>): set<nat> {
    set i | 0 <= i < |ps| :: ps[i].id
  }

  // The columns a level chunk has been processed for.
  ghost function ProcessedAt(ps: seq<Done>): set<ChunkPos> {
    set i | 0 <= i < |ps| && ps[i].pk.Level? :: ps[i].pk.lc.pos
  }

  lemma ProcessedAppend(ps: seq<Done>, d: Done)
    ensures DoneIds(ps + [d]) == DoneIds(ps) + {d.id}
    ensures ProcessedAt(ps + [d]) == ProcessedAt(ps) + if d.pk.Level? then {d.pk.lc.pos} else {}
  {
    var qs := ps + [d];
    assert qs[|ps|] == d;
    assert forall i :: 0 <= i < |ps| ==> qs[i] == ps[i];
    assert DoneIds(qs) == DoneIds(ps) + {d.id};
    assert ProcessedAt(qs) == ProcessedAt(ps) + if d.pk.Level? then {d.pk.lc.pos} else {};
  }

  // ---- the parts of the invariant ----

  // A wait's counter is the number of its registrations.
  ghost predicate Counts(counts: seq<int>, serverWait: Lists<Hash>, subs: Lists<ChunkPos>, pend: multiset<nat>) {
    forall id :: 0 <= id < |counts| ==> counts[id] == Occ(serverWait, id) + Occ(subs, id) + pend[id]
  }

  ghost predicate NoDuplicates<T>(l: seq<T>) {
    forall i, j :: 0 <= i < j < |l| ==> l[i] != l[j]
  }

  ghost predicate NeedsHash(rs: seq<Received>, h: Hash, id: nat) {
    id < |rs| && h in Needs(rs[id].pk)
  }

  ghost predicate TouchesPos(rs: seq<Received>, p: ChunkPos, id: nat) {
    id < |rs| && rs[id].pk.Sub? && p in TouchedBy(rs[id].pk)
  }

  // A wait is filed under a hash only if its packet needs the blob, and the database does not have it.
  ghost predicate FiledHashes(rs: seq<Received>, db: Db, serverWait: Lists<Hash>) {
    && (forall h :: h in serverWait ==> serverWait[h] != [] && h !in db)
    && (forall h, i :: h in serverWait && 0 <= i < |serverWait[h]| ==> NeedsHash(rs, h, serverWait[h][i]))
  }

  // A wait is filed once under a column that its sub chunks lie in, and that still waits for a level chunk.
  ghost predicate FiledColumns(rs: seq<Received>, subs: Lists<ChunkPos>, waiting: set<ChunkPos>) {
    && subs.Keys <= waiting
    && (forall p :: p in subs ==> subs[p] != [] && NoDuplicates(subs[p]))
    && (forall p, i :: p in subs && 0 <= i < |subs[p]| ==> TouchesPos(rs, p, subs[p][i]))
  }

  // The packet of a wait is untouched until it is resolved.
  ghost predicate Fills(rs: seq<Received>, fills: seq<Packet>, done: set<nat>) {
    && |fills| == |rs|
    && forall id :: 0 <= id < |fills| ==>
         && (fills[id].Level? <==> rs[id].pk.Level?)
         && (fills[id].Level? ==> fills[id].lc.pos == rs[id].pk.lc.pos)
         && (id !in done ==> fills[id] == InitialFill(rs[id].pk))
  }

  // Processed waits have count zero; a wait with count zero is processed, except for a sub chunk
  // that the code as written dropped.
  ghost predicate Progress(repaired: bool, rs: seq<Received>, counts: seq<int>, done: set<nat>, woken: seq<nat>,
                           open: set<nat>) {
    && |counts| == |rs|
    && (forall id :: id in done ==> id < |counts| && counts[id] == 0)
    && (forall id :: 0 <= id < |counts| && counts[id] == 0 ==> id in done || id in open || (!repaired && id in woken))
    && (forall id :: id in woken ==>
          id < |counts| && rs[id].pk.Sub? && counts[id] == 0 && (!repaired ==> id !in done))
  }

  // No wait is processed twice, unless the code as written dropped a sub chunk.
  ghost predicate Once(repaired: bool, processed: seq<Done>, woken: seq<nat>) {
    repaired || woken == [] ==> forall i, j :: 0 <= i < j < |processed| ==> processed[i].id != processed[j].id
  }

  ghost predicate WaitingLevel(rs: seq<Received>, counts: seq<int>, open: set<nat>, p: ChunkPos, id: nat) {
    id < |rs| && id < |counts| && rs[id].pk.Level? && rs[id].pk.lc.pos == p && (counts[id] > 0 || id in open)
  }

  // Every column that is marked as waiting has a level chunk that still waits.
  ghost predicate Witnessed(rs: seq<Received>, counts: seq<int>, waiting: set<ChunkPos>, open: set<nat>) {
    forall p :: p in waiting ==> exists id :: WaitingLevel(rs, counts, open, p, id)
  }

  ghost predicate Filing<K(!new)>(m: Lists<K>, k: K, id: nat) {
    k in m && id in m[k]
  }

  // A wait that is not processed has each blob, or waits for it.
  ghost predicate Provided(rs: seq<Received>, done: set<nat>, db: Db, serverWait: Lists<Hash>, g: nat) {
    forall id, h :: 0 <= id < g && id !in done && NeedsHash(rs, h, id) ==> h in db || Filing(serverWait, h, id)
  }

  // A sub chunk that is not processed is filed under each of its columns that had a level chunk before it,
  // unless one has been processed there.
  ghost predicate Gated(rs: seq<Received>, done: set<nat>, at: set<ChunkPos>, subs: Lists<ChunkPos>, g: nat) {
    forall id, p :: 0 <= id < g && id !in done && TouchesPos(rs, p, id) && p in rs[id].after
      ==> p in at || Filing(subs, p, id)
  }

  ghost predicate Inv(repaired: bool, s: State, pend: multiset<nat>, open: set<nat>, g: nat) {
    var done := DoneIds(s.processed);
    var at := ProcessedAt(s.processed);
    && Counts(s.counts, s.serverWait, s.subs, pend)
    && FiledHashes(s.received, s.db, s.serverWait)
    && FiledColumns(s.received, s.subs, s.levelChunksWaiting.Keys)
    && Fills(s.received, s.fills, done)
    && Progress(repaired, s.received, s.counts, done, s.woken, open)
    && Once(repaired, s.processed, s.woken)
    && Witnessed(s.received, s.counts, s.levelChunksWaiting.Keys, open)
    && Provided(s.received, done, s.db, s.serverWait, g)
    && Gated(s.received, done, at, s.subs, g)
    && s.arrived <= at + s.levelChunksWaiting.Keys
    && g <= |s.received|
  }

  // What the lemmas about loops need of the invariant.
  lemma InvFacts(repaired: bool, s: State, pend: multiset<nat>, open: set<nat>, g: nat)
    requires Inv(repaired, s, pend, open, g)
    ensures |s.counts| == |s.fills| == |s.received|
    ensures forall id :: 0 <= id < |s.counts| ==> s.counts[id] >= 0
    ensures forall id :: id in DoneIds(s.processed) ==> id < |s.counts| && s.counts[id] == 0
    ensures forall id :: 0 <= id < |s.fills| ==> (s.fills[id].Level? <==> s.received[id].pk.Level?)
    ensures forall p, i :: p in s.subs && 0 <= i < |s.subs[p]| ==> TouchesPos(s.received, p, s.subs[p][i])
  {
  }

  // ---- what resolving leaves alone ----

  ghost predicate SameOutside(s: State, r: State) {
    && r.db == s.db && r.serverWait == s.serverWait
    && r.clientWaits == s.clientWaits && r.clientWait == s.clientWait
    && r.received == s.received && r.arrived == s.arrived && r.wire == s.wire && r.hits == s.hits
    && |r.counts| == |s.counts| && |r.fills| == |s.fills|
    && s.processed <= r.processed && s.woken <= r.woken
  }

  lemma SameOutsideTrans(s: State, t: State, r: State)
    requires SameOutside(s, t) && SameOutside(t, r)
    ensures SameOutside(s, r)
  {
  }

  lemma CountOutside(s: State, x: nat, woken: seq<nat>)
    ensures SameOutside(s, AddCount(s, x, -1))
    ensures var s1 := AddCount(s, x, -1); SameOutside(s, s1.(woken := s1.woken + woken))
  {
  }

  lemma CountKeys(s: State, x: nat)
    ensures AddCount(s, x, -1).subs == s.subs
  {
  }

  // One turn of the loop over woken sub chunks.
  lemma WakeForm(repaired: bool, s: State, id: nat, l: seq<nat>, client: Client)
    ensures WakeLoop(repaired, s, id, l, client) ==
            if l == [] then s else
              var s1 := AddCount(s, l[0], -1);
              var x := if repaired then l[0] else id;
              var s2 := if Complete(s1, l[0]) then Resolve(repaired, s1.(woken := s1.woken + [l[0]]), x, client)
                else s1;
              WakeLoop(repaired, s2, id, l[1..], client)
  {
    hide Resolve, AddCount, Complete;
  }

  lemma ResolveForm(repaired: bool, s: State, id: nat, client: Client)
    ensures Resolve(repaired, s, id, client) ==
            if HasWaiters(s, id) && HasWaiters(Process(s, id, client), id)
            then WakeLoop(repaired, TakeWaiters(Process(s, id, client), id), id, Waiters(s, id), client)
            else Process(s, id, client)
    ensures HasWaiters(s, id) ==>
              && HasWaiters(Process(s, id, client), id)
              && TakeWaiters(Process(s, id, client), id).subs.Keys < s.subs.Keys
  {
  }

  lemma {:induction false} WakeOutside(repaired: bool, s: State, id: nat, l: seq<nat>, client: Client)
    ensures SameOutside(s, WakeLoop(repaired, s, id, l, client))
    decreases s.subs.Keys, 1, |l|
  {
    if l != [] {
      CountOutside(s, l[0], [l[0]]);
      hide SameOutside, Process, AddCount;
      var s1 := AddCount(s, l[0], -1);
      var s2 := s1.(woken := s1.woken + [l[0]]);
      var s3 := if Complete(s1, l[0]) then Resolve(repaired, s2, if repaired then l[0] else id, client) else s1;
      if Complete(s1, l[0]) {
        CountKeys(s, l[0]);
        ResolveOutside(repaired, s2, if repaired then l[0] else id, client);
        SameOutsideTrans(s, s2, s3);
      }
      CountKeys(s, l[0]);
      WakeOutside(repaired, s3, id, l[1..], client);
      SameOutsideTrans(s, s3, WakeLoop(repaired, s3, id, l[1..], client));
    }
  }

  lemma {:induction false} ResolveOutside(repaired: bool, s: State, id: nat, client: Client)
    ensures SameOutside(s, Resolve(repaired, s, id, client))
    decreases s.subs.Keys, 0, 0
  {
    if HasWaiters(s, id) {
      var s1 := TakeWaiters(Process(s, id, client), id);
      WakeOutside(repaired, s1, id, Waiters(s, id), client);
      SameOutsideTrans(s, s1, Resolve(repaired, s, id, client));
    }
  }

  // ---- counting down ----

  lemma WitnessedCountDown(rs: seq<Received>, counts: seq<int>, waiting: set<ChunkPos>, x: nat)
    requires x < |counts| && counts[x] > 0 && Witnessed(rs, counts, waiting, {})
    ensures Witnessed(rs, counts[x := counts[x] - 1], waiting, if counts[x] == 1 then {x} else {})
  {
    var after := counts[x := counts[x] - 1];
    var open: set<nat> := if counts[x] == 1 then {x} else {};
    forall p | p in waiting ensures exists id :: WaitingLevel(rs, after, open, p, id) {
      var id :| WaitingLevel(rs, counts, {}, p, id);
      assert WaitingLevel(rs, after, open, p, id);
    }
  }

  // The parts of the invariant, for proofs that look into none of them.
  lemma InvParts(repaired: bool, s: State, pend: multiset<nat>, open: set<nat>, g: nat)
    requires Inv(repaired, s, pend, open, g)
    ensures Counts(s.counts, s.serverWait, s.subs, pend)
    ensures FiledHashes(s.received, s.db, s.serverWait)
    ensures FiledColumns(s.received, s.subs, s.levelChunksWaiting.Keys)
    ensures Fills(s.received, s.fills, DoneIds(s.processed))
    ensures Progress(repaired, s.received, s.counts, DoneIds(s.processed), s.woken, open)
    ensures Once(repaired, s.processed, s.woken)
    ensures Witnessed(s.received, s.counts, s.levelChunksWaiting.Keys, open)
    ensures Provided(s.received, DoneIds(s.processed), s.db, s.serverWait, g)
    ensures Gated(s.received, DoneIds(s.processed), ProcessedAt(s.processed), s.subs, g)
    ensures s.arrived <= ProcessedAt(s.processed) + s.levelChunksWaiting.Keys && g <= |s.received|
  {
  }

  lemma InvIntro(repaired: bool, s: State, pend: multiset<nat>, open: set<nat>, g: nat)
    requires Counts(s.counts, s.serverWait, s.subs, pend)
    requires FiledHashes(s.received, s.db, s.serverWait)
    requires FiledColumns(s.received, s.subs, s.levelChunksWaiting.Keys)
    requires Fills(s.received, s.fills, DoneIds(s.processed))
    requires Progress(repaired, s.received, s.counts, DoneIds(s.processed), s.woken, open)
    requires Once(repaired, s.processed, s.woken)
    requires Witnessed(s.received, s.counts, s.levelChunksWaiting.Keys, open)
    requires Provided(s.received, DoneIds(s.processed), s.db, s.serverWait, g)
    requires Gated(s.received, DoneIds(s.processed), ProcessedAt(s.processed), s.subs, g)
    requires s.arrived <= ProcessedAt(s.processed) + s.levelChunksWaiting.Keys && g <= |s.received|
    ensures Inv(repaired, s, pend, open, g)
  {
  }

  lemma CountsDown(counts: seq<int>, serverWait: Lists<Hash>, subs: Lists<ChunkPos>, x: nat, pend: multiset<nat>)
    requires x < |counts| && Counts(counts, serverWait, subs, pend + multiset{x})
    ensures counts[x] > 0 && Counts(counts[x := counts[x] - 1], serverWait, subs, pend)
  {
    assert (pend + multiset{x})[x] > 0;
  }

  lemma ProgressDown(repaired: bool, rs: seq<Received>, counts: seq<int>, done: set<nat>, woken: seq<nat>, x: nat)
    requires x < |counts| && counts[x] > 0 && Progress(repaired, rs, counts, done, woken, {})
    ensures x !in done && x !in woken
    ensures Progress(repaired, rs, counts[x := counts[x] - 1], done, woken, if counts[x] == 1 then {x} else {})
  {
  }

  lemma Counted(s: State, id: nat, d: int)
    requires id < |s.counts|
    ensures AddCount(s, id, d) == s.(counts := s.counts[id := s.counts[id] + d])
  {
  }

  lemma CountDown(repaired: bool, s: State, x: nat, pend: multiset<nat>, g: nat)
    requires x < |s.counts| && Inv(repaired, s, pend + multiset{x}, {}, g)
    ensures s.counts[x] > 0 && x !in DoneIds(s.processed) && x !in s.woken
    ensures Inv(repaired, AddCount(s, x, -1), pend, if s.counts[x] == 1 then {x} else {}, g)
  {
    hide *;
    InvParts(repaired, s, pend + multiset{x}, {}, g);
    CountsDown(s.counts, s.serverWait, s.subs, x, pend);
    WitnessedCountDown(s.received, s.counts, s.levelChunksWaiting.Keys, x);
    ProgressDown(repaired, s.received, s.counts, DoneIds(s.processed), s.woken, x);
    Counted(s, x, -1);
    InvIntro(repaired, AddCount(s, x, -1), pend, if s.counts[x] == 1 then {x} else {}, g);
  }

  // ---- resolving ----

  // What may be resolved: a wait that just became complete, or (as the code is written) a processed level chunk again.
  ghost predicate Resolvable(repaired: bool, s: State, id: nat, open: set<nat>) {
    && id < |s.counts| && id < |s.received| && s.counts[id] == 0
    && (if id in DoneIds(s.processed) then open == {} && !repaired && s.woken != [] && s.received[id].pk.Level?
        else open == {id} && (!repaired ==> id !in s.woken))
  }

  lemma OccTake(subs: Lists<ChunkPos>, p: ChunkPos, counts: seq<int>, serverWait: Lists<Hash>, pend: multiset<nat>)
    requires p in subs && Counts(counts, serverWait, subs, pend)
    ensures Counts(counts, serverWait, subs - {p}, pend + multiset(subs[p]))
  {
    forall id | 0 <= id < |counts| ensures Occ(subs, id) == Occ(subs - {p}, id) + multiset(subs[p])[id] {
      OccRemove(subs, p, id);
    }
  }

  lemma WitnessedResolve(rs: seq<Received>, counts: seq<int>, waiting: set<ChunkPos>, open: set<nat>, id: nat)
    requires id < |rs| && open <= {id} && Witnessed(rs, counts, waiting, open)
    ensures rs[id].pk.Level? ==> Witnessed(rs, counts, waiting - {rs[id].pk.lc.pos}, {})
    ensures rs[id].pk.Sub? ==> Witnessed(rs, counts, waiting, {})
  {
    var left := if rs[id].pk.Level? then waiting - {rs[id].pk.lc.pos} else waiting;
    forall p | p in left ensures exists x :: WaitingLevel(rs, counts, {}, p, x) {
      var x :| WaitingLevel(rs, counts, open, p, x);
      assert WaitingLevel(rs, counts, {}, p, x);
    }
  }

  // Sub chunks filed under a column need no filing once a level chunk has been processed there.
  lemma GatedResolve(rs: seq<Received>, done: set<nat>, at: set<ChunkPos>, subs: Lists<ChunkPos>, g: nat, id: nat,
                     p: ChunkPos)
    requires Gated(rs, done, at, subs, g)
    ensures Gated(rs, done + {id}, at + {p}, subs - {p}, g)
  {
    forall x, q | 0 <= x < g && x !in done + {id} && TouchesPos(rs, q, x) && q in rs[x].after
      ensures q in at + {p} || Filing(subs - {p}, q, x)
    {
      assert q in at || Filing(subs, q, x);
    }
  }

  lemma GatedMore(rs: seq<Received>, done: set<nat>, at: set<ChunkPos>, subs: Lists<ChunkPos>, g: nat, id: nat)
    requires Gated(rs, done, at, subs, g)
    ensures Gated(rs, done + {id}, at, subs, g)
  {
  }

  // Resolving a packet, up to the loop over the sub chunks that wait for it.
  ghost function ProcessAndTake(s: State, id: nat, client: Client): State {
    var s1 := Process(s, id, client);
    if HasWaiters(s1, id) then TakeWaiters(s1, id) else s1
  }

  ghost function Taken(s: State, id: nat): seq<nat> {
    if HasWaiters(s, id) then Waiters(s, id) else []
  }

  lemma ProcessKeepsFiles(repaired: bool, s: State, id: nat, client: Client, pend: multiset<nat>, open: set<nat>,
                          g: nat)
    requires Resolvable(repaired, s, id, open) && Inv(repaired, s, pend, open, g)
    ensures var s1 := ProcessAndTake(s, id, client);
            && FiledHashes(s1.received, s1.db, s1.serverWait)
            && FiledColumns(s1.received, s1.subs, s1.levelChunksWaiting.Keys)
            && Witnessed(s1.received, s1.counts, s1.levelChunksWaiting.Keys, {})
  {
    hide Counts, Progress, Once, Provided, Gated, Witnessed, FiledHashes;
    var s1 := ProcessAndTake(s, id, client);
    WitnessedResolve(s.received, s.counts, s.levelChunksWaiting.Keys, open, id);
    if s.fills[id].Level? {
      assert s1.levelChunksWaiting.Keys == s.levelChunksWaiting.Keys - {s.fills[id].lc.pos};
    }
  }

  lemma ProcessKeepsCounts(repaired: bool, s: State, id: nat, client: Client, pend: multiset<nat>, open: set<nat>,
                           g: nat)
    requires Resolvable(repaired, s, id, open) && Inv(repaired, s, pend, open, g)
    ensures var s1 := ProcessAndTake(s, id, client);
            Counts(s1.counts, s1.serverWait, s1.subs, pend + multiset(Taken(s, id)))
  {
    hide Counts, Progress, Once, Provided, Gated, Witnessed, FiledHashes, FiledColumns;
    if HasWaiters(s, id) {
      OccTake(s.subs, s.fills[id].lc.pos, s.counts, s.serverWait, pend);
    } else {
      assert pend + multiset(Taken(s, id)) == pend;
    }
  }

  lemma FillsDone(rs: seq<Received>, fills: seq<Packet>, done: set<nat>, id: nat, pk: Packet)
    requires Fills(rs, fills, done) && id < |fills| && (pk.Level? <==> fills[id].Level?)
    requires pk.Level? ==> pk.lc.pos == fills[id].lc.pos
    ensures Fills(rs, fills[id := pk], done + {id})
  {
    hide InitialFill;
  }

  lemma ProgressDone(repaired: bool, rs: seq<Received>, counts: seq<int>, done: set<nat>, woken: seq<nat>,
                     open: set<nat>, id: nat)
    requires Progress(repaired, rs, counts, done, woken, open) && id < |counts| && counts[id] == 0 && open <= {id}
    requires id in done || repaired || id !in woken
    ensures Progress(repaired, rs, counts, done + {id}, woken, {})
  {
  }

  lemma OnceDone(repaired: bool, ps: seq<Done>, woken: seq<nat>, d: Done)
    requires Once(repaired, ps, woken) && (repaired || woken == [] ==> d.id !in DoneIds(ps))
    ensures Once(repaired, ps + [d], woken)
  {
    forall i | 0 <= i < |ps| ensures ps[i].id in DoneIds(ps) {}
    hide DoneIds;
  }

  lemma FillKeepsPos(db: Db, pk: Packet)
    ensures FillPacket(db, pk).Level? <==> pk.Level?
    ensures pk.Level? ==> FillPacket(db, pk).lc.pos == pk.lc.pos
  {
  }

  lemma ProcessForm(s: State, id: nat, client: Client)
    requires id < |s.fills|
    ensures var pk := FillPacket(s.db, s.fills[id]);
            Process(s, id, client) ==
            s.(fills := s.fills[id := pk], processed := s.processed + [Done(id, pk)],
               levelChunksWaiting := if pk.Level? then s.levelChunksWaiting - {pk.lc.pos} else s.levelChunksWaiting,
               toClient := if client.PlainClient? then s.toClient + [Filled(pk)] else s.toClient)
  {
    hide FillPacket;
  }

  lemma TakeForm(s: State, id: nat)
    requires id < |s.fills|
    ensures (if HasWaiters(s, id) then TakeWaiters(s, id) else s) ==
            s.(subs := if s.fills[id].Level? then s.subs - {s.fills[id].lc.pos} else s.subs)
  {
    if s.fills[id].Level? && s.fills[id].lc.pos !in s.subs {
      assert s.subs - {s.fills[id].lc.pos} == s.subs;
    }
  }

  // What processing writes to the state.
  lemma ProcessAndTakeForm(s: State, id: nat, client: Client)
    requires id < |s.fills|
    ensures var s1, pk := ProcessAndTake(s, id, client), FillPacket(s.db, s.fills[id]);
            && s1.fills == s.fills[id := pk] && s1.processed == s.processed + [Done(id, pk)]
            && s1.received == s.received && s1.counts == s.counts && s1.woken == s.woken
            && s1.db == s.db && s1.serverWait == s.serverWait && s1.arrived == s.arrived
            && s1.subs == (if s.fills[id].Level? then s.subs - {s.fills[id].lc.pos} else s.subs)
            && s1.levelChunksWaiting.Keys
               == s.levelChunksWaiting.Keys - (if s.fills[id].Level? then {s.fills[id].lc.pos} else {})
            && (pk.Level? <==> s.fills[id].Level?) && (pk.Level? ==> pk.lc.pos == s.fills[id].lc.pos)
  {
    hide Process, HasWaiters, TakeWaiters, FillPacket;
    FillKeepsPos(s.db, s.fills[id]);
    ProcessForm(s, id, client);
    TakeForm(Process(s, id, client), id);
  }

  lemma ResolvableParts(repaired: bool, s: State, id: nat, open: set<nat>)
    requires Resolvable(repaired, s, id, open)
    ensures id < |s.counts| && s.counts[id] == 0 && open <= {id}
    ensures if id in DoneIds(s.processed) then !repaired && s.woken != [] else repaired || id !in s.woken
  {
  }

  lemma ProcessKeepsProgress(repaired: bool, s: State, id: nat, client: Client, pend: multiset<nat>, open: set<nat>,
                             g: nat)
    requires Resolvable(repaired, s, id, open) && Inv(repaired, s, pend, open, g)
    ensures var s1 := ProcessAndTake(s, id, client);
            && id in DoneIds(s1.processed)
            && Fills(s1.received, s1.fills, DoneIds(s1.processed))
            && Progress(repaired, s1.received, s1.counts, DoneIds(s1.processed), s1.woken, {})
            && Once(repaired, s1.processed, s1.woken)
  {
    hide *;
    InvFacts(repaired, s, pend, open, g);
    InvParts(repaired, s, pend, open, g);
    ResolvableParts(repaired, s, id, open);
    var pk := FillPacket(s.db, s.fills[id]);
    ProcessAndTakeForm(s, id, client);
    ProcessedAppend(s.processed, Done(id, pk));
    FillsDone(s.received, s.fills, DoneIds(s.processed), id, pk);
    ProgressDone(repaired, s.received, s.counts, DoneIds(s.processed), s.woken, open, id);
    OnceDone(repaired, s.processed, s.woken, Done(id, pk));
  }

  lemma ProvidedMore(rs: seq<Received>, done: set<nat>, db: Db, serverWait: Lists<Hash>, g: nat, id: nat)
    requires Provided(rs, done, db, serverWait, g)
    ensures Provided(rs, done + {id}, db, serverWait, g)
  {
    hide NeedsHash, Filing;
  }

  lemma ProcessKeepsCover(repaired: bool, s: State, id: nat, client: Client, pend: multiset<nat>, open: set<nat>,
                          g: nat)
    requires Resolvable(repaired, s, id, open) && Inv(repaired, s, pend, open, g)
    ensures var s1 := ProcessAndTake(s, id, client);
            && Provided(s1.received, DoneIds(s1.processed), s1.db, s1.serverWait, g)
            && Gated(s1.received, DoneIds(s1.processed), ProcessedAt(s1.processed), s1.subs, g)
            && s1.arrived <= ProcessedAt(s1.processed) + s1.levelChunksWaiting.Keys
  {
    hide *;
    InvFacts(repaired, s, pend, open, g);
    InvParts(repaired, s, pend, open, g);
    ResolvableParts(repaired, s, id, open);
    var pk := FillPacket(s.db, s.fills[id]);
    ProcessAndTakeForm(s, id, client);
    ProcessedAppend(s.processed, Done(id, pk));
    var done, at := DoneIds(s.processed), ProcessedAt(s.processed);
    ProvidedMore(s.received, done, s.db, s.serverWait, g, id);
    if s.fills[id].Level? {
      GatedResolve(s.received, done, at, s.subs, g, id, s.fills[id].lc.pos);
    } else {
      GatedMore(s.received, done, at, s.subs, g, id);
      assert at + {} == at;
    }
  }

  lemma ProcessKeeps(repaired: bool, s: State, id: nat, client: Client, pend: multiset<nat>, open: set<nat>, g: nat)
    requires Resolvable(repaired, s, id, open) && Inv(repaired, s, pend, open, g)
    ensures var s1 := ProcessAndTake(s, id, client);
            Inv(repaired, s1, pend + multiset(Taken(s, id)), {}, g) && id in DoneIds(s1.processed)
  {
    ProcessKeepsFiles(repaired, s, id, client, pend, open, g);
    ProcessKeepsCounts(repaired, s, id, client, pend, open, g);
    ProcessKeepsProgress(repaired, s, id, client, pend, open, g);
    ProcessKeepsCover(repaired, s, id, client, pend, open, g);
  }

  // Recording that a sub chunk was woken: in the code as written it is not resolved any more.
  lemma WokenKeeps(repaired: bool, s: State, x: nat, pend: multiset<nat>, g: nat)
    requires x < |s.received| && s.received[x].pk.Sub? && x < |s.counts| && s.counts[x] == 0
             && x !in DoneIds(s.processed)
    requires Inv(repaired, s, pend, {x}, g)
    ensures Inv(repaired, s.(woken := s.woken + [x]), pend, if repaired then {x} else {}, g)
  {
    if !repaired {
      WitnessedResolve(s.received, s.counts, s.levelChunksWaiting.Keys, {x}, x);
    }
  }

  lemma DoneMonotone(ps: seq<Done>, qs: seq<Done>)
    requires ps <= qs
    ensures DoneIds(ps) <= DoneIds(qs)
  {
    assert forall i :: 0 <= i < |ps| ==> qs[i] == ps[i];
  }

  lemma WaitersAreSubs(repaired: bool, s: State, id: nat, pend: multiset<nat>, open: set<nat>, g: nat)
    requires Inv(repaired, s, pend, open, g) && HasWaiters(s, id)
    ensures var l := Waiters(s, id);
            && id < |s.received| && s.received[id].pk.Level? && l == Taken(s, id)
            && forall i :: 0 <= i < |l| ==> l[i] < |s.received| && s.received[l[i]].pk.Sub?
  {
    InvFacts(repaired, s, pend, open, g);
  }

  // What the first part of resolving does, field by field.
  lemma ProcessAndTakeFields(s: State, id: nat, client: Client)
    requires id < |s.fills|
    ensures var pk := FillPacket(s.db, s.fills[id]);
            var r := ProcessAndTake(s, id, client);
            && r.processed == s.processed + [Done(id, pk)] && r.fills == s.fills[id := pk]
            && r.received == s.received && r.db == s.db && r.woken == s.woken && r.counts == s.counts
  {
  }

  lemma ResolveSteps(repaired: bool, s: State, id: nat, client: Client)
    ensures Resolve(repaired, s, id, client) ==
            if HasWaiters(s, id) then WakeLoop(repaired, ProcessAndTake(s, id, client), id, Waiters(s, id), client)
            else ProcessAndTake(s, id, client)
    ensures HasWaiters(s, id) ==> ProcessAndTake(s, id, client).subs.Keys < s.subs.Keys
  {
  }

  lemma NothingTaken(s: State, id: nat, pend: multiset<nat>)
    requires !HasWaiters(s, id)
    ensures pend + multiset(Taken(s, id)) == pend
  {
  }

  lemma {:induction false} WakeKeeps(repaired: bool, s: State, id: nat, l: seq<nat>, client: Client,
                                     pend: multiset<nat>, g: nat)
    requires id < |s.received| && id in DoneIds(s.processed) && s.received[id].pk.Level?
    requires forall i :: 0 <= i < |l| ==> l[i] < |s.received| && s.received[l[i]].pk.Sub?
    requires Inv(repaired, s, pend + multiset(l), {}, g)
    ensures Inv(repaired, WakeLoop(repaired, s, id, l, client), pend, {}, g)
    decreases s.subs.Keys, 1, |l|
  {
    hide Inv;
    if l == [] {
      assert pend + multiset(l) == pend;
    } else {
      var rest := pend + multiset(l[1..]);
      assert l == [l[0]] + l[1..];
      assert pend + multiset(l) == rest + multiset{l[0]};
      InvFacts(repaired, s, pend + multiset(l), {}, g);
      CountDown(repaired, s, l[0], rest, g);
      var s1 := AddCount(s, l[0], -1);
      if s1.counts[l[0]] == 0 {
        WokenKeeps(repaired, s1, l[0], rest, g);
        var s2 := s1.(woken := s1.woken + [l[0]]);
        var x := if repaired then l[0] else id;
        ResolveKeeps(repaired, s2, x, client, rest, if repaired then {l[0]} else {}, g);
        var s3 := Resolve(repaired, s2, x, client);
        ResolveOutside(repaired, s2, x, client);
        DoneMonotone(s2.processed, s3.processed);
        WakeKeeps(repaired, s3, id, l[1..], client, pend, g);
      } else {
        WakeKeeps(repaired, s1, id, l[1..], client, pend, g);
      }
    }
  }

  lemma {:induction false} ResolveKeeps(repaired: bool, s: State, id: nat, client: Client, pend: multiset<nat>,
                                        open: set<nat>, g: nat)
    requires Resolvable(repaired, s, id, open) && Inv(repaired, s, pend, open, g)
    ensures Inv(repaired, Resolve(repaired, s, id, client), pend, {}, g)
    decreases s.subs.Keys, 0, 0
  {
    ResolveSteps(repaired, s, id, client);
    hide *;
    ProcessKeeps(repaired, s, id, client, pend, open, g);
    var s1 := ProcessAndTake(s, id, client);
    if HasWaiters(s, id) {
      WaitersAreSubs(repaired, s, id, pend, open, g);
      InvFacts(repaired, s, pend, open, g);
      ProcessAndTakeFields(s, id, client);
      WakeKeeps(repaired, s1, id, Waiters(s, id), client, pend, g);
    } else {
      NothingTaken(s, id, pend);
    }
  }
}
