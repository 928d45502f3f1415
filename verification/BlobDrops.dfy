// Which calls drop a sub chunk at line 359, told before the call from the state and the input.

module BlobDrops {
  import opened BlobPackets
  import opened Occurrences
  import opened BlobSpec
  import opened BlobInvariant
  import opened BlobReachable
  import opened BlobTheorems
  import opened BlobDefects

  // ---- what blobs that arrive complete ----

  // `l` are the waits that will be counted down, in order, and `m` what stays filed under hashes.

  // A level chunk at column p that has its last reference in `l`.
  ghost predicate Completes(rs: seq<Received>, m: Lists<Hash>, l: seq<nat>, p: ChunkPos, v: nat) {
    v in l && v < |rs| && rs[v].pk.Level? && rs[v].pk.lc.pos == p && Occ(m, v) == 0
  }

  // From place i on `l` has no reference of w any more, and no level chunk at p was complete before that place.
  ghost predicate Late(rs: seq<Received>, m: Lists<Hash>, subs: Lists<ChunkPos>, l: seq<nat>, w: nat, p: ChunkPos,
                       i: nat) {
    && Filing(subs, p, w) && i <= |l| && w !in l[i..]
    && forall v :: Completes(rs, m, l, p, v) ==> v in l[i..]
  }

  // A sub chunk that will be complete, and has its last reference under a column.
  ghost predicate Doomed(rs: seq<Received>, m: Lists<Hash>, subs: Lists<ChunkPos>, l: seq<nat>, w: nat) {
    && Occ(m, w) == 0
    && (forall p :: Filing(subs, p, w) ==> exists v :: Completes(rs, m, l, p, v))
    && exists p, i: nat :: Late(rs, m, subs, l, w, p, i)
  }

  ghost predicate SomeDoomed(rs: seq<Received>, m: Lists<Hash>, subs: Lists<ChunkPos>, l: seq<nat>) {
    exists w :: Doomed(rs, m, subs, l, w)
  }

  // ---- one reference is counted down ----

  lemma LevelIsNoSub(rs: seq<Received>, subs: Lists<ChunkPos>, waiting: set<ChunkPos>, p: ChunkPos, w: nat)
    requires FiledColumns(rs, subs, waiting) && Filing(subs, p, w)
    ensures w < |rs| && rs[w].pk.Sub?
  {
    var i :| 0 <= i < |subs[p]| && subs[p][i] == w;
    assert TouchesPos(rs, p, subs[p][i]);
  }

  // What the head of the list completes: nothing, or a level chunk.
  ghost predicate HeadTakes(rs: seq<Received>, counts: seq<int>, subs: Lists<ChunkPos>, x: nat) {
    x < |rs| && x < |counts| && rs[x].pk.Level? && counts[x] == 1 && rs[x].pk.lc.pos in subs
  }

  lemma HeadIn(l: seq<nat>, v: nat)
    requires l != []
    ensures v in l <==> v == l[0] || v in l[1..]
    ensures multiset(l)[v] == multiset(l[1..])[v] + if v == l[0] then 1 else 0
    ensures v in l <==> multiset(l)[v] > 0
  {
    assert l == [l[0]] + l[1..];
  }

  // At every column that has waiters, the rest of the list completes what the list does.
  lemma CompletesRest(rs: seq<Received>, counts: seq<int>, m: Lists<Hash>, subs: Lists<ChunkPos>,
                      waiting: set<ChunkPos>,
                      l: seq<nat>, p: ChunkPos, v: nat)
    requires l != [] && l[0] < |rs| == |counts| && Counts(counts, m, subs, multiset(l))
             && FiledColumns(rs, subs, waiting)
    requires p in subs && (!HeadTakes(rs, counts, subs, l[0]) || rs[l[0]].pk.lc.pos != p)
    ensures Completes(rs, m, l, p, v) <==> Completes(rs, m, l[1..], p, v)
  {
    HeadIn(l, v);
    HeadIn(l, l[0]);
    if v == l[0] && Completes(rs, m, l, p, v) {
      LevelNotInColumns(rs, subs, waiting, v);
      assert counts[v] == multiset(l)[v];
      if l[1..] != [] { HeadIn(l[1..], v); }
    }
  }

  lemma DropHead(l: seq<nat>, i: nat)
    requires l != [] && 0 < i <= |l|
    ensures l[i..] == l[1..][i - 1..]
  {
  }

  lemma InSuffix(l: seq<nat>, x: nat)
    requires l != []
    ensures forall i :: 0 < i <= |l| && x in l[i..] ==> x in l[1..]
  {
    forall i | 0 < i <= |l| && x in l[i..] ensures x in l[1..] {
      DropHead(l, i);
    }
  }

  lemma InList(rs: seq<Received>, m: Lists<Hash>, l: seq<nat>, p: ChunkPos, v: nat)
    requires Completes(rs, m, l, p, v)
    ensures v in l
  {
  }

  // A step that takes no waiters changes nobody's fate.
  lemma DoomedSkips(rs: seq<Received>, counts: seq<int>, m: Lists<Hash>, subs: Lists<ChunkPos>, waiting: set<ChunkPos>,
                    l: seq<nat>, w: nat)
    requires l != [] && l[0] < |rs| == |counts| && Counts(counts, m, subs, multiset(l))
             && FiledColumns(rs, subs, waiting)
    requires !HeadTakes(rs, counts, subs, l[0])
    ensures Doomed(rs, m, subs, l, w) <==> Doomed(rs, m, subs, l[1..], w)
  {
    forall p, v | p in subs ensures Completes(rs, m, l, p, v) <==> Completes(rs, m, l[1..], p, v) {
      CompletesRest(rs, counts, m, subs, waiting, l, p, v);
    }
    hide Completes, Counts, FiledColumns;
    if p, i: nat :| Late(rs, m, subs, l, w, p, i) {
      if i > 0 {
        DropHead(l, i);
        assert Late(rs, m, subs, l[1..], w, p, i - 1);
      } else {
        HeadIn(l, w);
        assert l[0..] == l && l[1..][0..] == l[1..];
        forall v | Completes(rs, m, l[1..], p, v) ensures v in l[1..] { InList(rs, m, l[1..], p, v); }
        assert Late(rs, m, subs, l[1..], w, p, 0);
      }
    }
    if p, i: nat :| Late(rs, m, subs, l[1..], w, p, i) {
      DropHead(l, i + 1);
      assert Late(rs, m, subs, l, w, p, i + 1);
    }
  }

  // ---- a level chunk takes its waiters ----

  // A waiter with nothing but its reference under the column that is taken now is doomed.
  lemma LastWaiterDoomed(rs: seq<Received>, counts: seq<int>, m: Lists<Hash>, subs: Lists<ChunkPos>,
                         waiting: set<ChunkPos>, l: seq<nat>, w: nat)
    requires l != [] && l[0] < |rs| == |counts| && Counts(counts, m, subs, multiset(l))
             && FiledColumns(rs, subs, waiting)
    requires HeadTakes(rs, counts, subs, l[0]) && w in subs[rs[l[0]].pk.lc.pos] && w < |counts| && counts[w] == 1
    ensures Doomed(rs, m, subs, l, w)
  {
    var x, p0 := l[0], rs[l[0]].pk.lc.pos;
    assert Filing(subs, p0, w);
    OccRemove(subs, p0, w);
    assert multiset(subs[p0])[w] > 0;
    assert Occ(m, w) == 0 && multiset(l)[w] == 0 && Occ(subs - {p0}, w) == 0;
    HeadIn(l, x);
    HeadIn(l, w);
    assert Completes(rs, m, l, p0, x);
    OccZero(subs - {p0}, w);
    forall p | Filing(subs, p, w) ensures p == p0 { assert p in subs - {p0} || p == p0; }
    assert l[0..] == l;
    assert Late(rs, m, subs, l, w, p0, 0);
  }

  // The head is the only place of a level chunk that it completes.
  lemma HeadOnce(rs: seq<Received>, counts: seq<int>, m: Lists<Hash>, subs: Lists<ChunkPos>, waiting: set<ChunkPos>,
                 l: seq<nat>)
    requires l != [] && l[0] < |rs| == |counts| && Counts(counts, m, subs, multiset(l))
             && FiledColumns(rs, subs, waiting)
    requires HeadTakes(rs, counts, subs, l[0])
    ensures Completes(rs, m, l, rs[l[0]].pk.lc.pos, l[0]) && l[0] !in l[1..]
  {
    HeadIn(l, l[0]);
    if l[1..] != [] { HeadIn(l[1..], l[0]); }
  }

  // After the take, w is filed where it was before, but for the column.
  lemma FilingTaken(subs: Lists<ChunkPos>, p0: ChunkPos, w: nat)
    ensures forall p :: Filing(subs - {p0}, p, w) <==> Filing(subs, p, w) && p != p0
  {
  }

  lemma DoomedBefore(rs: seq<Received>, counts: seq<int>, m: Lists<Hash>, subs: Lists<ChunkPos>,
                     waiting: set<ChunkPos>, l: seq<nat>, w: nat)
    requires l != [] && l[0] < |rs| == |counts| && Counts(counts, m, subs, multiset(l))
             && FiledColumns(rs, subs, waiting)
    requires HeadTakes(rs, counts, subs, l[0]) && Doomed(rs, m, subs - {rs[l[0]].pk.lc.pos}, l[1..], w)
    ensures Doomed(rs, m, subs, l, w)
  {
    var p0 := rs[l[0]].pk.lc.pos;
    FilingTaken(subs, p0, w);
    HeadOnce(rs, counts, m, subs, waiting, l);
    forall p, v | p in subs && p != p0 ensures Completes(rs, m, l, p, v) <==> Completes(rs, m, l[1..], p, v) {
      CompletesRest(rs, counts, m, subs, waiting, l, p, v);
    }
    hide Completes, Counts, FiledColumns, HeadTakes;
    forall p | Filing(subs, p, w) ensures exists v :: Completes(rs, m, l, p, v) {
      if p != p0 {
        assert Filing(subs - {p0}, p, w);
        var v :| Completes(rs, m, l[1..], p, v);
        assert Completes(rs, m, l, p, v);
      }
    }
    var p, i: nat :| Late(rs, m, subs - {p0}, l[1..], w, p, i);
    DropHead(l, i + 1);
    assert Late(rs, m, subs, l, w, p, i + 1);
  }

  // A wait with more than one reference, all of them under columns, is filed under more than one.
  lemma AnotherColumn(counts: seq<int>, m: Lists<Hash>, subs: Lists<ChunkPos>, l: seq<nat>, p0: ChunkPos, w: nat)
    requires Counts(counts, m, subs, multiset(l)) && Filing(subs, p0, w) && NoDuplicates(subs[p0])
    requires w < |counts| && counts[w] != 1 && w !in l && Occ(m, w) == 0
    ensures exists p :: Filing(subs - {p0}, p, w)
  {
    assert multiset(l)[w] == 0;
    OccRemove(subs, p0, w);
    DistinctCount(subs[p0], w);
    OccPositive(subs - {p0}, w);
    var p :| p in subs - {p0} && w in (subs - {p0})[p];
    assert Filing(subs - {p0}, p, w);
  }

  lemma DoomedAfter(rs: seq<Received>, counts: seq<int>, m: Lists<Hash>, subs: Lists<ChunkPos>, waiting: set<ChunkPos>,
                    l: seq<nat>, w: nat)
    requires l != [] && l[0] < |rs| == |counts| && Counts(counts, m, subs, multiset(l))
             && FiledColumns(rs, subs, waiting)
    requires HeadTakes(rs, counts, subs, l[0]) && Doomed(rs, m, subs, l, w)
    requires var q := subs[rs[l[0]].pk.lc.pos];
             NoDuplicates(q) && forall i :: 0 <= i < |q| ==> q[i] < |counts| && counts[q[i]] != 1
    ensures Doomed(rs, m, subs - {rs[l[0]].pk.lc.pos}, l[1..], w)
  {
    var x, p0 := l[0], rs[l[0]].pk.lc.pos;
    var left := subs - {p0};
    FilingTaken(subs, p0, w);
    HeadOnce(rs, counts, m, subs, waiting, l);
    forall p, v | p in subs && p != p0 ensures Completes(rs, m, l, p, v) <==> Completes(rs, m, l[1..], p, v) {
      CompletesRest(rs, counts, m, subs, waiting, l, p, v);
    }
    var p, i: nat :| Late(rs, m, subs, l, w, p, i);
    LevelIsNoSub(rs, subs, waiting, p, w);
    HeadIn(l, w);
    if p == p0 {
      // The level chunk is at the head, so the list has no reference of w, and w waits for another column.
      InSuffix(l, x);
      assert l[0..] == l && w !in l;
      AnotherColumn(counts, m, subs, l, p0, w);
      var p' :| Filing(left, p', w);
      assert l[1..][0..] == l[1..];
      forall v | Completes(rs, m, l[1..], p', v) ensures v in l[1..] { InList(rs, m, l[1..], p', v); }
      assert Late(rs, m, left, l[1..], w, p', 0);
    } else if i > 0 {
      DropHead(l, i);
      assert Late(rs, m, left, l[1..], w, p, i - 1);
    } else {
      assert l[0..] == l && l[1..][0..] == l[1..];
      forall v | Completes(rs, m, l[1..], p, v) ensures v in l[1..] { InList(rs, m, l[1..], p, v); }
      assert Late(rs, m, left, l[1..], w, p, 0);
    }
    hide Completes, Counts, FiledColumns, HeadTakes, Late;
    forall q | Filing(left, q, w) ensures exists v :: Completes(rs, m, l[1..], q, v) {
      var v :| Completes(rs, m, l, q, v);
      assert Completes(rs, m, l[1..], q, v);
    }
  }

  // ---- resolving ----

  lemma {:induction false} QuietWake(s: State, id: nat, l: seq<nat>, client: Client)
    requires WakeLoop(false, s, id, l, client).woken == s.woken
    ensures WakeLoop(false, s, id, l, client).subs == s.subs
    decreases |l|
  {
    if l != [] {
      WakeGrows(s, id, l, client);
      QuietWake(AddCount(s, l[0], -1), id, l[1..], client);
    }
  }

  // Resolving wakes somebody just when a waiter of the column has its last reference there; otherwise the list is gone.
  lemma ResolveWakesIff(s: State, id: nat, client: Client)
    requires id < |s.fills|
    requires HasWaiters(s, id) ==>
               NoDuplicates(Waiters(s, id)) && forall i :: 0 <= i < |Waiters(s, id)| ==> Waiters(s, id)[i] < |s.counts|
    ensures var r := Resolve(false, s, id, client);
            && (r.woken == s.woken <==> HasWaiters(s, id) ==>
                  forall i :: 0 <= i < |Waiters(s, id)| ==> s.counts[Waiters(s, id)[i]] != 1)
            && (r.woken == s.woken ==> r.subs == if HasWaiters(s, id) then s.subs - {s.fills[id].lc.pos} else s.subs)
  {
    ResolveSteps(false, s, id, client);
    if HasWaiters(s, id) {
      var s1 := ProcessAndTake(s, id, client);
      ProcessAndTakeFields(s, id, client);
      assert s1.subs == s.subs - {s.fills[id].lc.pos};
      hide Resolve, WakeLoop, ProcessAndTake;
      WakeGuard(s1, id, Waiters(s, id), client);
      if WakeLoop(false, s1, id, Waiters(s, id), client).woken == s1.woken {
        QuietWake(s1, id, Waiters(s, id), client);
      }
    }
  }

  // ---- the waits for a blob ----

  lemma CountsTail(counts: seq<int>, w: Lists<Hash>, m: Lists<Hash>, subs: Lists<ChunkPos>, l: seq<nat>, t: seq<nat>)
    requires Counts(counts, w, subs, multiset(l)) && forall id :: Occ(w, id) == Occ(m, id) + multiset(t)[id]
    ensures Counts(counts, m, subs, multiset(l + t))
  {
    assert multiset(l + t) == multiset(l) + multiset(t);
  }

  lemma InvColumns(s: State, pend: multiset<nat>, g: nat)
    requires Inv(false, s, pend, {}, g)
    ensures FiledColumns(s.received, s.subs, s.levelChunksWaiting.Keys) && Counts(s.counts, s.serverWait, s.subs, pend)
    ensures |s.counts| == |s.received| && forall p :: p in s.subs ==> NoDuplicates(s.subs[p])
    ensures forall p, i :: p in s.subs && 0 <= i < |s.subs[p]| ==>
              s.subs[p][i] < |s.counts| && s.received[s.subs[p][i]].pk.Sub?
  {
    InvFacts(false, s, pend, {}, g);
  }

  lemma ColumnOnce(s: State, pend: multiset<nat>, g: nat, p: ChunkPos)
    requires Inv(false, s, pend, {}, g) && p in s.subs
    ensures NoDuplicates(s.subs[p])
  {
    InvColumns(s, pend, g);
  }

  // What the step does to the counters, and what resolving will find.
  lemma DownFacts(s: State, x: nat, pend: multiset<nat>, g: nat)
    requires x < |s.received| && Inv(false, s, pend, {}, g)
    ensures |s.counts| == |s.fills| == |s.received|
    ensures var s1 := AddCount(s, x, -1);
            && s1.subs == s.subs && s1.fills == s.fills && s1.woken == s.woken && |s1.counts| == |s.counts|
            && (Complete(s1, x) <==> s.counts[x] == 1)
            && (forall id :: 0 <= id < |s.counts| && id != x ==> s1.counts[id] == s.counts[id])
            && (HeadTakes(s.received, s.counts, s.subs, x) <==> Complete(s1, x) && HasWaiters(s1, x))
            && (HasWaiters(s1, x) ==>
                  && s.received[x].pk.Level? && s.received[x].pk.lc.pos in s.subs
                  && s1.fills[x].lc.pos == s.received[x].pk.lc.pos && Waiters(s1, x) == s.subs[s.received[x].pk.lc.pos])
  {
    InvFacts(false, s, pend, {}, g);
    hide Counts, FiledHashes, FiledColumns, Provided, Gated, Witnessed, Once, Progress;
  }

  lemma SomeIntro(rs: seq<Received>, m: Lists<Hash>, subs: Lists<ChunkPos>, l: seq<nat>, w: nat)
    requires Doomed(rs, m, subs, l, w)
    ensures SomeDoomed(rs, m, subs, l)
  {
  }

  lemma SkippedDoomed(rs: seq<Received>, counts: seq<int>, m: Lists<Hash>, subs: Lists<ChunkPos>,
                      waiting: set<ChunkPos>, l: seq<nat>)
    requires l != [] && l[0] < |rs| == |counts| && Counts(counts, m, subs, multiset(l))
             && FiledColumns(rs, subs, waiting)
    requires !HeadTakes(rs, counts, subs, l[0])
    ensures SomeDoomed(rs, m, subs, l) <==> SomeDoomed(rs, m, subs, l[1..])
  {
    forall w: nat ensures Doomed(rs, m, subs, l, w) <==> Doomed(rs, m, subs, l[1..], w) {
      DoomedSkips(rs, counts, m, subs, waiting, l, w);
    }
    hide Doomed;
  }

  lemma TakenDoomed(rs: seq<Received>, counts: seq<int>, m: Lists<Hash>, subs: Lists<ChunkPos>, waiting: set<ChunkPos>,
                    l: seq<nat>,
                    q: seq<nat>)
    requires l != [] && l[0] < |rs| == |counts| && Counts(counts, m, subs, multiset(l))
             && FiledColumns(rs, subs, waiting)
    requires HeadTakes(rs, counts, subs, l[0])
    requires q == subs[rs[l[0]].pk.lc.pos] && NoDuplicates(q)
    requires forall i :: 0 <= i < |q| ==> q[i] < |counts| && counts[q[i]] != 1
    ensures SomeDoomed(rs, m, subs, l) <==> SomeDoomed(rs, m, subs - {rs[l[0]].pk.lc.pos}, l[1..])
  {
    var left := subs - {rs[l[0]].pk.lc.pos};
    forall w: nat ensures Doomed(rs, m, subs, l, w) <==> Doomed(rs, m, left, l[1..], w) {
      if Doomed(rs, m, subs, l, w) { DoomedAfter(rs, counts, m, subs, waiting, l, w); }
      if Doomed(rs, m, left, l[1..], w) { DoomedBefore(rs, counts, m, subs, waiting, l, w); }
    }
    hide Doomed;
  }

  // `l` are the waits that are counted down now and `t` those that come after, out of other lists of hashes.
  lemma OneDown(s: State, l: seq<nat>, t: seq<nat>, m: Lists<Hash>, client: Client, g: nat)
    requires l != [] && l[0] < |s.received| && Inv(false, s, multiset(l), {}, g) && s.woken == []
    requires forall id :: Occ(s.serverWait, id) == Occ(m, id) + multiset(t)[id]
    ensures var s1 := AddCount(s, l[0], -1);
            var s2 := if Complete(s1, l[0]) then Resolve(false, s1, l[0], client) else s1;
            && (s2.woken == [] ==>
                  (SomeDoomed(s.received, m, s.subs, l + t) <==> SomeDoomed(s.received, m, s2.subs, l[1..] + t)))
            && (s2.woken != [] ==> SomeDoomed(s.received, m, s.subs, l + t))
  {
    hide *;
    var all, rs, x := l + t, s.received, l[0];
    assert all[0] == x && all[1..] == l[1..] + t;
    InvColumns(s, multiset(l), g);
    CountsTail(s.counts, s.serverWait, m, s.subs, l, t);
    DownFacts(s, x, multiset(l), g);
    var s1 := AddCount(s, x, -1);
    ResolveWakesIff(s1, x, client);
    if HeadTakes(rs, s.counts, s.subs, x) {
      var q := s.subs[rs[x].pk.lc.pos];
      assert forall i :: 0 <= i < |q| ==> q[i] < |s.counts|;
      if exists i :: 0 <= i < |q| && s.counts[q[i]] == 1 {
        var i :| 0 <= i < |q| && s.counts[q[i]] == 1;
        LastWaiterDoomed(rs, s.counts, m, s.subs, s.levelChunksWaiting.Keys, all, q[i]);
        SomeIntro(rs, m, s.subs, all, q[i]);
        assert s1.counts[Waiters(s1, x)[i]] == 1;
      } else {
        ColumnOnce(s, multiset(l), g, rs[x].pk.lc.pos);
        TakenDoomed(rs, s.counts, m, s.subs, s.levelChunksWaiting.Keys, all, q);
        assert forall i :: 0 <= i < |q| ==> s1.counts[Waiters(s1, x)[i]] == s.counts[q[i]];
      }
    } else {
      SkippedDoomed(rs, s.counts, m, s.subs, s.levelChunksWaiting.Keys, all);
    }
  }

  lemma WaiterTurn(s: State, l: seq<nat>, client: Client)
    ensures l == [] ==> WaiterLoop(false, s, l, client) == s
    ensures l != [] ==>
              var s1 := AddCount(s, l[0], -1);
              var s2 := if Complete(s1, l[0]) then Resolve(false, s1, l[0], client) else s1;
              WaiterLoop(false, s, l, client) == WaiterLoop(false, s2, l[1..], client)
  {
    hide Resolve, AddCount, Complete;
  }

  lemma OutsideFields(s: State, r: State)
    requires SameOutside(s, r)
    ensures r.received == s.received && r.serverWait == s.serverWait
  {
  }

  lemma DownKeeps(s: State, l: seq<nat>, client: Client, g: nat)
    requires l != [] && l[0] < |s.received| && Inv(false, s, multiset(l), {}, g)
    ensures var s1 := AddCount(s, l[0], -1);
            var s2 := if Complete(s1, l[0]) then Resolve(false, s1, l[0], client) else s1;
            && Inv(false, s2, multiset(l[1..]), {}, g) && SameOutside(s, s2)
            && s2.received == s.received && s2.serverWait == s.serverWait
  {
    hide *;
    TurnForm(false, s, l[0], client);
    TurnKeeps(false, s, l, client, g);
  }

  // Counting down a list drops somebody only if somebody was doomed, and leaves the fate of the others to what comes
  // after.
  lemma {:induction false} WaitersDrop(s: State, l: seq<nat>, t: seq<nat>, m: Lists<Hash>, client: Client, g: nat)
    requires (forall i :: 0 <= i < |l| ==> l[i] < |s.received|) && Inv(false, s, multiset(l), {}, g) && s.woken == []
    requires forall id :: Occ(s.serverWait, id) == Occ(m, id) + multiset(t)[id]
    ensures var r := WaiterLoop(false, s, l, client);
            && (r.woken == [] ==> (SomeDoomed(s.received, m, s.subs, l + t) <==> SomeDoomed(s.received, m, r.subs, t)))
            && (r.woken != [] ==> SomeDoomed(s.received, m, s.subs, l + t))
    decreases |l|
  {
    hide *;
    WaiterTurn(s, l, client);
    if l == [] {
      assert l + t == t;
    } else {
      var s1 := AddCount(s, l[0], -1);
      var s2 := if Complete(s1, l[0]) then Resolve(false, s1, l[0], client) else s1;
      OneDown(s, l, t, m, client, g);
      DownKeeps(s, l, client, g);
      WaitersGrow(s2, l[1..], client);
      if s2.woken == [] {
        WaitersDrop(s2, l[1..], t, m, client, g);
      }
    }
  }

  // ---- blobs ----

  function HashesOf(blobs: seq<CacheBlob>): set<Hash> {
    set i | 0 <= i < |blobs| :: blobs[i].hash
  }

  // The waits that these blobs count down, in order.
  function Answered(m: Lists<Hash>, blobs: seq<CacheBlob>): seq<nat> {
    if blobs == [] then [] else At(m, blobs[0].hash) + Answered(m - {blobs[0].hash}, blobs[1..])
  }

  lemma HashesRest(m: Lists<Hash>, blobs: seq<CacheBlob>)
    requires blobs != []
    ensures m - HashesOf(blobs) == m - {blobs[0].hash} - HashesOf(blobs[1..])
  {
    assert forall i :: 0 <= i < |blobs[1..]| ==> blobs[1..][i] == blobs[i + 1];
    assert HashesOf(blobs) == {blobs[0].hash} + HashesOf(blobs[1..]) by {
      assert blobs == [blobs[0]] + blobs[1..];
    }
  }

  lemma {:induction false} AnsweredOcc(m: Lists<Hash>, blobs: seq<CacheBlob>, id: nat)
    ensures Occ(m, id) == Occ(m - HashesOf(blobs), id) + multiset(Answered(m, blobs))[id]
    decreases |blobs|
  {
    if blobs == [] {
      assert m - HashesOf(blobs) == m;
    } else {
      var h := blobs[0].hash;
      HashesRest(m, blobs);
      AnsweredOcc(m - {h}, blobs[1..], id);
      if h in m { OccRemove(m, h, id); } else { assert m - {h} == m; }
      assert multiset(Answered(m, blobs)) == multiset(At(m, h)) + multiset(Answered(m - {h}, blobs[1..]));
    }
  }

  lemma QuietFrom(s: State, r: State)
    requires Inv(false, r, multiset{}, {}, |s.received|) && r.received == s.received
    ensures Quiet(false, r)
  {
  }

  lemma NothingDoomed(rs: seq<Received>, m: Lists<Hash>, subs: Lists<ChunkPos>)
    ensures !SomeDoomed(rs, m, subs, [])
  {
    assert forall p, v :: !Completes(rs, m, [], p, v);
  }

  lemma BlobTurn(s: State, blobs: seq<CacheBlob>, client: Client)
    ensures blobs == [] ==> BlobLoop(false, s, blobs, client) == s && Answered(s.serverWait, blobs) == []
    ensures blobs != [] ==>
              var s1 := Receive(s, blobs[0]);
              var l := At(s1.serverWait, blobs[0].hash);
              && BlobLoop(false, s, blobs, client)
                 == BlobLoop(false, WaiterLoop(false, s1.(serverWait := s1.serverWait - {blobs[0].hash}), l, client),
                   blobs[1..], client)
              && Answered(s.serverWait, blobs) == At(s.serverWait, blobs[0].hash)
                + Answered(s.serverWait - {blobs[0].hash}, blobs[1..])
  {
    hide Receive, WaiterLoop;
  }

  // Before the call: the blobs of a response drop a sub chunk if and only if one of them is doomed: what stays filed
  // under hashes has no reference of it, the blobs complete a level chunk at each of its columns, and at one of its
  // columns none is complete before its own last hash is answered.
  lemma {:induction false} BlobsDropIff(s: State, blobs: seq<CacheBlob>, client: Client)
    requires Quiet(false, s) && s.woken == []
    ensures BlobLoop(false, s, blobs, client).woken != []
            <==> SomeDoomed(s.received, s.serverWait - HashesOf(blobs), s.subs, Answered(s.serverWait, blobs))
    decreases |blobs|
  {
    hide *;
    BlobTurn(s, blobs, client);
    if blobs == [] {
      NothingDoomed(s.received, s.serverWait - HashesOf(blobs), s.subs);
    } else {
      var h, rest := blobs[0].hash, blobs[1..];
      var s1 := Receive(s, blobs[0]);
      var s2 := s1.(serverWait := s1.serverWait - {h});
      var l, t, m := At(s.serverWait, h), Answered(s.serverWait - {h}, rest), s.serverWait - HashesOf(blobs);
      ReceiveOutside(s, blobs[0]);
      ReceiveKeeps(false, s, blobs[0]);
      WaitersInRange(false, s, h);
      HashesRest(s.serverWait, blobs);
      forall id ensures Occ(s2.serverWait, id) == Occ(m, id) + multiset(t)[id] {
        AnsweredOcc(s.serverWait - {h}, rest, id);
      }
      WaitersDrop(s2, l, t, m, client, |s.received|);
      WaitersKeep(false, s2, l, client, |s.received|);
      var s3 := WaiterLoop(false, s2, l, client);
      OutsideFields(s2, s3);
      QuietFrom(s2, s3);
      BlobsGrow(s3, rest, client);
      if s3.woken == [] {
        BlobsDropIff(s3, rest, client);
      }
    }
  }

  // ---- level chunks and sub chunks ----

  // A level chunk whose blobs are all stored, at a column where a sub chunk has its last reference.
  ghost predicate LevelDrops(s: State, lc: LevelChunk) {
    && (forall h :: h in lc.blobHashes ==> h in s.db)
    && lc.pos in s.subs
    && exists i :: 0 <= i < |s.subs[lc.pos]| && s.subs[lc.pos][i] < |s.counts| && s.counts[s.subs[lc.pos][i]] == 1
  }

  lemma {:induction false} LevelLoopHits(b: Build, id: nat, pos: ChunkPos, hs: seq<Hash>)
    requires forall h :: h in hs ==> h in b.s.db
    ensures LevelLoop(b, id, pos, hs).s == b.s
    decreases |hs|
  {
    if hs != [] {
      assert hs[0] in b.s.db;
      LevelLoopHits(LevelStep(b, id, pos, hs[0]), id, pos, hs[1..]);
    }
  }

  lemma {:induction false} LevelLoopSubs(b: Build, id: nat, pos: ChunkPos, hs: seq<Hash>)
    ensures LevelLoop(b, id, pos, hs).s.subs == b.s.subs
    decreases |hs|
  {
    if hs != [] { LevelLoopSubs(LevelStep(b, id, pos, hs[0]), id, pos, hs[1..]); }
  }

  // A level chunk is complete in its own handler just when all its blobs are stored.
  lemma LevelIsComplete(repaired: bool, s: State, lc: LevelChunk)
    requires Quiet(repaired, s)
    ensures var r := BuildLevel(s, lc).s;
            && |s.counts| == |s.received| && |r.counts| == |s.received| + 1
            && (r.counts[|s.received|] == 0 <==> forall h :: h in lc.blobHashes ==> h in s.db)
            && ((forall h :: h in lc.blobHashes ==> h in s.db) ==> r == NewWait(s, Level(lc)))
  {
    var id := |s.received|;
    var b0 := Build(NewWait(s, Level(lc)), Reply([], []), []);
    var r := BuildLevel(s, lc).s;
    LevelBuilt(repaired, s, lc);
    NewWaitFields(s, Level(lc));
    hide LevelLoop, Quiet, Building;
    if forall h :: h in lc.blobHashes ==> h in s.db {
      LevelLoopHits(b0, id, lc.pos, lc.blobHashes);
      assert r == b0.s;
      BuildingParts(repaired, r, id);
    } else {
      var h :| h in lc.blobHashes && h !in s.db;
      hide BuildLevel, NewWait;
      BuildingParts(repaired, r, id);
      assert h in Needs(Level(lc));
      assert Filing(r.serverWait, h, id);
      OccPositive(r.serverWait, id);
      assert r.counts[id] == Occ(r.serverWait, id) + Occ(r.subs, id);
    }
  }

  lemma QuietIs(s: State)
    requires Quiet(false, s)
    ensures Inv(false, s, multiset{}, {}, |s.received|) && |s.counts| == |s.fills| == |s.received|
  {
    InvFacts(false, s, multiset{}, {}, |s.received|);
  }

  lemma LevelDropsForm(s: State, lc: LevelChunk)
    ensures LevelDrops(s, lc) <==>
            && (forall h :: h in lc.blobHashes ==> h in s.db)
            && lc.pos in s.subs
            && var l := s.subs[lc.pos]; exists i :: 0 <= i < |l| && l[i] < |s.counts| && s.counts[l[i]] == 1
  {
  }

  lemma LevelFinish(s: State, lc: LevelChunk, client: Client)
    ensures var b := BuildLevel(s, lc);
            var a := Announce(b);
            HandleLevelChunk(false, s, lc, client).woken ==
            if |s.counts| < |a.counts| && a.counts[|s.counts|] == 0 then Resolve(false, a, |s.counts|, client).woken
              else a.woken
  {
    hide BuildLevel, Announce, Resolve;
  }

  // The new level chunk finds the waiters that are filed under its column.
  lemma NewLevel(s: State, lc: LevelChunk, a: State)
    requires |s.counts| == |s.fills| == |s.received|
    requires a == NewWait(s, Level(lc)).(hits := a.hits, wire := a.wire)
    ensures |a.fills| == |s.received| + 1 && a.counts == s.counts + [0] && a.subs == s.subs && a.woken == s.woken
    ensures HasWaiters(a, |s.received|) <==> lc.pos in s.subs
    ensures HasWaiters(a, |s.received|) ==> Waiters(a, |s.received|) == s.subs[lc.pos]
  {
  }

  // Before the call: a level chunk drops a sub chunk if and only if it is complete at once and one that waits for its
  // column has its last reference there.
  lemma LevelDropsIff(s: State, lc: LevelChunk, client: Client)
    requires Quiet(false, s) && s.woken == []
    ensures HandleLevelChunk(false, s, lc, client).woken != [] <==> LevelDrops(s, lc)
  {
    hide *;
    var id, b := |s.received|, BuildLevel(s, lc);
    LevelIsComplete(false, s, lc);
    BuildWoken(s, LevelChunkIn(lc, client));
    LevelFinish(s, lc, client);
    AnnounceSame(b);
    if forall h :: h in lc.blobHashes ==> h in s.db {
      NewWaitFields(s, Level(lc));
      QuietIs(s);
      InvColumns(s, multiset{}, |s.received|);
      NewLevel(s, lc, Announce(b));
      if lc.pos in s.subs { ColumnOnce(s, multiset{}, |s.received|, lc.pos); }
      ResolveWakesIff(Announce(b), id, client);
      LevelDropsForm(s, lc);
    } else {
      LevelDropsForm(s, lc);
    }
  }

  // A sub chunk packet never drops one.
  lemma SubDropsNone(s: State, sc: SubChunk, client: Client)
    requires Quiet(false, s) && s.woken == []
    ensures HandleSubChunk(false, s, sc, client).woken == []
  {
    var b := BuildSub(s, sc);
    BuildWoken(s, SubChunkIn(sc, client));
    SubBuilt(false, s, sc);
    AnnounceSame(b);
    assert |s.fills| == |s.counts| by { QuietIs(s); }
    hide Quiet, Inv, BuildSub, Announce;
    assert !HasWaiters(Announce(b), |s.counts|);
  }

  // ---- calls and runs ----

  // What a call has to meet for line 359 to drop a sub chunk in it.
  ghost predicate Drops(s: State, i: Input) {
    match i
    case LevelChunkIn(lc, _) => LevelDrops(s, lc)
    case SubChunkIn(_, _) => false
    case BlobsIn(blobs, _) =>
      SomeDoomed(s.received, s.serverWait - HashesOf(blobs), s.subs, Answered(s.serverWait, blobs))
    case ClientStatusIn(_) => false
  }

  lemma HandleDropsIff(s: State, i: Input)
    requires Quiet(false, s) && s.woken == []
    ensures Handle(false, s, i).woken != [] <==> Drops(s, i)
  {
    hide Quiet, HandleLevelChunk, HandleSubChunk, BlobLoop, LevelDrops, SomeDoomed, StatusLoop;
    match i
    case LevelChunkIn(lc, client) => LevelDropsIff(s, lc, client);
    case SubChunkIn(sc, client) => SubDropsNone(s, sc, client);
    case BlobsIn(blobs, client) => BlobsDropIff(s, blobs, client);
    case ClientStatusIn(misses) =>
      var s1 := s.(clientWaits := s.clientWaits + [ClientWait(0, [])], toClient := s.toClient + [Missed(misses)]);
      StatusLoopOutside(s1, |s.clientWaits|, misses);
  }

  // No call of the run meets what drops a sub chunk.
  ghost predicate NoDrops(db: Db, inputs: seq<Input>) {
    forall k :: 0 <= k < |inputs| ==> !Drops(Run(false, db, inputs[..k]), inputs[k])
  }

  lemma NoDropsStep(db: Db, inputs: seq<Input>)
    requires inputs != []
    ensures var n := |inputs| - 1;
            NoDrops(db, inputs) <==> NoDrops(db, inputs[..n]) && !Drops(Run(false, db, inputs[..n]), inputs[n])
  {
    hide Run, Drops;
    var n := |inputs| - 1;
    assert forall k :: 0 <= k < n ==> inputs[..n][..k] == inputs[..k] && inputs[..n][k] == inputs[k];
  }

  lemma NoRunDrops(db: Db)
    ensures Run(false, db, []).woken == [] && NoDrops(db, [])
  {
  }

  // No sub chunk is dropped in a run if and only if none of its calls meets what drops one.
  lemma {:induction false} RunDropsIff(db: Db, inputs: seq<Input>)
    ensures Run(false, db, inputs).woken == [] <==> NoDrops(db, inputs)
    decreases |inputs|
  {
    hide *;
    if inputs == [] {
      NoRunDrops(db);
    } else {
      var n := |inputs| - 1;
      var before := inputs[..n];
      var s := Run(false, db, before);
      RunDropsIff(db, before);
      RunKeeps(false, db, before);
      AgreeHandle(s, inputs[n]);
      RunStep(false, db, inputs);
      if s.woken == [] { HandleDropsIff(s, inputs[n]); }
      NoDropsStep(db, inputs);
    }
  }

  // As written, every cached packet reaches processPacket exactly once when it is ready, and not before, in exactly the
  // runs in which no call meets what drops a sub chunk.
  lemma ExactlyOnceIff(db: Db, inputs: seq<Input>)
    ensures EachOnce(Run(false, db, inputs)) <==> NoDrops(db, inputs)
  {
    hide *;
    ProcessedExactlyOnce(false, db, inputs);
    RunDropsIff(db, inputs);
  }
}
