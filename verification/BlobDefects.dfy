// Line 359 departs from what is meant, and exactly when it matters.

module BlobDefects {
  import opened BlobPackets
  import opened Occurrences
  import opened BlobSpec
  import opened BlobInvariant
  import opened BlobReachable
  import opened BlobTheorems

  // ---- line 359: a woken sub chunk is not resolved ----

  // A sub chunk that completes is recorded for good.
  lemma WakeGrows(s: State, id: nat, l: seq<nat>, client: Client)
    requires l != []
    ensures Complete(AddCount(s, l[0], -1), l[0]) ==> s.woken + [l[0]] <= WakeLoop(false, s, id, l, client).woken
  {
    var s1 := AddCount(s, l[0], -1);
    if Complete(s1, l[0]) {
      var s2 := s1.(woken := s1.woken + [l[0]]);
      ResolveOutside(false, s2, id, client);
      var s3 := Resolve(false, s2, id, client);
      WakeOutside(false, s3, id, l[1..], client);
      assert WakeLoop(false, s, id, l, client) == WakeLoop(false, s3, id, l[1..], client);
    }
  }

  lemma {:induction false} AgreeWake(s: State, id: nat, l: seq<nat>, client: Client)
    requires WakeLoop(false, s, id, l, client).woken == s.woken
    ensures WakeLoop(true, s, id, l, client) == WakeLoop(false, s, id, l, client)
    decreases s.subs.Keys, 1, |l|
  {
    if l != [] {
      WakeGrows(s, id, l, client);
      AgreeWake(AddCount(s, l[0], -1), id, l[1..], client);
    }
  }

  lemma {:induction false} AgreeResolve(s: State, id: nat, client: Client)
    requires Resolve(false, s, id, client).woken == s.woken
    ensures Resolve(true, s, id, client) == Resolve(false, s, id, client)
    decreases s.subs.Keys, 0, 0
  {
    if HasWaiters(s, id) {
      AgreeWake(TakeWaiters(Process(s, id, client), id), id, Waiters(s, id), client);
    }
  }

  lemma StillResolvable(s: State, id: nat, open: set<nat>)
    requires Resolvable(false, s, id, open) && s.woken == []
    ensures Resolvable(true, s, id, open)
  {
  }

  // While nothing was dropped, the two invariants are the same.
  lemma WrittenIsRepaired(s: State, pend: multiset<nat>, open: set<nat>, g: nat)
    requires Inv(false, s, pend, open, g) && s.woken == []
    ensures Inv(true, s, pend, open, g)
  {
  }

  // A dropped sub chunk was not processed by the code as written, and would have been by the repaired code.
  lemma WokenTellsApart(r: State, r': State, pend: multiset<nat>, g: nat)
    requires Inv(false, r, pend, {}, g) && Inv(true, r', pend, {}, g) && r.woken != []
    ensures r != r'
  {
    assert r.woken[0] in r.woken;
    hide Counts, FiledHashes, FiledColumns, Fills, Once, Witnessed, Provided, Gated;
  }

  lemma {:induction false} WakeGuard(s: State, id: nat, l: seq<nat>, client: Client)
    requires NoDuplicates(l) && forall i :: 0 <= i < |l| ==> l[i] < |s.counts|
    ensures WakeLoop(false, s, id, l, client).woken == s.woken <==> forall i :: 0 <= i < |l| ==> s.counts[l[i]] != 1
    decreases |l|
  {
    if l != [] {
      WakeGrows(s, id, l, client);
      var s1 := AddCount(s, l[0], -1);
      if s.counts[l[0]] != 1 {
        forall i | 0 <= i < |l[1..]| ensures l[1..][i] == l[i + 1] && s1.counts[l[1..][i]] == s.counts[l[i + 1]] {}
        WakeGuard(s1, id, l[1..], client);
        if forall i :: 0 <= i < |l| ==> s.counts[l[i]] != 1 {
          assert forall i :: 0 <= i < |l[1..]| ==> s1.counts[l[1..][i]] != 1;
        } else {
          var i :| 0 <= i < |l| && s.counts[l[i]] == 1;
          assert s1.counts[l[1..][i - 1]] == 1;
        }
      }
    }
  }

  // Before the call: the two ways of resolving agree if and only if no sub chunk that waits for this column
  // has its last reference there.
  lemma ResolveAgreesIff(s: State, id: nat, client: Client, pend: multiset<nat>, open: set<nat>, g: nat)
    requires Resolvable(false, s, id, open) && Inv(false, s, pend, open, g) && s.woken == []
    ensures Resolve(true, s, id, client) == Resolve(false, s, id, client)
            <==> (HasWaiters(s, id) ==> forall i :: 0 <= i < |Waiters(s, id)| ==>
                    Waiters(s, id)[i] < |s.counts| && s.counts[Waiters(s, id)[i]] != 1)
  {
    ResolveSteps(false, s, id, client);
    ResolveSteps(true, s, id, client);
    if HasWaiters(s, id) {
      assert NoDuplicates(Waiters(s, id));
      var s1 := ProcessAndTake(s, id, client);
      hide Inv, Resolvable, Resolve, WakeLoop, ProcessAndTake, HasWaiters, Waiters, NoDuplicates;
      InvFacts(false, s, pend, open, g);
      WrittenIsRepaired(s, pend, open, g);
      WaitersAreSubs(false, s, id, pend, open, g);
      ProcessAndTakeFields(s, id, client);
      WakeGuard(s1, id, Waiters(s, id), client);
      if Resolve(false, s, id, client).woken == [] {
        AgreeResolve(s, id, client);
      } else {
        ResolveKeeps(false, s, id, client, pend, open, g);
        StillResolvable(s, id, open);
        ResolveKeeps(true, s, id, client, pend, open, g);
        WokenTellsApart(Resolve(false, s, id, client), Resolve(true, s, id, client), pend, g);
      }
    }
  }

  // ---- line 359 over whole runs ----

  lemma {:induction false} WaitersGrow(s: State, l: seq<nat>, client: Client)
    ensures s.woken <= WaiterLoop(false, s, l, client).woken
    decreases |l|
  {
    if l != [] {
      var s1 := AddCount(s, l[0], -1);
      ResolveOutside(false, s1, l[0], client);
      WaitersGrow(if Complete(s1, l[0]) then Resolve(false, s1, l[0], client) else s1, l[1..], client);
    }
  }

  lemma {:induction false} AgreeWaiters(s: State, l: seq<nat>, client: Client)
    requires WaiterLoop(false, s, l, client).woken == s.woken
    ensures WaiterLoop(true, s, l, client) == WaiterLoop(false, s, l, client)
    decreases |l|
  {
    if l != [] {
      var s1 := AddCount(s, l[0], -1);
      if Complete(s1, l[0]) {
        var s2 := Resolve(false, s1, l[0], client);
        ResolveOutside(false, s1, l[0], client);
        WaitersGrow(s2, l[1..], client);
        AgreeResolve(s1, l[0], client);
        AgreeWaiters(s2, l[1..], client);
      } else {
        AgreeWaiters(s1, l[1..], client);
      }
    }
  }

  lemma StepGrows(s: State, b: CacheBlob, client: Client)
    ensures s.woken <= BlobStep(false, s, b, client).woken
  {
    ReceiveOutside(s, b);
    var s1 := Receive(s, b);
    hide Receive;
    WaitersGrow(s1.(serverWait := s1.serverWait - {b.hash}), At(s1.serverWait, b.hash), client);
  }

  lemma {:induction false} BlobsGrow(s: State, blobs: seq<CacheBlob>, client: Client)
    ensures s.woken <= BlobLoop(false, s, blobs, client).woken
    decreases |blobs|
  {
    if blobs != [] {
      StepGrows(s, blobs[0], client);
      hide BlobStep;
      BlobsGrow(BlobStep(false, s, blobs[0], client), blobs[1..], client);
    }
  }

  lemma AgreeStep(s: State, b: CacheBlob, client: Client)
    requires BlobStep(false, s, b, client).woken == s.woken
    ensures BlobStep(true, s, b, client) == BlobStep(false, s, b, client)
  {
    ReceiveOutside(s, b);
    var s1 := Receive(s, b);
    hide Receive;
    AgreeWaiters(s1.(serverWait := s1.serverWait - {b.hash}), At(s1.serverWait, b.hash), client);
  }

  lemma {:induction false} AgreeBlobs(s: State, blobs: seq<CacheBlob>, client: Client)
    requires BlobLoop(false, s, blobs, client).woken == s.woken
    ensures BlobLoop(true, s, blobs, client) == BlobLoop(false, s, blobs, client)
    decreases |blobs|
  {
    if blobs != [] {
      var s1 := BlobStep(false, s, blobs[0], client);
      StepGrows(s, blobs[0], client);
      BlobsGrow(s1, blobs[1..], client);
      AgreeStep(s, blobs[0], client);
      hide BlobStep;
      AgreeBlobs(s1, blobs[1..], client);
    }
  }

  lemma {:induction false} LevelLoopWoken(b: Build, id: nat, pos: ChunkPos, hs: seq<Hash>)
    ensures LevelLoop(b, id, pos, hs).s.woken == b.s.woken
    decreases |hs|
  {
    if hs != [] { LevelLoopWoken(LevelStep(b, id, pos, hs[0]), id, pos, hs[1..]); }
  }

  lemma {:induction false} SubLoopWoken(b: Build, id: nat, es: seq<Entry>)
    ensures SubLoop(b, id, es).s.woken == b.s.woken
    decreases |es|
  {
    if es != [] { SubLoopWoken(SubStep(b, id, es[0]), id, es[1..]); }
  }

  lemma BuildWoken(s: State, i: Input)
    ensures i.LevelChunkIn? ==> BuildLevel(s, i.lc).s.woken == s.woken
    ensures i.SubChunkIn? ==> BuildSub(s, i.sc).s.woken == s.woken
  {
    match i
    case LevelChunkIn(lc, _) =>
      LevelLoopWoken(Build(NewWait(s, Level(lc)), Reply([], []), []), |s.counts|, lc.pos, lc.blobHashes);
    case SubChunkIn(sc, _) => SubLoopWoken(Build(NewWait(s, Sub(sc)), Reply([], []), []), |s.counts|, sc.entries);
    case _ =>
  }

  lemma AgreeFinish(b: Build, id: nat, client: Client)
    ensures b.s.woken <= FinishState(false, b, id, client).woken
    ensures FinishState(false, b, id, client).woken == b.s.woken ==>
              FinishState(true, b, id, client) == FinishState(false, b, id, client)
  {
    var s := Announce(b);
    AnnounceSame(b);
    hide Announce, Resolve;
    ResolveOutside(false, s, id, client);
    if Resolve(false, s, id, client).woken == s.woken { AgreeResolve(s, id, client); }
  }

  lemma AgreeHandle(s: State, i: Input)
    ensures s.woken <= Handle(false, s, i).woken
    ensures Handle(false, s, i).woken == s.woken ==> Handle(true, s, i) == Handle(false, s, i)
  {
    BuildWoken(s, i);
    hide BuildLevel, BuildSub, FinishState, BlobLoop, StatusLoop;
    match i
    case LevelChunkIn(lc, client) => AgreeFinish(BuildLevel(s, lc), |s.counts|, client);
    case SubChunkIn(sc, client) => AgreeFinish(BuildSub(s, sc), |s.counts|, client);
    case BlobsIn(blobs, client) =>
      BlobsGrow(s, blobs, client);
      if BlobLoop(false, s, blobs, client).woken == s.woken { AgreeBlobs(s, blobs, client); }
    case ClientStatusIn(misses) =>
      var s1 := s.(clientWaits := s.clientWaits + [ClientWait(0, [])], toClient := s.toClient + [Missed(misses)]);
      StatusLoopOutside(s1, |s.clientWaits|, misses);
  }

  lemma {:induction false} AgreeRun(db: Db, inputs: seq<Input>)
    requires Run(false, db, inputs).woken == []
    ensures Run(true, db, inputs) == Run(false, db, inputs)
    decreases |inputs|
  {
    if inputs != [] {
      var before := inputs[..|inputs| - 1];
      AgreeHandle(Run(false, db, before), inputs[|inputs| - 1]);
      hide Handle;
      AgreeRun(db, before);
    }
  }

  // A run of the code as written goes as meant if and only if the test at line 358 never succeeds in it.
  lemma RunAgreesIff(db: Db, inputs: seq<Input>)
    ensures Run(true, db, inputs) == Run(false, db, inputs) <==> Run(false, db, inputs).woken == []
  {
    if Run(false, db, inputs).woken == [] {
      AgreeRun(db, inputs);
    } else {
      RunKeeps(false, db, inputs);
      RunKeeps(true, db, inputs);
      if Run(true, db, inputs) == Run(false, db, inputs) {
        WokenTellsApart(Run(false, db, inputs), Run(true, db, inputs), multiset{}, |Run(false, db, inputs).received|);
      }
    }
  }

  // ---- a run in which it does not ----

  const HOME := ChunkPos(0, 0)
  const COLUMN := LevelChunk(HOME, 0, 0, 1, true, [7], [])
  const PIECE := SubChunk(true, 0, Vec3(0, 0, 0), [Entry(Success, Vec3(0, 0, 0), 8, [], [])])
  const STORED: Db := map[8 := [1]]

  // The sub chunk's blob is stored; it waits for the level chunk, whose blob arrives last.
  function DroppingRun(): seq<Input> {
    [LevelChunkIn(COLUMN, CachingClient), SubChunkIn(PIECE, CachingClient), BlobsIn([CacheBlob(7, [2])], CachingClient)]
  }

  lemma RunOfNone(db: Db)
    ensures Run(false, db, []) == Initial(db)
  {
  }

  lemma RunOfOne(db: Db, a: Input)
    ensures Run(false, db, [a]) == Handle(false, Initial(db), a)
  {
    hide Handle;
    assert [a][..0] == [];
  }

  lemma RunOfThree(repaired: bool, db: Db, a: Input, b: Input, c: Input)
    ensures Run(repaired, db, [a, b, c])
            == Handle(repaired, Handle(repaired, Handle(repaired, Initial(db), a), b), c)
  {
    hide Handle;
    assert [a, b, c][..2] == [a, b] && [a, b][..1] == [a] && [a][..0] == [];
    assert Run(repaired, db, []) == Initial(db);
    assert Run(repaired, db, [a]) == Handle(repaired, Initial(db), a);
    assert Run(repaired, db, [a, b]) == Handle(repaired, Run(repaired, db, [a]), b);
  }

  // After the level chunk: its wait 0 is filed under blob 7.
  ghost predicate ColumnWaits(s: State) {
    && s.db == STORED && s.counts == [1] && s.fills == [Level(COLUMN)] && s.serverWait == map[7 := [0]]
    && s.levelChunksWaiting.Keys == {HOME} && s.subs == map[] && s.clientWait == map[]
    && s.processed == [] && s.woken == []
  }

  // After the sub chunk: its wait 1 is filed under the column.
  ghost predicate PieceWaits(s: State) {
    && s.db == STORED && s.counts == [1, 1] && s.fills == [Level(COLUMN), InitialFill(Sub(PIECE))]
    && s.serverWait == map[7 := [0]] && s.subs == map[HOME := [1]] && s.clientWait == map[]
    && s.processed == [] && s.woken == []
  }

  lemma DroppingFirst()
    ensures ColumnWaits(Handle(false, Initial(STORED), LevelChunkIn(COLUMN, CachingClient)))
  {
    var s0 := Initial(STORED);
    var b0 := Build(NewWait(s0, Level(COLUMN)), Reply([], []), []);
    var b := LevelStep(b0, 0, HOME, 7);
    assert b0.s.counts == [0] && b0.s.fills == [Level(COLUMN)];
    assert b.s.counts == [1];
    assert At(b0.s.serverWait, 7) + [0] == [0];
    assert b.s.serverWait == map[7 := [0]];
    assert b.s.levelChunksWaiting.Keys == {HOME};
    assert COLUMN.blobHashes[1..] == [];
    assert BuildLevel(s0, COLUMN) == b;
  }

  lemma PieceHit(s: State)
    requires s.db == STORED
    ensures SubLoop(Build(s, Reply([], []), []), 1, PIECE.entries).s == s
  {
    var b := SubStep(Build(s, Reply([], []), []), 1, PIECE.entries[0]);
    assert PIECE.entries[1..] == [];
    assert SubLoop(b, 1, []) == b;
  }

  lemma TouchesOne(position: Vec3, e: Entry)
    requires e.result == Success
    ensures Touches(position, [e]) == {EntryPos(position, e)}
  {
    hide EntryPos;
    assert [e][0] == e;
  }

  lemma WrapZero()
    ensures Wrap32(0) == 0
  {
  }

  lemma PieceTouches()
    ensures Touches(PIECE.position, PIECE.entries) == {HOME}
  {
    var e := Entry(Success, Vec3(0, 0, 0), 8, [], []);
    WrapZero();
    hide Touches, Wrap32;
    assert EntryPos(Vec3(0, 0, 0), e) == HOME;
    TouchesOne(Vec3(0, 0, 0), e);
  }

  lemma PieceFiled(s: State)
    requires s.counts == [1, 0] && s.subs == map[]
    ensures AddSubs(s, 1, {HOME}) == s.(counts := [1, 1], subs := map[HOME := [1]])
  {
    assert At(s.subs, HOME) + [1] == [1];
    assert AppendAll(s.subs, {HOME}, 1) == map[HOME := [1]];
    hide AppendAll;
    assert s.counts[1 := 1] == [1, 1];
  }

  lemma PieceBuiltFrom(s: State, s1: State)
    requires s1 == NewWait(s, Sub(PIECE)) && |s.counts| == 1 && s.levelChunksWaiting.Keys == {HOME}
    requires s1.counts == [1, 0] && s1.subs == map[] && s1.db == STORED && s1.levelChunksWaiting == s.levelChunksWaiting
    ensures BuildSub(s, PIECE).s == s1.(counts := [1, 1], subs := map[HOME := [1]])
  {
    hide Touches, SubLoop, AddSubs, NewWait, PIECE;
    PieceHit(s1);
    PieceTouches();
    assert {HOME} * s1.levelChunksWaiting.Keys == {HOME};
    PieceFiled(s1);
  }

  lemma PieceBuilt(s: State)
    requires ColumnWaits(s)
    ensures PieceWaits(BuildSub(s, PIECE).s)
  {
    var s1 := NewWait(s, Sub(PIECE));
    assert s1.counts == [1, 0] && s1.subs == map[] && s1.db == STORED && |s.counts| == 1;
    assert s1 == s.(counts := [1, 0], fills := [Level(COLUMN), InitialFill(Sub(PIECE))], received := s1.received);
    PieceBuiltFrom(s, s1);
  }

  lemma DroppingSecond(s: State)
    requires ColumnWaits(s)
    ensures PieceWaits(Handle(false, s, SubChunkIn(PIECE, CachingClient)))
  {
    var b := BuildSub(s, PIECE);
    assert Handle(false, s, SubChunkIn(PIECE, CachingClient)) == FinishState(false, b, 1, CachingClient);
    PieceBuilt(s);
    hide BuildSub, Handle;
    assert !Complete(b.s, 1);
    AnnounceSame(b);
    hide Announce;
  }

  lemma DroppingWake(s: State) returns (r: State)
    requires s.counts == [0, 1] && |s.fills| == 2 && s.fills[0].Level? && s.subs == map[]
    requires |s.processed| == 1 && s.processed[0].id == 0 && s.woken == []
    ensures r == WakeLoop(false, s, 0, [1], CachingClient) && IdsOf(r.processed) == [0, 0] && r.woken == [1]
  {
    var s1 := AddCount(s, 1, -1);
    assert s1.counts == [0, 0];
    var s2 := s1.(woken := s1.woken + [1]);
    r := Process(s2, 0, CachingClient);
    assert r.processed == [s.processed[0], r.processed[1]] && r.processed[1].id == 0;
    assert Resolve(false, s2, 0, CachingClient) == r;
    hide Resolve, Process, AddCount;
    assert [1][1..] == [];
    assert WakeLoop(false, s, 0, [1], CachingClient) == WakeLoop(false, r, 0, [], CachingClient);
  }

  // The first counter to reach zero resolves the level chunk, and so does the second.
  lemma DroppingResolve(s: State) returns (r: State)
    requires s.counts == [0, 1] && |s.fills| == 2 && s.fills[0].Level? && s.subs == map[s.fills[0].lc.pos := [1]]
    requires s.processed == [] && s.woken == []
    ensures r == Resolve(false, s, 0, CachingClient) && IdsOf(r.processed) == [0, 0] && r.woken == [1]
  {
    var s3 := TakeWaiters(Process(s, 0, CachingClient), 0);
    assert IdsOf(s3.processed) == [0] && |s3.processed| == 1;
    assert s3.subs == map[];
    assert Resolve(false, s, 0, CachingClient) == WakeLoop(false, s3, 0, [1], CachingClient);
    r := DroppingWake(s3);
  }

  lemma DroppingThird(s: State)
    requires PieceWaits(s)
    ensures var r := Handle(false, s, BlobsIn([CacheBlob(7, [2])], CachingClient));
            IdsOf(r.processed) == [0, 0] && r.woken == [1]
  {
    var blob := CacheBlob(7, [2]);
    var s1 := Receive(s, blob).(serverWait := map[]);
    assert Receive(s, blob).serverWait - {7 as Hash} == map[];
    var s2 := AddCount(s1, 0, -1);
    assert s2.counts == [0, 1];
    assert Complete(s2, 0);
    var s5 := DroppingResolve(s2);
    assert [0][1..] == [];
    hide Resolve, AddCount, Complete;
    assert WaiterLoop(false, s1, [0], CachingClient) == s5;
    assert BlobStep(false, s, blob, CachingClient) == s5;
    assert [blob][1..] == [];
  }

  lemma TimesZeroZero(s: State)
    requires IdsOf(s.processed) == [0, 0]
    ensures Times(s, 0) == 2 && Times(s, 1) == 0
  {
  }

  // The level chunk is processed twice and the sub chunk, with all it waited for there, never.
  lemma SubChunkDropped()
    ensures var s := Run(false, STORED, DroppingRun());
            && Times(s, 0) == 2 && Times(s, 1) == 0 && s.woken == [1] && !EachOnce(s)
  {
    var a := LevelChunkIn(COLUMN, CachingClient);
    var b := SubChunkIn(PIECE, CachingClient);
    var c := BlobsIn([CacheBlob(7, [2])], CachingClient);
    assert DroppingRun() == [a, b, c];
    hide *;
    RunOfThree(false, STORED, a, b, c);
    ProcessedExactlyOnce(false, STORED, DroppingRun());
    DroppingFirst();
    DroppingSecond(Handle(false, Initial(STORED), a));
    DroppingThird(Handle(false, Handle(false, Initial(STORED), a), b));
    TimesZeroZero(Run(false, STORED, DroppingRun()));
  }
}
