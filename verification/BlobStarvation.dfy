// Line 408 over whole runs: a client gets every blob it reported missing if and only if its reports were clean.

module BlobStarvation {
  import opened Common
  import opened BlobPackets
  import opened Occurrences
  import opened BlobSpec
  import opened BlobInvariant
  import opened BlobReachable
  import opened BlobRecords
  import opened BlobTheorems
  import opened BlobFlight
  import opened BlobClients
  import opened BlobDefects

  // ---- starved waits stay starved ----

  lemma SameWaitsStarved(s: State, r: State, c: nat)
    requires Starved(s, c) && r.clientWaits == s.clientWaits && r.clientWait == s.clientWait
    ensures Starved(r, c)
  {
  }

  // The wait keeps its hashes, too.
  ghost predicate SameHashes(s: State, r: State) {
    && |s.clientWaits| <= |r.clientWaits|
    && forall c :: 0 <= c < |s.clientWaits| ==> r.clientWaits[c].hashes == s.clientWaits[c].hashes
  }

  lemma BlobStepWaits(repaired: bool, s: State, blob: CacheBlob, client: Client)
    requires Quiet(repaired, s)
    ensures var r := BlobStep(repaired, s, blob, client);
            r.clientWaits == Receive(s, blob).clientWaits && r.clientWait == Receive(s, blob).clientWait
  {
    BlobStepOutside(repaired, s, blob, client);
    hide BlobStep, Quiet, Receive;
  }

  lemma ClientStepHashes(s: State, h: Hash)
    ensures SameHashes(s, ClientStep(s, h))
  {
  }

  lemma BlobStepStarves(repaired: bool, s: State, blob: CacheBlob, client: Client, c: nat)
    requires Quiet(repaired, s) && Starved(s, c)
    ensures var r := BlobStep(repaired, s, blob, client); Starved(r, c) && SameHashes(s, r)
  {
    BlobStepOutside(repaired, s, blob, client);
    BlobStepWaits(repaired, s, blob, client);
    hide BlobStep, Quiet, Starved, ClientStep;
    var s0 := s.(db := s.db[blob.hash := blob.payload], wire := s.wire + [Answer(blob)]);
    SameWaitsStarved(s, s0, c);
    StarvedForever(s0, c, blob.hash, []);
    ClientStepHashes(s0, blob.hash);
    SameWaitsStarved(Receive(s, blob), BlobStep(repaired, s, blob, client), c);
  }

  lemma {:induction false} BlobLoopStarves(repaired: bool, s: State, blobs: seq<CacheBlob>, client: Client, c: nat)
    requires Quiet(repaired, s) && Starved(s, c)
    ensures var r := BlobLoop(repaired, s, blobs, client); Starved(r, c) && SameHashes(s, r)
    decreases |blobs|
  {
    if blobs != [] {
      hide Quiet, Starved, BlobStep;
      BlobStepStarves(repaired, s, blobs[0], client, c);
      BlobStepKeeps(repaired, s, blobs[0], client);
      BlobLoopStarves(repaired, BlobStep(repaired, s, blobs[0], client), blobs[1..], client, c);
    }
  }

  lemma ArriveTalk(s: State, r: State, p: ChunkPos)
    requires SameTalk(s, r)
    ensures SameTalk(s, r.(arrived := r.arrived + {p}))
  {
    hide Reported, Sent;
  }

  lemma FinishLeavesClients(repaired: bool, s: State, b: Build, id: nat, client: Client)
    requires b.s.db == s.db && b.s.clientWaits == s.clientWaits && b.s.clientWait == s.clientWait
    requires b.s.toClient == s.toClient && s.serverWait.Keys <= b.s.serverWait.Keys
    ensures var r := FinishState(repaired, b, id, client);
            && r.clientWaits == s.clientWaits && r.clientWait == s.clientWait && r.db == s.db
            && SameTalk(s, r) && s.serverWait.Keys <= r.serverWait.Keys
  {
    AnnounceSame(b);
    var a := Announce(b);
    FinishOutside(repaired, b, id, client);
    ResolveTalk(repaired, a, id, client);
    hide Announce, Resolve;
    assert SameTalk(a, FinishState(repaired, b, id, client));
    TalkKept(s, a, FinishState(repaired, b, id, client));
  }

  // What the two handlers of chunk packets leave alone.
  lemma ChunksLeaveClients(repaired: bool, s: State, i: Input)
    requires i.LevelChunkIn? || i.SubChunkIn?
    ensures var r := Handle(repaired, s, i);
            && r.clientWaits == s.clientWaits && r.clientWait == s.clientWait && r.db == s.db
            && SameTalk(s, r) && s.serverWait.Keys <= r.serverWait.Keys
  {
    match i
    case LevelChunkIn(lc, client) =>
      LevelLoopClient(Build(NewWait(s, Level(lc)), Reply([], []), []), |s.counts|, lc.pos, lc.blobHashes);
      hide FinishState, LevelLoop, SameTalk;
      FinishLeavesClients(repaired, s, BuildLevel(s, lc), |s.counts|, client);
      ArriveTalk(s, FinishState(repaired, BuildLevel(s, lc), |s.counts|, client), lc.pos);
    case SubChunkIn(sc, client) =>
      SubLoopClient(Build(NewWait(s, Sub(sc)), Reply([], []), []), |s.counts|, sc.entries);
      BuildSubClient(s, sc);
      hide FinishState, SubLoop, BuildSub, SameTalk;
      FinishLeavesClients(repaired, s, BuildSub(s, sc), |s.counts|, client);
  }

  lemma HandleStarves(repaired: bool, s: State, i: Input, c: nat)
    requires Quiet(repaired, s) && Starved(s, c)
    ensures var r := Handle(repaired, s, i); Starved(r, c) && SameHashes(s, r)
  {
    if i.LevelChunkIn? || i.SubChunkIn? {
      hide Handle, Quiet, SameTalk, Starved;
      ChunksLeaveClients(repaired, s, i);
      SameWaitsStarved(s, Handle(repaired, s, i), c);
    } else if i.BlobsIn? {
      hide Starved, Quiet;
      BlobLoopStarves(repaired, s, i.blobs, i.client, c);
    } else {
      StarvedForever(s, c, 0, i.misses);
      ClientStatusForm(s, i.misses);
      hide ClientStatus, Quiet, Starved, Missing, Point, ClientPayloads;
    }
  }

  // No call ever mends a starved wait.
  lemma {:induction false} RunStarves(repaired: bool, db: Db, inputs: seq<Input>, k: nat, c: nat)
    requires k <= |inputs| && Starved(Run(repaired, db, inputs[..k]), c)
    ensures Starved(Run(repaired, db, inputs), c) && SameHashes(Run(repaired, db, inputs[..k]),
            Run(repaired, db, inputs))
    decreases |inputs|
  {
    if k == |inputs| {
      assert inputs[..k] == inputs;
    } else {
      var before := inputs[..|inputs| - 1];
      assert before[..k] == inputs[..k];
      hide Starved, Handle;
      RunStarves(repaired, db, before, k, c);
      RunKeeps(repaired, db, before);
      HandleStarves(repaired, Run(repaired, db, before), inputs[|inputs| - 1], c);
    }
  }

  // ---- the invariant of all runs ----

  // As in clean runs: its counter is right, and its hashes are stored or point to it.
  ghost predicate Fair(s: State, c: nat) {
    c < |s.clientWaits| && s.clientWaits[c].count == |KeysOf(s.clientWait, c)| && Pointed(s, c)
  }

  ghost predicate Bounded(s: State, c: nat) {
    c < |s.clientWaits| && s.clientWaits[c].count <= |s.clientWaits[c].hashes|
  }

  // Every wait is fair or starved, and what was reported is what was sent and what is owed.
  ghost predicate Held(s: State) {
    && (forall h :: h in s.clientWait ==> s.clientWait[h] < |s.clientWaits|)
    && (forall c :: 0 <= c < |s.clientWaits| ==> (Fair(s, c) || Starved(s, c)) && Bounded(s, c))
    && Conserved(s)
  }

  lemma HeldFrame(s: State, r: State)
    requires Held(s) && SameTalk(s, r) && r.db == s.db && r.clientWaits == s.clientWaits && r.clientWait == s.clientWait
    ensures Held(r)
  {
    forall c | 0 <= c < |s.clientWaits| ensures (Fair(r, c) || Starved(r, c)) && Bounded(r, c) {
      assert (Fair(s, c) || Starved(s, c)) && Bounded(s, c);
    }
    hide Reported, Sent, Owed;
  }

  // ---- a report ----

  lemma StillPointed(s: State, r: State, f: seq<Hash>, c: nat)
    requires c < |s.clientWaits| && Pointed(s, c) && KeysOf(s.clientWait, c) !! SetOf(f)
    requires r.clientWaits == s.clientWaits + [ClientWait(|f|, f)]
             && r.clientWait == Point(s.clientWait, f, |s.clientWaits|)
    requires r.db == s.db
    ensures Pointed(r, c)
  {
    assert r.clientWaits[c] == s.clientWaits[c];
    forall h | h in s.clientWait && s.clientWait[h] == c ensures h !in f && h in r.clientWait && r.clientWait[h] == c {
      assert h in KeysOf(s.clientWait, c);
    }
  }

  // An earlier wait loses the hashes that are reported again, and is starved then.
  lemma ReportOthers(s: State, r: State, f: seq<Hash>, c: nat)
    requires c < |s.clientWaits| && (Fair(s, c) || Starved(s, c)) && Bounded(s, c)
    requires r.clientWaits == s.clientWaits + [ClientWait(|f|, f)]
             && r.clientWait == Point(s.clientWait, f, |s.clientWaits|)
    requires r.db == s.db && forall h :: h in s.clientWait ==> s.clientWait[h] < |s.clientWaits|
    ensures (Fair(r, c) || Starved(r, c)) && Bounded(r, c)
  {
    var keys, fs := KeysOf(s.clientWait, c), SetOf(f);
    PointKeys(s.clientWait, f, |s.clientWaits|, c);
    assert KeysOf(r.clientWait, c) == keys - fs && r.clientWaits[c] == s.clientWaits[c];
    SubsetSize(keys - fs, keys);
    if Fair(s, c) {
      if keys !! fs {
        assert keys - fs == keys;
        StillPointed(s, r, f, c);
      } else {
        SetMinus(keys, fs);
      }
    }
  }

  // The new wait is fair if no hash is reported twice.
  lemma ReportNew(s: State, r: State, f: seq<Hash>)
    requires r.clientWaits == s.clientWaits + [ClientWait(|f|, f)]
             && r.clientWait == Point(s.clientWait, f, |s.clientWaits|)
    requires forall h :: h in s.clientWait ==> s.clientWait[h] < |s.clientWaits|
    ensures var n := |s.clientWaits|; (Fair(r, n) || Starved(r, n)) && Bounded(r, n)
  {
    var n := |s.clientWaits|;
    PointKeys(s.clientWait, f, n, n);
    SetOfSize(f);
  }

  lemma ReportHeld(s: State, misses: seq<Hash>)
    requires Held(s)
    ensures Held(ClientStatus(s, misses))
  {
    var f, r := Missing(s.db, misses), ClientStatus(s, misses);
    ClientStatusForm(s, misses);
    hide ClientStatus, Missing, ClientPayloads, Fair, Starved, Bounded, Conserved;
    ReportTalk(s, r, misses);
    PointedAt(s.clientWaits, s.clientWait, f);
    forall c | 0 <= c < |r.clientWaits| ensures (Fair(r, c) || Starved(r, c)) && Bounded(r, c) {
      if c < |s.clientWaits| {
        ReportOthers(s, r, f, c);
      } else {
        ReportNew(s, r, f);
      }
    }
    hide Point;
  }

  // ---- an answer ----

  // The wait that gets the hash: it stays fair, or starved.
  lemma AnswerOne(s: State, r: State, h: Hash)
    requires h in s.clientWait && s.clientWait[h] < |s.clientWaits| && h in r.db && s.db.Keys <= r.db.Keys
    requires var c := s.clientWait[h];
             && (Fair(s, c) || Starved(s, c)) && Bounded(s, c)
             && r.clientWaits == s.clientWaits[c := s.clientWaits[c].(count := s.clientWaits[c].count - 1)]
             && r.clientWait == s.clientWait - {h}
    ensures var c := s.clientWait[h];
            && (Fair(r, c) || Starved(r, c)) && Bounded(r, c) && s.clientWaits[c].count > 0
            && (r.clientWaits[c].count == 0 ==> Pointed(r, c) && |KeysOf(r.clientWait, c)| == 0)
  {
    KeysOfRemove(s.clientWait, h);
    hide KeysOf;
  }

  lemma AnswerOther(s: State, r: State, h: Hash, x: nat)
    requires h in s.clientWait && s.clientWait[h] < |s.clientWaits| && s.db.Keys <= r.db.Keys && x < |s.clientWaits|
    requires x != s.clientWait[h] && (Fair(s, x) || Starved(s, x)) && Bounded(s, x)
    requires |r.clientWaits| == |s.clientWaits| && r.clientWaits[x] == s.clientWaits[x]
             && r.clientWait == s.clientWait - {h}
    ensures (Fair(r, x) || Starved(r, x)) && Bounded(r, x)
  {
    KeysOfRemove(s.clientWait, h);
    hide KeysOf;
  }

  lemma ConservedSame(s: State, r: State)
    requires Conserved(s) && r.toClient == s.toClient && r.clientWaits == s.clientWaits
    ensures Conserved(r)
  {
    hide Reported, Sent, Owed;
  }

  lemma AnswerHeld(s: State, blob: CacheBlob)
    requires Held(s)
    ensures Held(Receive(s, blob))
  {
    var h, r := blob.hash, Receive(s, blob);
    ReceiveOutside(s, blob);
    if h in s.clientWait {
      var c := s.clientWait[h];
      ReceiveClient(s, blob);
      hide Receive, Fair, Starved, Bounded, Pointed, KeysOf, Conserved;
      AnswerOne(s, r, h);
      AnswerTalk(s, r, h, r.clientWaits[c]);
      forall x | 0 <= x < |r.clientWaits| ensures (Fair(r, x) || Starved(r, x)) && Bounded(r, x) {
        if x != c { AnswerOther(s, r, h, x); }
      }
    } else {
      assert r.clientWaits == s.clientWaits && r.clientWait == s.clientWait && r.toClient == s.toClient;
      hide Receive, Conserved;
      ConservedSame(s, r);
      forall c | 0 <= c < |s.clientWaits| ensures (Fair(r, c) || Starved(r, c)) && Bounded(r, c) {
        assert (Fair(s, c) || Starved(s, c)) && Bounded(s, c);
      }
    }
  }

  lemma BlobStepTalk(repaired: bool, s: State, blob: CacheBlob, client: Client)
    requires Quiet(repaired, s)
    ensures var s1, r := Receive(s, blob), BlobStep(repaired, s, blob, client);
            && SameTalk(s1, r) && r.db == s1.db && r.clientWaits == s1.clientWaits && r.clientWait == s1.clientWait
            && r.serverWait.Keys == s.serverWait.Keys - {blob.hash}
  {
    var s1 := Receive(s, blob);
    var s2 := s1.(serverWait := s1.serverWait - {blob.hash});
    ReceiveOutside(s, blob);
    BlobStepOutside(repaired, s, blob, client);
    WaitersTalk(repaired, s2, At(s1.serverWait, blob.hash), client);
    hide Quiet, Receive, WaiterLoop, Reported, Sent;
  }

  lemma BlobStepHeld(repaired: bool, s: State, blob: CacheBlob, client: Client)
    requires Quiet(repaired, s) && Held(s)
    ensures Held(BlobStep(repaired, s, blob, client))
  {
    hide *;
    AnswerHeld(s, blob);
    BlobStepTalk(repaired, s, blob, client);
    HeldFrame(Receive(s, blob), BlobStep(repaired, s, blob, client));
  }

  lemma {:induction false} BlobLoopHeld(repaired: bool, s: State, blobs: seq<CacheBlob>, client: Client)
    requires Quiet(repaired, s) && Held(s)
    ensures Held(BlobLoop(repaired, s, blobs, client))
    decreases |blobs|
  {
    if blobs != [] {
      hide Quiet, Held, BlobStep;
      BlobStepHeld(repaired, s, blobs[0], client);
      BlobStepKeeps(repaired, s, blobs[0], client);
      BlobLoopHeld(repaired, BlobStep(repaired, s, blobs[0], client), blobs[1..], client);
    }
  }

  // ---- runs ----

  lemma HandleHeld(repaired: bool, s: State, i: Input)
    requires Quiet(repaired, s) && Held(s)
    ensures Held(Handle(repaired, s, i))
  {
    hide Quiet, Held;
    if i.LevelChunkIn? || i.SubChunkIn? {
      hide Handle;
      ChunksLeaveClients(repaired, s, i);
      HeldFrame(s, Handle(repaired, s, i));
    } else if i.BlobsIn? {
      BlobLoopHeld(repaired, s, i.blobs, i.client);
    } else {
      ReportHeld(s, i.misses);
    }
  }

  lemma {:induction false} RunHeld(repaired: bool, db: Db, inputs: seq<Input>)
    ensures Held(Run(repaired, db, inputs))
    decreases |inputs|
  {
    if inputs != [] {
      hide Held, Handle;
      var before := inputs[..|inputs| - 1];
      RunHeld(repaired, db, before);
      RunKeeps(repaired, db, before);
      HandleHeld(repaired, Run(repaired, db, before), inputs[|inputs| - 1]);
    }
  }

  // Every report was clean when it was made.
  ghost predicate CleanRun(repaired: bool, db: Db, inputs: seq<Input>) {
    forall k :: 0 <= k < |inputs| && inputs[k].ClientStatusIn?
      ==> Clean(Run(repaired, db, inputs[..k]), inputs[k].misses)
  }

  lemma CleanRunStep(repaired: bool, db: Db, inputs: seq<Input>)
    requires inputs != []
    ensures var n := |inputs| - 1;
            CleanRun(repaired, db, inputs) <==>
            CleanRun(repaired, db, inputs[..n])
            && (inputs[n].ClientStatusIn? ==> Clean(Run(repaired, db, inputs[..n]), inputs[n].misses))
  {
    hide Run, Clean;
    var n := |inputs| - 1;
    assert forall k :: 0 <= k < n ==> inputs[..n][..k] == inputs[..k] && inputs[..n][k] == inputs[k];
  }

  lemma ReceiveWaits(s: State, blob: CacheBlob)
    requires forall h :: h in s.clientWait ==> s.clientWait[h] < |s.clientWaits|
    ensures var h, r := blob.hash, Receive(s, blob);
            if h !in s.clientWait then r.clientWaits == s.clientWaits && r.clientWait == s.clientWait
            else
              var c := s.clientWait[h];
              && r.clientWaits == s.clientWaits[c := s.clientWaits[c].(count := s.clientWaits[c].count - 1)]
              && r.clientWait == s.clientWait - {h}
  {
  }

  lemma {:induction false} BlobLoopCounts(repaired: bool, s: State, blobs: seq<CacheBlob>, client: Client)
    requires Quiet(repaired, s) && ClientCounts(s.clientWaits, s.clientWait)
    ensures var r := BlobLoop(repaired, s, blobs, client); ClientCounts(r.clientWaits, r.clientWait)
    decreases |blobs|
  {
    if blobs != [] {
      var h := blobs[0].hash;
      BlobStepWaits(repaired, s, blobs[0], client);
      BlobStepKeeps(repaired, s, blobs[0], client);
      ReceiveWaits(s, blobs[0]);
      if h in s.clientWait { AnswerCounts(s, h); }
      hide Quiet, ClientCounts, BlobStep, Receive;
      BlobLoopCounts(repaired, BlobStep(repaired, s, blobs[0], client), blobs[1..], client);
    }
  }

  lemma HandleCounts(repaired: bool, s: State, i: Input)
    requires Quiet(repaired, s) && ClientCounts(s.clientWaits, s.clientWait)
    requires i.ClientStatusIn? ==> Clean(s, i.misses)
    ensures var r := Handle(repaired, s, i); ClientCounts(r.clientWaits, r.clientWait)
  {
    hide Quiet, ClientCounts, Clean;
    if i.LevelChunkIn? || i.SubChunkIn? {
      hide Handle;
      ChunksLeaveClients(repaired, s, i);
    } else if i.BlobsIn? {
      BlobLoopCounts(repaired, s, i.blobs, i.client);
    } else {
      CountsKeptIff(s, i.misses);
    }
  }

  ghost predicate SomeStarved(s: State) {
    exists c: nat :: Starved(s, c)
  }

  lemma StarvedStep(repaired: bool, s: State, i: Input)
    requires Quiet(repaired, s) && SomeStarved(s)
    ensures SomeStarved(Handle(repaired, s, i))
  {
    var c: nat :| Starved(s, c);
    hide Starved, Handle, Quiet;
    HandleStarves(repaired, s, i, c);
  }

  lemma UncleanStep(repaired: bool, s: State, i: Input)
    requires ClientCounts(s.clientWaits, s.clientWait) && i.ClientStatusIn? && !Clean(s, i.misses)
    ensures SomeStarved(Handle(repaired, s, i))
  {
    hide Clean, ClientCounts, ClientStatus, Starved;
    UncleanStarves(s, i.misses);
    var c: nat :| Starved(ClientStatus(s, i.misses), c);
  }

  lemma RunLast(repaired: bool, db: Db, inputs: seq<Input>)
    requires inputs != []
    ensures var n := |inputs| - 1;
            Run(repaired, db, inputs) == Handle(repaired, Run(repaired, db, inputs[..n]), inputs[n])
  {
  }

  lemma NoRunCounts(repaired: bool, db: Db)
    ensures var s := Run(repaired, db, []); CleanRun(repaired, db, []) && ClientCounts(s.clientWaits, s.clientWait)
  {
    assert KeysOf(map[], 0) == {};
  }

  // Counters are right after a run if its reports were clean, and otherwise a wait is starved.
  lemma {:induction false} CleanOrStarved(repaired: bool, db: Db, inputs: seq<Input>)
    ensures var s := Run(repaired, db, inputs);
            if CleanRun(repaired, db, inputs) then ClientCounts(s.clientWaits, s.clientWait) else SomeStarved(s)
    decreases |inputs|
  {
    hide *;
    if inputs == [] {
      NoRunCounts(repaired, db);
    } else {
      var n := |inputs| - 1;
      var before, i := inputs[..n], inputs[n];
      var s := Run(repaired, db, before);
      CleanRunStep(repaired, db, inputs);
      CleanOrStarved(repaired, db, before);
      RunKeeps(repaired, db, before);
      RunLast(repaired, db, inputs);
      if !CleanRun(repaired, db, before) {
        StarvedStep(repaired, s, i);
      } else if i.ClientStatusIn? && !Clean(s, i.misses) {
        UncleanStep(repaired, s, i);
      } else {
        HandleCounts(repaired, s, i);
      }
    }
  }

  lemma {:induction false} OwedPart(cws: seq<ClientWait>, c: nat, h: Hash)
    requires c < |cws|
    ensures Part(cws[c], h) <= Owed(cws, h)
  {
    if c < |cws| - 1 { OwedPart(cws[..|cws| - 1], c, h); }
  }

  // A wait that was not answered owes each of its hashes.
  lemma UnansweredOwes(cws: seq<ClientWait>, c: nat, h: Hash)
    requires c < |cws| && cws[c].count > 0 && h in cws[c].hashes
    ensures Owed(cws, h) > 0
  {
    OwedPart(cws, c, h);
  }

  // A starved wait: each of its hashes was reported more often than it is ever sent, however the run goes on.
  lemma StarvedIsUnsent(repaired: bool, db: Db, inputs: seq<Input>, k: nat, c: nat, h: Hash)
    requires k <= |inputs| && Starved(Run(repaired, db, inputs[..k]), c)
    requires h in Run(repaired, db, inputs[..k]).clientWaits[c].hashes
    ensures var s := Run(repaired, db, inputs); Sent(s.toClient, h) < Reported(s.toClient, h)
  {
    RunStarves(repaired, db, inputs, k, c);
    RunHeld(repaired, db, inputs);
    var s := Run(repaired, db, inputs);
    hide Run;
    UnansweredOwes(s.clientWaits, c, h);
    assert Reported(s.toClient, h) == Sent(s.toClient, h) + Owed(s.clientWaits, h);
  }

  // Every hash has been sent as often as it was reported.
  ghost predicate AllSent(s: State) {
    forall h :: Reported(s.toClient, h) == Sent(s.toClient, h)
  }

  // When no hash is waited for and the counters are right, nothing is owed.
  lemma AllAnswered(s: State)
    requires Held(s) && ClientCounts(s.clientWaits, s.clientWait) && s.clientWait == map[]
    ensures AllSent(s)
  {
    forall c | 0 <= c < |s.clientWaits| ensures s.clientWaits[c].count == 0 {
      assert KeysOf(s.clientWait, c) == {};
    }
    forall h ensures Reported(s.toClient, h) == Sent(s.toClient, h) {
      NothingOwed(s.clientWaits, h);
      assert Reported(s.toClient, h) == Sent(s.toClient, h) + Owed(s.clientWaits, h);
      hide Reported, Sent, Owed;
    }
  }

  lemma NothingOwes(s: State)
    requires Held(s) && AllSent(s)
    ensures forall h :: Owed(s.clientWaits, h) == 0
  {
    hide Reported, Sent, Owed;
    forall h ensures Owed(s.clientWaits, h) == 0 {
      assert Reported(s.toClient, h) == Sent(s.toClient, h) + Owed(s.clientWaits, h);
    }
  }

  // When nothing is owed, every wait was answered.
  lemma AnsweredWait(cws: seq<ClientWait>, c: nat)
    requires c < |cws| && cws[c].count <= |cws[c].hashes| && forall h :: Owed(cws, h) == 0
    ensures cws[c].count <= 0
  {
    var w := cws[c];
    forall h ensures Part(w, h) == 0 { OwedPart(cws, c, h); }
    assert |w.hashes| > 0 ==> w.hashes[0] in w.hashes && Part(w, w.hashes[0]) == 0;
  }

  lemma NoKeys(m: map<Hash, nat>, n: nat)
    requires forall h :: h in m ==> m[h] < n
    requires forall c :: 0 <= c < n ==> |KeysOf(m, c)| <= 0
    ensures m == map[]
  {
    forall h ensures h !in m { assert h in m ==> h in KeysOf(m, m[h]); }
  }

  // Then no wait is starved and no hash is waited for.
  lemma NothingWaits(s: State)
    requires Held(s) && forall h :: Owed(s.clientWaits, h) == 0
    ensures !SomeStarved(s) && s.clientWait == map[]
  {
    hide Owed, KeysOf, Conserved;
    forall c: nat | c < |s.clientWaits| ensures s.clientWaits[c].count <= 0 && |KeysOf(s.clientWait, c)| <= 0 {
      assert Bounded(s, c) && (Fair(s, c) || Starved(s, c));
      AnsweredWait(s.clientWaits, c);
    }
    NoKeys(s.clientWait, |s.clientWaits|);
  }

  // A client has been sent every blob as often as it reported it missing if and only if no hash is waited for any more
  // and every report was clean when it was made. This holds of all runs, whatever is reported and answered.
  lemma AllSentIff(repaired: bool, db: Db, inputs: seq<Input>)
    ensures var s := Run(repaired, db, inputs);
            AllSent(s) <==> s.clientWait == map[] && CleanRun(repaired, db, inputs)
  {
    var s := Run(repaired, db, inputs);
    RunHeld(repaired, db, inputs);
    CleanOrStarved(repaired, db, inputs);
    hide *;
    if AllSent(s) {
      NothingOwes(s);
      NothingWaits(s);
    } else if s.clientWait == map[] && CleanRun(repaired, db, inputs) {
      AllAnswered(s);
    }
  }

  // ---- reports of known hashes ----

  ghost predicate KnownRun(repaired: bool, db: Db, inputs: seq<Input>) {
    forall k :: 0 <= k < |inputs| && inputs[k].ClientStatusIn?
      ==> Known(Run(repaired, db, inputs[..k]), inputs[k].misses)
  }

  lemma ReportedAsked(repaired: bool, s: State, misses: seq<Hash>)
    requires Quiet(repaired, s) && Records(Unchecked, s) && Known(s, misses) && s.clientWait.Keys <= s.serverWait.Keys
    ensures var r := ClientStatus(s, misses); r.clientWait.Keys <= r.serverWait.Keys
  {
    var f := Missing(s.db, misses);
    ClientStatusForm(s, misses);
    MissingMembers(s.db, misses);
    forall h | h in f ensures h in s.serverWait {
      var id :| NeedsHash(s.received, h, id);
      KnownHash(repaired, s, h, id);
    }
    hide ClientStatus, Missing, ClientPayloads, Quiet, Records;
    PointDomain(s.clientWait, f, |s.clientWaits|);
  }

  lemma {:induction false} BlobLoopAsked(repaired: bool, s: State, blobs: seq<CacheBlob>, client: Client)
    requires Quiet(repaired, s) && Held(s) && s.clientWait.Keys <= s.serverWait.Keys
    ensures var r := BlobLoop(repaired, s, blobs, client); r.clientWait.Keys <= r.serverWait.Keys
    decreases |blobs|
  {
    if blobs != [] {
      ReceiveWaits(s, blobs[0]);
      hide Quiet, BlobStep, Receive, Held;
      BlobStepTalk(repaired, s, blobs[0], client);
      BlobStepKeeps(repaired, s, blobs[0], client);
      BlobStepHeld(repaired, s, blobs[0], client);
      BlobLoopAsked(repaired, BlobStep(repaired, s, blobs[0], client), blobs[1..], client);
    }
  }

  lemma KnownRunStep(repaired: bool, db: Db, inputs: seq<Input>)
    requires inputs != [] && KnownRun(repaired, db, inputs)
    ensures var n := |inputs| - 1;
            KnownRun(repaired, db, inputs[..n])
            && (inputs[n].ClientStatusIn? ==> Known(Run(repaired, db, inputs[..n]), inputs[n].misses))
  {
    hide Run, Known;
    var n := |inputs| - 1;
    assert forall k :: 0 <= k < n ==> inputs[..n][..k] == inputs[..k] && inputs[..n][k] == inputs[k];
  }

  lemma HandleAsked(repaired: bool, s: State, i: Input)
    requires Quiet(repaired, s) && Records(Unchecked, s) && Held(s) && s.clientWait.Keys <= s.serverWait.Keys
    requires i.ClientStatusIn? ==> Known(s, i.misses)
    ensures var r := Handle(repaired, s, i); r.clientWait.Keys <= r.serverWait.Keys
  {
    hide Quiet, Records, Held, Known;
    match i
    case BlobsIn(blobs, client) => BlobLoopAsked(repaired, s, blobs, client);
    case ClientStatusIn(misses) => ReportedAsked(repaired, s, misses);
    case _ => hide Handle; ChunksLeaveClients(repaired, s, i);
  }

  lemma RunUnchecked(repaired: bool, db: Db, inputs: seq<Input>)
    ensures Records(Unchecked, Run(repaired, db, inputs))
  {
    hide Records, Run;
    RunRecords(Unchecked, repaired, db, inputs);
  }

  lemma NoRunWaits(repaired: bool, db: Db)
    ensures Run(repaired, db, []).clientWait == map[]
  {
  }

  // What the client waits for has been asked for and not answered.
  lemma {:induction false} KnownIsAsked(repaired: bool, db: Db, inputs: seq<Input>)
    requires KnownRun(repaired, db, inputs)
    ensures var s := Run(repaired, db, inputs); s.clientWait.Keys <= s.serverWait.Keys
    decreases |inputs|
  {
    hide *;
    if inputs == [] {
      NoRunWaits(repaired, db);
    } else {
      var before, i := inputs[..|inputs| - 1], inputs[|inputs| - 1];
      KnownRunStep(repaired, db, inputs);
      KnownIsAsked(repaired, db, before);
      RunKeeps(repaired, db, before);
      RunUnchecked(repaired, db, before);
      RunHeld(repaired, db, before);
      RunLast(repaired, db, inputs);
      HandleAsked(repaired, Run(repaired, db, before), i);
    }
  }

  // When no blob is outstanding, a client that reported hashes of packets it was forwarded has been sent every one of
  // them as often as it reported it if and only if every report was clean when it was made: no hash twice, and none
  // still waited for.
  lemma AllServedIff(repaired: bool, db: Db, inputs: seq<Input>)
    requires KnownRun(repaired, db, inputs) && InFlight(Run(repaired, db, inputs).wire) == {}
    ensures var s := Run(repaired, db, inputs);
            AllSent(s) <==> CleanRun(repaired, db, inputs)
  {
    AllSentIff(repaired, db, inputs);
    KnownIsAsked(repaired, db, inputs);
    OneFlightPerBlob(repaired, db, inputs);
    hide Run, CleanRun, Reported, Sent, KnownRun;
  }

  // ---- a run that starves a wait ----

  // The client reports the same hash in two packets; then its blob arrives.
  function StarvingRun(): seq<Input> {
    var report := ClientStatusIn([7]);
    [LevelChunkIn(COLUMN, CachingClient), report, report, BlobsIn([CacheBlob(7, [2])], CachingClient)]
  }

  ghost predicate AfterReports(s: State, cws: seq<ClientWait>, m: map<Hash, nat>) {
    && s.clientWaits == cws && s.clientWait == m && Reported(s.toClient, 7) == |cws|
    && 7 !in s.db && s.serverWait.Keys == {7} && Known(s, [7])
  }

  lemma ColumnIsKnown(s: State, r: State)
    requires s == Initial(STORED) && Grows(s, r, {HOME}, [Received(Level(COLUMN), {})])
    ensures NeedsHash(r.received, 7, 0) && Known(r, [7])
  {
    assert r.received == [Received(Level(COLUMN), {})];
    assert NeedsHash(r.received, 7, 0);
  }

  lemma ColumnReported(s: State, r: State)
    requires s == Initial(STORED) && SameTalk(s, r) && ColumnWaits(r) && Known(r, [7])
    requires r.clientWaits == s.clientWaits && r.clientWait == s.clientWait
    ensures AfterReports(r, [], map[])
  {
    assert Reported(r.toClient, 7) == Reported(s.toClient, 7);
    hide Known;
  }

  lemma StarvingFirst()
    ensures AfterReports(Handle(false, Initial(STORED), LevelChunkIn(COLUMN, CachingClient)), [], map[])
  {
    var s, i := Initial(STORED), LevelChunkIn(COLUMN, CachingClient);
    assert i.lc.pos == HOME && s.arrived == {};
    hide *;
    DroppingFirst();
    ChunksLeaveClients(false, s, i);
    RunKeeps(false, STORED, []);
    RunOfNone(STORED);
    HandleHistory(false, s, i);
    ColumnIsKnown(s, Handle(false, s, i));
    ColumnReported(s, Handle(false, s, i));
  }

  lemma StarvingReport(s: State, cws: seq<ClientWait>, m: map<Hash, nat>)
    requires AfterReports(s, cws, m)
    ensures AfterReports(Handle(false, s, ClientStatusIn([7])), cws + [ClientWait(1, [7])], m[7 := |cws|])
  {
    ClientStatusForm(s, [7]);
    assert [7][1..] == [];
    assert Missing(s.db, [7]) == [7] && ClientPayloads(s.db, [7]) == [];
    assert Point(m, [7], |cws|) == m[7 := |cws|];
    TalkAppend(s.toClient, Missed([7]), 7);
    hide ClientStatus, Reported, Point, Missing, ClientPayloads;
  }

  lemma OneBlob(s: State, b: CacheBlob, client: Client)
    ensures Handle(false, s, BlobsIn([b], client)) == BlobStep(false, s, b, client)
  {
    hide BlobStep;
    var r := BlobStep(false, s, b, client);
    assert [b][1..] == [];
    assert BlobLoop(false, r, [], client) == r;
    assert BlobLoop(false, s, [b], client) == r;
  }

  lemma StarvingReceive(s: State, b: CacheBlob)
    requires AfterReports(s, [ClientWait(1, [7]), ClientWait(1, [7])], map[7 := 1]) && b.hash == 7
    ensures var r := Receive(s, b);
            r.clientWaits == [ClientWait(1, [7]), ClientWait(0, [7])] && Reported(r.toClient, 7) == 2
            && s.serverWait.Keys - {b.hash} == {}
  {
    var r := Receive(s, b);
    ReceiveClient(s, b);
    TalkAppend(s.toClient, Blobs(ClientPayloads(r.db, [7])), 7);
    hide Receive, ClientPayloads, Reported, Known;
  }

  lemma TalkOf(s: State, r: State)
    requires SameTalk(s, r)
    ensures Reported(r.toClient, 7) == Reported(s.toClient, 7)
  {
    hide Reported, Sent;
  }

  lemma StarvingAnswer(s: State)
    requires AfterReports(s, [ClientWait(1, [7]), ClientWait(1, [7])], map[7 := 1]) && Quiet(false, s)
    ensures var r := Handle(false, s, BlobsIn([CacheBlob(7, [2])], CachingClient));
            && r.serverWait.Keys == {} && r.clientWaits == [ClientWait(1, [7]), ClientWait(0, [7])]
            && Reported(r.toClient, 7) == 2
  {
    hide *;
    var b := CacheBlob(7, [2]);
    StarvingReceive(s, b);
    BlobStepTalk(false, s, b, CachingClient);
    OneBlob(s, b, CachingClient);
    TalkOf(Receive(s, b), BlobStep(false, s, b, CachingClient));
  }

  lemma RunOfFour(db: Db, a: Input, b: Input, c: Input, d: Input)
    ensures var s1 := Handle(false, Initial(db), a);
            var s3 := Handle(false, Handle(false, s1, b), c);
            && Run(false, db, [a]) == s1 && Run(false, db, [a, b]) == Handle(false, s1, b)
              && Run(false, db, [a, b, c]) == s3
            && Run(false, db, [a, b, c, d]) == Handle(false, s3, d)
  {
    RunOfThree(false, db, a, b, c);
    hide Handle;
    assert [a, b, c, d][..3] == [a, b, c] && [a, b][..1] == [a] && [a][..0] == [];
    assert Run(false, db, []) == Initial(db);
    assert Run(false, db, [a]) == Handle(false, Initial(db), a);
    assert Run(false, db, [a, b]) == Handle(false, Run(false, db, [a]), b);
  }

  lemma KnownReports(db: Db, a: Input, b: Input, c: Input, d: Input)
    requires !a.ClientStatusIn? && b.ClientStatusIn? && c.ClientStatusIn? && !d.ClientStatusIn?
    requires Known(Run(false, db, [a]), b.misses) && Known(Run(false, db, [a, b]), c.misses)
    ensures KnownRun(false, db, [a, b, c, d])
  {
    hide Known, Run;
    assert [a, b, c, d][..1] == [a] && [a, b, c, d][..2] == [a, b];
  }

  lemma FirstStillOwes(s: State)
    requires Held(s) && s.clientWaits == [ClientWait(1, [7]), ClientWait(0, [7])]
    ensures Reported(s.toClient, 7) == Sent(s.toClient, 7) + 1
  {
    var a, b := ClientWait(1, [7]), ClientWait(0, [7]);
    assert Reported(s.toClient, 7) == Sent(s.toClient, 7) + Owed(s.clientWaits, 7);
    OwedAppend([], a, 7);
    OwedAppend([a], b, 7);
    assert [] + [a] == [a] && [a] + [b] == [a, b];
    hide Reported, Sent;
  }

  lemma AfterIsKnown(s: State, cws: seq<ClientWait>, m: map<Hash, nat>)
    requires AfterReports(s, cws, m)
    ensures Known(s, [7])
  {
    hide Known, Reported;
  }

  lemma StarvingInputs()
    ensures var i := ClientStatusIn([7]);
            StarvingRun() == [LevelChunkIn(COLUMN, CachingClient), i, i, BlobsIn([CacheBlob(7, [2])], CachingClient)]
  {
  }

  // The hash was reported twice, its blob has arrived and nothing is outstanding, but it was sent once.
  lemma DoubleReportStarves()
    ensures var s := Run(false, STORED, StarvingRun());
            && KnownRun(false, STORED, StarvingRun()) && InFlight(s.wire) == {}
            && Reported(s.toClient, 7) == 2 && Sent(s.toClient, 7) == 1
  {
    hide *;
    var a, i := LevelChunkIn(COLUMN, CachingClient), ClientStatusIn([7]);
    var d, w := BlobsIn([CacheBlob(7, [2])], CachingClient), ClientWait(1, [7]);
    var s1, s2, s3 := Run(false, STORED, [a]), Run(false, STORED, [a, i]), Run(false, STORED, [a, i, i]);
    StarvingInputs();
    RunOfFour(STORED, a, i, i, d);
    StarvingFirst();
    AfterIsKnown(s1, [], map[]);
    StarvingReport(s1, [], map[]);
    assert [] + [w] == [w] && [w] + [w] == [w, w] && map[7 as Hash := 0][7 := 1] == map[7 := 1];
    AfterIsKnown(s2, [w], map[7 := 0]);
    StarvingReport(s2, [w], map[7 := 0]);
    RunKeeps(false, STORED, [a, i, i]);
    StarvingAnswer(s3);
    KnownReports(STORED, a, i, i, d);
    OneFlightPerBlob(false, STORED, StarvingRun());
    RunHeld(false, STORED, StarvingRun());
    FirstStillOwes(Run(false, STORED, StarvingRun()));
  }
}
