// What is written to the client: every packet that is processed, if it has no cache of its own, and the blobs it asks
// for.

module BlobWrites {
  import opened RawBytes
  import opened BlobPackets
  import opened Occurrences
  import opened BlobSpec
  import opened BlobInvariant
  import opened BlobReachable
  import opened BlobRecords
  import opened BlobTheorems
  import opened BlobFlight
  import opened BlobReports

  // What line 346 writes for packets that are processed.
  function Written(ps: seq<Done>, client: Client): seq<ToClient> {
    if client.PlainClient? then seq(|ps|, i requires 0 <= i < |ps| => Filled(ps[i].pk)) else []
  }

  lemma WrittenAppend(a: seq<Done>, b: seq<Done>, client: Client)
    ensures Written(a + b, client) == Written(a, client) + Written(b, client)
  {
  }

  // From `s` to `r` the client is written what is processed, and no more.
  ghost predicate Writes(s: State, r: State, client: Client) {
    s.processed <= r.processed && r.toClient == s.toClient + Written(r.processed[|s.processed|..], client)
  }

  lemma WritesNothing(s: State, r: State, client: Client)
    requires r.processed == s.processed && r.toClient == s.toClient
    ensures Writes(s, r, client)
  {
    assert r.processed[|s.processed|..] == [] && s.toClient + [] == s.toClient;
  }

  lemma WritesTrans(s: State, t: State, r: State, client: Client)
    requires Writes(s, t, client) && Writes(t, r, client)
    ensures Writes(s, r, client)
  {
    var a, b := t.processed[|s.processed|..], r.processed[|t.processed|..];
    assert r.processed[|s.processed|..] == a + b;
    WrittenAppend(a, b, client);
    hide Written;
    assert s.toClient + Written(a, client) + Written(b, client)
           == s.toClient + (Written(a, client) + Written(b, client));
  }

  lemma ProcessWrites(s: State, id: nat, client: Client)
    ensures Writes(s, Process(s, id, client), client)
  {
    var r := Process(s, id, client);
    hide FillPacket;
    if id < |s.fills| {
      var d := Done(id, FillPacket(s.db, s.fills[id]));
      assert r.processed == s.processed + [d] && r.processed[|s.processed|..] == [d];
      assert Written([d], client) == if client.PlainClient? then [Filled(d.pk)] else [];
      assert s.toClient + [] == s.toClient;
    } else {
      WritesNothing(s, r, client);
    }
  }

  lemma CountWrites(s: State, x: nat, client: Client)
    ensures var r := AddCount(s, x, -1);
            Writes(s, r, client) && Writes(s, r.(woken := r.woken + [x]), client) && r.subs == s.subs
  {
    var r := AddCount(s, x, -1);
    assert r.processed == s.processed && r.toClient == s.toClient && r.subs == s.subs;
    hide *;
    WritesNothing(s, r, client);
    WritesNothing(s, r.(woken := r.woken + [x]), client);
  }

  lemma TakeWrites(s: State, id: nat, client: Client)
    requires HasWaiters(s, id)
    ensures HasWaiters(Process(s, id, client), id) ==> Writes(s, TakeWaiters(Process(s, id, client), id), client)
  {
    ProcessWrites(s, id, client);
    hide Process;
  }

  lemma {:induction false} WakeWrites(repaired: bool, s: State, id: nat, l: seq<nat>, client: Client)
    ensures Writes(s, WakeLoop(repaired, s, id, l, client), client)
    decreases s.subs.Keys, 1, |l|
  {
    hide *;
    WakeForm(repaired, s, id, l, client);
    if l == [] {
      WritesNothing(s, s, client);
    } else {
      var s1 := AddCount(s, l[0], -1);
      CountWrites(s, l[0], client);
      var x := if repaired then l[0] else id;
      var woken := s1.(woken := s1.woken + [l[0]]);
      var s2 := if Complete(s1, l[0]) then Resolve(repaired, woken, x, client) else s1;
      if Complete(s1, l[0]) {
        ResolveWrites(repaired, woken, x, client);
        WritesTrans(s, woken, s2, client);
      }
      WakeWrites(repaired, s2, id, l[1..], client);
      WritesTrans(s, s2, WakeLoop(repaired, s2, id, l[1..], client), client);
    }
  }

  lemma {:induction false} ResolveWrites(repaired: bool, s: State, id: nat, client: Client)
    ensures Writes(s, Resolve(repaired, s, id, client), client)
    decreases s.subs.Keys, 0, 0
  {
    hide *;
    ResolveForm(repaired, s, id, client);
    ProcessWrites(s, id, client);
    if HasWaiters(s, id) {
      TakeWrites(s, id, client);
      var s1 := TakeWaiters(Process(s, id, client), id);
      WakeWrites(repaired, s1, id, Waiters(s, id), client);
      WritesTrans(s, s1, Resolve(repaired, s, id, client), client);
    }
  }

  lemma {:induction false} WaitersWrite(repaired: bool, s: State, l: seq<nat>, client: Client)
    ensures Writes(s, WaiterLoop(repaired, s, l, client), client)
    decreases |l|
  {
    hide *;
    LoopTurn(repaired, s, l, client);
    if l == [] {
      WritesNothing(s, s, client);
    } else {
      var s1, t := AddCount(s, l[0], -1), Turn(repaired, s, l[0], client);
      TurnForm(repaired, s, l[0], client);
      CountWrites(s, l[0], client);
      if Complete(s1, l[0]) {
        ResolveWrites(repaired, s1, l[0], client);
        WritesTrans(s, s1, t, client);
      }
      WaitersWrite(repaired, t, l[1..], client);
      WritesTrans(s, t, WaiterLoop(repaired, t, l[1..], client), client);
    }
  }

  lemma FinishCases(repaired: bool, b: Build, id: nat, client: Client)
    ensures FinishState(repaired, b, id, client) ==
            if Complete(Announce(b), id) then Resolve(repaired, Announce(b), id, client) else Announce(b)
  {
    hide Announce, Resolve, Complete;
  }

  lemma AnnounceProcessed(b: Build)
    ensures Announce(b).processed == b.s.processed && Announce(b).toClient == b.s.toClient
  {
    AnnounceSame(b);
    hide Announce;
  }

  lemma WritesSame(s: State, r: State, r': State, client: Client)
    requires Writes(s, r, client) && r'.processed == r.processed && r'.toClient == r.toClient
    ensures Writes(s, r', client)
  {
    hide Written;
  }

  // A packet writes the client what it completes.
  lemma PacketWrites(repaired: bool, s: State, pk: Packet, client: Client)
    ensures Writes(s, Handle(repaired, s, InputOf(pk, client)), client)
  {
    hide *;
    var b, id := BuiltFrom(s, pk), |s.counts|;
    PacketForm(repaired, s, pk, client);
    BuiltKept(s, pk);
    AnnounceProcessed(b);
    FinishCases(repaired, b, id, client);
    WritesNothing(s, Announce(b), client);
    if Complete(Announce(b), id) {
      ResolveWrites(repaired, Announce(b), id, client);
      WritesTrans(s, Announce(b), Resolve(repaired, Announce(b), id, client), client);
    }
    WritesSame(s, FinishState(repaired, b, id, client), Handle(repaired, s, InputOf(pk, client)), client);
  }

  // ---- blobs for the client ----

  lemma {:induction false} PayloadsAreFound(db: Db, hs: seq<Hash>)
    ensures ClientPayloads(db, hs) == FoundBlobs(db, hs)
  {
    if hs != [] {
      PayloadsAreFound(db, hs[1..]);
      StoredAre(db, hs);
      StoredAre(db, hs[1..]);
    }
  }

  // A blob answers a wait of the client with everything the wait is for, if it is the last that was missing.
  function Answered(s: State, blob: CacheBlob): seq<ToClient> {
    if blob.hash in s.clientWait && s.clientWait[blob.hash] < |s.clientWaits|
       && s.clientWaits[s.clientWait[blob.hash]].count == 1
    then [Blobs(FoundBlobs(s.db[blob.hash := blob.payload], s.clientWaits[s.clientWait[blob.hash]].hashes))]
    else []
  }

  lemma ReceiveWrites(s: State, blob: CacheBlob)
    ensures Receive(s, blob).toClient == s.toClient + Answered(s, blob) && Receive(s, blob).processed == s.processed
  {
    var db := s.db[blob.hash := blob.payload];
    if blob.hash in s.clientWait && s.clientWait[blob.hash] < |s.clientWaits| {
      PayloadsAreFound(db, s.clientWaits[s.clientWait[blob.hash]].hashes);
    }
    assert s.toClient + [] == s.toClient;
    hide FoundBlobs, ClientPayloads;
  }

  // A blob is handed to a client that waits for it before what it completes is written.
  lemma BlobStepWrites(repaired: bool, s: State, blob: CacheBlob, client: Client)
    ensures var r := BlobStep(repaired, s, blob, client);
            s.processed <= r.processed
            && r.toClient == s.toClient + Answered(s, blob) + Written(r.processed[|s.processed|..], client)
  {
    var s1 := Receive(s, blob);
    ReceiveWrites(s, blob);
    hide Receive, WaiterLoop, Answered, Written;
    WaitersWrite(repaired, s1.(serverWait := s1.serverWait - {blob.hash}), At(s1.serverWait, blob.hash), client);
  }

  // A report is answered at once with what is stored of it, in order.
  lemma StatusWrites(s: State, misses: seq<Hash>)
    ensures var r, found := ClientStatus(s, misses), FoundBlobs(s.db, misses);
            && r.processed == s.processed
            && r.toClient == s.toClient + [Missed(misses)] + (if found == [] then [] else [Blobs(found)])
  {
    var s1 := s.(clientWaits := s.clientWaits + [ClientWait(0, [])], toClient := s.toClient + [Missed(misses)]);
    StatusLoopOutside(s1, |s.clientWaits|, misses);
    PayloadsAreFound(s.db, misses);
    hide StatusLoop, ClientPayloads, FoundBlobs;
    assert s1.toClient + [] == s1.toClient;
  }

  // ---- runs ----

  // The packets that were written by waits.
  function FilledIn(ts: seq<ToClient>): seq<Packet> {
    if ts == [] then [] else
      var last := ts[|ts| - 1];
      FilledIn(ts[..|ts| - 1]) + if last.Filled? then [last.pk] else []
  }

  function PacketsOf(ps: seq<Done>): seq<Packet> {
    seq(|ps|, i requires 0 <= i < |ps| => ps[i].pk)
  }

  lemma {:induction false} FilledAppend(a: seq<ToClient>, b: seq<ToClient>)
    ensures FilledIn(a + b) == FilledIn(a) + FilledIn(b)
    decreases |b|
  {
    if b == [] {
      assert a + b == a && FilledIn(a) + [] == FilledIn(a);
    } else {
      var n := |b| - 1;
      assert (a + b)[..|a + b| - 1] == a + b[..n];
      FilledAppend(a, b[..n]);
    }
  }

  lemma {:induction false} FilledWritten(ps: seq<Done>, client: Client)
    ensures FilledIn(Written(ps, client)) == if client.PlainClient? then PacketsOf(ps) else []
    decreases |ps|
  {
    if client.PlainClient? && ps != [] {
      var n := |ps| - 1;
      FilledWritten(ps[..n], client);
      assert Written(ps, client)[..n] == Written(ps[..n], client);
      assert PacketsOf(ps) == PacketsOf(ps[..n]) + [ps[n].pk];
    }
  }

  // From `s` to `r` a client without a cache is written the packets that are processed, in order.
  ghost predicate Passes(plain: bool, s: State, r: State) {
    s.processed <= r.processed
    && FilledIn(r.toClient) ==
       FilledIn(s.toClient) + if plain then PacketsOf(r.processed[|s.processed|..]) else []
  }

  lemma PassesTrans(plain: bool, s: State, t: State, r: State)
    requires Passes(plain, s, t) && Passes(plain, t, r)
    ensures Passes(plain, s, r)
  {
    var a, b := t.processed[|s.processed|..], r.processed[|t.processed|..];
    assert r.processed[|s.processed|..] == a + b;
    assert PacketsOf(a + b) == PacketsOf(a) + PacketsOf(b);
    hide FilledIn, PacketsOf;
    var f := FilledIn(s.toClient);
    assert f + PacketsOf(a) + PacketsOf(b) == f + (PacketsOf(a) + PacketsOf(b)) && f + [] + [] == f + [];
  }

  lemma WrittenPasses(s: State, r: State, more: seq<ToClient>, client: Client)
    requires s.processed <= r.processed && FilledIn(more) == []
    requires r.toClient == s.toClient + more + Written(r.processed[|s.processed|..], client)
    ensures Passes(client.PlainClient?, s, r)
  {
    var ps := r.processed[|s.processed|..];
    FilledAppend(s.toClient + more, Written(ps, client));
    FilledAppend(s.toClient, more);
    FilledWritten(ps, client);
    hide Written;
    assert FilledIn(s.toClient) + [] == FilledIn(s.toClient);
  }

  lemma BlobsAreNotFilled(blobs: seq<CacheBlob>, hs: seq<Hash>)
    ensures FilledIn([]) == [] && FilledIn([Blobs(blobs)]) == [] && FilledIn([Missed(hs)]) == []
    ensures FilledIn([Missed(hs)] + [Blobs(blobs)]) == []
  {
    FilledAppend([Missed(hs)], [Blobs(blobs)]);
  }

  lemma {:induction false} BlobsPass(repaired: bool, s: State, blobs: seq<CacheBlob>, client: Client)
    ensures Passes(client.PlainClient?, s, BlobLoop(repaired, s, blobs, client))
    decreases |blobs|
  {
    if blobs == [] {
      assert s.processed[|s.processed|..] == [] && s.toClient + [] + Written([], client) == s.toClient;
      WrittenPasses(s, s, [], client);
    } else {
      var t := BlobStep(repaired, s, blobs[0], client);
      BlobStepWrites(repaired, s, blobs[0], client);
      var more := Answered(s, blobs[0]);
      BlobsAreNotFilled(if more == [] then [] else more[0].blobs, []);
      hide BlobStep, Written, Passes, FoundBlobs;
      assert more == [] || more == [Blobs(more[0].blobs)];
      WrittenPasses(s, t, more, client);
      BlobsPass(repaired, t, blobs[1..], client);
      PassesTrans(client.PlainClient?, s, t, BlobLoop(repaired, s, blobs, client));
    }
  }

  predicate PlainIs(plain: bool, i: Input) {
    match i
    case LevelChunkIn(_, client) => client.PlainClient? == plain
    case SubChunkIn(_, client) => client.PlainClient? == plain
    case BlobsIn(_, client) => client.PlainClient? == plain
    case ClientStatusIn(_) => true
  }

  lemma PacketPasses(repaired: bool, s: State, pk: Packet, client: Client)
    ensures Passes(client.PlainClient?, s, Handle(repaired, s, InputOf(pk, client)))
  {
    var r := Handle(repaired, s, InputOf(pk, client));
    PacketWrites(repaired, s, pk, client);
    hide Handle, Written, InputOf;
    assert s.toClient + [] == s.toClient;
    WrittenPasses(s, r, [], client);
  }

  lemma StatusPasses(plain: bool, s: State, misses: seq<Hash>)
    ensures Passes(plain, s, ClientStatus(s, misses))
  {
    var r, found := ClientStatus(s, misses), FoundBlobs(s.db, misses);
    StatusWrites(s, misses);
    BlobsAreNotFilled(found, misses);
    hide ClientStatus, FoundBlobs;
    var more := [Missed(misses)] + if found == [] then [] else [Blobs(found)];
    assert r.toClient == s.toClient + more;
    FilledAppend(s.toClient, more);
    assert FilledIn(more) == [] by { assert [Missed(misses)] + [] == [Missed(misses)]; }
    assert r.processed[|s.processed|..] == [] && FilledIn(s.toClient) + [] == FilledIn(s.toClient);
  }

  lemma HandlePasses(plain: bool, repaired: bool, s: State, i: Input)
    requires PlainIs(plain, i)
    ensures Passes(plain, s, Handle(repaired, s, i))
  {
    hide Passes, HandleLevelChunk, HandleSubChunk, BlobLoop, ClientStatus;
    match i
    case LevelChunkIn(lc, client) => PacketPasses(repaired, s, Level(lc), client);
    case SubChunkIn(sc, client) => PacketPasses(repaired, s, Sub(sc), client);
    case BlobsIn(blobs, client) => BlobsPass(repaired, s, blobs, client);
    case ClientStatusIn(misses) => StatusPasses(plain, s, misses);
  }

  lemma PassesOn(plain: bool, s: State, r: State)
    requires Passes(plain, s, r) && FilledIn(s.toClient) == if plain then PacketsOf(s.processed) else []
    ensures FilledIn(r.toClient) == if plain then PacketsOf(r.processed) else []
  {
    hide FilledIn;
    assert r.processed == s.processed + r.processed[|s.processed|..];
  }

  // In every run with a client that has no cache the waits write it exactly the packets that were processed, in order;
  // and in every run without such a client they write nothing.
  lemma {:induction false} PlainClientGetsAll(plain: bool, repaired: bool, db: Db, inputs: seq<Input>)
    requires forall i :: 0 <= i < |inputs| ==> PlainIs(plain, inputs[i])
    ensures var s := Run(repaired, db, inputs);
            FilledIn(s.toClient) == if plain then PacketsOf(s.processed) else []
    decreases |inputs|
  {
    if inputs != [] {
      hide *;
      var before, last := inputs[..|inputs| - 1], inputs[|inputs| - 1];
      var s := Run(repaired, db, before);
      PlainClientGetsAll(plain, repaired, db, before);
      RunStep(repaired, db, inputs);
      HandlePasses(plain, repaired, s, last);
      PassesOn(plain, s, Handle(repaired, s, last));
    }
  }

  // ---- the blobs a client gets are the ones their hashes name ----

  ghost predicate Right(content: Hash -> Bytes, blobs: seq<CacheBlob>) {
    forall k :: 0 <= k < |blobs| ==> blobs[k].payload == content(blobs[k].hash)
  }

  ghost predicate AllRight(content: Hash -> Bytes, ts: seq<ToClient>) {
    forall i :: 0 <= i < |ts| && ts[i].Blobs? ==> Right(content, ts[i].blobs)
  }

  lemma FoundRight(content: Hash -> Bytes, db: Db, hs: seq<Hash>)
    requires ContentAddressed(db, content)
    ensures Right(content, FoundBlobs(db, hs))
  {
    StoredAre(db, hs);
    hide Stored;
  }

  lemma AnsweredRight(content: Hash -> Bytes, s: State, blob: CacheBlob)
    requires AllRight(content, s.toClient) && ContentAddressed(s.db[blob.hash := blob.payload], content)
    ensures AllRight(content, s.toClient + Answered(s, blob))
  {
    if blob.hash in s.clientWait && s.clientWait[blob.hash] < |s.clientWaits| {
      FoundRight(content, s.db[blob.hash := blob.payload], s.clientWaits[s.clientWait[blob.hash]].hashes);
    }
    hide ContentAddressed, FoundBlobs, Right;
  }

  lemma WrittenRight(content: Hash -> Bytes, ts: seq<ToClient>, ps: seq<Done>, client: Client)
    requires AllRight(content, ts)
    ensures AllRight(content, ts + Written(ps, client))
  {
    hide Right;
  }

  lemma MoreContent(content: Hash -> Bytes, db: Db, blob: CacheBlob)
    requires ContentAddressed(db, content) && blob.payload == content(blob.hash)
    ensures ContentAddressed(db[blob.hash := blob.payload], content)
  {
  }

  lemma FirstRight(content: Hash -> Bytes, blobs: seq<CacheBlob>)
    requires Right(content, blobs) && blobs != []
    ensures blobs[0].payload == content(blobs[0].hash) && Right(content, blobs[1..])
  {
  }

  lemma {:induction false} BlobsRight(content: Hash -> Bytes, repaired: bool, s: State, blobs: seq<CacheBlob>,
                                      client: Client)
    requires Quiet(repaired, s) && ContentAddressed(s.db, content) && Right(content, blobs)
    requires AllRight(content, s.toClient)
    ensures AllRight(content, BlobLoop(repaired, s, blobs, client).toClient)
    decreases |blobs|
  {
    hide *;
    BlobLoopForm(repaired, s, blobs, client);
    if blobs != [] {
      var blob := blobs[0];
      var r := BlobStep(repaired, s, blob, client);
      FirstRight(content, blobs);
      MoreContent(content, s.db, blob);
      BlobStepKeeps(repaired, s, blob, client);
      BlobStepReports(repaired, s, blob, client);
      BlobStepWrites(repaired, s, blob, client);
      AnsweredRight(content, s, blob);
      WrittenRight(content, s.toClient + Answered(s, blob), r.processed[|s.processed|..], client);
      BlobsRight(content, repaired, r, blobs[1..], client);
    }
  }

  lemma PacketRight(content: Hash -> Bytes, repaired: bool, s: State, pk: Packet, client: Client)
    requires AllRight(content, s.toClient)
    ensures AllRight(content, Handle(repaired, s, InputOf(pk, client)).toClient)
  {
    PacketWrites(repaired, s, pk, client);
    var r := Handle(repaired, s, InputOf(pk, client));
    hide Handle, Written, AllRight;
    WrittenRight(content, s.toClient, r.processed[|s.processed|..], client);
  }

  lemma StatusRight(content: Hash -> Bytes, s: State, misses: seq<Hash>)
    requires AllRight(content, s.toClient) && ContentAddressed(s.db, content)
    ensures AllRight(content, ClientStatus(s, misses).toClient)
  {
    StatusWrites(s, misses);
    FoundRight(content, s.db, misses);
    hide ClientStatus, FoundBlobs;
  }

  lemma HandleRight(content: Hash -> Bytes, repaired: bool, s: State, i: Input)
    requires Quiet(repaired, s) && ContentAddressed(s.db, content) && NamedInput(ByContent(content), i)
    requires AllRight(content, s.toClient)
    ensures AllRight(content, Handle(repaired, s, i).toClient)
  {
    hide Quiet, AllRight, ContentAddressed, HandleLevelChunk, HandleSubChunk, BlobLoop, ClientStatus;
    match i
    case LevelChunkIn(lc, client) => PacketRight(content, repaired, s, Level(lc), client);
    case SubChunkIn(sc, client) => PacketRight(content, repaired, s, Sub(sc), client);
    case BlobsIn(blobs, client) => BlobsRight(content, repaired, s, blobs, client);
    case ClientStatusIn(misses) => StatusRight(content, s, misses);
  }

  // When every blob is the one its hash names, so is every blob that any run writes to the client.
  lemma {:induction false} SentBlobsAreRight(repaired: bool, content: Hash -> Bytes, db: Db, inputs: seq<Input>)
    requires ContentAddressed(db, content)
    requires forall i :: 0 <= i < |inputs| ==> NamedInput(ByContent(content), inputs[i])
    ensures AllRight(content, Run(repaired, db, inputs).toClient)
    decreases |inputs|
  {
    if inputs != [] {
      var before := inputs[..|inputs| - 1];
      var s := Run(repaired, db, before);
      SentBlobsAreRight(repaired, content, db, before);
      RunRecords(ByContent(content), repaired, db, before);
      RunKeeps(repaired, db, before);
      assert ContentAddressed(s.db, content);
      hide Quiet, Records, AllRight, ContentAddressed, Handle, NamedInput;
      HandleRight(content, repaired, s, inputs[|inputs| - 1]);
    }
  }
}
