// utils/proxy/resourcepacks/resourcepacks.go: the objects of a transfer.

module ResourcepacksObject {
  import opened Common
  import opened LittleEndian
  import opened PackTransfer

  lemma LoopTurn(chunk: nat, size: nat, count: int, i: nat, file: Bytes, events: seq<Event>)
    requires size < TWO_64
    ensures Loop(chunk, size, count, i, file, events) ==
            if i >= count then PackTransfer.Download(Finished(size, file), [], file)
            else match TurnOf(chunk, size, file, events)
              case Fail(outcome) => PackTransfer.Download(outcome, [i], file)
              case Break(last) => PackTransfer.Download(Finished(size, last), [i], last)
              case Next(more) =>
                var r := Loop(chunk, size, count, i + 1, more, events[1..]);
                PackTransfer.Download(r.outcome, [i] + r.requests, r.file)
  {
    hide TurnOf, Finished;
  }

  // `d` is `rest` after the requests that were made before.
  predicate Same(d: PackTransfer.Download, requests: seq<int>, rest: PackTransfer.Download) {
    d == rest.(requests := requests + rest.requests)
  }

  lemma SameStart(d: PackTransfer.Download)
    ensures Same(d, [], d)
  {
    assert [] + d.requests == d.requests;
  }

  lemma SameEnd(d: PackTransfer.Download, requests: seq<int>, now: PackTransfer.Download)
    requires Same(d, requests, now) && now.requests == []
    ensures d == now.(requests := requests)
  {
    assert requests + [] == requests;
  }

  lemma SameTurn(d: PackTransfer.Download, requests: seq<int>, i: nat, now: PackTransfer.Download)
    requires Same(d, requests, now)
    ensures now.requests == [i] ==> d == now.(requests := requests + [i])
    ensures forall rest: PackTransfer.Download ::
              now == PackTransfer.Download(rest.outcome, [i] + rest.requests, rest.file) ==>
                Same(d, requests + [i], rest)
  {
    forall rest: PackTransfer.Download | now == PackTransfer.Download(rest.outcome, [i] + rest.requests, rest.file)
      ensures Same(d, requests + [i], rest)
    {
      assert requests + ([i] + rest.requests) == requests + [i] + rest.requests;
    }
  }

  // downloadingPack; the channel is a queue that the download loop empties.
  class DownloadingPack {
    var expectedIndex: nat
    var newFrag: seq<Event>

    constructor ()
      ensures expectedIndex == 0 && newFrag == []
    {
      expectedIndex, newFrag := 0, [];
    }

    // Lines 508-512.
    method Receive(pk: Fragment) returns (ok: bool)
      requires expectedIndex < TWO_32
      modifies this
      ensures ok <==> pk.index == old(expectedIndex)
      ensures expectedIndex == if ok then (old(expectedIndex) + 1) % TWO_32 else old(expectedIndex)
      ensures newFrag == if ok then old(newFrag) + [Data(pk)] else old(newFrag)
    {
      ok := pk.index == expectedIndex;
      if ok {
        expectedIndex := (expectedIndex + 1) % TWO_32;
        newFrag := newFrag + [Data(pk)];
      }
    }

    // Lines 370-373.
    method CountChunks(size: nat, chunkSize: nat) returns (chunkCount: int)
      requires 0 < chunkSize < TWO_32 && size < TWO_64
      ensures chunkCount == ChunkCount(size, chunkSize)
    {
      chunkCount := Int32(size / chunkSize);
      if size % chunkSize != 0 {
        chunkCount := Int32(chunkCount + 1);
      }
    }

    // Waiting for a fragment and taking it (lines 392-424).
    method Take(chunkSize: nat, size: nat, file: Bytes) returns (turn: Turn)
      requires size < TWO_64
      modifies this`newFrag
      ensures turn == TurnOf(chunkSize, size, file, old(newFrag))
      ensures turn.Next? ==> newFrag == old(newFrag)[1..]
    {
      if newFrag == [] || newFrag[0].Gone? {
        return Fail(ConnectionClosed);
      }
      var event := newFrag[0];
      newFrag := newFrag[1..];
      if event.ChannelClosed? {
        return Break(file);
      }
      var frag := event.frag;
      var lastData := |file| + chunkSize >= Int(size);
      if !lastData && Len32(frag.data) != chunkSize {
        return Fail(WrongLength);
      }
      if frag.offset != |file| {
        return Fail(WrongOffset);
      }
      turn := if lastData then Break(file + frag.data) else Next(file + frag.data);
    }

    // Where the loop ends (lines 426-428).
    method CheckSize(size: nat, requests: seq<int>, file: Bytes) returns (d: PackTransfer.Download)
      requires size < TWO_64
      ensures d == PackTransfer.Download(Finished(size, file), requests, file)
    {
      if |file| != Int(size) {
        return PackTransfer.Download(WrongSize, requests, file);
      }
      d := PackTransfer.Download(Done, requests, file);
    }

    // The loop of downloadResourcePack (lines 370-428).
    method Download(chunkSize: nat, size: nat) returns (d: PackTransfer.Download)
      requires chunkSize < TWO_32 && size < TWO_64
      modifies this`newFrag
      ensures d == DownloadPack(chunkSize, size, old(newFrag))
    {
      hide *;
      DownloadIs(chunkSize, size, newFrag);
      if chunkSize == 0 {
        return PackTransfer.Download(DivideByZero, [], []);
      }
      var chunkCount := CountChunks(size, chunkSize);
      ghost var d0 := Loop(chunkSize, size, chunkCount, 0, [], newFrag);
      SameStart(d0);
      var file, requests := [], [];
      var chunkIndex := 0;
      while chunkIndex < chunkCount
        invariant 0 <= chunkIndex
        invariant Same(d0, requests, Loop(chunkSize, size, chunkCount, chunkIndex, file, newFrag))
        decreases chunkCount - chunkIndex
      {
        LoopTurn(chunkSize, size, chunkCount, chunkIndex, file, newFrag);
        SameTurn(d0, requests, chunkIndex, Loop(chunkSize, size, chunkCount, chunkIndex, file, newFrag));
        requests := requests + [chunkIndex];
        var turn := Take(chunkSize, size, file);
        match turn {
          case Fail(outcome) =>
            return PackTransfer.Download(outcome, requests, file);
          case Break(last) =>
            d := CheckSize(size, requests, last);
            return;
          case Next(more) =>
            file := more;
        }
        chunkIndex := chunkIndex + 1;
      }
      LoopTurn(chunkSize, size, chunkCount, chunkIndex, file, newFrag);
      SameEnd(d0, requests, Loop(chunkSize, size, chunkCount, chunkIndex, file, newFrag));
      d := CheckSize(size, requests, file);
    }
  }

  datatype Received = Ignored | NotDownloading | WrongIndex | Queued

  // The part of ResourcePackHandler that chunks arrive at.
  class DownloadHandler {
    const replay: bool                      // the cache is a ReplayCache
    var awaitingPack: DownloadingPack?

    constructor (replay: bool)
      ensures this.replay == replay && awaitingPack == null
    {
      this.replay, awaitingPack := replay, null;
    }

    // Whatever follows, the queue and what will be let through are those of the whole stream.
    method OnResourcePackChunkData(pk: Fragment) returns (r: Received)
      requires awaitingPack != null ==> awaitingPack.expectedIndex < TWO_32
      modifies if awaitingPack == null then {} else {awaitingPack}
      ensures r == if replay then Ignored
                   else if awaitingPack == null then NotDownloading
                   else if pk.index == old(awaitingPack.expectedIndex) then Queued else WrongIndex
      ensures awaitingPack != null && r.Ignored? ==>
                awaitingPack.newFrag == old(awaitingPack.newFrag)
                  && awaitingPack.expectedIndex == old(awaitingPack.expectedIndex)
      ensures awaitingPack != null && !r.Ignored? ==>
                var p := awaitingPack;
                && p.expectedIndex < TWO_32
                && forall more :: p.newFrag + Accepted(p.expectedIndex, more)
                                  == old(p.newFrag) + Accepted(old(p.expectedIndex), [pk] + more)
    {
      if replay {
        return Ignored;
      }
      var pack := awaitingPack;
      if pack == null {
        return NotDownloading;
      }
      var ok := pack.Receive(pk);
      r := if ok then Queued else WrongIndex;
      forall more
        ensures pack.newFrag + Accepted(pack.expectedIndex, more)
                == old(pack.newFrag) + Accepted(old(pack.expectedIndex), [pk] + more)
      {
        assert ([pk] + more)[1..] == more;
      }
    }
  }

  // The uploads of ResourcePackHandler.
  class UploadHandler {
    var uploads: map<Uuid, Upload>

    constructor (uploads: map<Uuid, Upload>)
      ensures this.uploads == uploads
    {
      this.uploads := uploads;
    }

    // Uploads are filed under the ids of their packs (line 715), so the test at lines 569-571 never fails.
    method OnResourcePackChunkRequest(parsed: Option<Uuid>, chunkIndex: int, readable: bool) returns (answer: Answer)
      modifies this
      ensures (answer, uploads) == Request(old(uploads), parsed, chunkIndex, readable)
    {
      if parsed.None? {
        return MalformedId;
      }
      var packId := parsed.value;
      if packId !in uploads {
        return UnknownPack;
      }
      var upload := uploads[packId];
      if upload.currentOffset != ToUint64(chunkIndex) * PACK_CHUNK_SIZE % TWO_64 {
        return UnexpectedIndex;
      }
      var offset := upload.currentOffset;
      upload := upload.(currentOffset := (upload.currentOffset + PACK_CHUNK_SIZE) % TWO_64);
      uploads := uploads[packId := upload];
      if !readable {
        return ReadError;
      }
      var (data, done) := ReadAt(upload.pack, offset, PACK_CHUNK_SIZE);
      var expects := [];
      if !done {
        expects := expects + [ChunkRequest];
      } else {
        uploads := uploads - {packId};
        assert uploads == old(uploads) - {packId};
      }
      if uploads == map[] {
        expects := expects + [ClientResponse];
      }
      assert expects == (if done then [] else [ChunkRequest]) + (if uploads == map[] then [ClientResponse] else []);
      answer := Sent(Fragment(chunkIndex % TWO_32, offset, data), expects);
    }
  }
}
