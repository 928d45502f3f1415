// utils/proxy/resourcepacks/resourcepacks.go: resource packs in chunks. The loop of downloadResourcePack asks the
// server for one chunk after the other; OnResourcePackChunkRequest serves the client.

module PackTransfer {
  import opened Common
  import opened LittleEndian

  // ---- downloading ----

  // ResourcePackChunkData.
  datatype Fragment = Fragment(index: nat, offset: nat, data: Bytes)

  // What the select of the loop sees: a fragment, pack.newFrag closed, or the connection gone, which may be chosen
  // while a fragment is ready. When there is no more of either, the connection is gone, too.
  datatype Event = Data(frag: Fragment) | ChannelClosed | Gone

  datatype Outcome =
    | Done
    | DivideByZero     // the server sent a chunk size of 0: a panic
    | ConnectionClosed
    | WrongLength
    | WrongOffset
    | WrongSize

  // `requests` are the chunk indices asked for, `file` is what was written.
  datatype Download = Download(outcome: Outcome, requests: seq<int>, file: Bytes)

  // An int is 64 bits wide.
  function Int32(x: int): (r: int)
    ensures -0x8000_0000 <= r < 0x8000_0000
    ensures (x - r) % TWO_32 == 0 && (-0x8000_0000 <= x < 0x8000_0000 ==> r == x)
  {
    (x + 0x8000_0000) % TWO_32 - 0x8000_0000
  }

  function Int(size: nat): int
    requires size < TWO_64
  {
    ToInt64(size)
  }

  // The number of chunks, as an int32 (lines 370-373).
  function ChunkCount(size: nat, chunk: nat): int
    requires chunk > 0
  {
    if size % chunk != 0 then Int32(Int32(size / chunk) + 1) else Int32(size / chunk)
  }

  // uint32(len(data)).
  function Len32(data: Bytes): nat {
    |data| % TWO_32
  }

  // A turn of the loop (lines 392-424): it returns an error, leaves the loop, or goes on.
  datatype Turn = Fail(outcome: Outcome) | Break(file: Bytes) | Next(file: Bytes)

  function TurnOf(chunk: nat, size: nat, file: Bytes, events: seq<Event>): (r: Turn)
    requires size < TWO_64
    ensures r.Next? ==> |events| > 0 && events[0].Data?
  {
    if events == [] || events[0].Gone? then Fail(ConnectionClosed)
    else if events[0].ChannelClosed? then Break(file)
    else
      var frag := events[0].frag;
      var lastData := |file| + chunk >= Int(size);
      if !lastData && Len32(frag.data) != chunk then Fail(WrongLength)
      else if frag.offset != |file| then Fail(WrongOffset)
      else if lastData then Break(file + frag.data)
      else Next(file + frag.data)
  }

  // The test behind the loop (lines 426-428).
  function Finished(size: nat, file: Bytes): Outcome
    requires size < TWO_64
  {
    if |file| == Int(size) then Done else WrongSize
  }

  // Chunk i and those after it (lines 383-428).
  function Loop(chunk: nat, size: nat, count: int, i: nat, file: Bytes, events: seq<Event>): (r: Download)
    requires size < TWO_64
    decreases if count > i then count - i else 0
  {
    if i >= count then Download(Finished(size, file), [], file)
    else match TurnOf(chunk, size, file, events)
      case Fail(outcome) => Download(outcome, [i], file)
      case Break(last) => Download(Finished(size, last), [i], last)
      case Next(more) =>
        var r := Loop(chunk, size, count, i + 1, more, events[1..]);
        Download(r.outcome, [i] + r.requests, r.file)
  }

  function DownloadPack(chunk: nat, size: nat, events: seq<Event>): Download
    requires chunk < TWO_32 && size < TWO_64
  {
    if chunk == 0 then Download(DivideByZero, [], []) else Loop(chunk, size, ChunkCount(size, chunk), 0, [], events)
  }

  // What OnResourcePackChunkData lets through: the fragments whose index is the next one, a uint32.
  function Accepted(expected: nat, frags: seq<Fragment>): seq<Event>
    decreases |frags|
  {
    if frags == [] then []
    else if frags[0].index == expected then [Data(frags[0])] + Accepted((expected + 1) % TWO_32, frags[1..])
    else Accepted(expected, frags[1..])
  }

  // So the loop sees fragments that are numbered without a gap, whatever the server sends.
  lemma {:induction false} AcceptedInOrder(expected: nat, frags: seq<Fragment>)
    requires expected < TWO_32
    ensures forall k :: 0 <= k < |Accepted(expected, frags)| ==>
              Accepted(expected, frags)[k].Data? && Accepted(expected, frags)[k].frag.index == (expected + k) % TWO_32
              && Accepted(expected, frags)[k].frag in frags
    decreases |frags|
  {
    if frags != [] {
      var next := if frags[0].index == expected then (expected + 1) % TWO_32 else expected;
      AcceptedInOrder(next, frags[1..]);
      var rest, all := Accepted(next, frags[1..]), Accepted(expected, frags);
      forall k | 0 <= k < |all|
        ensures all[k].Data? && all[k].frag.index == (expected + k) % TWO_32 && all[k].frag in frags
      {
        if frags[0].index != expected {
          assert all[k] == rest[k];
        } else if k > 0 {
          assert all[k] == rest[k - 1];
        }
      }
    }
  }

  lemma AcceptedFirst(expected: nat, f: Fragment, rest: seq<Fragment>)
    ensures Accepted(expected, [f] + rest) ==
            if f.index == expected then [Data(f)] + Accepted((expected + 1) % TWO_32, rest)
              else Accepted(expected, rest)
    ensures Accepted(expected, []) == []
  {
    assert ([f] + rest)[1..] == rest;
  }

  // The index that comes n behind another, as a uint32.
  function IndexAfter(expected: nat, n: nat): nat {
    (expected + n) % TWO_32
  }

  lemma IndexLater(expected: nat, n: nat)
    requires expected < TWO_32
    ensures IndexAfter(expected, 0) == expected
    ensures IndexAfter((expected + 1) % TWO_32, n) == IndexAfter(expected, n + 1)
  {
  }

  // A fragment is let through if and only if it is the next one after those that were let through before it.
  lemma {:induction false} AcceptedIff(expected: nat, frags: seq<Fragment>, f: Fragment)
    requires expected < TWO_32
    ensures var before := Accepted(expected, frags);
            Accepted(expected, frags + [f]) ==
            before + if f.index == IndexAfter(expected, |before|) then [Data(f)] else []
    decreases |frags|
  {
    hide IndexAfter, Accepted;
    if frags == [] {
      AcceptedFirst(expected, f, []);
      AcceptedFirst((expected + 1) % TWO_32, f, []);
      IndexLater(expected, 0);
      assert [f] + [] == [f] && frags + [f] == [f];
    } else {
      var g, rest := frags[0], frags[1..];
      assert frags == [g] + rest && frags + [f] == [g] + (rest + [f]);
      AcceptedFirst(expected, g, rest);
      AcceptedFirst(expected, g, rest + [f]);
      if g.index == expected {
        var next := Accepted((expected + 1) % TWO_32, rest);
        AcceptedIff((expected + 1) % TWO_32, rest, f);
        IndexLater(expected, |next|);
        assert [Data(g)] + (next + [Data(f)]) == [Data(g)] + next + [Data(f)];
        assert [Data(g)] + (next + []) == [Data(g)] + next + [];
      } else {
        AcceptedIff(expected, rest, f);
      }
    }
  }

  function Ceil(size: nat, chunk: nat): nat
    requires chunk > 0
  {
    if size % chunk != 0 then size / chunk + 1 else size / chunk
  }

  // 0, 1, ..., n - 1.
  function UpTo(i: nat, n: nat): seq<int>
    requires i <= n
  {
    seq(n - i, k requires 0 <= k => i + k)
  }

  ghost predicate FirstAreData(events: seq<Event>, n: nat) {
    n <= |events| && forall k :: 0 <= k < n ==> events[k].Data?
  }

  // A fragment comes in a packet, whose length is a uint32.
  ghost predicate Fit(events: seq<Event>) {
    forall k :: 0 <= k < |events| && events[k].Data? ==> |events[k].frag.data| < TWO_32
  }

  // The data of the first n events.
  ghost function DataOf(events: seq<Event>, n: nat): Bytes
    requires FirstAreData(events, n)
    decreases n
  {
    if n == 0 then [] else events[0].frag.data + DataOf(events[1..], n - 1)
  }

  lemma CeilBounds(size: nat, chunk: nat)
    requires chunk > 0
    ensures var n := Ceil(size, chunk); (n == 0 <==> size == 0) && (n > 0 ==> (n - 1) * chunk < size <= n * chunk)
  {
    var q := size / chunk;
    assert size == q * chunk + size % chunk;
    assert (q + 1) * chunk == q * chunk + chunk;
    if size % chunk == 0 && q > 0 {
      assert (q - 1) * chunk == q * chunk - chunk;
    }
  }

  lemma Monotone(a: nat, b: nat, c: nat)
    requires a <= b
    ensures a * c <= b * c
  {
  }

  // There is one number of chunks between these bounds.
  lemma CeilUnique(size: nat, chunk: nat, n: nat)
    requires chunk > 0 && n > 0 && (n - 1) * chunk < size <= n * chunk
    ensures n == Ceil(size, chunk)
  {
    var m := Ceil(size, chunk);
    CeilBounds(size, chunk);
    if n < m { Monotone(n, m - 1, chunk); }
    if m < n { Monotone(m, n - 1, chunk); }
  }

  lemma CountIsCeil(size: nat, chunk: nat)
    requires chunk > 0
    ensures ChunkCount(size, chunk) == Int32(Ceil(size, chunk))
  {
  }

  lemma UpToNext(i: nat, n: nat)
    requires i < n
    ensures UpTo(i, n) == [i] + UpTo(i + 1, n)
    ensures UpTo(n, n) == []
  {
  }

  lemma DataNone(events: seq<Event>)
    ensures FirstAreData(events, 0) && DataOf(events, 0) == [] && UpTo(0, 0) == []
  {
  }

  lemma DataNext(events: seq<Event>, n: nat)
    requires |events| > 0 && events[0].Data? && FirstAreData(events[1..], n)
    ensures FirstAreData(events, n + 1) && DataOf(events, n + 1) == events[0].frag.data + DataOf(events[1..], n)
    ensures DataOf(events[1..], 0) == []
  {
    assert forall k :: 0 < k < n + 1 ==> events[k] == events[1..][k - 1];
  }

  // A turn of the loop in a download that succeeds.
  lemma LoopForm(chunk: nat, size: nat, count: int, i: nat, file: Bytes, events: seq<Event>)
    requires size < TWO_64 && chunk < TWO_32 && Fit(events)
    requires Loop(chunk, size, count, i, file, events).outcome == Done
    ensures Int(size) >= 0 ==> Int(size) == size
    ensures var r := Loop(chunk, size, count, i, file, events);
            if i >= count then |file| == Int(size) && r == Download(Done, [], file)
            else |events| > 0 && !events[0].Gone? &&
                 if events[0].ChannelClosed? then |file| == Int(size) && r == Download(Done, [i], file)
                 else
                   var frag := events[0].frag;
                   && frag.offset == |file|
                   && if |file| + chunk >= Int(size) then |file + frag.data| == Int(size)
                     && r == Download(Done, [i], file + frag.data)
                      else
                        var r1 := Loop(chunk, size, count, i + 1, file + frag.data, events[1..]);
                        |frag.data| == chunk && Fit(events[1..]) && r1.outcome == Done
                          && r == r1.(requests := [i] + r1.requests)
  {
  }

  // From chunk i on, a download that succeeds takes what is missing, chunk by chunk.
  lemma {:induction false} LoopTakesAll(chunk: nat, size: nat, i: nat, file: Bytes, events: seq<Event>)
    requires 0 < chunk < TWO_32 && size < TWO_64 && |file| == i * chunk && (i == 0 || |file| < size) && Fit(events)
    requires Loop(chunk, size, ChunkCount(size, chunk), i, file, events).outcome == Done
    ensures var r, n := Loop(chunk, size, ChunkCount(size, chunk), i, file, events), Ceil(size, chunk);
            && i <= n && r.requests == UpTo(i, n) && |r.file| == size
            && FirstAreData(events, n - i) && r.file == file + DataOf(events, n - i)
            && forall k :: 0 <= k < n - i ==> events[k].frag.offset == (i + k) * chunk
    decreases |events|
  {
    hide *;
    var count, n := ChunkCount(size, chunk), Ceil(size, chunk);
    CeilBounds(size, chunk);
    CountIsCeil(size, chunk);
    LoopForm(chunk, size, count, i, file, events);
    if i < count && events[0].Data? {
      var data := events[0].frag.data;
      assert (i + 1) * chunk == i * chunk + chunk;
      if |file| + chunk >= Int(size) {
        CeilUnique(size, chunk, i + 1);
        DataNext(events, 0);
        UpToNext(i, i + 1);
      } else {
        LoopTakesAll(chunk, size, i + 1, file + data, events[1..]);
        DataNext(events, n - i - 1);
        assert file + DataOf(events, n - i) == file + data + DataOf(events[1..], n - (i + 1));
        forall k | 0 <= k < n - i ensures events[k].frag.offset == (i + k) * chunk {
          if k > 0 { assert events[k] == events[1..][k - 1]; }
        }
        UpToNext(i, n);
      }
    } else {
      DataNone(events);
    }
  }

  lemma FirstData(events: seq<Event>, n: nat, k: nat)
    requires FirstAreData(events, n) && k < n
    ensures k < |events| && events[k].Data?
  {
  }

  // A download that succeeds has asked for every chunk once, in order, and what it has written is the fragments one
  // after the other: as many bytes as the pack has.
  lemma SuccessfulDownload(chunk: nat, size: nat, events: seq<Event>)
    requires chunk < TWO_32 && size < TWO_64 && Fit(events) && DownloadPack(chunk, size, events).outcome == Done
    ensures chunk > 0
    ensures var r, n := DownloadPack(chunk, size, events), Ceil(size, chunk);
            && r.requests == UpTo(0, n) && |r.file| == size
            && FirstAreData(events, n) && r.file == DataOf(events, n)
            && forall k :: 0 <= k < n ==> events[k].frag.offset == k * chunk
  {
    hide Loop, ChunkCount, Ceil, UpTo, DataOf, FirstAreData, Fit;
    LoopTakesAll(chunk, size, 0, [], events);
    assert [] + DataOf(events, Ceil(size, chunk)) == DataOf(events, Ceil(size, chunk));
    forall k | 0 <= k < Ceil(size, chunk) ensures k < |events| && events[k].Data?
      && events[k].frag.offset == k * chunk {
      FirstData(events, Ceil(size, chunk), k);
      assert events[k].frag.offset == (0 + k) * chunk;
    }
  }

  // No more requests than chunks are counted.
  lemma {:induction false} RequestsBound(chunk: nat, size: nat, count: int, i: nat, file: Bytes, events: seq<Event>)
    requires size < TWO_64
    ensures |Loop(chunk, size, count, i, file, events).requests| <= if count > i then count - i else 0
    decreases |events|
  {
    if i < count && TurnOf(chunk, size, file, events).Next? {
      RequestsBound(chunk, size, count, i + 1, file + events[0].frag.data, events[1..]);
    }
  }

  // A count of chunks is an int32, and so is the number of requests.
  lemma DownloadBound(chunk: nat, size: nat, events: seq<Event>)
    requires chunk < TWO_32 && size < TWO_64
    ensures |DownloadPack(chunk, size, events).requests| < 0x8000_0000
  {
    hide Loop;
    if chunk > 0 { RequestsBound(chunk, size, ChunkCount(size, chunk), 0, [], events); }
  }

  // The fragments of a download that succeeds are those the server numbered 0, 1, 2, ..., each in answer to the request
  // with its number, however many others the server sends in between.
  lemma FragmentsAnswerRequests(chunk: nat, size: nat, frags: seq<Fragment>, events: seq<Event>)
    requires chunk < TWO_32 && size < TWO_64 && Fit(events) && DownloadPack(chunk, size, events).outcome == Done
    requires Accepted(0, frags) <= events && forall k :: |Accepted(0, frags)| <= k < |events| ==> !events[k].Data?
    ensures chunk > 0
    ensures var r, n := DownloadPack(chunk, size, events), Ceil(size, chunk);
            && FirstAreData(events, n) && |r.requests| == n
            && forall k :: 0 <= k < n ==>
                 && events[k].frag in frags && events[k].frag.index == k == r.requests[k]
                 && events[k].frag.offset == k * chunk
  {
    SuccessfulDownload(chunk, size, events);
    AcceptedInOrder(0, frags);
    DownloadBound(chunk, size, events);
    hide DownloadPack, Ceil, Fit, Accepted, DataOf;
    var r, n := DownloadPack(chunk, size, events), Ceil(size, chunk);
    forall k | 0 <= k < n
      ensures events[k].frag in frags && events[k].frag.index == k == r.requests[k]
              && events[k].frag.offset == k * chunk
    {
      assert events[k].Data? && events[k] == Accepted(0, frags)[k];
    }
  }

  // ---- what becomes of a download ----

  // The event is chunk k of a pack of `size` bytes: at its offset, and as long as a chunk, or as what is left at the
  // end.
  predicate IsChunk(chunk: nat, size: nat, k: nat, e: Event) {
    && e.Data? && e.frag.offset == k * chunk
    && if k * chunk + chunk < size then |e.frag.data| == chunk else k * chunk + |e.frag.data| == size
  }

  predicate ChunksUpTo(chunk: nat, size: nat, i: nat, events: seq<Event>, n: nat) {
    n <= |events| && forall k :: 0 <= k < n ==> IsChunk(chunk, size, i + k, events[k])
  }

  // Why a download ends that gets anything else in place of chunk k.
  function Failure(chunk: nat, size: nat, k: nat, rest: seq<Event>): Outcome {
    if rest == [] || rest[0].Gone? then ConnectionClosed
    else if rest[0].ChannelClosed? then WrongSize
    else if k * chunk + chunk < size && |rest[0].frag.data| != chunk then WrongLength
    else if rest[0].frag.offset != k * chunk then WrongOffset
    else WrongSize
  }

  lemma SizeBound(size: nat, chunk: nat)
    requires 0 < chunk < TWO_32 && size < TWO_64 && Ceil(size, chunk) < 0x8000_0000
    ensures size < TWO_64 / 2 && Int(size) == size && ChunkCount(size, chunk) == Ceil(size, chunk)
  {
    CountIsCeil(size, chunk);
    var n := Ceil(size, chunk);
    CeilBounds(size, chunk);
    hide Ceil, ChunkCount, Int32;
    Monotone(n, 0x7FFF_FFFF, chunk);
    assert 0x7FFF_FFFF * chunk < 0x8000_0000 * TWO_32;
    assert size <= n * chunk <= 0x7FFF_FFFF * chunk;
  }

  // Chunks are counted up to the one that reaches the end.
  lemma LastChunk(size: nat, chunk: nat, k: nat)
    requires chunk > 0 && k < Ceil(size, chunk)
    ensures k * chunk < size
    ensures k * chunk + chunk < size <==> k + 1 < Ceil(size, chunk)
    ensures (k + 1) * chunk == k * chunk + chunk
  {
    var n := Ceil(size, chunk);
    CeilBounds(size, chunk);
    hide Ceil;
    Monotone(k, n - 1, chunk);
    assert (k + 1) * chunk == k * chunk + chunk;
    if k + 1 < n {
      Monotone(k + 1, n - 1, chunk);
      if (k + 1) * chunk == size {
        assert (n - 1) * chunk < size;
      }
    }
  }

  // What a turn of the loop makes of an event.
  lemma TurnCases(chunk: nat, size: nat, k: nat, file: Bytes, events: seq<Event>)
    requires chunk < TWO_32 && size < TWO_64 / 2 && Fit(events) && |file| == k * chunk < size
    ensures var turn := TurnOf(chunk, size, file, events);
            if events != [] && IsChunk(chunk, size, k, events[0]) then
              if k * chunk + chunk < size then turn == Next(file + events[0].frag.data)
              else turn == Break(file + events[0].frag.data) && Finished(size, turn.file) == Done
            else if turn.Fail? then turn.outcome == Failure(chunk, size, k, events)
            else turn.Break? && Finished(size, turn.file) == WrongSize == Failure(chunk, size, k, events)
  {
  }

  lemma LoopCases(chunk: nat, size: nat, count: int, i: nat, file: Bytes, events: seq<Event>)
    requires size < TWO_64 && i < count
    ensures var r, turn := Loop(chunk, size, count, i, file, events), TurnOf(chunk, size, file, events);
            && (turn.Fail? ==> r.outcome == turn.outcome && r.requests == [i])
            && (turn.Break? ==> r == Download(Finished(size, turn.file), [i], turn.file))
            && (turn.Next? ==>
                  var r1 := Loop(chunk, size, count, i + 1, turn.file, events[1..]);
                  r == r1.(requests := [i] + r1.requests))
  {
    hide TurnOf, Finished;
  }

  lemma FitRest(events: seq<Event>)
    requires Fit(events) && events != []
    ensures Fit(events[1..])
  {
  }

  lemma ChunksNext(chunk: nat, size: nat, i: nat, events: seq<Event>, n: nat)
    requires n > 0 && ChunksUpTo(chunk, size, i, events, n)
    ensures |events| > 0 && events[0].Data?
    ensures IsChunk(chunk, size, i, events[0]) && ChunksUpTo(chunk, size, i + 1, events[1..], n - 1)
  {
    assert IsChunk(chunk, size, i + 0, events[0]);
    hide IsChunk;
    forall k | 0 <= k < n - 1 ensures IsChunk(chunk, size, i + 1 + k, events[1..][k]) {
      assert IsChunk(chunk, size, i + (k + 1), events[k + 1]);
    }
  }

  function StartOf(chunk: nat, k: nat): nat {
    k * chunk
  }

  // What chunk i is taken for, or what is there in its place.
  lemma LoopAt(chunk: nat, size: nat, i: nat, file: Bytes, events: seq<Event>)
    requires 0 < chunk < TWO_32 && size < TWO_64 && Ceil(size, chunk) < 0x8000_0000 && Fit(events)
    requires i < Ceil(size, chunk) && |file| == StartOf(chunk, i)
    ensures var r := Loop(chunk, size, ChunkCount(size, chunk), i, file, events);
            if events == [] || !IsChunk(chunk, size, i, events[0]) then
              r.outcome == Failure(chunk, size, i, events) && r.requests == [i]
            else if i + 1 == Ceil(size, chunk) then r.outcome == Done
            else
              var more := file + events[0].frag.data;
              var r1 := Loop(chunk, size, ChunkCount(size, chunk), i + 1, more, events[1..]);
              |more| == StartOf(chunk, i + 1) && r == r1.(requests := [i] + r1.requests)
  {
    hide Ceil, ChunkCount, Loop, TurnOf, Finished, Failure, Fit;
    SizeBound(size, chunk);
    LastChunk(size, chunk, i);
    TurnCases(chunk, size, i, file, events);
    LoopCases(chunk, size, ChunkCount(size, chunk), i, file, events);
  }

  lemma ChunksFit(chunk: nat, size: nat, i: nat, events: seq<Event>, n: nat)
    requires ChunksUpTo(chunk, size, i, events, n)
    ensures n <= |events|
  {
  }

  // With chunks up to number k the download goes on to that one, and ends with it.
  lemma {:induction false} LoopUpTo(chunk: nat, size: nat, i: nat, k: nat, file: Bytes, events: seq<Event>)
    requires 0 < chunk < TWO_32 && size < TWO_64 && Ceil(size, chunk) < 0x8000_0000 && Fit(events)
    requires i <= k < Ceil(size, chunk) && |file| == StartOf(chunk, i) && ChunksUpTo(chunk, size, i, events, k - i)
    ensures var r, rest := Loop(chunk, size, ChunkCount(size, chunk), i, file, events), events[k - i..];
            if rest == [] || !IsChunk(chunk, size, k, rest[0]) then
              r.outcome == Failure(chunk, size, k, rest) && r.requests == UpTo(i, k + 1)
            else k + 1 == Ceil(size, chunk) ==> r.outcome == Done
    decreases k - i
  {
    hide *;
    ChunksFit(chunk, size, i, events, k - i);
    LoopAt(chunk, size, i, file, events);
    UpToNext(i, k + 1);
    if i < k {
      ChunksNext(chunk, size, i, events, k - i);
      FitRest(events);
      LoopUpTo(chunk, size, i + 1, k, file + events[0].frag.data, events[1..]);
      assert events[1..][k - (i + 1)..] == events[k - i..];
    } else {
      assert k - i == 0 && events[0..] == events;
    }
  }

  // The first chunk that does not come as it should.
  lemma {:induction false} FirstFailure(chunk: nat, size: nat, events: seq<Event>, n: nat) returns (k: nat)
    ensures k <= n && ChunksUpTo(chunk, size, 0, events, k)
    ensures k < n ==> k == |events| || !IsChunk(chunk, size, k, events[k])
  {
    hide IsChunk;
    if n == 0 {
      k := 0;
    } else {
      k := FirstFailure(chunk, size, events, n - 1);
      if k == n - 1 && k < |events| && IsChunk(chunk, size, k, events[k]) {
        k := n;
      }
    }
  }

  lemma NothingToDo(chunk: nat, size: nat, events: seq<Event>)
    requires 0 < chunk < TWO_32 && size < TWO_64 && Ceil(size, chunk) == 0
    ensures DownloadPack(chunk, size, events) == Download(Done, [], [])
  {
  }

  lemma DownloadIs(chunk: nat, size: nat, events: seq<Event>)
    requires chunk < TWO_32 && size < TWO_64
    ensures DownloadPack(chunk, size, events) ==
            if chunk == 0 then Download(DivideByZero, [], [])
            else Loop(chunk, size, ChunkCount(size, chunk), 0, [], events)
  {
    hide Loop, Int32;
  }

  // The chunks before number k come as they should, and something else in place of chunk k: that one was asked for, and
  // this is the error.
  lemma DownloadFails(chunk: nat, size: nat, events: seq<Event>, k: nat)
    requires 0 < chunk < TWO_32 && size < TWO_64 && Ceil(size, chunk) < 0x8000_0000 && Fit(events)
    requires k < Ceil(size, chunk) && ChunksUpTo(chunk, size, 0, events, k)
    requires k == |events| || !IsChunk(chunk, size, k, events[k])
    ensures var r := DownloadPack(chunk, size, events);
            r.outcome == Failure(chunk, size, k, events[k..]) != Done && r.requests == UpTo(0, k + 1)
  {
    assert k < |events| ==> events[k..][0] == events[k];
    assert Failure(chunk, size, k, events[k..]) != Done;
    assert StartOf(chunk, 0) == 0;
    hide *;
    DownloadIs(chunk, size, events);
    LoopUpTo(chunk, size, 0, k, [], events);
  }

  lemma AllChunks(chunk: nat, size: nat, events: seq<Event>, n: nat)
    requires n > 0 && ChunksUpTo(chunk, size, 0, events, n)
    ensures ChunksUpTo(chunk, size, 0, events, n - 1) && n - 1 < |events|
            && IsChunk(chunk, size, n - 1, events[n - 1..][0])
  {
    hide IsChunk;
    assert IsChunk(chunk, size, 0 + (n - 1), events[n - 1]);
  }

  lemma ChunksContain(chunk: nat, size: nat, events: seq<Event>, n: nat, k: nat)
    requires ChunksUpTo(chunk, size, 0, events, n) && k < n
    ensures k < |events| && IsChunk(chunk, size, k, events[k])
  {
    hide IsChunk;
    assert IsChunk(chunk, size, 0 + k, events[k]);
  }

  // Whatever the size of a chunk: a download succeeds if and only if there is no more chunks than an int32 can count
  // and the first events are the chunks of a pack of that size, in order.
  lemma DownloadSucceedsIff(chunk: nat, size: nat, events: seq<Event>)
    requires chunk < TWO_32 && size < TWO_64 && Fit(events)
    ensures DownloadPack(chunk, size, events).outcome == Done <==>
            chunk > 0 && Ceil(size, chunk) < 0x8000_0000 && ChunksUpTo(chunk, size, 0, events, Ceil(size, chunk))
    ensures chunk == 0 ==> DownloadPack(chunk, size, events).outcome == DivideByZero
  {
    if chunk > 0 {
      assert StartOf(chunk, 0) == 0;
      hide *;
      var n := Ceil(size, chunk);
      if n >= 0x8000_0000 {
        if DownloadPack(chunk, size, events).outcome == Done {
          SuccessfulDownload(chunk, size, events);
          DownloadBound(chunk, size, events);
        }
      } else {
        var k := FirstFailure(chunk, size, events, n);
        if k < n {
          DownloadFails(chunk, size, events, k);
          if ChunksUpTo(chunk, size, 0, events, n) { ChunksContain(chunk, size, events, n, k); }
        } else if n > 0 {
          AllChunks(chunk, size, events, n);
          DownloadIs(chunk, size, events);
          LoopUpTo(chunk, size, 0, n - 1, [], events);
        } else {
          NothingToDo(chunk, size, events);
        }
      }
    }
  }

  lemma NoChunks(chunk: nat, size: nat, count: int, events: seq<Event>)
    requires size < TWO_64 && count <= 0 && size > 0
    ensures Loop(chunk, size, count, 0, [], events) == Download(WrongSize, [], [])
  {
  }

  // Too many for an int32, but not for a uint32: nothing is asked for.
  lemma CountTurnsNegative(chunk: nat, size: nat, events: seq<Event>)
    requires 0 < chunk < TWO_32 && size < TWO_64 && 0x8000_0000 <= Ceil(size, chunk) < TWO_32
    ensures DownloadPack(chunk, size, events) == Download(WrongSize, [], [])
  {
    var count := ChunkCount(size, chunk);
    CountIsCeil(size, chunk);
    assert count < 0;
    assert size > 0;
    hide *;
    DownloadIs(chunk, size, events);
    NoChunks(chunk, size, count, events);
  }

  // ---- a pack ----

  // Chunk k of a pack.
  function Piece(pack: Bytes, chunk: nat, k: nat): Bytes {
    var from := k * chunk;
    if from + chunk <= |pack| then pack[from..from + chunk] else if from <= |pack| then pack[from..] else []
  }

  ghost predicate Pieces(pack: Bytes, chunk: nat, i: nat, events: seq<Event>, n: nat) {
    n <= |events|
    && forall k :: 0 <= k < n ==>
         events[k].Data? && events[k].frag.data == Piece(pack, chunk, i + k) && events[k].frag.offset == (i + k) * chunk
  }

  lemma PieceNext(pack: Bytes, chunk: nat, i: nat)
    requires i * chunk <= |pack|
    ensures if (i + 1) * chunk <= |pack| then pack[i * chunk..] == Piece(pack, chunk, i) + pack[(i + 1) * chunk..]
            else pack[i * chunk..] == Piece(pack, chunk, i)
  {
    assert (i + 1) * chunk == i * chunk + chunk;
  }

  lemma PiecesNext(pack: Bytes, chunk: nat, i: nat, events: seq<Event>, n: nat)
    requires n > 0 && Pieces(pack, chunk, i, events, n)
    ensures |events| > 0 && events[0].Data? && events[0].frag.data == Piece(pack, chunk, i)
            && Pieces(pack, chunk, i + 1, events[1..], n - 1)
  {
    hide Piece;
    assert events[0].frag.data == Piece(pack, chunk, i + 0);
    forall k | 0 <= k < n - 1
      ensures events[1..][k].Data? && events[1..][k].frag.data == Piece(pack, chunk, i + 1 + k)
              && events[1..][k].frag.offset == (i + 1 + k) * chunk
    {
      assert events[1..][k] == events[k + 1] && i + (k + 1) == i + 1 + k;
    }
  }

  lemma PiecesAreData(pack: Bytes, chunk: nat, i: nat, events: seq<Event>, n: nat)
    requires Pieces(pack, chunk, i, events, n)
    ensures FirstAreData(events, n)
  {
  }

  // The pieces from number i on make up the rest of the pack.
  lemma {:induction false} PiecesMakeUp(pack: Bytes, chunk: nat, i: nat, events: seq<Event>, n: nat)
    requires chunk > 0 && i + n == Ceil(|pack|, chunk) && i * chunk <= |pack| && Pieces(pack, chunk, i, events, n)
    ensures FirstAreData(events, n) && DataOf(events, n) == pack[i * chunk..]
    decreases n
  {
    hide *;
    PiecesAreData(pack, chunk, i, events, n);
    CeilBounds(|pack|, chunk);
    if n == 0 {
      DataNone(events);
    } else {
      PiecesNext(pack, chunk, i, events, n);
      PiecesAreData(pack, chunk, i + 1, events[1..], n - 1);
      DataNext(events, n - 1);
      PieceNext(pack, chunk, i);
      LastChunk(|pack|, chunk, i);
      if n > 1 {
        PiecesMakeUp(pack, chunk, i + 1, events[1..], n - 1);
      } else {
        assert (i + 1) * chunk == |pack| ==> pack[(i + 1) * chunk..] == [];
        assert Piece(pack, chunk, i) + [] == Piece(pack, chunk, i);
        DataNone(events[1..]);
      }
    }
  }

  lemma PieceIsChunk(pack: Bytes, chunk: nat, k: nat, e: Event)
    requires chunk > 0 && k * chunk < |pack|
    requires e.Data? && e.frag.data == Piece(pack, chunk, k) && e.frag.offset == k * chunk
    ensures IsChunk(chunk, |pack|, k, e)
  {
  }

  lemma PiecesAreChunks(pack: Bytes, chunk: nat, events: seq<Event>)
    requires chunk > 0 && Pieces(pack, chunk, 0, events, Ceil(|pack|, chunk))
    ensures ChunksUpTo(chunk, |pack|, 0, events, Ceil(|pack|, chunk))
  {
    hide Piece, IsChunk, Ceil;
    forall k | 0 <= k < Ceil(|pack|, chunk) ensures IsChunk(chunk, |pack|, 0 + k, events[k]) {
      assert events[k].frag.data == Piece(pack, chunk, 0 + k);
      LastChunk(|pack|, chunk, k);
      PieceIsChunk(pack, chunk, k, events[k]);
    }
  }

  // Whatever the size of a chunk: when a server sends the pieces of a pack in order, the download writes the pack and
  // asks for each piece once, if and only if an int32 can count them.
  lemma DownloadGetsPackIff(chunk: nat, pack: Bytes, events: seq<Event>)
    requires 0 < chunk < TWO_32 && |pack| < TWO_64 / 2 && Fit(events)
    requires Pieces(pack, chunk, 0, events, Ceil(|pack|, chunk))
    ensures var r, n := DownloadPack(chunk, |pack|, events), Ceil(|pack|, chunk);
            r.outcome == Done && r.file == pack && r.requests == UpTo(0, n) <==> n < 0x8000_0000
  {
    hide *;
    PiecesAreChunks(pack, chunk, events);
    DownloadSucceedsIff(chunk, |pack|, events);
    if DownloadPack(chunk, |pack|, events).outcome == Done {
      SuccessfulDownload(chunk, |pack|, events);
      PiecesMakeUp(pack, chunk, 0, events, Ceil(|pack|, chunk));
      assert pack[0 * chunk..] == pack;
    }
  }

  // ---- uploading ----

  type Uuid = nat

  const PACK_CHUNK_SIZE: nat := 1024 * 128

  datatype Upload = Upload(pack: Bytes, currentOffset: nat)

  // What the client is expected to send next.
  datatype Expected = ChunkRequest | ClientResponse

  datatype Answer =
    | MalformedId
    | UnknownPack
    | UnexpectedIndex
    | ReadError
    | Sent(frag: Fragment, expects: seq<Expected>)

  // Pack.ReadAt: at most n bytes, and whether it is fewer, which is io.EOF.
  function ReadAt(pack: Bytes, offset: nat, n: nat): (Bytes, bool) {
    if offset + n <= |pack| then (pack[offset..offset + n], false)
    else (if offset <= |pack| then pack[offset..] else [], true)
  }

  // A request that can be answered: offsets are uint64.
  function Serve(uploads: map<Uuid, Upload>, id: Uuid, index: int): (Answer, map<Uuid, Upload>) {
    if id !in uploads then (UnknownPack, uploads)
    else
      var upload := uploads[id];
      if upload.currentOffset != ToUint64(index) * PACK_CHUNK_SIZE % TWO_64 then (UnexpectedIndex, uploads)
      else
        var (data, done) := ReadAt(upload.pack, upload.currentOffset, PACK_CHUNK_SIZE);
        var after := if done then uploads - {id}
                     else uploads[id := upload.(currentOffset := (upload.currentOffset + PACK_CHUNK_SIZE) % TWO_64)];
        (Sent(Fragment(index % TWO_32, upload.currentOffset, data),
              (if done then [] else [ChunkRequest]) + (if after == map[] then [ClientResponse] else [])), after)
  }

  // OnResourcePackChunkRequest: `id` is what the id of the packet parses to, and `readable` says that ReadAt gives no
  // error but io.EOF. The offset is moved on before the pack is read.
  function Request(uploads: map<Uuid, Upload>, id: Option<Uuid>, index: int, readable: bool): (Answer, map<Uuid,
                   Upload>) {
    if id.None? then (MalformedId, uploads)
    else if readable || !Serve(uploads, id.value, index).0.Sent? then Serve(uploads, id.value, index)
    else
      var upload := uploads[id.value];
      (ReadError, uploads[id.value := upload.(currentOffset := (upload.currentOffset + PACK_CHUNK_SIZE) % TWO_64)])
  }

  lemma ServeSentIff(uploads: map<Uuid, Upload>, id: Uuid, index: int)
    requires id in uploads
    ensures if uploads[id].currentOffset == ToUint64(index) * PACK_CHUNK_SIZE % TWO_64
            then Serve(uploads, id, index).0.Sent? else Serve(uploads, id, index).0 == UnexpectedIndex
  {
    hide ReadAt, ToUint64;
  }

  lemma NextOffset(index: nat)
    requires index < 0x7FFF_FFFF
    ensures (ToUint64(index) * PACK_CHUNK_SIZE % TWO_64 + PACK_CHUNK_SIZE) % TWO_64
            == ToUint64(index + 1) * PACK_CHUNK_SIZE % TWO_64
    ensures ToUint64(index + 1) * PACK_CHUNK_SIZE % TWO_64 != ToUint64(index) * PACK_CHUNK_SIZE % TWO_64
  {
  }

  lemma ServeUnknown(uploads: map<Uuid, Upload>, id: Uuid, i: int)
    ensures id !in uploads ==> Serve(uploads, id, i) == (UnknownPack, uploads)
  {
  }

  // A chunk that could not be read is never sent: the upload goes on behind it, and asking for it again is refused.
  lemma ReadErrorSkips(uploads: map<Uuid, Upload>, id: Uuid, index: nat)
    requires index < 0x7FFF_FFFF
    ensures var (answer, after) := Request(uploads, Some(id), index, false);
            answer == ReadError ==>
              && Request(after, Some(id), index, true).0 == UnexpectedIndex
              && Request(after, Some(id), index + 1, true).0.Sent?
  {
    hide Serve, ToUint64;
    ServeUnknown(uploads, id, index);
    if id in uploads {
      var offset := uploads[id].currentOffset;
      var after := uploads[id := uploads[id].(currentOffset := (offset + PACK_CHUNK_SIZE) % TWO_64)];
      ServeSentIff(uploads, id, index);
      ServeSentIff(after, id, index);
      ServeSentIff(after, id, index + 1);
      NextOffset(index);
    }
  }

  // The requests i, ..., n - 1, as long as they are answered.
  function ServeAll(uploads: map<Uuid, Upload>, id: Uuid, i: nat, n: nat): (seq<Event>, map<Uuid, Upload>)
    decreases if i < n then n - i else 0
  {
    if i >= n then ([], uploads) else
      var (answer, after) := Serve(uploads, id, i);
      if !answer.Sent? then ([], after) else
        var (events, last) := ServeAll(after, id, i + 1, n);
        ([Data(answer.frag)] + events, last)
  }

  // The largest pack whose offsets are no trouble.
  predicate Sized(pack: Bytes) {
    |pack| < TWO_64 / 2
  }

  lemma ServeOne(uploads: map<Uuid, Upload>, id: Uuid, pack: Bytes, i: nat)
    requires Sized(pack) && id in uploads && uploads[id] == Upload(pack, i * PACK_CHUNK_SIZE)
             && i <= |pack| / PACK_CHUNK_SIZE
    ensures var (answer, after) := Serve(uploads, id, i);
            && answer.Sent? && answer.frag.data == Piece(pack, PACK_CHUNK_SIZE, i)
              && answer.frag.offset == i * PACK_CHUNK_SIZE
            && (answer.frag.index == i <==> i < TWO_32)
            && after == (if i == |pack| / PACK_CHUNK_SIZE then uploads - {id}
                         else uploads[id := Upload(pack, (i + 1) * PACK_CHUNK_SIZE)])
  {
  }

  // The entry of a pack is removed with request floor(L / 131072): that one is answered with what is left, if anything.
  lemma {:induction false} ServedUntil(uploads: map<Uuid, Upload>, id: Uuid, pack: Bytes, i: nat, n: nat)
    requires Sized(pack) && id in uploads && uploads[id] == Upload(pack, i * PACK_CHUNK_SIZE)
             && i <= |pack| / PACK_CHUNK_SIZE
    ensures var (events, after) := ServeAll(uploads, id, i, n);
            && (id in after <==> n <= |pack| / 131072)
            && (i <= n <= |pack| / 131072 + 1 ==>
                  |events| == n - i
                  && forall k :: 0 <= k < n - i ==>
                       events[k].Data? && events[k].frag.data == Piece(pack, 131072, i + k)
                         && events[k].frag.offset == (i + k) * 131072)
    decreases if i < n then n - i else 0
  {
    if i < n {
      ServeOne(uploads, id, pack, i);
      var (answer, after) := Serve(uploads, id, i);
      hide Serve, Piece, Sized;
      if i < |pack| / PACK_CHUNK_SIZE {
        ServedUntil(after, id, pack, i + 1, n);
        var (events, rest) := (ServeAll(uploads, id, i, n).0, ServeAll(after, id, i + 1, n).0);
        forall k | 0 <= k < n - i && n <= |pack| / PACK_CHUNK_SIZE + 1
          ensures k < |events| && events[k].Data? && events[k].frag.data == Piece(pack, PACK_CHUNK_SIZE, i + k)
                  && events[k].frag.offset == (i + k) * PACK_CHUNK_SIZE
        {
          if k > 0 { assert events[k] == rest[k - 1]; }
        }
      } else {
        assert i + 1 < n ==> !Serve(after, id, i + 1).0.Sent? by { ServeUnknown(after, id, i + 1); }
      }
    }
  }

  // Requests for one pack leave the uploads of the others alone.
  lemma {:induction false} ServedState(uploads: map<Uuid, Upload>, id: Uuid, pack: Bytes, i: nat, n: nat)
    requires Sized(pack) && id in uploads && uploads[id] == Upload(pack, i * PACK_CHUNK_SIZE)
    requires i <= n <= |pack| / PACK_CHUNK_SIZE
    ensures ServeAll(uploads, id, i, n).1 == uploads[id := Upload(pack, n * PACK_CHUNK_SIZE)]
    decreases n - i
  {
    if i < n {
      ServeOne(uploads, id, pack, i);
      hide Serve, Sized;
      ServedState(Serve(uploads, id, i).1, id, pack, i + 1, n);
    }
  }

  lemma LastExpects(uploads: map<Uuid, Upload>, id: Uuid, pack: Bytes, i: nat)
    requires Sized(pack) && id in uploads && uploads[id] == Upload(pack, i * PACK_CHUNK_SIZE)
             && i <= |pack| / PACK_CHUNK_SIZE
    ensures Serve(uploads, id, i).0.Sent?
    ensures Serve(uploads, id, i).0.expects ==
            if i < |pack| / PACK_CHUNK_SIZE then [ChunkRequest] else if uploads - {id} == map[] then [ClientResponse]
              else []
  {
    ServeOne(uploads, id, pack, i);
    assert id in Serve(uploads, id, i).1 ==> Serve(uploads, id, i).1 != map[];
  }

  lemma OnlyUpload(uploads: map<Uuid, Upload>, before: map<Uuid, Upload>, id: Uuid)
    requires before.Keys == uploads.Keys && id in uploads
    ensures uploads.Keys == {id} <==> before - {id} == map[]
  {
    var after := before - {id};
    assert after.Keys == uploads.Keys - {id};
    assert after == map[] <==> after.Keys == {};
  }

  // Of the chunks an upload has, only the next one is sent; any other request is refused and changes nothing.
  lemma OnlyNextIsServed(uploads: map<Uuid, Upload>, id: Uuid, pack: Bytes, i: nat, index: int)
    requires Sized(pack) && id in uploads && uploads[id] == Upload(pack, i * PACK_CHUNK_SIZE)
             && i <= |pack| / PACK_CHUNK_SIZE && -0x8000_0000 <= index < 0x8000_0000
    ensures Serve(uploads, id, index).0.Sent? <==> index == i
    ensures index != i ==> Serve(uploads, id, index) == (UnexpectedIndex, uploads)
  {
    hide ReadAt;
    if index >= 0 {
      assert ToUint64(index) == index && index * PACK_CHUNK_SIZE < TWO_64;
    } else {
      assert ToUint64(index) == TWO_64 + index;
      assert (TWO_64 + index) * PACK_CHUNK_SIZE % TWO_64 == TWO_64 + index * PACK_CHUNK_SIZE;
    }
  }

  // A request changes nothing unless it reads a chunk, and then only the upload of its own pack.
  lemma RequestTouchesOne(uploads: map<Uuid, Upload>, parsed: Option<Uuid>, index: int, readable: bool)
    ensures var (answer, after) := Request(uploads, parsed, index, readable);
            && (answer == MalformedId <==> parsed.None?)
            && (answer == UnknownPack <==> parsed.Some? && parsed.value !in uploads)
            && (answer.Sent? ==> readable) && (answer.ReadError? ==> !readable)
            && (!answer.Sent? && !answer.ReadError? ==> after == uploads)
            && forall other :: parsed != Some(other) ==>
                 (other in after <==> other in uploads) && (other in after ==> after[other] == uploads[other])
  {
    hide ReadAt, ToUint64;
  }

  // After as many requests as the client counts: it is expected to make another one, which it does not, if and only if
  // the last chunk is a full one; otherwise it is released if and only if no other pack is being uploaded.
  lemma ClientIsReleasedIff(uploads: map<Uuid, Upload>, id: Uuid, pack: Bytes)
    requires Sized(pack) && pack != [] && id in uploads && uploads[id] == Upload(pack, 0)
    ensures var n := Ceil(|pack|, 131072);
            && n > 0
            && Serve(ServeAll(uploads, id, 0, n - 1).1, id, n - 1).0.Sent?
            && Serve(ServeAll(uploads, id, 0, n - 1).1, id, n - 1).0.expects ==
               if |pack| % 131072 == 0 then [ChunkRequest]
               else if uploads.Keys == {id} then [ClientResponse] else []
  {
    hide ServeAll, Serve;
    var n := Ceil(|pack|, PACK_CHUNK_SIZE);
    ServedState(uploads, id, pack, 0, n - 1);
    var before := ServeAll(uploads, id, 0, n - 1).1;
    LastExpects(before, id, pack, n - 1);
    OnlyUpload(uploads, before, id);
  }

  // ---- the two together ----

  lemma CeilQuotient(size: nat, chunk: nat)
    requires chunk > 0
    ensures Ceil(size, chunk) <= size / chunk + 1 && (Ceil(size, chunk) <= size / chunk <==> size % chunk == 0)
  {
  }

  lemma ServedFit(pack: Bytes, events: seq<Event>)
    requires forall k :: 0 <= k < |events| ==> events[k].Data? && events[k].frag.data == Piece(pack, PACK_CHUNK_SIZE, k)
    ensures Fit(events)
  {
    assert forall k :: |Piece(pack, PACK_CHUNK_SIZE, k)| <= PACK_CHUNK_SIZE;
  }

  // The packets that the upload sends.
  function FragmentsOf(events: seq<Event>): seq<Fragment> {
    if events == [] then []
    else (if events[0].Data? then [events[0].frag] else []) + FragmentsOf(events[1..])
  }

  lemma NextIndex(i: nat)
    ensures (i % TWO_32 + 1) % TWO_32 == (i + 1) % TWO_32
  {
  }

  lemma ServedIndex(uploads: map<Uuid, Upload>, id: Uuid, i: nat)
    ensures Serve(uploads, id, i).0.Sent? ==> Serve(uploads, id, i).0.frag.index == i % TWO_32
  {
  }

  lemma FragmentsNext(f: Fragment, rest: seq<Event>)
    ensures FragmentsOf([Data(f)] + rest) == [f] + FragmentsOf(rest)
  {
    assert ([Data(f)] + rest)[1..] == rest;
  }

  // OnResourcePackChunkData lets all that the upload sends through, unchanged.
  lemma {:induction false} ServedIsAccepted(uploads: map<Uuid, Upload>, id: Uuid, i: nat, n: nat)
    ensures var events := ServeAll(uploads, id, i, n).0; Accepted(i % TWO_32, FragmentsOf(events)) == events
    decreases if i < n then n - i else 0
  {
    var (answer, after) := Serve(uploads, id, i);
    if i < n && answer.Sent? {
      var rest := ServeAll(after, id, i + 1, n).0;
      assert ServeAll(uploads, id, i, n).0 == [Data(answer.frag)] + rest;
      hide *;
      ServedIsAccepted(after, id, i + 1, n);
      ServedIndex(uploads, id, i);
      NextIndex(i);
      FragmentsNext(answer.frag, rest);
      AcceptedFirst(i % TWO_32, answer.frag, FragmentsOf(rest));
    } else {
      hide Serve;
    }
  }

  // The client asks for as many chunks as it counts, and gets the pack, if and only if their number is an int32. The
  // upload is over after those requests if and only if the last chunk is not a full one: otherwise one more request
  // would be needed, which is not made.
  lemma TransferMeetsIff(uploads: map<Uuid, Upload>, id: Uuid, pack: Bytes)
    requires Sized(pack) && id in uploads && uploads[id] == Upload(pack, 0)
    ensures var n := Ceil(|pack|, 131072);
            var (events, after) := ServeAll(uploads, id, 0, n);
            var r := DownloadPack(131072, |pack|, Accepted(0, FragmentsOf(events)));
            && (r.outcome == Done && r.file == pack && r.requests == UpTo(0, n) <==> n < 0x8000_0000)
            && (id !in after <==> |pack| % 131072 != 0)
  {
    hide Ceil, DownloadPack, ServeAll, Piece, Fit, UpTo, Accepted, FragmentsOf;
    var n := Ceil(|pack|, PACK_CHUNK_SIZE);
    var (events, after) := ServeAll(uploads, id, 0, n);
    CeilQuotient(|pack|, PACK_CHUNK_SIZE);
    ServedUntil(uploads, id, pack, 0, n);
    ServedFit(pack, events);
    ServedIsAccepted(uploads, id, 0, n);
    assert Pieces(pack, PACK_CHUNK_SIZE, 0, events, n);
    DownloadGetsPackIff(PACK_CHUNK_SIZE, pack, events);
  }
}
