// utils/proxy/pcap2/pcap2reader.go: reading a version 5 capture forwards, backwards and by packet number.

module CaptureReader {
  import opened Common
  import opened LittleEndian
  import opened CaptureFile

  // ---- one packet ----

  // What ReadPacket returns. A skipped packet has no payload.
  datatype Outcome =
    | Packet(toServer: bool, millis: int, payload: Option<Bytes>)
    | Closed       // the end of the file, also inside a header
    | WrongMagic
    | Eof          // the end of the file inside a body
    | Truncated    // the length plus 4 does not fit a uint32
    | WrongMagic2
    | Undecodable

  const HEAD: nat := 17

  datatype ReadResult = ReadResult(outcome: Outcome, taken: nat)

  function Length(rest: Bytes): nat
    requires |rest| >= HEAD
  {
    UnLe(rest[4..8])
  }

  // What follows the header: skipped, or read and checked. The size of the buffer is a uint32.
  function ReadBody(open: Bytes -> Option<Bytes>, rest: Bytes, length: nat, toServer: bool, millis: int,
                    skip: bool): (r: ReadResult)
    ensures r.taken <= |rest|
  {
    if skip then
      if |rest| < length + 4 then ReadResult(Eof, |rest|) else ReadResult(Packet(toServer, millis, None), length + 4)
    else
      var wanted := (length + 4) % TWO_32;
      if |rest| < wanted then ReadResult(Eof, |rest|)
      else if wanted < length + 4 then ReadResult(Truncated, wanted)
      else if rest[length..length + 4] != END_MAGIC then ReadResult(WrongMagic2, wanted)
      else match open(rest[..length])
           case None => ReadResult(Undecodable, wanted)
           case Some(p) => ReadResult(Packet(toServer, millis, Some(p)), wanted)
  }

  function Millis(rest: Bytes): int
    requires |rest| >= HEAD
  {
    UnLeRoundTrip(rest[9..17]);
    Pow256Values();
    ToInt64(UnLe(rest[9..17]))
  }

  // Read a packet from the bytes that follow the position; `taken` is how far the position moves.
  function ReadOne(open: Bytes -> Option<Bytes>, rest: Bytes, skip: bool): (r: ReadResult)
    ensures r.taken <= |rest|
  {
    if |rest| < HEAD then ReadResult(Closed, |rest|)
    else if rest[..4] != START_MAGIC then ReadResult(WrongMagic, HEAD)
    else
      var body := ReadBody(open, rest[HEAD..], Length(rest), rest[8] == 1, Millis(rest), skip);
      ReadResult(body.outcome, HEAD + body.taken)
  }

  // A header that begins with the magic number.
  predicate HasHead(rest: Bytes) {
    |rest| >= 17 && UnLe(rest[..4]) == 0xAAAA_AAAA
  }

  lemma MagicIff(rest: Bytes)
    requires |rest| >= HEAD
    ensures rest[..4] == START_MAGIC <==> HasHead(rest)
  {
    RepeatedByte(rest[..4], 0xAA);
    hide UnLe;
  }

  lemma LengthBound(rest: Bytes)
    requires |rest| >= HEAD
    ensures Length(rest) < TWO_32
  {
    UnLeRoundTrip(rest[4..8]);
    Pow256Values();
  }

  lemma MillisIs(rest: Bytes)
    requires |rest| >= HEAD
    ensures IsInt64(Millis(rest)) && (Millis(rest) - UnLe(rest[9..17])) % 0x1_0000_0000_0000_0000 == 0
  {
    UnLeRoundTrip(rest[9..17]);
    Pow256Values();
    hide UnLe;
  }

  // Which bytes lead to which outcome. With a length of 2^32 - 4 or more a read takes what is left of the length plus 4
  // as a uint32, and fails; a skip does not look at the end of a packet.
  lemma ReadsIff(open: Bytes -> Option<Bytes>, rest: Bytes, skip: bool)
    ensures var o := ReadOne(open, rest, skip).outcome;
            && (o == Closed <==> |rest| < 17)
            && (o == WrongMagic <==> |rest| >= 17 && UnLe(rest[..4]) != 0xAAAA_AAAA)
            && (HasHead(rest) ==>
                  var size := UnLe(rest[4..8]);
                  var there := |rest| >= 17 + size + 4;
                  && (o.Packet? ==>
                        && there && (o.toServer <==> rest[8] == 1)
                        && IsInt64(o.millis) && (o.millis - UnLe(rest[9..17])) % 0x1_0000_0000_0000_0000 == 0)
                  && (skip ==> (o == Eof <==> !there) && (o.Packet? <==> there) && (o.Packet? ==> o.payload == None))
                  && (!skip && size > 0xFFFF_FFFB ==>
                        o == if |rest| < 17 + (size + 4 - 0x1_0000_0000) then Eof else Truncated)
                  && (!skip && size <= 0xFFFF_FFFB ==>
                        && (o == Eof <==> !there)
                        && (o == WrongMagic2 <==> there && UnLe(rest[17 + size..17 + size + 4]) != 0xBBBB_BBBB)
                        && (there && UnLe(rest[17 + size..17 + size + 4]) == 0xBBBB_BBBB ==>
                              var data := open(rest[17..17 + size]);
                              if data == None then o == Undecodable else o.Packet? && o.payload == data)))
  {
    if |rest| >= HEAD {
      MagicIff(rest);
      LengthBound(rest);
      MillisIs(rest);
      var size := Length(rest);
      var body := rest[HEAD..];
      if |rest| >= 17 + size + 4 {
        assert body[size..size + 4] == rest[17 + size..17 + size + 4] && body[..size] == rest[17..17 + size];
        RepeatedByte(rest[17 + size..17 + size + 4], 0xBB);
      }
    }
    hide UnLe, Millis;
  }

  // ---- the reader ----

  datatype Reader = Reader(pos: nat, index: seq<nat>, current: nat)

  function From(content: Bytes, pos: nat): Bytes {
    if pos <= |content| then content[pos..] else []
  }

  function ReadPacket(open: Bytes -> Option<Bytes>, content: Bytes, r: Reader, skip: bool): (Outcome, Reader) {
    var index := if |r.index| <= r.current then r.index + [r.pos] else r.index;
    var read := ReadOne(open, From(content, r.pos), skip);
    (read.outcome, Reader(r.pos + read.taken, index, r.current + 1))
  }

  // Skip `n` packets, or as many as can be read.
  function Skip(open: Bytes -> Option<Bytes>, content: Bytes, r: Reader, n: nat): (res: (bool, Reader))
    ensures r.current <= |r.index| ==> res.1.current <= |res.1.index|
    decreases n
  {
    if n == 0 then (true, r) else
      var (outcome, r1) := ReadPacket(open, content, r, true);
      if outcome.Packet? then Skip(open, content, r1, n - 1) else (false, r1)
  }

  // The result tells whether Seek returned without an error. Reading the index panics when it is too short.
  function Seek(open: Bytes -> Option<Bytes>, content: Bytes, r: Reader, packet: nat): (bool, Reader)
    requires packet < r.current ==> packet < |r.index|
  {
    if packet >= r.current then Skip(open, content, r, packet - r.current)
    else (true, r.(pos := r.index[packet], current := packet))
  }

  // At the first packet there is nothing before.
  function ReadBack(open: Bytes -> Option<Bytes>, content: Bytes, r: Reader): (Option<Outcome>, Reader)
    requires r.current <= |r.index|
  {
    if r.current == 0 then (None, r) else
      var (outcome, r1) := ReadPacket(open, content, Reader(r.index[r.current - 1], r.index, r.current - 1), false);
      (Some(outcome), r1.(current := r1.current - 1))
  }

  // ---- where packets start ----

  // The end of the packet that starts at `pos`, if there is a whole one.
  function End(content: Bytes, pos: nat): Option<nat> {
    var rest := From(content, pos);
    if |rest| >= HEAD && rest[..4] == START_MAGIC && HEAD + Length(rest) + 4 <= |rest|
    then Some(pos + HEAD + Length(rest) + 4) else None
  }

  // The start of packet k: a reader that starts at `base` gets there by skipping k packets.
  function Start(content: Bytes, base: nat, k: nat): Option<nat> {
    if k == 0 then Some(base) else
      match Start(content, base, k - 1)
      case None => None
      case Some(pos) => End(content, pos)
  }

  // The largest length a packet may have when it is read and not skipped.
  const MAX_LENGTH: nat := TWO_32 - 5

  predicate Readable(content: Bytes, pos: nat) {
    var rest := From(content, pos);
    |rest| >= HEAD && rest[..4] == START_MAGIC ==> Length(rest) <= MAX_LENGTH
  }

  ghost predicate Indexed(content: Bytes, base: nat, r: Reader) {
    && r.current <= |r.index|
    && forall i :: 0 <= i < |r.index| && Start(content, base, i).Some? ==> r.index[i] == Start(content, base, i).value
  }

  // The position is where packet `current` starts, and the index is right, as far as there are packets.
  ghost predicate Tracked(content: Bytes, base: nat, r: Reader) {
    && Indexed(content, base, r)
    && (Start(content, base, r.current).Some? ==> r.pos == Start(content, base, r.current).value)
  }

  // ---- reading keeps track ----

  lemma StartNext(content: Bytes, base: nat, k: nat)
    ensures Start(content, base, k + 1) ==
            if Start(content, base, k).Some? then End(content, Start(content, base, k).value) else None
  {
  }

  // Whether a reader ends where a packet does: it does when it skips, and otherwise exactly for lengths that do not
  // wrap around when 4 is added to them.
  lemma TakenIff(open: Bytes -> Option<Bytes>, content: Bytes, pos: nat, skip: bool)
    requires End(content, pos).Some?
    ensures pos + ReadOne(open, From(content, pos), skip).taken == End(content, pos).value
            <==> skip || Length(From(content, pos)) <= MAX_LENGTH
    ensures skip ==> ReadOne(open, From(content, pos), skip).outcome.Packet?
  {
    LengthBound(From(content, pos));
  }

  // Before the call: reading keeps track if and only if it skips, or no packet follows, or its length does not wrap
  // around.
  lemma ReadKeepsTrackIff(open: Bytes -> Option<Bytes>, content: Bytes, base: nat, r: Reader, skip: bool)
    requires Tracked(content, base, r)
    ensures var r1 := ReadPacket(open, content, r, skip).1;
            Tracked(content, base, r1)
            <==> skip || Start(content, base, r.current + 1).None? || Length(From(content, r.pos)) <= MAX_LENGTH
  {
    var r1 := ReadPacket(open, content, r, skip).1;
    StartNext(content, base, r.current);
    hide Start, ReadOne, End, Length;
    assert Indexed(content, base, r1) by {
      forall i | 0 <= i < |r1.index| && Start(content, base, i).Some?
        ensures r1.index[i] == Start(content, base, i).value
      {
      }
    }
    if Start(content, base, r.current + 1).Some? {
      TakenIff(open, content, r.pos, skip);
    }
  }

  lemma SkipForm(open: Bytes -> Option<Bytes>, content: Bytes, r: Reader, n: nat)
    ensures n == 0 ==> Skip(open, content, r, n) == (true, r)
    ensures n > 0 ==>
              var (outcome, r1) := ReadPacket(open, content, r, true);
              Skip(open, content, r, n) == if outcome.Packet? then Skip(open, content, r1, n - 1) else (false, r1)
  {
  }

  lemma SkippedIff(open: Bytes -> Option<Bytes>, content: Bytes, pos: nat)
    ensures ReadOne(open, From(content, pos), true).outcome.Packet? <==> End(content, pos).Some?
  {
  }

  lemma SkipOne(open: Bytes -> Option<Bytes>, content: Bytes, base: nat, r: Reader)
    requires Tracked(content, base, r)
    ensures var (outcome, r1) := ReadPacket(open, content, r, true);
            && Tracked(content, base, r1) && r1.current == r.current + 1
            && (Start(content, base, r.current).Some? ==>
                  (outcome.Packet? <==> Start(content, base, r.current + 1).Some?))
  {
    ReadKeepsTrackIff(open, content, base, r, true);
    StartNext(content, base, r.current);
    SkippedIff(open, content, r.pos);
    hide Start, ReadOne, End, Indexed;
  }

  lemma {:induction false} StartsBelow(content: Bytes, base: nat, i: nat, k: nat)
    requires i <= k && Start(content, base, k).Some?
    ensures Start(content, base, i).Some?
    decreases k
  {
    if i < k { StartsBelow(content, base, i, k - 1); }
  }

  // Skipping keeps track, and it succeeds if and only if there are as many packets.
  lemma {:induction false} SkipKeepsTrack(open: Bytes -> Option<Bytes>, content: Bytes, base: nat, r: Reader, n: nat)
    requires Tracked(content, base, r)
    ensures var (ok, r1) := Skip(open, content, r, n);
            && Tracked(content, base, r1)
            && (ok ==> r1.current == r.current + n)
            && (Start(content, base, r.current).Some? ==> (ok <==> Start(content, base, r.current + n).Some?))
    decreases n
  {
    hide *;
    SkipForm(open, content, r, n);
    if n > 0 {
      var (outcome, r1) := ReadPacket(open, content, r, true);
      SkipOne(open, content, base, r);
      if Start(content, base, r.current + n).Some? {
        StartsBelow(content, base, r.current + 1, r.current + n);
      }
      if outcome.Packet? {
        SkipKeepsTrack(open, content, base, r1, n - 1);
      }
    }
  }

  // Seek lands on the packet it is given, forwards or backwards, and from a reader that lost its way behind the last
  // packet too: there it keeps track and succeeds for every packet of the capture.
  lemma SeekLands(open: Bytes -> Option<Bytes>, content: Bytes, base: nat, r: Reader, packet: nat)
    requires Tracked(content, base, r)
    ensures var (ok, r1) := Seek(open, content, r, packet);
            && Tracked(content, base, r1)
            && (ok ==> r1.current == packet)
            && (Start(content, base, packet).Some? ==> ok && r1.pos == Start(content, base, packet).value)
            && (Start(content, base, r.current).Some? ==> (ok <==> Start(content, base, packet).Some?))
  {
    hide Skip, ReadPacket, End;
    if packet >= r.current {
      SkipKeepsTrack(open, content, base, r, packet - r.current);
      if Start(content, base, packet).Some? {
        StartsBelow(content, base, r.current, packet);
      }
    } else if Start(content, base, r.current).Some? {
      StartsBelow(content, base, packet, r.current);
    }
  }

  // ---- runs ----

  datatype Op = Read(skip: bool) | SeekTo(packet: nat) | Back

  // A Seek that fails leaves the reader where the failing read left it.
  function Do(open: Bytes -> Option<Bytes>, content: Bytes, r: Reader, op: Op): (r1: Reader)
    requires r.current <= |r.index|
    ensures r1.current <= |r1.index|
  {
    match op
    case Read(skip) => ReadPacket(open, content, r, skip).1
    case SeekTo(packet) => Seek(open, content, r, packet).1
    case Back => ReadBack(open, content, r).1
  }

  // Every length is small enough to be read.
  ghost predicate AllReadable(content: Bytes, base: nat) {
    forall k :: Start(content, base, k).Some? ==> Readable(content, Start(content, base, k).value)
  }

  // The reader after a run; Start tells where it should be.
  function RunReader(open: Bytes -> Option<Bytes>, content: Bytes, base: nat, ops: seq<Op>): (r: Reader)
    ensures r.current <= |r.index|
  {
    if ops == [] then Reader(base, [], 0) else
      var r := RunReader(open, content, base, ops[..|ops| - 1]);
      Do(open, content, r, ops[|ops| - 1])
  }

  // ---- reading backwards ----

  // What a full read of packet k returns.
  function PacketAt(open: Bytes -> Option<Bytes>, content: Bytes, base: nat, k: nat): Outcome
    requires Start(content, base, k).Some?
  {
    ReadOne(open, From(content, Start(content, base, k).value), false).outcome
  }

  // The i-th packet before packet c.
  function Before(open: Bytes -> Option<Bytes>, content: Bytes, base: nat, c: nat, i: nat): Option<Outcome> {
    if i < c && Start(content, base, c - 1 - i).Some? then Some(PacketAt(open, content, base, c - 1 - i)) else None
  }

  // One ReadBack returns the packet before the current one and leaves the reader one packet back.
  lemma ReadBackReturns(open: Bytes -> Option<Bytes>, content: Bytes, base: nat, r: Reader)
    requires r.current <= |r.index| && Indexed(content, base, r) && Start(content, base, r.current).Some?
    ensures ReadBack(open, content, r).0 == Before(open, content, base, r.current, 0)
    ensures var r1 := ReadBack(open, content, r).1;
            && Indexed(content, base, r1) && Start(content, base, r1.current).Some?
            && r1.current == if r.current > 0 then r.current - 1 else 0
  {
    hide Start, ReadOne;
    if r.current > 0 {
      StartsBelow(content, base, r.current - 1, r.current);
    }
  }

  function ReadBacks(open: Bytes -> Option<Bytes>, content: Bytes, r: Reader, n: nat): (seq<Option<Outcome>>, Reader)
    requires r.current <= |r.index|
    decreases n
  {
    if n == 0 then ([], r) else
      var (outcome, r1) := ReadBack(open, content, r);
      var (outcomes, r2) := ReadBacks(open, content, r1, n - 1);
      ([outcome] + outcomes, r2)
  }

  lemma ReadBacksForm(open: Bytes -> Option<Bytes>, content: Bytes, r: Reader, n: nat)
    requires r.current <= |r.index|
    ensures n == 0 ==> ReadBacks(open, content, r, n) == ([], r)
    ensures n > 0 ==>
              var (outcome, r1) := ReadBack(open, content, r);
              var (outcomes, r2) := ReadBacks(open, content, r1, n - 1);
              ReadBacks(open, content, r, n) == ([outcome] + outcomes, r2)
    ensures r.current == 0 ==> ReadBack(open, content, r) == (None, r)
  {
  }

  lemma BeforeNext(open: Bytes -> Option<Bytes>, content: Bytes, base: nat, c: nat)
    ensures c == 0 ==> forall i: nat :: Before(open, content, base, c, i) == None
    ensures c > 0 && Start(content, base, c - 1).Some? ==>
              Before(open, content, base, c, 0) == Some(PacketAt(open, content, base, c - 1))
    ensures c > 0 ==>
              forall i: nat :: i > 0 ==> Before(open, content, base, c, i) == Before(open, content, base, c - 1, i - 1)
  {
  }

  lemma IndexedBound(content: Bytes, base: nat, r: Reader)
    requires Indexed(content, base, r)
    ensures r.current <= |r.index|
  {
  }

  lemma StartOfFirst(content: Bytes, base: nat)
    ensures Start(content, base, 0) == Some(base)
  {
  }

  // Consecutive ReadBacks return the packets in strictly descending order, down to the first, and then nothing.
  lemma {:induction false} ReadBacksDescend(open: Bytes -> Option<Bytes>, content: Bytes, base: nat, r: Reader, n: nat)
    requires Indexed(content, base, r) && Start(content, base, r.current).Some?
    ensures var (outcomes, r1) := ReadBacks(open, content, r, n);
            && |outcomes| == n
            && (forall i :: 0 <= i < n ==> outcomes[i] == Before(open, content, base, r.current, i))
            && r1.current == if n <= r.current then r.current - n else 0
    decreases n
  {
    hide *;
    StartOfFirst(content, base);
    IndexedBound(content, base, r);
    ReadBacksForm(open, content, r, n);
    if n > 0 {
      var (outcome, r1) := ReadBack(open, content, r);
      ReadBackReturns(open, content, base, r);
      IndexedBound(content, base, r1);
      BeforeNext(open, content, base, r.current);
      ReadBacksDescend(open, content, base, r1, n - 1);
      var rest := ReadBacks(open, content, r1, n - 1).0;
      forall i | 1 <= i < n ensures rest[i - 1] == Before(open, content, base, r.current, i) {
        assert rest[i - 1] == Before(open, content, base, r1.current, i - 1);
      }
    }
  }

  // All of them are there: a reader at packet c has c packets before it.
  lemma AllBefore(open: Bytes -> Option<Bytes>, content: Bytes, base: nat, c: nat, i: nat)
    requires Start(content, base, c).Some?
    ensures Before(open, content, base, c, i).Some? <==> i < c
  {
    if i < c { StartsBelow(content, base, c - 1 - i, c); }
  }

  lemma ReadableTaken(open: Bytes -> Option<Bytes>, content: Bytes, base: nat, k: nat)
    requires AllReadable(content, base) && Start(content, base, k + 1).Some?
    ensures var pos := Start(content, base, k);
            pos.Some? && pos.value + ReadOne(open, From(content, pos.value), false).taken
              == Start(content, base, k + 1).value
  {
    StartNext(content, base, k);
    assert Readable(content, Start(content, base, k).value);
    TakenIff(open, content, Start(content, base, k).value, false);
  }

  lemma EndBehind(content: Bytes, pos: nat)
    ensures End(content, pos).Some? ==> End(content, pos).value > pos
  {
  }

  // ReadBack loses track, unless it finds nothing: it leaves the position one packet ahead of `current` (line 213).
  lemma ReadBackKeepsTrackIff(open: Bytes -> Option<Bytes>, content: Bytes, base: nat, r: Reader)
    requires Tracked(content, base, r) && AllReadable(content, base) && Start(content, base, r.current).Some?
    ensures var r1 := ReadBack(open, content, r).1;
            && (Tracked(content, base, r1) <==> r.current == 0)
            && (r.current > 0 ==> r1.pos == r.pos)
  {
    hide Start, End, ReadOne, Length, Readable;
    if r.current > 0 {
      StartsBelow(content, base, r.current - 1, r.current);
      StartNext(content, base, r.current - 1);
      var pos := Start(content, base, r.current - 1).value;
      ReadableTaken(open, content, base, r.current - 1);
      EndBehind(content, pos);
    }
  }

  // The capture has bytes behind the start of packet c: the packet, or a part of one.
  predicate Something(content: Bytes, base: nat, c: nat) {
    Start(content, base, c).Some? && Start(content, base, c).value < |content|
  }

  // The position is where the packet after `current` starts. When there is none, it is behind the start of packet
  // `current`, unless the file ends there.
  ghost predicate Ahead(content: Bytes, base: nat, r: Reader) {
    && Indexed(content, base, r)
    && (Start(content, base, r.current + 1).Some? ==> r.pos == Start(content, base, r.current + 1).value)
    && (Start(content, base, r.current).Some? ==>
          (r.pos != Start(content, base, r.current).value <==> Something(content, base, r.current)))
  }

  lemma TakenNone(open: Bytes -> Option<Bytes>, content: Bytes, pos: nat, skip: bool)
    ensures ReadOne(open, From(content, pos), skip).taken == 0 <==> pos >= |content|
  {
    hide ReadBody, Millis;
  }

  lemma SomethingNext(content: Bytes, base: nat, c: nat)
    ensures Start(content, base, c + 1).Some? ==>
              Something(content, base, c) && Start(content, base, c + 1).value > Start(content, base, c).value
    ensures Something(content, base, c + 1) ==> Something(content, base, c)
  {
    StartNext(content, base, c);
    hide Start;
  }

  // Wherever the file is, ReadBack leaves it one packet ahead.
  lemma BackGoesAhead(open: Bytes -> Option<Bytes>, content: Bytes, base: nat, r: Reader)
    requires Indexed(content, base, r) && AllReadable(content, base) && r.current > 0
    ensures Ahead(content, base, ReadBack(open, content, r).1) && ReadBack(open, content, r).1.current == r.current - 1
  {
    hide Start, End, ReadOne, AllReadable;
    var c := r.current - 1;
    if Start(content, base, r.current).Some? {
      ReadableTaken(open, content, base, c);
    }
    if Start(content, base, c).Some? {
      TakenNone(open, content, Start(content, base, c).value, false);
    }
  }

  lemma AheadTaken(open: Bytes -> Option<Bytes>, content: Bytes, base: nat, k: nat, skip: bool)
    requires AllReadable(content, base) && Start(content, base, k).Some? && Start(content, base, k + 1).Some?
    ensures var pos := Start(content, base, k).value;
            pos + ReadOne(open, From(content, pos), skip).taken == Start(content, base, k + 1).value
  {
    StartNext(content, base, k);
    assert Readable(content, Start(content, base, k).value);
    TakenIff(open, content, Start(content, base, k).value, skip);
  }

  lemma AheadKept(open: Bytes -> Option<Bytes>, content: Bytes, base: nat, r: Reader, skip: bool)
    requires Ahead(content, base, r) && AllReadable(content, base)
    requires Indexed(content, base, ReadPacket(open, content, r, skip).1)
    ensures Ahead(content, base, ReadPacket(open, content, r, skip).1)
  {
    hide Start, End, ReadOne, AllReadable;
    var c := r.current + 1;
    if Start(content, base, c + 1).Some? {
      StartsBelow(content, base, c, c + 1);
      AheadTaken(open, content, base, c, skip);
    }
    if Start(content, base, c).Some? {
      TakenNone(open, content, r.pos, skip);
    }
  }

  // Before the call: reading while the file is ahead keeps the index right, and the file ahead, if and only if the
  // packet is in the index or there is nothing to be read.
  lemma AheadReadIff(open: Bytes -> Option<Bytes>, content: Bytes, base: nat, r: Reader, skip: bool)
    requires Ahead(content, base, r) && AllReadable(content, base)
    ensures var r1 := ReadPacket(open, content, r, skip).1;
            && (Indexed(content, base, r1) <==> r.current < |r.index| || !Something(content, base, r.current))
            && (Indexed(content, base, r1) ==> Ahead(content, base, r1))
  {
    hide Start, End, ReadOne, AllReadable;
    var r1 := ReadPacket(open, content, r, skip).1;
    if r.current == |r.index| {
      assert r1.index == r.index + [r.pos];
      assert r1.index[r.current] == r.pos;
    } else {
      assert r1.index == r.index;
    }
    if Indexed(content, base, r1) { AheadKept(open, content, base, r, skip); }
  }

  lemma ReadCounts(open: Bytes -> Option<Bytes>, content: Bytes, r: Reader, skip: bool)
    ensures var r1 := ReadPacket(open, content, r, skip).1;
            && r1.current == r.current + 1
            && r1.index == if |r.index| <= r.current then r.index + [r.pos] else r.index
  {
    hide ReadOne;
  }

  // What is filed stays as it is, so a wrong index stays wrong.
  lemma NeverMended(content: Bytes, base: nat, r: Reader, r1: Reader)
    requires r.current <= |r.index| && r.index <= r1.index && Indexed(content, base, r1)
    ensures Indexed(content, base, r)
  {
    hide Start;
    assert forall i :: 0 <= i < |r.index| ==> r1.index[i] == r.index[i];
  }

  lemma {:induction false} SkipGrows(open: Bytes -> Option<Bytes>, content: Bytes, r: Reader, n: nat)
    ensures r.index <= Skip(open, content, r, n).1.index
    decreases n
  {
    hide *;
    SkipForm(open, content, r, n);
    if n > 0 {
      var (outcome, r1) := ReadPacket(open, content, r, true);
      ReadCounts(open, content, r, true);
      if outcome.Packet? { SkipGrows(open, content, r1, n - 1); }
    }
  }

  lemma DoGrows(open: Bytes -> Option<Bytes>, content: Bytes, r: Reader, op: Op)
    requires r.current <= |r.index|
    ensures r.index <= Do(open, content, r, op).index
  {
    hide ReadOne, Skip;
    match op
    case Read(skip) =>
    case SeekTo(packet) => if packet >= r.current { SkipGrows(open, content, r, packet - r.current); }
    case Back =>
  }

  // Skipping n packets ahead gets behind the index, and reads something there.
  predicate SkipSpoils(content: Bytes, base: nat, r: Reader, n: nat) {
    && r.current + n > |r.index|
    && if r.current == |r.index| then Something(content, base, r.current)
       else Start(content, base, |r.index| + 1).Some?
  }

  // The packet that a skip reads ahead is there.
  lemma AheadSkipsIff(open: Bytes -> Option<Bytes>, content: Bytes, base: nat, r: Reader)
    requires Ahead(content, base, r) && Start(content, base, r.current + 1).Some?
    ensures ReadPacket(open, content, r, true).0.Packet? <==> Start(content, base, r.current + 2).Some?
  {
    StartNext(content, base, r.current + 1);
    SkippedIff(open, content, r.pos);
    hide Start, ReadOne, End, Indexed;
  }

  lemma SpoilsParts(content: Bytes, base: nat, r: Reader, n: nat)
    ensures SkipSpoils(content, base, r, n) <==>
            && r.current + n > |r.index|
            && if r.current == |r.index| then Something(content, base, r.current)
               else Start(content, base, |r.index| + 1).Some?
    ensures Something(content, base, r.current) ==> Start(content, base, r.current).Some?
  {
    hide Start;
  }

  lemma SpoilsNext(open: Bytes -> Option<Bytes>, content: Bytes, base: nat, r: Reader, n: nat)
    requires Ahead(content, base, r) && n > 0 && r.current < |r.index|
    ensures var (outcome, r1) := ReadPacket(open, content, r, true);
            SkipSpoils(content, base, r, n) <==> outcome.Packet? && SkipSpoils(content, base, r1, n - 1)
  {
    hide *;
    var c, m := r.current, |r.index|;
    var (outcome, r1) := ReadPacket(open, content, r, true);
    ReadCounts(open, content, r, true);
    SpoilsParts(content, base, r, n);
    SpoilsParts(content, base, r1, n - 1);
    SomethingNext(content, base, m);
    if Start(content, base, m + 1).Some? {
      StartsBelow(content, base, m, m + 1);
      StartsBelow(content, base, c + 1, m + 1);
      StartsBelow(content, base, c + 2, m + 1);
    }
    if Start(content, base, c + 1).Some? {
      AheadSkipsIff(open, content, base, r);
    }
  }

  lemma NotMended(content: Bytes, base: nat, r: Reader, r1: Reader)
    requires r.current <= |r.index| && r.index <= r1.index && !Indexed(content, base, r)
    ensures !Indexed(content, base, r1)
  {
    hide *;
    if Indexed(content, base, r1) { NeverMended(content, base, r, r1); }
  }

  lemma AheadIndexed(content: Bytes, base: nat, r: Reader)
    requires Ahead(content, base, r)
    ensures Indexed(content, base, r) && r.current <= |r.index|
  {
    hide Start;
  }

  // Before the call: skipping while the file is ahead keeps the index right, and the file ahead, if and only if it does
  // not read something behind the index.
  lemma {:induction false} AheadSkipIff(open: Bytes -> Option<Bytes>, content: Bytes, base: nat, r: Reader, n: nat)
    requires Ahead(content, base, r) && AllReadable(content, base)
    ensures var r1 := Skip(open, content, r, n).1;
            && (Indexed(content, base, r1) <==> !SkipSpoils(content, base, r, n))
            && (Indexed(content, base, r1) ==> Ahead(content, base, r1))
    decreases n
  {
    hide *;
    SkipForm(open, content, r, n);
    AheadIndexed(content, base, r);
    SpoilsParts(content, base, r, n);
    if n > 0 {
      var (outcome, r1) := ReadPacket(open, content, r, true);
      AheadReadIff(open, content, base, r, true);
      ReadCounts(open, content, r, true);
      if r.current < |r.index| {
        SpoilsNext(open, content, base, r, n);
        if outcome.Packet? { AheadSkipIff(open, content, base, r1, n - 1); }
      } else if Something(content, base, r.current) {
        if outcome.Packet? { SkipGrows(open, content, r1, n - 1); }
        NotMended(content, base, r1, Skip(open, content, r, n).1);
      } else if outcome.Packet? {
        SomethingNext(content, base, r.current);
        SpoilsParts(content, base, r1, n - 1);
        AheadSkipIff(open, content, base, r1, n - 1);
      }
    }
  }

  // Seeking backwards gets the file back to the current packet; seeking forwards, or to the current packet, does not.
  lemma AheadSeekIff(open: Bytes -> Option<Bytes>, content: Bytes, base: nat, r: Reader, packet: nat)
    requires Ahead(content, base, r) && AllReadable(content, base)
    ensures var r1 := Seek(open, content, r, packet).1;
            if packet < r.current then Tracked(content, base, r1)
            else
              && (Indexed(content, base, r1) <==> !SkipSpoils(content, base, r, packet - r.current))
              && (Indexed(content, base, r1) ==> Ahead(content, base, r1))
  {
    hide Start, Skip, AllReadable, SkipSpoils, Something;
    if packet >= r.current { AheadSkipIff(open, content, base, r, packet - r.current); }
  }

  // Reading on after a ReadBack at the end of the index files the wrong offset: the next packet but one in place of the
  // next. Seeking to the current packet in between does not help, because Seek does nothing then.
  lemma ReadBackSpoilsIndex(open: Bytes -> Option<Bytes>, content: Bytes, base: nat, r: Reader)
    requires Tracked(content, base, r) && AllReadable(content, base)
    requires r.current > 0 && |r.index| == r.current && Start(content, base, r.current + 1).Some?
    ensures var r1 := ReadBack(open, content, r).1;
            var r2 := ReadPacket(open, content, Seek(open, content, r1, r1.current).1, false).1;
            var r3 := ReadPacket(open, content, r2, true).1;
            && |r3.index| > r.current
            && r3.index[r.current] == Start(content, base, r.current + 1).value
            && r3.index[r.current] != Start(content, base, r.current).value
            && !Indexed(content, base, r3)
  {
    hide Start, End, ReadOne, Length, Readable, AllReadable;
    var r1 := ReadBack(open, content, r).1;
    StartsBelow(content, base, r.current, r.current + 1);
    StartNext(content, base, r.current);
    ReadBackKeepsTrackIff(open, content, base, r);
    ReadableTaken(open, content, base, r.current);
    EndBehind(content, r.pos);
  }

  // ---- all runs ----

  // Whether the file is one packet ahead after a run: after a ReadBack, until a seek backwards.
  function AheadAfter(open: Bytes -> Option<Bytes>, content: Bytes, base: nat, ops: seq<Op>): bool {
    if ops == [] then false else
      var before := ops[..|ops| - 1];
      var r := RunReader(open, content, base, before);
      match ops[|ops| - 1]
      case Read(_) => AheadAfter(open, content, base, before)
      case SeekTo(packet) => AheadAfter(open, content, base, before) && packet >= r.current
      case Back => AheadAfter(open, content, base, before) || r.current > 0
  }

  // While the file is ahead, the operation reads something that is not in the index yet.
  predicate Spoils(content: Bytes, base: nat, r: Reader, op: Op) {
    match op
    case Read(_) => r.current == |r.index| && Something(content, base, r.current)
    case SeekTo(packet) => packet >= r.current && SkipSpoils(content, base, r, packet - r.current)
    case Back => false
  }

  // No operation of the run does.
  ghost predicate Unspoiled(open: Bytes -> Option<Bytes>, content: Bytes, base: nat, ops: seq<Op>) {
    forall k :: 0 <= k < |ops| && AheadAfter(open, content, base, ops[..k]) ==>
      !Spoils(content, base, RunReader(open, content, base, ops[..k]), ops[k])
  }

  ghost predicate Follows(content: Bytes, base: nat, r: Reader, ahead: bool) {
    if ahead then Ahead(content, base, r) else Tracked(content, base, r)
  }

  lemma TrackedDo(open: Bytes -> Option<Bytes>, content: Bytes, base: nat, r: Reader, op: Op)
    requires AllReadable(content, base) && Tracked(content, base, r)
    ensures Follows(content, base, Do(open, content, r, op), op.Back? && r.current > 0)
  {
    match op
    case Read(skip) =>
      ReadKeepsTrackIff(open, content, base, r, skip);
      StartNext(content, base, r.current);
      if Start(content, base, r.current + 1).Some? {
        assert Readable(content, r.pos);
      }
    case SeekTo(packet) => SeekLands(open, content, base, r, packet);
    case Back =>
      if r.current > 0 { BackGoesAhead(open, content, base, r); }
  }

  lemma AheadDo(open: Bytes -> Option<Bytes>, content: Bytes, base: nat, r: Reader, op: Op)
    requires AllReadable(content, base) && Ahead(content, base, r)
    ensures var r1 := Do(open, content, r, op);
            && (Indexed(content, base, r1) <==> !Spoils(content, base, r, op))
            && (Indexed(content, base, r1) ==> Follows(content, base, r1, !(op.SeekTo? && op.packet < r.current)))
  {
    hide Indexed, Start, AllReadable, Something, SkipSpoils;
    match op
    case Read(skip) => AheadReadIff(open, content, base, r, skip);
    case SeekTo(packet) => AheadSeekIff(open, content, base, r, packet);
    case Back =>
      if r.current > 0 { BackGoesAhead(open, content, base, r); }
  }

  lemma UnspoiledStep(open: Bytes -> Option<Bytes>, content: Bytes, base: nat, ops: seq<Op>)
    requires ops != []
    ensures var before := ops[..|ops| - 1];
            Unspoiled(open, content, base, ops) <==>
            && Unspoiled(open, content, base, before)
            && (AheadAfter(open, content, base, before) ==>
                  !Spoils(content, base, RunReader(open, content, base, before), ops[|ops| - 1]))
  {
    hide AheadAfter, RunReader, Spoils;
    assert forall k :: 0 <= k < |ops| - 1 ==> ops[..|ops| - 1][..k] == ops[..k] && ops[..|ops| - 1][k] == ops[k];
  }

  lemma RunLast(open: Bytes -> Option<Bytes>, content: Bytes, base: nat, ops: seq<Op>)
    ensures ops == [] ==>
              !AheadAfter(open, content, base, ops) && Tracked(content, base, RunReader(open, content, base, ops))
    ensures ops != [] ==>
              var before, op := ops[..|ops| - 1], ops[|ops| - 1];
              var r, ahead := RunReader(open, content, base, before), AheadAfter(open, content, base, before);
              && RunReader(open, content, base, ops) == Do(open, content, r, op)
              && AheadAfter(open, content, base, ops) ==
                 if ahead then !(op.SeekTo? && op.packet < r.current) else op.Back? && r.current > 0
  {
    hide Do;
  }

  lemma FollowsForm(content: Bytes, base: nat, r: Reader)
    ensures Follows(content, base, r, true) <==> Ahead(content, base, r)
    ensures Follows(content, base, r, false) <==> Tracked(content, base, r)
    ensures forall ahead :: Follows(content, base, r, ahead) ==> Indexed(content, base, r)
  {
    hide Indexed;
  }

  lemma NothingSpoiled(open: Bytes -> Option<Bytes>, content: Bytes, base: nat)
    ensures Unspoiled(open, content, base, [])
  {
  }

  // Whatever is read, skipped, sought or read backwards, failing or not, with lengths that can be read: the index is
  // right if and only if nothing was read behind it while the file was ahead. Then the position is the start of packet
  // `current`, or of the one behind it after a ReadBack, whenever the capture has these packets.
  lemma {:induction false} MixedRunsKeepTrackIff(open: Bytes -> Option<Bytes>, content: Bytes, base: nat, ops: seq<Op>)
    requires AllReadable(content, base)
    ensures var r := RunReader(open, content, base, ops);
            && (Indexed(content, base, r) <==> Unspoiled(open, content, base, ops))
            && (Indexed(content, base, r) ==> Follows(content, base, r, AheadAfter(open, content, base, ops)))
    decreases |ops|
  {
    hide *;
    RunLast(open, content, base, ops);
    var r := RunReader(open, content, base, ops);
    if ops == [] {
      FollowsForm(content, base, r);
      NothingSpoiled(open, content, base);
    } else {
      var before, op := ops[..|ops| - 1], ops[|ops| - 1];
      var r0 := RunReader(open, content, base, before);
      UnspoiledStep(open, content, base, ops);
      MixedRunsKeepTrackIff(open, content, base, before);
      FollowsForm(content, base, r0);
      FollowsForm(content, base, r);
      if !Indexed(content, base, r0) {
        DoGrows(open, content, r0, op);
        NotMended(content, base, r0, r);
      } else if AheadAfter(open, content, base, before) {
        AheadDo(open, content, base, r0, op);
      } else {
        TrackedDo(open, content, base, r0, op);
      }
    }
  }

  // Without ReadBack it needs no more than lengths that can be read.
  lemma {:induction false} EveryRunKeepsTrack(open: Bytes -> Option<Bytes>, content: Bytes, base: nat, ops: seq<Op>)
    requires AllReadable(content, base) && forall k :: 0 <= k < |ops| ==> !ops[k].Back?
    ensures Tracked(content, base, RunReader(open, content, base, ops))
    decreases |ops|
  {
    hide *;
    RunLast(open, content, base, ops);
    if ops != [] {
      var r := RunReader(open, content, base, ops[..|ops| - 1]);
      EveryRunKeepsTrack(open, content, base, ops[..|ops| - 1]);
      TrackedDo(open, content, base, r, ops[|ops| - 1]);
      FollowsForm(content, base, Do(open, content, r, ops[|ops| - 1]));
    }
  }
}
