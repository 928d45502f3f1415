// What a capture holds is what a reader gets out of it, also when the file ends early.

module CaptureRoundTrip {
  import opened Common
  import opened LittleEndian
  import opened CaptureFile
  import opened CaptureReader

  // ---- the header ----

  datatype Head = OldFormat | Head(version: nat, zipSize: int)

  const ZEROS: Bytes := [0, 0, 0, 0, 0, 0, 0, 0, 0, 0, 0, 0, 0, 0, 0, 0]

  // Pcap2ReadHead: a short file reads as zeros.
  function ReadHead(content: Bytes): Head {
    var head: Bytes := (content + ZEROS)[..16];
    UnLeRoundTrip(head[4..8]);
    UnLeRoundTrip(head[8..16]);
    Pow256Values();
    if head[0..4] != MAGIC then OldFormat else Head(UnLe(head[4..8]), ToInt64(UnLe(head[8..16])))
  }

  // The head that OnServerConnect patches is the one a reader finds: the packets start behind the zip.
  lemma HeadReadsBack(zip: Bytes, body: Bytes)
    requires |zip| < TWO_64
    ensures ReadHead(Header(|zip|) + zip + body) == Head(5, ToInt64(|zip|))
    ensures ToInt64(|zip|) == |zip| <==> |zip| < TWO_64 / 2
  {
    Pow256Values();
    hide Le, UnLe;
    var head := (Header(|zip|) + zip + body + ZEROS)[..16];
    assert head == Header(|zip|);
    assert head[0..4] == MAGIC && head[4..8] == Le(5, 4) && head[8..16] == Le(|zip|, 8);
    LeRoundTrip(5, 4);
    LeRoundTrip(|zip|, 8);
  }

  // ---- one frame ----

  // s2.Decode undoes s2.EncodeBetter; `decodes` tells which payloads ParseData and Decode take.
  ghost predicate Inverse(compress: Bytes -> Bytes, open: Bytes -> Option<Bytes>, decodes: Bytes -> bool) {
    forall p :: open(compress(p)) == if decodes(p) then Some(p) else None
  }

  // The parts of an encoded frame, with what follows it.
  lemma FrameParts(compress: Bytes -> Bytes, f: Frame, tail: Bytes)
    ensures var z, rest := compress(f.payload), EncodeFrame(compress, f) + tail;
            && |rest| == HEAD + |z| + 4 + |tail|
            && rest[..4] == START_MAGIC
            && rest[4..8] == Le(|z| % TWO_32, 4)
            && rest[8] == (if f.toServer then 1 else 0)
            && rest[9..17] == Le(ToUint64(f.millis), 8)
            && rest[HEAD..] == z + END_MAGIC + tail
  {
    hide Le;
  }

  lemma FrameHead(compress: Bytes -> Bytes, f: Frame, tail: Bytes)
    ensures var rest := EncodeFrame(compress, f) + tail;
            && |rest| >= HEAD && rest[..4] == START_MAGIC
            && Length(rest) == |compress(f.payload)| % TWO_32
            && (rest[8] == 1 <==> f.toServer)
            && Millis(rest) == ToInt64(ToUint64(f.millis))
  {
    FrameParts(compress, f, tail);
    Pow256Values();
    LeRoundTrip(|compress(f.payload)| % TWO_32, 4);
    LeRoundTrip(ToUint64(f.millis), 8);
    hide Le, UnLe;
  }

  // What a full read of a frame gives.
  function OutcomeOf(decodes: Bytes -> bool, f: Frame): Outcome {
    if decodes(f.payload) then Packet(f.toServer, f.millis, Some(f.payload)) else Undecodable
  }

  // A frame whose size fits a uint32 is read back, with its payload and its time, if and only if 4 more fit as well.
  lemma FrameReadsBackIff(compress: Bytes -> Bytes, open: Bytes -> Option<Bytes>, decodes: Bytes -> bool,
                          f: Frame, tail: Bytes)
    requires Inverse(compress, open, decodes) && |compress(f.payload)| < TWO_32 && IsInt64(f.millis)
    ensures var frame := EncodeFrame(compress, f);
            ReadOne(open, frame + tail, false) == ReadResult(OutcomeOf(decodes, f), |frame|)
            <==> |compress(f.payload)| <= MAX_LENGTH
  {
    var z := compress(f.payload);
    FrameParts(compress, f, tail);
    FrameHead(compress, f, tail);
    Int64RoundTrip(f.millis);
    var rest := EncodeFrame(compress, f) + tail;
    hide EncodeFrame, Length, Millis, Le, UnLe;
    var body := rest[HEAD..];
    assert body[..|z|] == z && body[|z|..|z| + 4] == END_MAGIC;
  }

  lemma FrameSkips(compress: Bytes -> Bytes, f: Frame, content: Bytes, pos: nat, tail: Bytes)
    requires |compress(f.payload)| < TWO_32 && From(content, pos) == EncodeFrame(compress, f) + tail
    ensures End(content, pos) == Some(pos + |EncodeFrame(compress, f)|)
  {
    FrameParts(compress, f, tail);
    FrameHead(compress, f, tail);
    hide EncodeFrame, Length, Millis, Le, UnLe;
  }

  // The head of a frame that is cut off behind it.
  lemma CutHead(compress: Bytes -> Bytes, f: Frame, rest: Bytes)
    requires |compress(f.payload)| <= MAX_LENGTH && HEAD <= |rest| && rest < EncodeFrame(compress, f)
    ensures rest[..4] == START_MAGIC && Length(rest) == |compress(f.payload)| && |rest| < HEAD + Length(rest) + 4
  {
    var frame := EncodeFrame(compress, f);
    FrameHead(compress, f, []);
    assert frame + [] == frame;
    hide EncodeFrame, UnLe;
    assert rest == frame[..|rest|] && rest[..4] == frame[..4] && rest[4..8] == frame[4..8];
  }

  // A frame that is cut off is an error, and there is no packet to skip.
  lemma CutFrameFails(compress: Bytes -> Bytes, open: Bytes -> Option<Bytes>, f: Frame, content: Bytes, pos: nat)
    requires |compress(f.payload)| <= MAX_LENGTH && From(content, pos) < EncodeFrame(compress, f)
    ensures End(content, pos) == None
    ensures ReadOne(open, From(content, pos), false).outcome == if |From(content, pos)| < HEAD then Closed else Eof
    ensures ReadOne(open, From(content, pos), true).outcome == if |From(content, pos)| < HEAD then Closed else Eof
  {
    hide EncodeFrame, Length, Millis, Le, UnLe, From;
    var rest := From(content, pos);
    if |rest| >= HEAD {
      CutHead(compress, f, rest);
    }
  }

  // ---- all frames ----

  // Where frame k of a whole file starts.
  function Offset(compress: Bytes -> Bytes, base: nat, fs: seq<Frame>, k: nat): nat
    requires k <= |fs|
  {
    base + |Concat(EncodeFrames(compress, fs[..k]))|
  }

  ghost predicate Sizes(compress: Bytes -> Bytes, fs: seq<Frame>) {
    forall i :: 0 <= i < |fs| ==> |compress(fs[i].payload)| <= MAX_LENGTH && IsInt64(fs[i].millis)
  }

  lemma OffsetNext(compress: Bytes -> Bytes, base: nat, fs: seq<Frame>, k: nat)
    requires k < |fs|
    ensures Offset(compress, base, fs, k + 1) == Offset(compress, base, fs, k) + |EncodeFrame(compress, fs[k])|
    ensures Concat(EncodeFrames(compress, fs)) ==
            Concat(EncodeFrames(compress, fs[..k]))
            + (EncodeFrame(compress, fs[k]) + Concat(EncodeFrames(compress, fs[k + 1..])))
  {
    var all := EncodeFrames(compress, fs);
    ConcatSplit(all, k);
    assert all[..k] == EncodeFrames(compress, fs[..k]) && all[k..][1..] == EncodeFrames(compress, fs[k + 1..]);
    assert fs[..k + 1] == fs[..k] + [fs[k]];
    EncodeAppend(compress, fs[..k], fs[k]);
  }

  // What a file that may end early holds from frame k on.
  lemma RestAt(compress: Bytes -> Bytes, head: Bytes, fs: seq<Frame>, content: Bytes, k: nat)
    requires k < |fs| && content <= head + Concat(EncodeFrames(compress, fs))
    requires Offset(compress, |head|, fs, k) <= |content|
    ensures var pos, next := Offset(compress, |head|, fs, k), Offset(compress, |head|, fs, k + 1);
            var frame := EncodeFrame(compress, fs[k]);
            && (|content| < next ==> From(content, pos) < frame)
            && (next <= |content| ==> exists tail :: From(content, pos) == frame + tail)
  {
    var frame := EncodeFrame(compress, fs[k]);
    var before, behind := Concat(EncodeFrames(compress, fs[..k])), Concat(EncodeFrames(compress, fs[k + 1..]));
    var pos, next := Offset(compress, |head|, fs, k), Offset(compress, |head|, fs, k + 1);
    OffsetNext(compress, |head|, fs, k);
    hide Concat, EncodeFrames, EncodeFrame;
    var whole := head + (before + (frame + behind));
    assert whole[pos..] == frame + behind;
    assert content == whole[..|content|];
    assert content[pos..] == (frame + behind)[..|content| - pos];
    if next <= |content| {
      var tail := behind[..|content| - next];
      assert content[pos..] == frame + tail;
    }
  }

  lemma FirstOffset(compress: Bytes -> Bytes, base: nat, fs: seq<Frame>)
    ensures Offset(compress, base, fs, 0) == base
  {
    assert EncodeFrames(compress, fs[..0]) == [];
  }

  lemma SizeOf(compress: Bytes -> Bytes, fs: seq<Frame>, i: nat)
    requires Sizes(compress, fs) && i < |fs|
    ensures |compress(fs[i].payload)| <= MAX_LENGTH && IsInt64(fs[i].millis)
  {
  }

  lemma EndOfFrame(compress: Bytes -> Bytes, f: Frame, content: Bytes, pos: nat, whole: bool)
    requires |compress(f.payload)| <= MAX_LENGTH
    requires whole ==> exists tail :: From(content, pos) == EncodeFrame(compress, f) + tail
    requires !whole ==> From(content, pos) < EncodeFrame(compress, f)
    ensures End(content, pos) == if whole then Some(pos + |EncodeFrame(compress, f)|) else None
  {
    if whole {
      var tail :| From(content, pos) == EncodeFrame(compress, f) + tail;
      FrameSkips(compress, f, content, pos, tail);
    } else {
      CutFrameFails(compress, _ => None, f, content, pos);
    }
  }

  // The starts that a reader finds are the offsets at which the frames were written, up to the end of the file.
  lemma {:induction false} StartsAreOffsets(compress: Bytes -> Bytes, head: Bytes, fs: seq<Frame>, content: Bytes,
                                            k: nat)
    requires Sizes(compress, fs) && k <= |fs|
    requires head <= content <= head + Concat(EncodeFrames(compress, fs))
    ensures Start(content, |head|, k) ==
            if Offset(compress, |head|, fs, k) <= |content| then Some(Offset(compress, |head|, fs, k)) else None
    decreases k
  {
    hide *;
    StartOfFirst(content, |head|);
    FirstOffset(compress, |head|, fs);
    if k > 0 {
      StartsAreOffsets(compress, head, fs, content, k - 1);
      StartNext(content, |head|, k - 1);
      OffsetNext(compress, |head|, fs, k - 1);
      SizeOf(compress, fs, k - 1);
      var pos, next := Offset(compress, |head|, fs, k - 1), Offset(compress, |head|, fs, k);
      if pos <= |content| {
        RestAt(compress, head, fs, content, k - 1);
        EndOfFrame(compress, fs[k - 1], content, pos, next <= |content|);
      }
    }
  }

  // ---- reading a capture ----

  // What n calls of ReadPacket return.
  function ReadMany(open: Bytes -> Option<Bytes>, content: Bytes, r: Reader, n: nat): seq<Outcome>
    decreases n
  {
    if n == 0 then [] else
      var (outcome, r1) := ReadPacket(open, content, r, false);
      [outcome] + ReadMany(open, content, r1, n - 1)
  }

  // The first n frames are whole in the file, and the next one is not.
  ghost predicate Whole(compress: Bytes -> Bytes, base: nat, fs: seq<Frame>, size: nat, n: nat) {
    && n <= |fs| && Offset(compress, base, fs, n) <= size
    && (n < |fs| ==> size < Offset(compress, base, fs, n + 1))
  }

  // One call, at the start of frame k.
  lemma ReadAtOffset(compress: Bytes -> Bytes, open: Bytes -> Option<Bytes>, decodes: Bytes -> bool, head: Bytes,
                     fs: seq<Frame>, content: Bytes, k: nat)
    requires Inverse(compress, open, decodes) && Sizes(compress, fs) && k <= |fs|
    requires head <= content <= head + Concat(EncodeFrames(compress, fs))
             && Offset(compress, |head|, fs, k) <= |content|
    ensures var read := ReadOne(open, From(content, Offset(compress, |head|, fs, k)), false);
            if k < |fs| && Offset(compress, |head|, fs, k + 1) <= |content|
            then read == ReadResult(OutcomeOf(decodes, fs[k]), |EncodeFrame(compress, fs[k])|)
            else read.outcome == Closed || read.outcome == Eof
  {
    var pos := Offset(compress, |head|, fs, k);
    if k < |fs| {
      hide Offset, Sizes, Concat, EncodeFrames, EncodeFrame, ReadOne, From, Inverse;
      SizeOf(compress, fs, k);
      RestAt(compress, head, fs, content, k);
      if Offset(compress, |head|, fs, k + 1) <= |content| {
        var tail :| From(content, pos) == EncodeFrame(compress, fs[k]) + tail;
        FrameReadsBackIff(compress, open, decodes, fs[k], tail);
      } else {
        CutFrameFails(compress, open, fs[k], content, pos);
      }
    } else {
      assert fs[..k] == fs;
      assert From(content, pos) == [];
    }
  }

  lemma ReadManyForm(open: Bytes -> Option<Bytes>, content: Bytes, r: Reader, n: nat)
    requires n > 0
    ensures var (outcome, r1) := ReadPacket(open, content, r, false);
            && ReadMany(open, content, r, n) == [outcome] + ReadMany(open, content, r1, n - 1)
            && outcome == ReadOne(open, From(content, r.pos), false).outcome
            && r1.pos == r.pos + ReadOne(open, From(content, r.pos), false).taken
    ensures n == 1 ==> |ReadMany(open, content, r, n)| == 1
  {
  }

  lemma {:induction false} WholeUpTo(compress: Bytes -> Bytes, base: nat, fs: seq<Frame>, size: nat, n: nat, k: nat)
    requires Whole(compress, base, fs, size, n) && k <= n
    ensures n <= |fs| && Offset(compress, base, fs, k) <= size
    ensures k < n ==> Offset(compress, base, fs, k + 1) <= size
    ensures k == n && k < |fs| ==> size < Offset(compress, base, fs, k + 1)
    decreases n - k
  {
    if k < n {
      WholeUpTo(compress, base, fs, size, n, k + 1);
      OffsetNext(compress, base, fs, k);
      hide Offset;
    }
  }

  // Cut anywhere behind its head, a capture gives the frames it holds wholly, in order, and then an error.
  lemma {:induction false} ReadsBackFrom(compress: Bytes -> Bytes, open: Bytes -> Option<Bytes>,
                                         decodes: Bytes -> bool, head: Bytes,
                                         fs: seq<Frame>,
                                         content: Bytes, n: nat, r: Reader, k: nat)
    requires Inverse(compress, open, decodes) && Sizes(compress, fs) && k <= n
    requires head <= content <= head + Concat(EncodeFrames(compress, fs)) && Whole(compress, |head|, fs, |content|, n)
    requires r.pos == Offset(compress, |head|, fs, k)
    ensures var outcomes := ReadMany(open, content, r, n - k + 1);
            && |outcomes| == n - k + 1
            && (forall i :: k <= i < n ==> outcomes[i - k] == OutcomeOf(decodes, fs[i]))
            && (outcomes[n - k] == Closed || outcomes[n - k] == Eof)
    decreases n - k
  {
    hide *;
    WholeUpTo(compress, |head|, fs, |content|, n, k);
    ReadAtOffset(compress, open, decodes, head, fs, content, k);
    ReadManyForm(open, content, r, n - k + 1);
    if k < n {
      OffsetNext(compress, |head|, fs, k);
      var r1 := ReadPacket(open, content, r, false).1;
      ReadsBackFrom(compress, open, decodes, head, fs, content, n, r1, k + 1);
      var outcomes, rest := ReadMany(open, content, r, n - k + 1), ReadMany(open, content, r1, n - k);
      forall i | k <= i < n ensures outcomes[i - k] == OutcomeOf(decodes, fs[i]) {
        if k < i { assert outcomes[i - k] == rest[i - (k + 1)]; }
      }
      assert outcomes[n - k] == rest[n - (k + 1)];
    }
  }

  lemma ConnectedFile(compress: Bytes -> Bytes, es: seq<Event>)
    requires PhaseAfter(es) == Connected
    ensures Run(compress, es).file.content == Header(|ZipOf(es)|) + ZipOf(es)
            + Concat(EncodeFrames(compress, FramesOf(es)))
  {
    hide Run, ZipOf, FramesOf, PhaseAfter, Concat, EncodeFrames, Header;
    NoFrameIsLost(compress, es);
  }

  // The capture of any interleaving of packets with OnServerConnect, read from its start.
  lemma CaptureReadsBack(compress: Bytes -> Bytes, open: Bytes -> Option<Bytes>, decodes: Bytes -> bool,
                         es: seq<Event>, content: Bytes, n: nat)
    requires Inverse(compress, open, decodes) && PhaseAfter(es) == Connected && Sizes(compress, FramesOf(es))
    requires var head := Header(|ZipOf(es)|) + ZipOf(es);
             head <= content <= Run(compress, es).file.content && Whole(compress, |head|, FramesOf(es), |content|, n)
    ensures var outcomes := ReadMany(open, content, Reader(16 + |ZipOf(es)|, [], 0), n + 1);
            && n <= |FramesOf(es)| && |outcomes| == n + 1
            && (forall i :: 0 <= i < n ==> outcomes[i] == OutcomeOf(decodes, FramesOf(es)[i]))
            && (outcomes[n] == Closed || outcomes[n] == Eof)
  {
    hide *;
    var fs, head := FramesOf(es), Header(|ZipOf(es)|) + ZipOf(es);
    ConnectedFile(compress, es);
    FirstOffset(compress, |head|, fs);
    ReadsBackFrom(compress, open, decodes, head, fs, content, n, Reader(|head|, [], 0), 0);
    WholeUpTo(compress, |head|, fs, |content|, n, n);
    var outcomes := ReadMany(open, content, Reader(|head|, [], 0), n + 1);
    assert n - 0 + 1 == n + 1 && |head| == 16 + |ZipOf(es)|;
    forall i | 0 <= i < n ensures outcomes[i] == OutcomeOf(decodes, fs[i]) {
      assert outcomes[i - 0] == OutcomeOf(decodes, fs[i]);
    }
    assert outcomes[n - 0] == Closed || outcomes[n - 0] == Eof;
  }

  // ---- every capture can be read into a wrong index ----

  lemma OffsetEnd(compress: Bytes -> Bytes, head: Bytes, fs: seq<Frame>)
    ensures Offset(compress, |head|, fs, |fs|) == |head + Concat(EncodeFrames(compress, fs))|
  {
    assert fs[..|fs|] == fs;
  }

  lemma {:induction false} OffsetsFit(compress: Bytes -> Bytes, base: nat, fs: seq<Frame>, k: nat)
    requires k <= |fs|
    ensures Offset(compress, base, fs, k) <= Offset(compress, base, fs, |fs|)
    decreases |fs| - k
  {
    hide *;
    if k < |fs| {
      OffsetNext(compress, base, fs, k);
      OffsetsFit(compress, base, fs, k + 1);
    }
  }

  lemma FrameReadable(compress: Bytes -> Bytes, f: Frame, content: Bytes, pos: nat, tail: Bytes)
    requires |compress(f.payload)| <= MAX_LENGTH && From(content, pos) == EncodeFrame(compress, f) + tail
    ensures Readable(content, pos)
  {
    FrameHead(compress, f, tail);
    hide EncodeFrame, Length, From;
  }

  lemma NothingBehind(content: Bytes, pos: nat)
    requires pos >= |content|
    ensures End(content, pos) == None && Readable(content, pos)
  {
  }

  // The lengths the writer wrote can be read, wherever a reader gets.
  lemma FramesReadable(compress: Bytes -> Bytes, head: Bytes, fs: seq<Frame>, k: nat)
    requires Sizes(compress, fs)
    ensures var content := head + Concat(EncodeFrames(compress, fs));
            Start(content, |head|, k).Some? ==> k <= |fs| && Readable(content, Start(content, |head|, k).value)
  {
    hide *;
    var content := head + Concat(EncodeFrames(compress, fs));
    var n := |fs|;
    assert head <= content;
    assert fs[..n] == fs;
    OffsetEnd(compress, head, fs);
    if k < n {
      OffsetsFit(compress, |head|, fs, k);
      StartsAreOffsets(compress, head, fs, content, k);
      RestAt(compress, head, fs, content, k);
      SizeOf(compress, fs, k);
      var pos := Offset(compress, |head|, fs, k);
      OffsetsFit(compress, |head|, fs, k + 1);
      var tail :| From(content, pos) == EncodeFrame(compress, fs[k]) + tail;
      FrameReadable(compress, fs[k], content, pos, tail);
    } else {
      StartsAreOffsets(compress, head, fs, content, n);
      NothingBehind(content, |content|);
      StartNext(content, |head|, n);
      if Start(content, |head|, k).Some? && k > n { StartsBelow(content, |head|, n + 1, k); }
    }
  }

  function SpoilingOps(): seq<Op> {
    [Read(false), Back, SeekTo(0), Read(false), Read(true)]
  }

  lemma SpoilingRun(open: Bytes -> Option<Bytes>, content: Bytes, base: nat)
    ensures var r := RunReader(open, content, base, [Read(false)]);
            && r.current == 1 && |r.index| == 1
            && var r1 := ReadBack(open, content, r).1;
               var r2 := ReadPacket(open, content, Seek(open, content, r1, r1.current).1, false).1;
               r1.current == 0 && RunReader(open, content, base, SpoilingOps()) == ReadPacket(open, content, r2, true).1
  {
    var a, b, c, d: Op := Read(false), Back, SeekTo(0), Read(true);
    var s1 := RunReader(open, content, base, [a]);
    hide ReadOne, Skip;
    assert [a][..0] == [] && [a, b][..1] == [a] && [a, b, c][..2] == [a, b] && [a, b, c, a][..3] == [a, b, c];
    assert [a, b, c, a, d][..4] == [a, b, c, a];
    assert RunReader(open, content, base, []) == Reader(base, [], 0);
    assert s1 == Do(open, content, Reader(base, [], 0), a);
    assert s1.current == 1 && |s1.index| == 1;
    assert RunReader(open, content, base, [a, b]) == Do(open, content, s1, b);
    assert RunReader(open, content, base, [a, b, c]) == Do(open, content, Do(open, content, s1, b), c);
    hide ReadPacket;
    assert RunReader(open, content, base, [a, b, c, a]) ==
           Do(open, content, Do(open, content, Do(open, content, s1, b), c), a);
  }

  lemma ReadableForm(content: Bytes, base: nat)
    requires forall k :: Start(content, base, k).Some? ==> Readable(content, Start(content, base, k).value)
    ensures AllReadable(content, base)
  {
    hide Start, Readable;
  }

  // In every capture of two packets or more: read one, read it back, seek to where the reader is, and read two again.
  // The index has a wrong start of the second one then.
  lemma SpoilsEveryCapture(compress: Bytes -> Bytes, open: Bytes -> Option<Bytes>, es: seq<Event>)
    requires PhaseAfter(es) == Connected && Sizes(compress, FramesOf(es)) && |FramesOf(es)| >= 2
    ensures var content, base := Run(compress, es).file.content, 16 + |ZipOf(es)|;
            var r := RunReader(open, content, base, SpoilingOps());
            && |r.index| > 1 && Start(content, base, 1).Some? && Start(content, base, 2).Some?
            && r.index[1] == Start(content, base, 2).value != Start(content, base, 1).value
  {
    hide *;
    var fs, head := FramesOf(es), Header(|ZipOf(es)|) + ZipOf(es);
    var content := head + Concat(EncodeFrames(compress, fs));
    ConnectedFile(compress, es);
    assert |head| == 16 + |ZipOf(es)|;
    forall k ensures Start(content, |head|, k).Some? ==> Readable(content, Start(content, |head|, k).value) {
      FramesReadable(compress, head, fs, k);
    }
    ReadableForm(content, |head|);
    OffsetEnd(compress, head, fs);
    OffsetsFit(compress, |head|, fs, 2);
    assert head <= content;
    StartsAreOffsets(compress, head, fs, content, 2);
    StartsBelow(content, |head|, 1, 2);
    EveryRunKeepsTrack(open, content, |head|, [Read(false)]);
    SpoilingRun(open, content, |head|);
    ReadBackSpoilsIndex(open, content, |head|, RunReader(open, content, |head|, [Read(false)]));
  }
}
