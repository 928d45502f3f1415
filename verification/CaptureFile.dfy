// handlers/capture.go: the writer of a capture. Packets are written from several goroutines under a lock; until the
// server is connected they go to a buffer in memory, because the resource packs come first in the file.

module CaptureFile {
  import opened Common
  import opened LittleEndian

  // ---- frames ----

  datatype Frame = Frame(toServer: bool, millis: int, payload: Bytes)

  const START_MAGIC: Bytes := [0xAA, 0xAA, 0xAA, 0xAA]
  const END_MAGIC: Bytes := [0xBB, 0xBB, 0xBB, 0xBB]

  // The bytes dumpPacket writes, with s2 as `compress`: the length is cast to uint32.
  function EncodeFrame(compress: Bytes -> Bytes, f: Frame): (r: Bytes)
    ensures |r| == 21 + |compress(f.payload)|
  {
    START_MAGIC + Le(|compress(f.payload)| % TWO_32, 4) + [if f.toServer then 1 else 0] + Le(ToUint64(f.millis), 8)
    + compress(f.payload) + END_MAGIC
  }

  function EncodeFrames(compress: Bytes -> Bytes, fs: seq<Frame>): (r: seq<Bytes>)
    ensures |r| == |fs| && forall i :: 0 <= i < |fs| ==> r[i] == EncodeFrame(compress, fs[i])
  {
    seq(|fs|, i requires 0 <= i < |fs| => EncodeFrame(compress, fs[i]))
  }

  // "BTCP".
  const MAGIC: Bytes := [66, 84, 67, 80]

  // The magic, the version and the size of the zip.
  function Header(zipSize: nat): (r: Bytes)
    ensures |r| == 16
  {
    MAGIC + Le(5, 4) + Le(zipSize, 8)
  }

  lemma FirstByte(b: Bytes)
    requires b != []
    ensures UnLe(b) == b[0] as int + 0x100 * UnLe(b[1..]) && UnLe([]) == 0
  {
  }

  lemma FourBytes(b: Bytes)
    requires |b| == 4
    ensures UnLe(b) == b[0] as int + 0x100 * b[1] as int + 0x1_0000 * b[2] as int + 0x100_0000 * b[3] as int
  {
    hide UnLe;
    assert b[1..][1..] == b[2..] && b[2..][1..] == b[3..] && b[3..][1..] == [];
    FirstByte(b);
    FirstByte(b[1..]);
    FirstByte(b[2..]);
    FirstByte(b[3..]);
  }

  lemma LowDigit(b: int, more: int, x: int, rest: int)
    requires 0 <= b < 256 && 0 <= x < 256
    ensures b + 256 * more == x + 256 * rest <==> b == x && more == rest
  {
  }

  lemma SameDigits(b0: int, b1: int, b2: int, b3: int, x: int)
    requires 0 <= b0 < 256 && 0 <= b1 < 256 && 0 <= b2 < 256 && 0 <= b3 < 256 && 0 <= x < 256
    ensures b0 + 0x100 * b1 + 0x1_0000 * b2 + 0x100_0000 * b3 == x * 0x101_0101
            <==> b0 == x && b1 == x && b2 == x && b3 == x
  {
    LowDigit(b0, b1 + 0x100 * b2 + 0x1_0000 * b3, x, x * 0x1_0101);
    LowDigit(b1, b2 + 0x100 * b3, x, x * 0x101);
    LowDigit(b2, b3, x, x);
  }

  lemma RepeatedByte(b: Bytes, x: Byte)
    requires |b| == 4
    ensures UnLe(b) == x * 0x101_0101 <==> b == [x, x, x, x]
  {
    hide UnLe;
    FourBytes(b);
    SameDigits(b[0], b[1], b[2], b[3], x);
    assert b == [b[0], b[1], b[2], b[3]];
  }

  // The bytes of a frame: the numbers a reader of any make finds at their places, little-endian.
  lemma FrameBytes(compress: Bytes -> Bytes, f: Frame)
    ensures var b, z := EncodeFrame(compress, f), compress(f.payload);
            && |b| == 21 + |z|
            && UnLe(b[0..4]) == 0xAAAA_AAAA && UnLe(b[4..8]) == |z| % 0x1_0000_0000
            && b[8] == (if f.toServer then 1 else 0)
            && UnLe(b[9..17]) == f.millis % 0x1_0000_0000_0000_0000
            && b[17..17 + |z|] == z && UnLe(b[17 + |z|..]) == 0xBBBB_BBBB
  {
    var b, z := EncodeFrame(compress, f), compress(f.payload);
    Pow256Values();
    LeRoundTrip(|z| % TWO_32, 4);
    LeRoundTrip(ToUint64(f.millis), 8);
    RepeatedByte(START_MAGIC, 0xAA);
    RepeatedByte(END_MAGIC, 0xBB);
    hide Le, UnLe;
    assert b[0..4] == START_MAGIC && b[4..8] == Le(|z| % TWO_32, 4) && b[9..17] == Le(ToUint64(f.millis), 8);
    assert b[17 + |z|..] == END_MAGIC;
  }

  // And those at the beginning of a file: "BTCP", version 5, and the size.
  lemma HeaderBytes(zipSize: nat)
    requires zipSize < TWO_64
    ensures var b := Header(zipSize);
            |b| == 16 && b[0..4] == [66, 84, 67, 80] && UnLe(b[4..8]) == 5 && UnLe(b[8..16]) == zipSize
  {
    var b := Header(zipSize);
    Pow256Values();
    LeRoundTrip(5, 4);
    LeRoundTrip(zipSize, 8);
    hide Le, UnLe;
    assert b[4..8] == Le(5, 4) && b[8..16] == Le(zipSize, 8);
  }

  // ---- a file that is written at its position ----

  datatype File = File(content: Bytes, pos: nat)

  // Writing behind the end fills the gap with zeros.
  function WriteTo(f: File, b: Bytes): File {
    var gap := if f.pos <= |f.content| then [] else seq(f.pos - |f.content|, _ => 0 as Byte);
    var whole := f.content + gap;
    File(whole[..f.pos] + b + (if f.pos + |b| <= |whole| then whole[f.pos + |b|..] else []), f.pos + |b|)
  }

  lemma WriteAtEnd(f: File, b: Bytes)
    requires f.pos == |f.content|
    ensures WriteTo(f, b) == File(f.content + b, f.pos + |b|)
  {
    assert f.content + [] == f.content;
  }

  lemma WriteInside(a: Bytes, was: Bytes, c: Bytes, b: Bytes)
    requires |b| == |was|
    ensures WriteTo(File(a + was + c, |a|), b) == File(a + b + c, |a| + |b|)
  {
    assert (a + was + c)[..|a|] == a && (a + was + c)[|a| + |b|..] == c;
  }

  // ---- the steps of a capture ----

  // `toFile` tells whether wPacket is the file.
  datatype Capture = Capture(file: File, tempBuf: Bytes, toFile: bool)

  // dumpPacket holds the lock, and so does the last step of OnServerConnect; its other steps may be interleaved with
  // dumpPacket.
  datatype Event =
    | Dump(f: Frame)
    | CreateFile          // the header, with 0 for the size of the zip
    | WriteZip(b: Bytes)  // the zip writer writes some bytes
    | PatchSize           // the size of the zip goes to offset 8
    | FlushBuffer         // the buffer goes to the file, and later packets too

  function Step(compress: Bytes -> Bytes, c: Capture, e: Event): Capture {
    match e
    case Dump(f) =>
      var buf := EncodeFrame(compress, f);
      if c.toFile then c.(file := WriteTo(c.file, buf)) else c.(tempBuf := c.tempBuf + buf)
    case CreateFile => c.(file := WriteTo(WriteTo(WriteTo(File([], 0), MAGIC), Le(5, 4)), Le(0, 8)))
    case WriteZip(b) => c.(file := WriteTo(c.file, b))
    case PatchSize =>
      var endZip := c.file.pos;
      var size := if endZip >= 16 then endZip - 16 else 0;
      c.(file := WriteTo(c.file.(pos := 8), Le(size, 8)).(pos := endZip))
    case FlushBuffer => Capture(WriteTo(c.file, c.tempBuf), [], true)
  }

  // onServerName.
  const BEGINNING := Capture(File([], 0), [], false)

  function Run(compress: Bytes -> Bytes, es: seq<Event>): Capture {
    if es == [] then BEGINNING else Step(compress, Run(compress, es[..|es| - 1]), es[|es| - 1])
  }

  // ---- runs ----

  // How far OnServerConnect has come.
  datatype Phase = Waiting | Zipping | Patched | Connected | OutOfOrder

  function Next(p: Phase, e: Event): Phase {
    match e
    case Dump(_) => p
    case CreateFile => if p == Waiting then Zipping else OutOfOrder
    case WriteZip(_) => if p == Zipping then Zipping else OutOfOrder
    case PatchSize => if p == Zipping then Patched else OutOfOrder
    case FlushBuffer => if p == Patched then Connected else OutOfOrder
  }

  function PhaseAfter(es: seq<Event>): Phase {
    if es == [] then Waiting else Next(PhaseAfter(es[..|es| - 1]), es[|es| - 1])
  }

  // The frames in the order in which the lock was taken.
  function FramesOf(es: seq<Event>): seq<Frame> {
    if es == [] then [] else
      var last := es[|es| - 1];
      FramesOf(es[..|es| - 1]) + if last.Dump? then [last.f] else []
  }

  function ZipOf(es: seq<Event>): Bytes {
    if es == [] then [] else
      var last := es[|es| - 1];
      ZipOf(es[..|es| - 1]) + if last.WriteZip? then last.b else []
  }

  // Every byte is accounted for: a frame is in the buffer or in the file, and nowhere else.
  ghost predicate Accounts(c: Capture, p: Phase, zip: Bytes, body: Bytes) {
    && c.toFile == (p == Connected)
    && c.file.pos == |c.file.content|
    && match p
       case Waiting => c.file.content == [] && c.tempBuf == body && zip == []
       case Zipping => c.file.content == Header(0) + zip && c.tempBuf == body
       case Patched => c.file.content == Header(|zip|) + zip && c.tempBuf == body
       case Connected => c.file.content == Header(|zip|) + zip + body && c.tempBuf == []
       case OutOfOrder => true
  }

  lemma EncodeAppend(compress: Bytes -> Bytes, fs: seq<Frame>, f: Frame)
    ensures Concat(EncodeFrames(compress, fs + [f])) == Concat(EncodeFrames(compress, fs)) + EncodeFrame(compress, f)
  {
    assert EncodeFrames(compress, fs + [f]) == EncodeFrames(compress, fs) + [EncodeFrame(compress, f)];
    ConcatAppend(EncodeFrames(compress, fs), EncodeFrame(compress, f));
  }

  lemma DumpAccounts(compress: Bytes -> Bytes, c: Capture, p: Phase, zip: Bytes, fs: seq<Frame>, f: Frame)
    requires p != OutOfOrder && Accounts(c, p, zip, Concat(EncodeFrames(compress, fs)))
    ensures Accounts(Step(compress, c, Dump(f)), p, zip, Concat(EncodeFrames(compress, fs + [f])))
  {
    hide EncodeFrame, Header, Concat, EncodeFrames, WriteTo;
    EncodeAppend(compress, fs, f);
    WriteAtEnd(c.file, EncodeFrame(compress, f));
  }

  lemma CreateAccounts(compress: Bytes -> Bytes, c: Capture, zip: Bytes, fs: seq<Frame>)
    requires Accounts(c, Waiting, zip, Concat(EncodeFrames(compress, fs)))
    ensures Accounts(Step(compress, c, CreateFile), Zipping, zip + [], Concat(EncodeFrames(compress, fs + [])))
  {
    hide Concat, EncodeFrames, Le, WriteTo;
    assert fs + [] == fs && [] + MAGIC == MAGIC;
    WriteAtEnd(File([], 0), MAGIC);
    WriteAtEnd(File(MAGIC, 4), Le(5, 4));
    WriteAtEnd(File(MAGIC + Le(5, 4), 8), Le(0, 8));
    assert Header(0) + [] == Header(0);
  }

  lemma ZipAccounts(compress: Bytes -> Bytes, c: Capture, zip: Bytes, fs: seq<Frame>, b: Bytes)
    requires Accounts(c, Zipping, zip, Concat(EncodeFrames(compress, fs)))
    ensures Accounts(Step(compress, c, WriteZip(b)), Zipping, zip + b, Concat(EncodeFrames(compress, fs + [])))
  {
    hide Concat, EncodeFrames, Header, WriteTo;
    assert fs + [] == fs;
    WriteAtEnd(c.file, b);
  }

  lemma PatchedHeader(zip: Bytes)
    ensures WriteTo(File(Header(0) + zip, 8), Le(|zip|, 8)) == File(Header(|zip|) + zip, 16)
  {
    var a := MAGIC + Le(5, 4);
    hide Le;
    WriteInside(a, Le(0, 8), zip, Le(|zip|, 8));
  }

  lemma PatchAccounts(compress: Bytes -> Bytes, c: Capture, zip: Bytes, fs: seq<Frame>)
    requires Accounts(c, Zipping, zip, Concat(EncodeFrames(compress, fs)))
    ensures Accounts(Step(compress, c, PatchSize), Patched, zip + [], Concat(EncodeFrames(compress, fs + [])))
  {
    hide Concat, EncodeFrames, Le, WriteTo;
    assert fs + [] == fs && zip + [] == zip;
    PatchedHeader(zip);
  }

  lemma FlushAccounts(compress: Bytes -> Bytes, c: Capture, zip: Bytes, fs: seq<Frame>)
    requires Accounts(c, Patched, zip, Concat(EncodeFrames(compress, fs)))
    ensures Accounts(Step(compress, c, FlushBuffer), Connected, zip + [], Concat(EncodeFrames(compress, fs + [])))
  {
    hide Concat, EncodeFrames, Header, WriteTo;
    assert fs + [] == fs && zip + [] == zip;
    WriteAtEnd(c.file, c.tempBuf);
  }

  // Whatever is dumped between the steps of OnServerConnect, no frame is lost, doubled or moved: before the flush they
  // are all in the buffer, and from then on the file is the header, the zip and the frames in the order of the lock.
  lemma {:induction false} NoFrameIsLost(compress: Bytes -> Bytes, es: seq<Event>)
    requires PhaseAfter(es) != OutOfOrder
    ensures Accounts(Run(compress, es), PhaseAfter(es), ZipOf(es), Concat(EncodeFrames(compress, FramesOf(es))))
  {
    if es == [] {
      assert EncodeFrames(compress, []) == [];
    } else {
      var before := es[..|es| - 1];
      NoFrameIsLost(compress, before);
      var c, p, zip, fs := Run(compress, before), PhaseAfter(before), ZipOf(before), FramesOf(before);
      match es[|es| - 1]
      case Dump(f) => DumpAccounts(compress, c, p, zip, fs, f); assert zip + [] == zip;
      case CreateFile => CreateAccounts(compress, c, zip, fs);
      case WriteZip(b) => ZipAccounts(compress, c, zip, fs, b);
      case PatchSize => PatchAccounts(compress, c, zip, fs);
      case FlushBuffer => FlushAccounts(compress, c, zip, fs);
    }
  }

  // ---- the object ----

  function Zipped(compress: Bytes -> Bytes, c: Capture, zip: seq<Bytes>): Capture
    decreases |zip|
  {
    if zip == [] then c else Zipped(compress, Step(compress, c, WriteZip(zip[0])), zip[1..])
  }

  lemma CreatedPos(compress: Bytes -> Bytes, c: Capture)
    ensures Step(compress, c, CreateFile).file.pos == 16
  {
  }

  lemma ZippedPos(compress: Bytes -> Bytes, c: Capture, b: Bytes)
    ensures Step(compress, c, WriteZip(b)).file.pos == c.file.pos + |b|
  {
  }

  class PacketCapturer {
    const compress: Bytes -> Bytes
    var file: File
    var tempBuf: Bytes
    var toFile: bool

    function Abs(): Capture
      reads this
    {
      Capture(file, tempBuf, toFile)
    }

    // onServerName.
    constructor (compress: Bytes -> Bytes)
      ensures Abs() == BEGINNING && this.compress == compress
    {
      this.compress := compress;
      file, tempBuf, toFile := File([], 0), [], false;
    }

    method DumpPacket(toServer: bool, payload: Bytes, millis: int)
      modifies this`file, this`tempBuf
      ensures Abs() == Step(compress, old(Abs()), Dump(Frame(toServer, millis, payload)))
    {
      hide Le, WriteTo;
      var payloadCompressed := compress(payload);
      var packetSize := |payloadCompressed| % TWO_32;
      var buf := START_MAGIC;
      buf := buf + Le(packetSize, 4);
      if toServer {
        buf := buf + [1];
      } else {
        buf := buf + [0];
      }
      buf := buf + Le(ToUint64(millis), 8);
      buf := buf + payloadCompressed;
      buf := buf + END_MAGIC;
      if toFile {
        file := WriteTo(file, buf);
      } else {
        tempBuf := tempBuf + buf;
      }
    }

    // OnServerConnect in its steps, between which packets may be dumped. Each is what Step says of it, so any
    // interleaving of calls of these methods is a run.

    // Lines 62-70.
    method CreateFile()
      modifies this`file
      ensures Abs() == Step(compress, old(Abs()), Event.CreateFile)
    {
      hide Le, WriteTo;
      file := File([], 0);
      file := WriteTo(file, MAGIC);
      file := WriteTo(file, Le(5, 4));
      file := WriteTo(file, Le(0, 8));
    }

    // Lines 72-99: some bytes of the zip writer.
    method WriteZip(b: Bytes)
      modifies this`file
      ensures Abs() == Step(compress, old(Abs()), Event.WriteZip(b))
    {
      hide WriteTo;
      file := WriteTo(file, b);
    }

    // Lines 101-105.
    method PatchSize()
      requires file.pos >= 16
      modifies this`file
      ensures Abs() == Step(compress, old(Abs()), Event.PatchSize)
    {
      hide Le, WriteTo;
      var endZip := file.pos;
      file := file.(pos := 8);
      file := WriteTo(file, Le(endZip - 16, 8));
      file := file.(pos := endZip);
    }

    // Lines 107-114, under the lock.
    method FlushBuffer()
      modifies this`file, this`tempBuf, this`toFile
      ensures Abs() == Step(compress, old(Abs()), Event.FlushBuffer)
    {
      hide WriteTo;
      file := WriteTo(file, tempBuf);
      tempBuf := [];
      toFile := true;
    }

    // The steps one after the other; `zip` are the parts in which the zip writer writes.
    method OnServerConnect(zip: seq<Bytes>)
      modifies this`file, this`tempBuf, this`toFile
      ensures Abs() == Step(compress, Step(compress, Zipped(compress, Step(compress, old(Abs()), Event.CreateFile),
              zip),
                                           Event.PatchSize), Event.FlushBuffer)
    {
      hide Step;
      CreateFile();
      ghost var created := Abs();
      CreatedPos(compress, old(Abs()));
      for i := 0 to |zip|
        invariant Zipped(compress, Abs(), zip[i..]) == Zipped(compress, created, zip)
        invariant file.pos >= 16
      {
        assert zip[i..][0] == zip[i] && zip[i..][1..] == zip[i + 1..];
        ZippedPos(compress, Abs(), zip[i]);
        WriteZip(zip[i]);
      }
      PatchSize();
      FlushBuffer();
    }
  }
}
