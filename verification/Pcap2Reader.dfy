// utils/proxy/pcap2/pcap2reader.go: the reader object, over a file whose contents do not change.

module PcapReader {
  import opened Common
  import opened LittleEndian
  import opened CaptureFile
  import opened CaptureReader

  class Pcap2Reader {
    const content: Bytes
    const open: Bytes -> Option<Bytes>   // s2.Decode and the decoding of the packet
    var pos: nat                         // of the file
    var packetOffsetIndex: seq<nat>
    var currentPacket: nat

    function Abs(): Reader
      reads this
    {
      Reader(pos, packetOffsetIndex, currentPacket)
    }

    // The file is sought to the first packet.
    constructor (content: Bytes, open: Bytes -> Option<Bytes>, base: nat)
      ensures Abs() == Reader(base, [], 0) && this.content == content && this.open == open
    {
      this.content, this.open := content, open;
      pos, packetOffsetIndex, currentPacket := base, [], 0;
    }

    // io.ReadFull: what can be read, up to n bytes.
    method ReadFull(n: nat) returns (b: Bytes)
      modifies this`pos
      ensures var rest := From(content, old(pos)); b == if n <= |rest| then rest[..n] else rest
      ensures pos == old(pos) + |b|
    {
      var rest := if pos <= |content| then content[pos..] else [];
      b := if n <= |rest| then rest[..n] else rest;
      pos := pos + |b|;
    }

    // Lines 118-173.
    method ReadRest(packetLength: nat, toServer: bool, receivedTime: int, skip: bool) returns (outcome: Outcome)
      modifies this`pos
      ensures var r := ReadBody(open, From(content, old(pos)), packetLength, toServer, receivedTime, skip);
              outcome == r.outcome && pos == old(pos) + r.taken
    {
      if skip {
        var body := ReadFull(packetLength + 4);
        if |body| < packetLength + 4 {
          return Eof;
        }
        return Packet(toServer, receivedTime, None);
      } else {
        var size := (packetLength + 4) % TWO_32;
        var payload := ReadFull(size);
        if |payload| < size {
          return Eof;
        }
        if |payload| < packetLength + 4 {
          return Truncated;
        }
        ghost var rest := From(content, old(pos));
        assert payload[packetLength..] == rest[packetLength..packetLength + 4]
               && payload[..packetLength] == rest[..packetLength];
        if payload[packetLength..] != END_MAGIC {
          return WrongMagic2;
        }
        match open(payload[..packetLength])
        case None => return Undecodable;
        case Some(p) => return Packet(toServer, receivedTime, Some(p));
      }
    }

    method ReadPacket(skip: bool) returns (outcome: Outcome)
      modifies this
      ensures (outcome, Abs()) == CaptureReader.ReadPacket(open, content, old(Abs()), skip)
    {
      hide UnLe, ReadBody, ToInt64;
      ghost var rest := From(content, pos);
      // A packet that is read for the first time is filed.
      if |packetOffsetIndex| <= currentPacket {
        packetOffsetIndex := packetOffsetIndex + [pos];
      }
      currentPacket := currentPacket + 1;
      var head := ReadFull(HEAD);
      if |head| < HEAD {
        return Closed;
      }
      assert head[..4] == rest[..4] && head[4..8] == rest[4..8] && head[9..17] == rest[9..17];
      if head[..4] != START_MAGIC {
        return WrongMagic;
      }
      assert From(content, pos) == rest[HEAD..];
      outcome := ReadRest(UnLe(head[4..8]), head[8] == 1, Millis(head), skip);
    }

    // Reading the index behind its end panics.
    method Seek(packet: nat) returns (ok: bool)
      requires packet < currentPacket ==> packet < |packetOffsetIndex|
      modifies this
      ensures (ok, Abs()) == CaptureReader.Seek(open, content, old(Abs()), packet)
    {
      hide CaptureReader.ReadPacket, Skip;
      if packet >= currentPacket {
        var diff := packet - currentPacket;
        ghost var r0 := Abs();
        var i := 0;
        while i < diff
          invariant 0 <= i <= diff
          invariant Skip(open, content, Abs(), diff - i) == Skip(open, content, r0, diff)
        {
          SkipForm(open, content, Abs(), diff - i);
          var outcome := ReadPacket(true);
          if !outcome.Packet? {
            return false;
          }
          i := i + 1;
        }
        SkipForm(open, content, Abs(), 0);
        ok := true;
      } else {
        pos := packetOffsetIndex[packet];
        currentPacket := packet;
        ok := true;
      }
    }

    method ReadBack() returns (outcome: Option<Outcome>)
      requires currentPacket <= |packetOffsetIndex|
      modifies this
      ensures (outcome, Abs()) == CaptureReader.ReadBack(open, content, old(Abs()))
    {
      if currentPacket == 0 {
        return None;
      }
      currentPacket := currentPacket - 1;
      pos := packetOffsetIndex[currentPacket];
      var o := ReadPacket(false);
      currentPacket := currentPacket - 1;
      outcome := Some(o);
    }
  }
}
