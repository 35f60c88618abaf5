/** Screen frames over UDP: the sender's fragmentation and the reassembly its header allows. */
module UdpFrames {
  import opened Bytes
  import opened Options

  const CHUNK_PAYLOAD: nat := 1400
  const HEADER: nat := 8
  const U16: nat := 0x1_0000
  const U32: nat := 0x1_0000_0000

  // ----- the packet format ------------------------------------------------------------------------

  datatype Packet = Packet(frameNum: nat, index: nat, total: nat, data: seq<byte>)

  predicate Fits(p: Packet) { p.frameNum < U32 && p.index < U16 && p.total < U16 }

  function U16Bytes(x: nat): (b: seq<byte>)
    requires x < U16
    ensures |b| == 2
  {
    [x / 256, x % 256]
  }

  // struct.pack("!IHH", ...) and the payload
  function Encode(p: Packet): (b: seq<byte>)
    requires Fits(p)
    ensures |b| == HEADER + |p.data|
  {
    U16Bytes(p.frameNum / U16) + U16Bytes(p.frameNum % U16) + U16Bytes(p.index) + U16Bytes(p.total) + p.data
  }

  function U16At(b: seq<byte>, i: nat): nat
    requires i + 2 <= |b|
  {
    var high: nat := b[i];
    256 * high + b[i + 1]
  }

  function Decode(b: seq<byte>): Option<Packet> {
    if |b| < HEADER then None
    else Some(Packet(U16At(b, 0) * U16 + U16At(b, 2), U16At(b, 4), U16At(b, 6), b[HEADER..]))
  }

  lemma DecodeEncode(p: Packet)
    requires Fits(p)
    ensures Decode(Encode(p)) == Some(p)
  {
    var b := Encode(p);
    assert b[HEADER..] == p.data;
    assert U16At(b, 0) == p.frameNum / U16 && U16At(b, 2) == p.frameNum % U16;
  }

  // ----- the sender -------------------------------------------------------------------------------

  function PacketCount(frame: seq<byte>): nat {
    if frame == [] then 1 else (|frame| + CHUNK_PAYLOAD - 1) / CHUNK_PAYLOAD
  }

  function PacketOf(frame: seq<byte>, frameNum: int, i: nat): (p: Packet)
    requires i < PacketCount(frame)
  {
    var offset := i * CHUNK_PAYLOAD;
    Packet(frameNum % U32, i, PacketCount(frame),
           frame[offset..if offset + CHUNK_PAYLOAD < |frame| then offset + CHUNK_PAYLOAD else |frame|])
  }

  datatype Sent = Sent(datagrams: seq<seq<byte>>) | StructError

  ghost predicate IsFragmentation(datagrams: seq<seq<byte>>, frame: seq<byte>, frameNum: int) {
    && |datagrams| == PacketCount(frame) < U16
    && forall i | 0 <= i < |datagrams| :: datagrams[i] == Encode(PacketOf(frame, frameNum, i))
  }

  // The header has no room for more than 65535 packets: such a frame raises before the first one.
  method SendFrameUdp(frame: seq<byte>, frameNum: int) returns (sent: Sent)
    ensures sent == StructError <==> |frame| > 65535 * 1400
    ensures sent.Sent? ==> IsFragmentation(sent.datagrams, frame, frameNum)
  {
    var total := PacketCount(frame);
    var datagrams: seq<seq<byte>> := [];
    var i := 0;
    while i < total
      invariant i <= total && (i > 0 ==> total < U16) && |datagrams| == i
      invariant forall j | 0 <= j < i :: datagrams[j] == Encode(PacketOf(frame, frameNum, j))
    {
      if total >= U16 {
        return StructError;
      }
      var offset := i * CHUNK_PAYLOAD;
      var chunk := frame[offset..if offset + CHUNK_PAYLOAD < |frame| then offset + CHUNK_PAYLOAD else |frame|];
      datagrams := datagrams + [Encode(Packet(frameNum % U32, i, total, chunk))];
      i := i + 1;
    }
    sent := Sent(datagrams);
  }

  // The header is big-endian: four bytes of the frame number, two of the index, two of the total.
  lemma Layout(p: Packet)
    requires Fits(p)
    ensures var b := Encode(p);
            && |b| == 8 + |p.data| && b[8..] == p.data
            && p.frameNum == 16777216 * b[0] as int + 65536 * b[1] as int + 256 * b[2] as int + b[3] as int
            && p.index == 256 * b[4] as int + b[5] as int && p.total == 256 * b[6] as int + b[7] as int
  {
    hide Fits, Encode;
    LayoutBytes(p);
  }

  lemma LayoutBytes(p: Packet)
    requires Fits(p)
    ensures var b, n := Encode(p), p.frameNum;
            && |b| == 8 + |p.data| && b[8..] == p.data
            && b[0] == n / U16 / 256 && b[1] == n / U16 % 256 && b[2] == n % U16 / 256 && b[3] == n % U16 % 256
            && b[4] == p.index / 256 && b[5] == p.index % 256 && b[6] == p.total / 256 && b[7] == p.total % 256
  {
  }

  // The n-th datagram of a frame holds its bytes from 1400 n on, 1400 of them or what is left, under a
  // header with the frame number's low 32 bits, n and the number of datagrams.
  lemma FragmentsAre(datagrams: seq<seq<byte>>, frame: seq<byte>, frameNum: int, i: nat)
    requires IsFragmentation(datagrams, frame, frameNum) && i < |datagrams|
    ensures |datagrams| == if |frame| == 0 then 1 else (|frame| + 1399) / 1400
    ensures 8 <= |datagrams[i]| && 1400 * i <= |frame|
            && datagrams[i][8..] == frame[1400 * i..if 1400 * (i + 1) < |frame| then 1400 * (i + 1) else |frame|]
    ensures var b := datagrams[i];
            && 16777216 * b[0] as int + 65536 * b[1] as int + 256 * b[2] as int + b[3] as int == frameNum % 4294967296
            && 256 * b[4] as int + b[5] as int == i && 256 * b[6] as int + b[7] as int == |datagrams|
  {
    hide Encode;
    Layout(PacketOf(frame, frameNum, i));
  }

  // Every datagram fits an Ethernet frame; an empty frame is one bare header.
  lemma DatagramSizes(datagrams: seq<seq<byte>>, frame: seq<byte>, frameNum: int)
    requires IsFragmentation(datagrams, frame, frameNum)
    ensures forall i | 0 <= i < |datagrams| :: HEADER <= |datagrams[i]| <= HEADER + CHUNK_PAYLOAD
    ensures forall i | 0 <= i < |datagrams| :: |datagrams[i]| == HEADER ==> frame == []
    ensures frame == [] ==> |datagrams| == 1 && |datagrams[0]| == HEADER
  {
    forall i | 0 <= i < |datagrams| ensures |datagrams[i]| == HEADER ==> frame == [] {
      assert frame != [] ==> i * CHUNK_PAYLOAD < |frame|;
    }
  }

  // ----- reassembly -------------------------------------------------------------------------------

  predicate Carries(b: seq<byte>, frameNum: nat, index: nat) {
    Decode(b).Some? && Decode(b).value.frameNum == frameNum && Decode(b).value.index == index
  }

  // The payload under an index of a frame, from the first datagram that carries it.
  function Payload(received: seq<seq<byte>>, frameNum: nat, index: nat): Option<seq<byte>> {
    if received == [] then None
    else if Carries(received[0], frameNum, index) then Some(Decode(received[0]).value.data)
    else Payload(received[1..], frameNum, index)
  }

  // The payloads under the indices below n, joined; None while one of them is missing.
  function Joined(received: seq<seq<byte>>, frameNum: nat, n: nat): Option<seq<byte>> {
    if n == 0 then Some([])
    else
      var before, last := Joined(received, frameNum, n - 1), Payload(received, frameNum, n - 1);
      if before.Some? && last.Some? then Some(before.value + last.value) else None
  }

  // What arrived: datagrams of this frame in any order, repeated and lost at will, among datagrams
  // that belong to other frame numbers or carry no header.
  ghost predicate Mixed(received: seq<seq<byte>>, datagrams: seq<seq<byte>>, frameNum: int) {
    forall b | b in received && Decode(b).Some? && Decode(b).value.frameNum == frameNum % U32 :: b in datagrams
  }

  lemma {:induction false} PayloadFound(received: seq<seq<byte>>, datagrams: seq<seq<byte>>, frame: seq<byte>,
                                        frameNum: int, i: nat)
    requires IsFragmentation(datagrams, frame, frameNum) && Mixed(received, datagrams, frameNum) && i < |datagrams|
    ensures Payload(received, frameNum % U32, i)
         == if datagrams[i] in received then Some(PacketOf(frame, frameNum, i).data) else None
  {
    if received != [] {
      hide Decode;
      assert forall b | b in received[1..] :: b in received;
      PayloadFound(received[1..], datagrams, frame, frameNum, i);
      DecodeEncode(PacketOf(frame, frameNum, i));
      if Carries(received[0], frameNum % U32, i) {
        assert received[0] in received;
        var j :| 0 <= j < |datagrams| && datagrams[j] == received[0];
        DecodeEncode(PacketOf(frame, frameNum, j));
        assert j == i;
      } else {
        assert received[0] != datagrams[i];
      }
    }
  }

  lemma {:induction false} JoinedPrefix(received: seq<seq<byte>>, datagrams: seq<seq<byte>>, frame: seq<byte>,
                                        frameNum: int, n: nat)
    requires IsFragmentation(datagrams, frame, frameNum) && Mixed(received, datagrams, frameNum) && n <= |datagrams|
    ensures Joined(received, frameNum % U32, n)
         == if forall i | 0 <= i < n :: datagrams[i] in received
            then Some(UpTo(frame, n)) else None
  {
    hide IsFragmentation, Mixed, Payload;
    if n > 0 {
      JoinedPrefix(received, datagrams, frame, frameNum, n - 1);
      CountIs(datagrams, frame, frameNum);
      PayloadFound(received, datagrams, frame, frameNum, n - 1);
      PartsMeet(frame, frameNum, n - 1);
      assert (forall i | 0 <= i < n :: datagrams[i] in received)
        <==> (forall i | 0 <= i < n - 1 :: datagrams[i] in received) && datagrams[n - 1] in received;
    }
  }

  function UpTo(frame: seq<byte>, n: nat): seq<byte> {
    frame[..if n * CHUNK_PAYLOAD < |frame| then n * CHUNK_PAYLOAD else |frame|]
  }

  lemma PartsMeet(frame: seq<byte>, frameNum: int, i: nat)
    requires i < PacketCount(frame)
    ensures UpTo(frame, i) + PacketOf(frame, frameNum, i).data == UpTo(frame, i + 1)
  {
  }

  lemma CountIs(datagrams: seq<seq<byte>>, frame: seq<byte>, frameNum: int)
    requires IsFragmentation(datagrams, frame, frameNum)
    ensures |datagrams| == PacketCount(frame)
  {
  }

  // How many datagrams make up the frame, as the first of them that arrived says.
  function TotalOf(received: seq<seq<byte>>, frameNum: nat): Option<nat> {
    if received == [] then None
    else if Decode(received[0]).Some? && Decode(received[0]).value.frameNum == frameNum then
        Some(Decode(received[0]).value.total)
    else TotalOf(received[1..], frameNum)
  }

  // What a receiver can do with the headers alone.
  function Reassembled(received: seq<seq<byte>>, frameNum: nat): Option<seq<byte>> {
    match TotalOf(received, frameNum)
    case None => None
    case Some(total) => Joined(received, frameNum, total)
  }

  lemma {:induction false} TotalFound(received: seq<seq<byte>>, datagrams: seq<seq<byte>>, frame: seq<byte>,
                                      frameNum: int)
    requires IsFragmentation(datagrams, frame, frameNum) && Mixed(received, datagrams, frameNum)
    ensures TotalOf(received, frameNum % U32) == None ==> forall b | b in datagrams :: b !in received
    ensures TotalOf(received, frameNum % U32) in {None, Some(|datagrams|)}
  {
    if received != [] {
      hide Decode;
      assert forall b | b in received[1..] :: b in received;
      TotalFound(received[1..], datagrams, frame, frameNum);
      forall b | b in datagrams
          ensures b == received[0] ==> Decode(b).Some? && Decode(b).value.frameNum == frameNum % U32 {
        var j :| 0 <= j < |datagrams| && datagrams[j] == b;
        DecodeEncode(PacketOf(frame, frameNum, j));
      }
      if Decode(received[0]).Some? && Decode(received[0]).value.frameNum == frameNum % U32 {
        assert received[0] in received;
        var j :| 0 <= j < |datagrams| && datagrams[j] == received[0];
        DecodeEncode(PacketOf(frame, frameNum, j));
      }
    }
  }

  // Reassembly returns exactly the frame once every datagram has arrived, and nothing before.
  lemma ReassemblyRoundTrip(received: seq<seq<byte>>, datagrams: seq<seq<byte>>, frame: seq<byte>, frameNum: int)
    requires IsFragmentation(datagrams, frame, frameNum) && Mixed(received, datagrams, frameNum)
    ensures Reassembled(received, frameNum % U32)
         == if forall b | b in datagrams :: b in received then Some(frame) else None
  {
    hide Joined, TotalOf, Mixed;
    TotalFound(received, datagrams, frame, frameNum);
    JoinedPrefix(received, datagrams, frame, frameNum, |datagrams|);
    assert frame[..|frame|] == frame;
    assert |datagrams| * CHUNK_PAYLOAD >= |frame|;
    assert datagrams[0] in datagrams;
    if forall i | 0 <= i < |datagrams| :: datagrams[i] in received {
      assert forall b | b in datagrams :: b in received;
    }
  }
}
