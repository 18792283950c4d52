/** Length-prefixed STREAM packets as the samples write them: a two-byte header length,
    a four-byte body length, both big-endian, then header and body. */
module StreamPacket {
  import opened Options

  type Byte = x: nat | x < 256
  type Bytes = seq<Byte>

  const TWO16 := 0x1_0000
  const TWO32 := 0x1_0000_0000

  datatype Packet = Packet(header: Bytes, body: Bytes)

  /** The lengths fit their fields. */
  predicate Fits(p: Packet) { |p.header| < TWO16 && |p.body| < TWO32 }

  function U16(n: nat): (r: Bytes)
    ensures |r| == 2
  {
    [(n / 0x100) % 0x100, n % 0x100]
  }

  function U32(n: nat): (r: Bytes)
    ensures |r| == 4
  {
    [(n / 0x100_0000) % 0x100, (n / 0x1_0000) % 0x100, (n / 0x100) % 0x100, n % 0x100]
  }

  /** The bytes of a packet. A length too large for its field loses its high bits. */
  function Frame(p: Packet): (r: Bytes)
    ensures |r| == 6 + |p.header| + |p.body|
  {
    U16(|p.header|) + U32(|p.body|) + p.header + p.body
  }

  // --- decoding ---

  function ValueOf(s: Bytes): nat
    decreases |s|
  {
    if s == [] then 0 else ValueOf(s[..|s| - 1]) * 0x100 + s[|s| - 1]
  }

  datatype Taken = Taken(packet: Packet, rest: Bytes)

  /** One packet off the front of a stream, if all of it has arrived. */
  function Decode(s: Bytes): (r: Option<Taken>)
    ensures r.Some? ==> |r.value.rest| < |s|
  {
    if |s| < 6 then None
    else
      var h, b := ValueOf(s[..2]), ValueOf(s[2..6]);
      if |s| < 6 + h + b then None
      else Some(Taken(Packet(s[6..6 + h], s[6 + h..6 + h + b]), s[6 + h + b..]))
  }

  datatype Received = Received(packets: seq<Packet>, leftover: Bytes)

  /** All complete packets of a stream, and the bytes still waiting for more. */
  function Receive(s: Bytes): Received
    decreases |s|
  {
    match Decode(s)
    case None => Received([], s)
    case Some(taken) =>
      var more := Receive(taken.rest);
      Received([taken.packet] + more.packets, more.leftover)
  }

  function Frames(packets: seq<Packet>): Bytes {
    if packets == [] then [] else Frame(packets[0]) + Frames(packets[1..])
  }

  lemma ValueOfU16(n: nat)
    ensures ValueOf(U16(n)) == n % TWO16
  {
    var s := U16(n);
    assert s[..1] == [s[0]] && s[..1][..0] == [];
    assert ValueOf(s[..1]) == ValueOf([]) * 0x100 + s[0];
  }

  lemma ValueOfU32(n: nat)
    ensures ValueOf(U32(n)) == n % TWO32
  {
    var s := U32(n);
    assert s[..3][..2] == s[..2] && s[..2][..1] == s[..1] && s[..1] == [s[0]] && s[..1][..0] == [];
    assert ValueOf(s[..1]) == ValueOf([]) * 0x100 + s[0];
    assert ValueOf(s[..2]) == ValueOf(s[..1]) * 0x100 + s[1];
    assert ValueOf(s[..3]) == ValueOf(s[..2]) * 0x100 + s[2];
    FourDigits(n);
  }

  lemma FourDigits(n: nat)
    ensures (((n / 0x100_0000) % 0x100 * 0x100 + (n / 0x1_0000) % 0x100) * 0x100 + (n / 0x100) % 0x100) * 0x100 + n % 0x100
         == n % TWO32
  {
    var q1, q2, q3, q4 := n / 0x100, n / 0x1_0000, n / 0x100_0000, n / TWO32;
    assert q2 == q1 / 0x100;
    assert q3 == q2 / 0x100;
    assert q4 == q3 / 0x100;
    var r0, r1, r2, r3 := n % 0x100, q1 % 0x100, q2 % 0x100, q3 % 0x100;
    assert n == 0x100 * q1 + r0 && q1 == 0x100 * q2 + r1 && q2 == 0x100 * q3 + r2 && q3 == 0x100 * q4 + r3;
  }

  /** The four digits of a number below 2^32 are unique. */
  lemma DigitsAreUnique(n: nat, r3: Byte, r2: Byte, r1: Byte, r0: Byte)
    requires n == ((r3 * 0x100 + r2) * 0x100 + r1) * 0x100 + r0
    ensures U32(n) == [r3, r2, r1, r0]
  {
    var q1 := (r3 * 0x100 + r2) * 0x100 + r1;
    var q2 := r3 * 0x100 + r2;
    assert n / 0x100 == q1 && n % 0x100 == r0;
    assert n / 0x1_0000 == q2 && q1 % 0x100 == r1;
    assert n / 0x100_0000 == r3 && q2 % 0x100 == r2;
  }

  /** The lengths a decoder reads from a frame. */
  lemma DecodedLengths(p: Packet, rest: Bytes)
    ensures ValueOf((Frame(p) + rest)[..2]) == |p.header| % TWO16
    ensures ValueOf((Frame(p) + rest)[2..6]) == |p.body| % TWO32
  {
    var s := Frame(p) + rest;
    assert s[..2] == U16(|p.header|) && s[2..6] == U32(|p.body|);
    ValueOfU16(|p.header|);
    ValueOfU32(|p.body|);
  }

  lemma FrameParts(p: Packet, rest: Bytes)
    ensures var s, h, b := Frame(p) + rest, |p.header|, |p.body|;
      s[6..6 + h] == p.header && s[6 + h..6 + h + b] == p.body && s[6 + h + b..] == rest
  {
  }

  lemma FittingFrameDecodes(p: Packet, rest: Bytes)
    requires Fits(p)
    ensures Decode(Frame(p) + rest) == Some(Taken(p, rest))
  {
    DecodedLengths(p, rest);
    FrameParts(p, rest);
    assert |p.header| % TWO16 == |p.header| && |p.body| % TWO32 == |p.body|;
  }

  /** Decoding gives back the packet and what follows exactly when both lengths fit. */
  lemma DecodeInvertsFrame(p: Packet, rest: Bytes)
    ensures Decode(Frame(p) + rest) == Some(Taken(p, rest)) <==> Fits(p)
  {
    if Fits(p) {
      FittingFrameDecodes(p, rest);
    } else {
      DecodedLengths(p, rest);
      TruncatedLength(p);
    }
  }

  lemma TruncatedLength(p: Packet)
    requires !Fits(p)
    ensures |p.header| % TWO16 != |p.header| || |p.body| % TWO32 != |p.body|
  {
  }

  /** Part of a frame never decodes to a packet. */
  lemma PartialFrameIsIncomplete(p: Packet, n: nat)
    requires Fits(p) && n < |Frame(p)|
    ensures Decode(Frame(p)[..n]) == None
  {
    if n >= 6 {
      DecodedLengths(p, []);
      assert Frame(p) + [] == Frame(p);
      assert Frame(p)[..n][..2] == Frame(p)[..2] && Frame(p)[..n][2..6] == Frame(p)[2..6];
    }
  }

  predicate AllFit(packets: seq<Packet>) {
    forall i :: 0 <= i < |packets| ==> Fits(packets[i])
  }

  lemma ReceiveFrame(p: Packet, rest: Bytes)
    requires Fits(p)
    ensures Receive(Frame(p) + rest) == Received([p] + Receive(rest).packets, Receive(rest).leftover)
  {
    FittingFrameDecodes(p, rest);
  }

  lemma FramesHead(packets: seq<Packet>, tail: Bytes)
    requires packets != []
    ensures Frames(packets) + tail == Frame(packets[0]) + (Frames(packets[1..]) + tail)
  {
  }

  lemma {:induction false} FramesThenTail(packets: seq<Packet>, tail: Bytes)
    requires AllFit(packets) && Decode(tail) == None
    ensures Receive(Frames(packets) + tail) == Received(packets, tail)
    decreases |packets|
  {
    if packets == [] {
      assert Frames(packets) + tail == tail;
    } else {
      FramesHead(packets, tail);
      ReceiveFrame(packets[0], Frames(packets[1..]) + tail);
      FramesThenTail(packets[1..], tail);
      assert packets == [packets[0]] + packets[1..];
    }
  }

  /** A concatenation of frames splits back into the same packets, however many bytes of a
      next frame have arrived. */
  lemma FramesSplitBack(packets: seq<Packet>, next: Packet, n: nat)
    requires AllFit(packets) && Fits(next) && n < |Frame(next)|
    ensures Receive(Frames(packets) + Frame(next)[..n]) == Received(packets, Frame(next)[..n])
  {
    PartialFrameIsIncomplete(next, n);
    FramesThenTail(packets, Frame(next)[..n]);
  }

  lemma {:induction false} FramesConcat(a: seq<Packet>, b: seq<Packet>)
    ensures Frames(a + b) == Frames(a) + Frames(b)
  {
    if a == [] {
      assert a + b == b;
    } else {
      assert (a + b)[1..] == a[1..] + b;
      FramesConcat(a[1..], b);
    }
  }

  // --- writing a frame in place ---

  method StoreU16(dst: array<Byte>, at: nat, value: nat)
    requires at + 2 <= dst.Length && value < TWO16
    modifies dst
    ensures dst[..] == old(dst[..at]) + U16(value) + old(dst[at + 2..])
  {
    dst[at] := (value / 0x100) % 0x100;
    dst[at + 1] := value % 0x100;
  }

  method StoreU32(dst: array<Byte>, at: nat, value: nat)
    requires at + 4 <= dst.Length && value < TWO32
    modifies dst
    ensures dst[..] == old(dst[..at]) + U32(value) + old(dst[at + 4..])
  {
    dst[at] := (value / 0x100_0000) % 0x100;
    dst[at + 1] := (value / 0x1_0000) % 0x100;
    dst[at + 2] := (value / 0x100) % 0x100;
    dst[at + 3] := value % 0x100;
  }

  /** `memcpy` from a separate buffer. */
  method Copy(dst: array<Byte>, at: nat, src: Bytes)
    requires at + |src| <= dst.Length
    modifies dst
    ensures dst[..] == old(dst[..at]) + src + old(dst[at + |src|..])
  {
    for i := 0 to |src|
      invariant dst[..at] == old(dst[..at]) && dst[at..at + i] == src[..i]
      invariant dst[at + i..] == old(dst[at + i..])
    {
      dst[at + i] := src[i];
    }
  }

  /** Writing `x` right after a prefix extends the prefix by `x`. */
  lemma PrefixGrows(before: Bytes, after: Bytes, at: nat, x: Bytes)
    requires at + |x| <= |before| && after == before[..at] + x + before[at + |x|..]
    ensures |after| == |before| && after[..at + |x|] == before[..at] + x
  {
  }

  lemma FrameIsThreeParts(p: Packet)
    ensures Frame(p) == (U16(|p.header|) + U32(|p.body|)) + p.header + p.body
  {
  }

  /** The C encoder fills the front of a 512-byte buffer. */
  method FillFrame(frame: array<Byte>, p: Packet)
    requires frame.Length == 512 && 6 + |p.header| + |p.body| <= frame.Length
    modifies frame
    ensures frame[..6 + |p.header| + |p.body|] == Frame(p)
  {
    var h, b := |p.header|, |p.body|;
    FillLengths(frame, h, b);
    ghost var s1 := frame[..];
    if h > 0 { Copy(frame, 6, p.header); }
    ghost var s2 := frame[..];
    assert h == 0 ==> s2 == s1[..6] + p.header + s1[6..];
    PrefixGrows(s1, s2, 6, p.header);
    if b > 0 { Copy(frame, 6 + h, p.body); }
    ghost var s3 := frame[..];
    assert b == 0 ==> s3 == s2[..6 + h] + p.body + s2[6 + h..];
    PrefixGrows(s2, s3, 6 + h, p.body);
    FrameIsThreeParts(p);
    assert frame[..6 + h + b] == s3[..6 + h + b];
  }

  method FillLengths(frame: array<Byte>, h: nat, b: nat)
    requires frame.Length >= 6 && h < TWO16 && b < TWO32
    modifies frame
    ensures frame[..][..6] == U16(h) + U32(b)
  {
    ghost var s0 := frame[..];
    StoreU16(frame, 0, h);
    ghost var s1 := frame[..];
    PrefixGrows(s0, s1, 0, U16(h));
    StoreU32(frame, 2, b);
    PrefixGrows(s1, frame[..], 2, U32(b));
  }

  lemma U32IgnoresHighBits(n: nat)
    ensures U32(n % TWO32) == U32(n)
  {
    FourDigits(n);
    DigitsAreUnique(n % TWO32, (n / 0x100_0000) % 0x100, (n / 0x1_0000) % 0x100, (n / 0x100) % 0x100, n % 0x100);
  }

  /** The C++ encoder: a zeroed vector, so the header length is zero. It writes the same
      bytes as the C encoder does for an empty header. */
  method EncodePacketFrame(payload: Bytes) returns (frame: array<Byte>)
    ensures frame[..] == Frame(Packet([], payload))
  {
    frame := new Byte[6 + |payload|](_ => 0);
    StoreU32(frame, 2, |payload| % TWO32);
    U32IgnoresHighBits(|payload|);
    assert frame[..2] == U16(0) && frame[2..6] == U32(|payload|);
    if payload != [] { Copy(frame, 6, payload); }
    assert frame[..] == frame[..2] + frame[2..6] + frame[6..];
    assert Frame(Packet([], payload)) == U16(0) + U32(|payload|) + payload;
  }

  // --- partial writes ---

  /** How many of `size` bytes leave under a schedule of `send` results. A result of zero
      or less, or the end of the schedule, is a failure. */
  function Sent(schedule: seq<int>, size: nat): (n: nat)
    ensures n <= size
    decreases |schedule|
  {
    if size == 0 || schedule == [] || schedule[0] <= 0 then 0
    else
      var n := if schedule[0] < size then schedule[0] else size;
      n + Sent(schedule[1..], size - n)
  }

  /** The results that `Sent` uses up, up to the first failure. */
  function Left(schedule: seq<int>, size: nat): (rest: seq<int>)
    ensures |rest| <= |schedule|
    decreases |schedule|
  {
    if size == 0 || schedule == [] then schedule
    else if schedule[0] <= 0 then schedule[1..]
    else Left(schedule[1..], if schedule[0] < size then size - schedule[0] else 0)
  }

  lemma NextSlice(data: Bytes, sent: nat, n: nat)
    requires sent + n <= |data|
    ensures data[..sent + n] == data[..sent] + data[sent..][..n]
  {
  }

  class Socket {
    /** The results the next calls of `send` will give. */
    var schedule: seq<int>
    /** The bytes that left. */
    var wire: Bytes

    constructor (schedule: seq<int>)
      ensures this.schedule == schedule && wire == []
    {
      this.schedule, wire := schedule, [];
    }

    method Send(data: Bytes) returns (rc: int)
      requires data != []
      modifies this
      ensures rc <= |data|
      ensures rc > 0 ==> old(schedule) != [] && old(schedule)[0] > 0
      ensures rc > 0 ==> rc == (if old(schedule)[0] < |data| then old(schedule)[0] else |data|)
      ensures rc > 0 ==> wire == old(wire) + data[..rc]
      ensures rc <= 0 ==> (old(schedule) == [] || old(schedule)[0] <= 0) && wire == old(wire)
      ensures schedule == if old(schedule) == [] then [] else old(schedule)[1..]
    {
      if schedule == [] { return -1; }
      rc := if schedule[0] < |data| then schedule[0] else |data|;
      schedule := schedule[1..];
      if rc > 0 { wire := wire + data[..rc]; }
    }

    /** `send_all`: either all bytes leave or the call fails having sent a proper prefix. */
    method SendAll(data: Bytes) returns (ok: bool)
      modifies this
      ensures wire == old(wire) + data[..Sent(old(schedule), |data|)]
      ensures ok <==> Sent(old(schedule), |data|) == |data|
      ensures schedule == Left(old(schedule), |data|)
    {
      var sent := 0;
      while sent < |data|
        invariant sent <= |data|
        invariant sent + Sent(schedule, |data| - sent) == Sent(old(schedule), |data|)
        invariant Left(schedule, |data| - sent) == Left(old(schedule), |data|)
        invariant wire == old(wire) + data[..sent]
        decreases |data| - sent
      {
        var rc := Send(data[sent..]);
        if rc <= 0 { return false; }
        NextSlice(data, sent, rc);
        sent := sent + rc;
      }
      return true;
    }

    /** `send_stream_packet_frame`. */
    method SendFrame(p: Packet) returns (ok: bool)
      requires 6 + |p.header| + |p.body| <= 512
      modifies this
      ensures wire == old(wire) + Frame(p)[..Sent(old(schedule), |Frame(p)|)]
      ensures ok <==> Sent(old(schedule), |Frame(p)|) == |Frame(p)|
      ensures schedule == Left(old(schedule), |Frame(p)|)
    {
      var frame := new Byte[512];
      FillFrame(frame, p);
      ok := SendAll(frame[..6 + |p.header| + |p.body|]);
    }
  }

  /** How many packets, one after the other, leave in full under a schedule. */
  function Carried(schedule: seq<int>, packets: seq<Packet>): (n: nat)
    ensures n <= |packets|
    decreases |packets|
  {
    if packets == [] then 0
    else
      var size := |Frame(packets[0])|;
      if Sent(schedule, size) < size then 0 else 1 + Carried(Left(schedule, size), packets[1..])
  }

  lemma CarriedNext(schedule: seq<int>, packets: seq<Packet>, n: nat)
    requires n < |packets|
    ensures var size := |Frame(packets[n])|;
      Carried(schedule, packets[n..])
      == if Sent(schedule, size) < size then 0 else 1 + Carried(Left(schedule, size), packets[n + 1..])
  {
    assert packets[n..][0] == packets[n] && packets[n..][1..] == packets[n + 1..];
  }

  lemma FramesNext(packets: seq<Packet>, n: nat)
    requires n < |packets|
    ensures Frames(packets[..n + 1]) == Frames(packets[..n]) + Frame(packets[n])
  {
    var p := packets[n];
    FramesConcat(packets[..n], [p]);
    assert packets[..n + 1] == packets[..n] + [p] && [p][1..] == [];
    assert Frames([p]) == Frame(p) + Frames([]);
  }

  /** Sends packets until one fails: the receiver ends up with exactly the packets that
      were sent without failure, and the rest of the wire is the cut-off frame. */
  method SendPackets(socket: Socket, packets: seq<Packet>) returns (n: nat)
    requires socket.wire == []
    requires forall i :: 0 <= i < |packets| ==> 6 + |packets[i].header| + |packets[i].body| <= 512
    modifies socket
    ensures n == Carried(old(socket.schedule), packets)
    ensures Receive(socket.wire).packets == packets[..n]
    ensures n == |packets| ==> Receive(socket.wire) == Received(packets, [])
  {
    n := 0;
    assert Frames([]) == [];
    while n < |packets|
      invariant n <= |packets| && socket.wire == Frames(packets[..n])
      invariant n + Carried(socket.schedule, packets[n..]) == Carried(old(socket.schedule), packets)
    {
      ghost var schedule := socket.schedule;
      var p := packets[n];
      CarriedNext(schedule, packets, n);
      var ok := socket.SendFrame(p);
      if !ok {
        FramesSplitBack(packets[..n], p, Sent(schedule, |Frame(p)|));
        return;
      }
      FramesNext(packets, n);
      assert Frame(p)[..|Frame(p)|] == Frame(p);
      n := n + 1;
    }
    assert packets[..n] == packets;
    FramesSplitBack(packets, Packet([], []), 0);
    assert Frame(Packet([], []))[..0] == [];
    assert Frames(packets) + [] == Frames(packets);
  }
}
