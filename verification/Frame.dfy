// The RA frame of a multipath session: magic, 32-bit sequence number, IP packet.
module Frame {
  import opened Basics

  const MAGIC0: Byte := 0x52  // 'R'
  const MAGIC1: Byte := 0x41  // 'A'
  const HEADER := 6
  const MIN_IPV4 := 20

  /** The bytes of a frame: what the buffer must hold once it is filled. */
  function FrameBytes(number: Uint32, ip: Packet): (b: Packet)
    ensures |b| == HEADER + |ip|
  {
    [MAGIC0, MAGIC1] + BigEndian32(number) + ip
  }

  method Encode(number: Uint32, ip: Packet) returns (out: array<Byte>)
    ensures fresh(out) && out[..] == FrameBytes(number, ip)
  {
    var be := BigEndian32(number);
    out := new Byte[HEADER + |ip|];
    out[0], out[1] := MAGIC0, MAGIC1;
    out[2], out[3], out[4], out[5] := be[0], be[1], be[2], be[3];
    for i := 0 to |ip|
      invariant out[0] == MAGIC0 && out[1] == MAGIC1
      invariant out[2] == be[0] && out[3] == be[1] && out[4] == be[2] && out[5] == be[3]
      invariant forall k | 0 <= k < i :: out[HEADER + k] == ip[k]
    {
      out[HEADER + i] := ip[i];
    }
    assert out[HEADER..] == ip;
    assert out[..2] == [MAGIC0, MAGIC1] && out[2..HEADER] == be;
    assert out[..] == out[..2] + out[2..HEADER] + out[HEADER..];
  }

  predicate IsIPv4(ip: Packet) {
    |ip| > 0 && ip[0] / 16 == 4
  }

  predicate IsFrame(pkt: Packet) {
    |pkt| >= 2 && pkt[0] == MAGIC0 && pkt[1] == MAGIC1
  }

  function Decode(pkt: Packet): Option<(Uint32, Packet)> {
    if |pkt| < HEADER + MIN_IPV4 then None
    else if pkt[0] != MAGIC0 || pkt[1] != MAGIC1 then None
    else if pkt[HEADER] / 16 != 4 then None
    else Some((Uint32At(pkt, 2), pkt[HEADER..]))
  }

  /** A frame decodes to what was put in it exactly when it carries an IPv4 packet of
      at least a header's length; any other payload makes the frame undecodable. */
  lemma RoundTrip(number: Uint32, ip: Packet)
    ensures |ip| >= MIN_IPV4 && IsIPv4(ip) ==> Decode(FrameBytes(number, ip)) == Some((number, ip))
    ensures !(|ip| >= MIN_IPV4 && IsIPv4(ip)) ==> Decode(FrameBytes(number, ip)) == None
  {
    var b := FrameBytes(number, ip);
    assert b[2..6] == BigEndian32(number);
    assert b[HEADER..] == ip;
    Read32(b, 2, number);
  }

  /** Nothing but a frame decodes: the decoded parts rebuild every byte of the input. */
  lemma DecodeRebuilds(pkt: Packet)
    requires Decode(pkt).Some?
    ensures var (number, ip) := Decode(pkt).value;
            pkt == FrameBytes(number, ip) && IsFrame(pkt) && |ip| >= MIN_IPV4 && IsIPv4(ip)
  {
    Write32(pkt, 2);
    assert pkt == pkt[..2] + pkt[2..6] + pkt[6..];
  }

  /** The layout: 'R', 'A', the number with its most significant byte first, the packet. */
  lemma Layout(number: Uint32, ip: Packet)
    ensures var b := FrameBytes(number, ip);
            && |b| == 6 + |ip| && b[0] == 0x52 && b[1] == 0x41 && b[6..] == ip
            && var b2: int, b3: int, b4: int, b5: int := b[2], b[3], b[4], b[5];
               b2 * 0x100_0000 + b3 * 0x1_0000 + b4 * 0x100 + b5 == number
  {
    Digits(number);
  }
}
