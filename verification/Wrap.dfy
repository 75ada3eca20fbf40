// The WRAP codec: a payload sealed inside an RTP-shaped packet (header layout and
// padding bit as in section 5.1 of RFC 3550).
module Wrap {
  import opened Basics
  import Nonce

  const KEY_LEN := 32
  const HEADER := 12
  const OVERHEAD := 16

  // ChaCha20-Poly1305 enters only through its interface (section 2.8 of RFC 8439):
  // key, nonce, text, additional data.
  datatype Aead = Aead(seal: (seq<Byte>, seq<Byte>, Packet, Packet) -> Packet,
                       open: (seq<Byte>, seq<Byte>, Packet, Packet) -> Option<Packet>)

  /** Sealing adds OVERHEAD bytes, opening removes them, and open inverts seal. */
  ghost predicate Lawful(a: Aead) {
    && (forall k, n, p, ad :: |a.seal(k, n, p, ad)| == |p| + OVERHEAD)
    && (forall k, n, p, ad :: a.open(k, n, a.seal(k, n, p, ad), ad) == Some(p))
    && (forall k, n, c, ad :: a.open(k, n, c, ad).Some? ==> |a.open(k, n, c, ad).value| + OVERHEAD == |c|)
  }

  datatype Error = BadKey | EmptyPayload | TooShort | NotRtp | BadPadding | NoPayload | DstTooSmall | AuthFailed
  datatype Result<+T> = Ok(value: T) | Err(error: Error)

  datatype Config = Config(ssrc: Uint32, payloadType: Byte, paddingMax: int)

  // ---------- The wire format ----------

  function Header(cfg: Config, number: Uint16, ts: Uint32): (h: Packet)
    ensures |h| == HEADER
  {
    [0xA0, cfg.payloadType % 0x80] + BigEndian16(number) + BigEndian32(ts) + BigEndian32(cfg.ssrc)
  }

  function PadRand(cfg: Config, random: Byte): nat {
    if cfg.paddingMax > 0 then random % cfg.paddingMax else 0
  }

  /** Header, sealed payload, random pad, and the pad length truncated to a byte. */
  function Wire(a: Aead, key: seq<Byte>, payload: Packet, cfg: Config, number: Uint16, ts: Uint32, pad: seq<Byte>): Packet {
    var head := Header(cfg, number, ts);
    head + a.seal(key, Nonce.Bytes(cfg.ssrc, number, ts), payload, head) + pad + [(|pad| + 1) % 0x100]
  }

  function Unwrap(a: Aead, key: seq<Byte>, wire: Packet, room: nat): Result<Packet> {
    if |key| != KEY_LEN then Err(BadKey)
    else if |wire| < HEADER + 1 then Err(TooShort)
    else if wire[0] / 0x40 != 2 then Err(NotRtp)
    else
      var padded := wire[0] / 0x20 % 2 == 1;
      var padLen := wire[|wire| - 1];
      if padded && (padLen == 0 || padLen > |wire| - HEADER) then Err(BadPadding)
      else
        var end := if padded then |wire| - padLen else |wire|;
        if end - HEADER <= OVERHEAD then Err(NoPayload)
        else if end - HEADER - OVERHEAD > room then Err(DstTooSmall)
        else
          var nonce := Nonce.Bytes(Uint32At(wire, 8), Uint16At(wire, 2), Uint32At(wire, 4));
          match a.open(key, nonce, wire[HEADER..end], wire[..HEADER])
          case None => Err(AuthFailed)
          case Some(plain) => Ok(plain)
  }

  predicate IsRtp(wire: Packet) {
    && |wire| >= HEADER + 1
    && wire[0] / 0x40 == 2
    && (wire[1] % 0x80 == 111 || wire[1] % 0x80 == 96)
  }

  // ---------- The methods ----------

  class ObfsState {
    const initSeq: Uint16
    const initTs: Uint32
    var count: Uint64

    constructor (initSeq: Uint16, initTs: Uint32)
      ensures this.initSeq == initSeq && this.initTs == initTs && count == 0
    {
      this.initSeq, this.initTs, count := initSeq, initTs, 0;
    }

    /** `random` and `pad` are the random source's output. A refused packet takes no count. */
    method WrapPacket(a: Aead, key: seq<Byte>, payload: Packet, cfg: Config, random: Byte, pad: seq<Byte>)
      returns (r: Result<array<Byte>>)
      requires Lawful(a) && |pad| == PadRand(cfg, random)
      modifies this
      ensures |key| != KEY_LEN ==> r == Err(BadKey) && count == old(count)
      ensures |key| == KEY_LEN && payload == [] ==> r == Err(EmptyPayload) && count == old(count)
      ensures |key| == KEY_LEN && payload != [] ==>
                && r.Ok? && fresh(r.value) && count == (old(count) + 1) % TWO_64
                && r.value[..] == Wire(a, key, payload, cfg, Nonce.SeqOf(initSeq, old(count)),
                                       Nonce.TsOf(initTs, old(count)), pad)
    {
      hide Nonce.SeqOf, Nonce.TsOf, Nonce.Bytes, Header;
      if |key| != KEY_LEN {
        return Err(BadKey);
      }
      if |payload| == 0 {
        return Err(EmptyPayload);
      }
      var c := count;
      count := (count + 1) % TWO_64;
      var number, ts := Nonce.SeqOf(initSeq, c), Nonce.TsOf(initTs, c);
      var head := Header(cfg, number, ts);
      var sealed := a.seal(key, Nonce.Bytes(cfg.ssrc, number, ts), payload, head);
      var out := new Byte[HEADER + |payload| + OVERHEAD + |pad| + 1];
      Fill(out, 0, head);
      Fill(out, HEADER, sealed);
      Fill(out, HEADER + |sealed|, pad);
      out[out.Length - 1] := (|pad| + 1) % 0x100;
      Pieces(out[..], head, sealed, pad, (|pad| + 1) % 0x100);
      r := Ok(out);
    }
  }

  lemma Pieces(s: Packet, a: Packet, b: Packet, c: Packet, z: Byte)
    requires |s| == |a| + |b| + |c| + 1
    requires s[..|a|] == a && s[|a|..|a| + |b|] == b && s[|a| + |b|..|s| - 1] == c && s[|s| - 1] == z
    ensures s == a + b + c + [z]
  {
  }

  /** copy(out[from:], bytes) */
  method Fill(out: array<Byte>, from: nat, bytes: seq<Byte>)
    requires from + |bytes| <= out.Length
    modifies out
    ensures out[..from] == old(out[..from]) && out[from..from + |bytes|] == bytes
    ensures out[from + |bytes|..] == old(out[from + |bytes|..])
  {
    for i := 0 to |bytes|
      invariant forall k | 0 <= k < i :: out[from + k] == bytes[k]
      invariant forall k | 0 <= k < out.Length && !(from <= k < from + i) :: out[k] == old(out[k])
    {
      out[from + i] := bytes[i];
    }
  }

  /** Never reads outside `wire`, whatever its bytes; on success the plaintext is in front of dst. */
  method UnwrapPacket(a: Aead, key: seq<Byte>, wire: array<Byte>, dst: array<Byte>) returns (r: Result<nat>)
    requires Lawful(a) && wire != dst
    modifies dst
    ensures match Unwrap(a, key, wire[..], dst.Length)
            case Ok(plain) => r == Ok(|plain|) && |plain| <= dst.Length && dst[..|plain|] == plain
                              && dst[|plain|..] == old(dst[|plain|..])
            case Err(e) => r == Err(e) && (e != AuthFailed ==> dst[..] == old(dst[..]))
  {
    if |key| != KEY_LEN {
      return Err(BadKey);
    }
    if wire.Length < HEADER + 1 {
      return Err(TooShort);
    }
    if wire[0] / 0x40 != 2 {
      return Err(NotRtp);
    }
    var number, ts, ssrc := Uint16At(wire[..], 2), Uint32At(wire[..], 4), Uint32At(wire[..], 8);
    var payloadEnd: int := wire.Length;
    if wire[0] / 0x20 % 2 == 1 {
      var padLen := wire[wire.Length - 1];
      if padLen == 0 || padLen > payloadEnd - HEADER {
        return Err(BadPadding);
      }
      payloadEnd := payloadEnd - padLen;
    }
    var ciphertextLen := payloadEnd - HEADER;
    if ciphertextLen <= OVERHEAD {
      return Err(NoPayload);
    }
    if ciphertextLen - OVERHEAD > dst.Length {
      return Err(DstTooSmall);
    }
    assert wire[HEADER..payloadEnd] == wire[..][HEADER..payloadEnd] && wire[..HEADER] == wire[..][..HEADER];
    match a.open(key, Nonce.Bytes(ssrc, number, ts), wire[HEADER..payloadEnd], wire[..HEADER]) {
      case None => return Err(AuthFailed);
      case Some(plain) =>
        Fill(dst, 0, plain);
        r := Ok(|plain|);
    }
  }

  // ---------- Laws ----------

  lemma WireParts(a: Aead, key: seq<Byte>, payload: Packet, cfg: Config, number: Uint16, ts: Uint32, pad: seq<Byte>)
    requires Lawful(a)
    ensures var w := Wire(a, key, payload, cfg, number, ts, pad);
            var sealed := a.seal(key, Nonce.Bytes(cfg.ssrc, number, ts), payload, Header(cfg, number, ts));
            && |w| == HEADER + |payload| + OVERHEAD + |pad| + 1
            && w[..HEADER] == Header(cfg, number, ts) && w[HEADER..|w| - |pad| - 1] == sealed
            && w[0] == 0xA0 && w[1] == cfg.payloadType % 0x80 && w[|w| - 1] == (|pad| + 1) % 0x100
            && Uint16At(w, 2) == number && Uint32At(w, 4) == ts && Uint32At(w, 8) == cfg.ssrc
  {
    var w := Wire(a, key, payload, cfg, number, ts, pad);
    var head := Header(cfg, number, ts);
    assert w[..HEADER] == head;
    assert w[2..4] == head[2..4] == BigEndian16(number);
    assert w[4..8] == head[4..8] == BigEndian32(ts);
    assert w[8..12] == head[8..12] == BigEndian32(cfg.ssrc);
    Read16(w, 2, number);
    Read32(w, 4, ts);
    Read32(w, 8, cfg.ssrc);
  }

  /** The whole behaviour of unwrapping a wrapped packet. It gives back the payload, given
      room, for every key, payload and pad, unless the pad fills 256 bytes: then its length
      byte is truncated to 0 and the packet is refused. */
  lemma RoundTrip(a: Aead, key: seq<Byte>, payload: Packet, cfg: Config, number: Uint16, ts: Uint32,
                  random: Byte, pad: seq<Byte>, room: nat)
    requires Lawful(a) && |key| == KEY_LEN && payload != [] && |pad| == PadRand(cfg, random)
    ensures Unwrap(a, key, Wire(a, key, payload, cfg, number, ts, pad), room) ==
            if cfg.paddingMax >= 0x100 && random == 0xFF then Err(BadPadding)
            else if |payload| > room then Err(DstTooSmall)
            else Ok(payload)
  {
    WireParts(a, key, payload, cfg, number, ts, pad);
    PadRandBound(cfg, random);
  }

  lemma Remainder(x: int, m: int)
    requires 0 <= x && 0 < m
    ensures 0 <= x % m < m && x % m <= x && (x < m ==> x % m == x)
  {
    var q := x / m;
    assert x == q * m + x % m;
    if q == 0 {
      assert x == x % m;
    } else {
      Multiple(q, m);
    }
  }

  lemma Multiple(q: int, m: int)
    requires 0 < m
    ensures q > 0 ==> q * m >= m
    ensures q < 0 ==> q * m <= -m
  {
  }

  lemma PadRandBound(cfg: Config, random: Byte)
    ensures PadRand(cfg, random) <= 0xFF
    ensures PadRand(cfg, random) == 0xFF <==> cfg.paddingMax >= 0x100 && random == 0xFF
  {
    if cfg.paddingMax > 0 {
      Remainder(random, cfg.paddingMax);
    }
  }

  /** The packet with count c is sealed under exactly the nonce of Nonce.RepeatsExactlyAt2To48, and its
      header is what is authenticated with it. */
  lemma SealedUnderNonce(a: Aead, key: seq<Byte>, payload: Packet, cfg: Config, initSeq: Uint16, initTs: Uint32,
                         c: Uint64, pad: seq<Byte>)
    requires Lawful(a)
    ensures var w := Wire(a, key, payload, cfg, Nonce.SeqOf(initSeq, c), Nonce.TsOf(initTs, c), pad);
            && |w| == 12 + |payload| + 16 + |pad| + 1
            && w[12..|w| - |pad| - 1] == a.seal(key, Nonce.Of(cfg.ssrc, initSeq, initTs, c), payload, w[..12])
  {
    hide Wire, Header, Nonce.SeqOf, Nonce.TsOf, Nonce.Bytes;
    WireParts(a, key, payload, cfg, Nonce.SeqOf(initSeq, c), Nonce.TsOf(initTs, c), pad);
  }

  /** A wrapped packet passes the RTP check exactly for the two media payload types. */
  lemma WrappedIsRtp(a: Aead, key: seq<Byte>, payload: Packet, cfg: Config, number: Uint16, ts: Uint32, pad: seq<Byte>)
    requires Lawful(a)
    ensures IsRtp(Wire(a, key, payload, cfg, number, ts, pad))
            <==> cfg.payloadType % 0x80 == 111 || cfg.payloadType % 0x80 == 96
  {
    WireParts(a, key, payload, cfg, number, ts, pad);
  }
}
