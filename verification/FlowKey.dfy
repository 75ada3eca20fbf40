// The flow key: a 32-bit hash of an IP packet that both directions of one TCP or UDP
// conversation share.
module FlowKey {
  import opened Basics

  type Key = nat

  const GOLDEN := 0x9e37_79b9
  const HASH_MAX := 64

  /** Bitwise exclusive or. */
  function Xor(a: nat, b: nat): nat
    decreases a + b
  {
    if a == 0 && b == 0 then 0 else 2 * Xor(a / 2, b / 2) + (a % 2 + b % 2) % 2
  }

  /** h = h*131 + byte over the first bytes: the key of anything that is not IPv4. */
  function ByteHash(pkt: Packet, n: nat): nat
    requires n <= |pkt|
  {
    if n == 0 then 0 else (ByteHash(pkt, n - 1) * 131 + pkt[n - 1]) % TWO_32
  }

  predicate IsIPv4(pkt: Packet) {
    |pkt| >= 20 && pkt[0] / 16 == 4
  }

  function HeaderLen(pkt: Packet): nat
    requires |pkt| > 0
  {
    pkt[0] % 16 * 4
  }

  predicate HasPorts(pkt: Packet) {
    |pkt| >= 20 && |pkt| >= HeaderLen(pkt) + 4 && (pkt[9] == 6 || pkt[9] == 17)
  }

  function Source(pkt: Packet): Uint32
    requires |pkt| >= 20
  {
    Uint32At(pkt, 12)
  }

  function Destination(pkt: Packet): Uint32
    requires |pkt| >= 20
  {
    Uint32At(pkt, 16)
  }

  function SourcePort(pkt: Packet): Uint16
    requires HasPorts(pkt)
  {
    Uint16At(pkt, HeaderLen(pkt))
  }

  function DestinationPort(pkt: Packet): Uint16
    requires HasPorts(pkt)
  {
    Uint16At(pkt, HeaderLen(pkt) + 2)
  }

  /** (low << 16 | high) * GOLDEN, wrapping. */
  function OrderedPortMix(low: Uint16, high: Uint16): nat {
    (low * TWO_16 + high) * GOLDEN % TWO_32
  }

  function PortMix(a: Uint16, b: Uint16): nat {
    if a > b then OrderedPortMix(b, a) else OrderedPortMix(a, b)
  }

  function AddressMix(source: Uint32, destination: Uint32): nat {
    Xor(source, destination)
  }

  function ProtocolMix(h: nat, protocol: Byte): nat {
    Xor(h, protocol * GOLDEN % TWO_32)
  }

  function Of(pkt: Packet): Key {
    if !IsIPv4(pkt) then ByteHash(pkt, if |pkt| < HASH_MAX then |pkt| else HASH_MAX)
    else
      var h := ProtocolMix(AddressMix(Source(pkt), Destination(pkt)), pkt[9]);
      if HasPorts(pkt) then Xor(h, PortMix(SourcePort(pkt), DestinationPort(pkt))) else h
  }

  /** `reply` answers `request`: same protocol, addresses and ports swapped. The two may
      have different header lengths. */
  predicate IsReply(reply: Packet, request: Packet) {
    && IsIPv4(reply) && IsIPv4(request) && reply[9] == request[9]
    && Source(reply) == Destination(request) && Destination(reply) == Source(request)
    && (HasPorts(reply) <==> HasPorts(request))
    && (HasPorts(request) ==>
          SourcePort(reply) == DestinationPort(request) && DestinationPort(reply) == SourcePort(request))
  }

  lemma ReplySharesKey(reply: Packet, request: Packet)
    requires IsReply(reply, request)
    ensures Of(reply) == Of(request)
  {
    hide AddressMix, ProtocolMix, Xor, PortMix, Source, Destination, SourcePort, DestinationPort, HasPorts;
    AddressMixSymmetric(Source(reply), Source(request));
    if HasPorts(request) {
      PortMixSymmetric(SourcePort(reply), SourcePort(request));
    }
  }

  lemma AddressMixSymmetric(a: Uint32, b: Uint32)
    ensures AddressMix(a, b) == AddressMix(b, a)
  {
    XorSymmetric(a, b);
  }

  lemma {:induction false} XorSymmetric(a: nat, b: nat)
    ensures Xor(a, b) == Xor(b, a)
    decreases a + b
  {
    if a != 0 || b != 0 {
      XorSymmetric(a / 2, b / 2);
    }
  }

  lemma PortMixSymmetric(a: Uint16, b: Uint16)
    ensures PortMix(a, b) == PortMix(b, a)
  {
    hide OrderedPortMix;
  }

  // ---------- Different conversations of two hosts have different keys ----------

  /** The two packets run between the same two addresses over the same protocol, with ports. */
  predicate SameHosts(a: Packet, b: Packet) {
    && IsIPv4(a) && IsIPv4(b) && a[9] == b[9] && HasPorts(a) && HasPorts(b)
    && (|| (Source(a) == Source(b) && Destination(a) == Destination(b))
        || (Source(a) == Destination(b) && Destination(a) == Source(b)))
  }

  /** Between the same two ports, in either direction. */
  predicate SamePorts(a: Packet, b: Packet)
    requires HasPorts(a) && HasPorts(b)
  {
    || (SourcePort(a) == SourcePort(b) && DestinationPort(a) == DestinationPort(b))
    || (SourcePort(a) == DestinationPort(b) && DestinationPort(a) == SourcePort(b))
  }

  lemma {:induction false} XorCancels(h: nat, x: nat, y: nat)
    requires Xor(h, x) == Xor(h, y)
    ensures x == y
    decreases h + x + y
  {
    hide Xor;
    if h != 0 || x != 0 || y != 0 {
      XorHalves(h, x);
      XorHalves(h, y);
      XorCancels(h / 2, x / 2, y / 2);
      SameHalves(h % 2, x, y);
    }
  }

  lemma SameHalves(bit: nat, x: nat, y: nat)
    requires bit < 2 && x / 2 == y / 2 && (bit + x % 2) % 2 == (bit + y % 2) % 2
    ensures x == y
  {
  }

  lemma XorHalves(a: nat, b: nat)
    ensures Xor(a, b) / 2 == Xor(a / 2, b / 2) && Xor(a, b) % 2 == (a % 2 + b % 2) % 2
  {
    var rest := Xor(a / 2, b / 2);
    if a == 0 && b == 0 {
      assert rest == 0;
    } else {
      Halves(Xor(a, b), rest, (a % 2 + b % 2) % 2);
    }
  }

  lemma Halves(x: nat, rest: nat, bit: nat)
    requires bit < 2 && x == 2 * rest + bit
    ensures x / 2 == rest && x % 2 == bit
  {
  }

  // GOLDEN * GOLDEN_INVERSE == 1 + TWO_32 * GOLDEN_CARRY
  const GOLDEN_INVERSE := 0x144c_bc89
  const GOLDEN_CARRY := (GOLDEN * GOLDEN_INVERSE - 1) / TWO_32

  /** Multiplying by an odd number loses nothing. */
  lemma GoldenInjective(x: int, y: int)
    requires 0 <= x < TWO_32 && 0 <= y < TWO_32 && x * GOLDEN % TWO_32 == y * GOLDEN % TWO_32
    ensures x == y
  {
    var d, k := x - y, x * GOLDEN / TWO_32 - y * GOLDEN / TWO_32;
    assert d * GOLDEN == TWO_32 * k;
    assert GOLDEN * GOLDEN_INVERSE == 1 + TWO_32 * GOLDEN_CARRY;
    var m := k * GOLDEN_INVERSE - GOLDEN_CARRY * d;
    assert d == TWO_32 * m;
    SmallMultiple(d, m);
  }

  lemma SmallMultiple(d: int, m: int)
    requires d == TWO_32 * m && -TWO_32 < d < TWO_32
    ensures d == 0
  {
    assert m >= 1 ==> d >= TWO_32;
    assert m <= -1 ==> d <= -TWO_32;
  }

  lemma PortMixInjective(a: Uint16, b: Uint16, c: Uint16, d: Uint16)
    ensures PortMix(a, b) == PortMix(c, d) <==> (a == c && b == d) || (a == d && b == c)
  {
    var low, high := if a > b then b else a, if a > b then a else b;
    var low', high' := if c > d then d else c, if c > d then c else d;
    if PortMix(a, b) == PortMix(c, d) {
      GoldenInjective(low * TWO_16 + high, low' * TWO_16 + high');
    }
  }

  /** Two TCP or UDP packets between the same two hosts have the same key exactly when they run
      between the same two ports: conversations of one host pair are told apart. */
  lemma ConversationsToldApart(a: Packet, b: Packet)
    requires SameHosts(a, b)
    ensures Of(a) == Of(b) <==> SamePorts(a, b)
  {
    hide AddressMix, ProtocolMix, Xor, PortMix, Source, Destination, SourcePort, DestinationPort, HasPorts;
    AddressMixSymmetric(Source(a), Destination(a));
    var h := ProtocolMix(AddressMix(Source(a), Destination(a)), a[9]);
    var p, q := PortMix(SourcePort(a), DestinationPort(a)), PortMix(SourcePort(b), DestinationPort(b));
    PortMixInjective(SourcePort(a), DestinationPort(a), SourcePort(b), DestinationPort(b));
    if Of(a) == Of(b) {
      XorCancels(h, p, q);
    }
  }

  /** TCP and UDP between the same hosts and ports are told apart as well. */
  lemma ProtocolsToldApart(a: Packet, b: Packet)
    requires IsIPv4(a) && IsIPv4(b) && HasPorts(a) && HasPorts(b) && a[9] != b[9]
    requires Source(a) == Source(b) && Destination(a) == Destination(b)
    requires SourcePort(a) == SourcePort(b) && DestinationPort(a) == DestinationPort(b)
    ensures Of(a) != Of(b)
  {
    hide AddressMix, Xor, PortMix, Source, Destination, SourcePort, DestinationPort;
    var h := AddressMix(Source(a), Destination(a));
    var p := PortMix(SourcePort(a), DestinationPort(a));
    if Of(a) == Of(b) {
      XorSymmetric(ProtocolMix(h, a[9]), p);
      XorSymmetric(ProtocolMix(h, b[9]), p);
      XorCancels(p, ProtocolMix(h, a[9]), ProtocolMix(h, b[9]));
      XorCancels(h, a[9] * GOLDEN % TWO_32, b[9] * GOLDEN % TWO_32);
      GoldenInjective(a[9], b[9]);
    }
  }

  /** Of other hosts only the exclusive or of the two addresses counts: over the same protocol and
      ports, two host pairs are confused if and only if these agree. */
  lemma HostsConfusedIff(a: Packet, b: Packet)
    requires IsIPv4(a) && IsIPv4(b) && a[9] == b[9] && HasPorts(a) && HasPorts(b) && SamePorts(a, b)
    ensures Of(a) == Of(b) <==> Xor(Source(a), Destination(a)) == Xor(Source(b), Destination(b))
  {
    hide Xor, PortMix, Source, Destination, SourcePort, DestinationPort, HasPorts;
    var x, y := Xor(Source(a), Destination(a)), Xor(Source(b), Destination(b));
    var m := a[9] * GOLDEN % TWO_32;
    var p := PortMix(SourcePort(a), DestinationPort(a));
    PortMixSymmetric(SourcePort(a), DestinationPort(a));
    assert PortMix(SourcePort(b), DestinationPort(b)) == p;
    if Of(a) == Of(b) {
      XorSymmetric(Xor(x, m), p);
      XorSymmetric(Xor(y, m), p);
      XorCancels(p, Xor(x, m), Xor(y, m));
      XorSymmetric(x, m);
      XorSymmetric(y, m);
      XorCancels(m, x, y);
    }
  }

  // ---------- The key has 32 bits ----------

  function Pow2(k: nat): nat {
    if k == 0 then 1 else 2 * Pow2(k - 1)
  }

  lemma {:induction false} XorBelow(a: nat, b: nat, k: nat)
    requires a < Pow2(k) && b < Pow2(k)
    ensures Xor(a, b) < Pow2(k)
  {
    if k > 0 {
      XorHalves(a, b);
      XorBelow(a / 2, b / 2, k - 1);
    } else {
      assert Xor(0, 0) == 0;
    }
  }

  lemma Pow32()
    ensures Pow2(32) == TWO_32
  {
    assert Pow2(8) == 0x100;
    assert Pow2(16) == 0x1_0000;
    assert Pow2(24) == 0x100_0000;
  }

  lemma KeyBelow(pkt: Packet)
    ensures Of(pkt) < TWO_32
  {
    if IsIPv4(pkt) {
      Pow32();
      var x := AddressMix(Source(pkt), Destination(pkt));
      XorBelow(Source(pkt), Destination(pkt), 32);
      XorBelow(x, pkt[9] * GOLDEN % TWO_32, 32);
      if HasPorts(pkt) {
        XorBelow(ProtocolMix(x, pkt[9]), PortMix(SourcePort(pkt), DestinationPort(pkt)), 32);
      }
      hide Xor, Pow2, Source, Destination, SourcePort, DestinationPort;
    }
  }
}
