// The RTP sequence number and timestamp of the n-th wrapped packet, which with the
// SSRC make up its AEAD nonce.
module Nonce {
  import opened Basics

  const TICKS := 960

  /** uint16 arithmetic: initSeq + uint16(c). */
  function SeqOf(initSeq: Uint16, c: Uint64): Uint16 {
    (initSeq + c % TWO_16) % TWO_16
  }

  /** uint32 arithmetic: initTs + uint32(c) * 960 + uint32(c >> 16). */
  function TsOf(initTs: Uint32, c: Uint64): Uint32 {
    (initTs + c % TWO_32 * TICKS % TWO_32 + c / TWO_16 % TWO_32) % TWO_32
  }

  function Bytes(ssrc: Uint32, number: Uint16, ts: Uint32): (n: seq<Byte>)
    ensures |n| == 12
  {
    BigEndian32(ssrc) + BigEndian16(number) + [0, 0] + BigEndian32(ts)
  }

  function Of(ssrc: Uint32, initSeq: Uint16, initTs: Uint32, c: Uint64): seq<Byte> {
    Bytes(ssrc, SeqOf(initSeq, c), TsOf(initTs, c))
  }

  // The timestamp advances by STRIDE for each full cycle of the sequence number;
  // STRIDE is odd, so it has an inverse modulo 2^32.
  const STRIDE := 62_914_561   // 960 * 2^16 + 1
  const INVERSE := 4_232_052_737
  const QUOTIENT := 61_992_961

  lemma StrideInvertible(x: int, k: int)
    requires x * STRIDE == k * TWO_32
    ensures x == (k * INVERSE - x * QUOTIENT) * TWO_32
  {
    assert STRIDE * INVERSE == 1 + QUOTIENT * TWO_32;
  }

  /** The timestamp depends on the packet count only through the high part (the number of
      full sequence cycles) and the low 16 bits. */
  lemma TsLinear(initTs: Uint32, c: Uint64)
    ensures TsOf(initTs, c) == (initTs + c / TWO_16 * STRIDE + c % TWO_16 * TICKS) % TWO_32
  {
    var x, y := c % TWO_32 * TICKS, c / TWO_16;
    assert c == c / TWO_32 * TWO_32 + c % TWO_32;
    assert y * STRIDE + c % TWO_16 * TICKS == c * TICKS + y;
    DropMultiples(initTs + x % TWO_32 + y % TWO_32, initTs + c * TICKS + y,
                  x / TWO_32 + y / TWO_32 + c / TWO_32 * TICKS);
  }

  lemma DropMultiples(a: int, b: int, k: int)
    requires b == a + k * TWO_32
    ensures a % TWO_32 == b % TWO_32
  {
  }

  lemma SameResidue(a: int, b: int) returns (k: int)
    requires a % TWO_32 == b % TWO_32
    ensures a - b == k * TWO_32
  {
    k := a / TWO_32 - b / TWO_32;
  }

  /** Two packet counts give the same nonce exactly when they differ by a multiple of 2^48,
      whatever the initial values: no repeat among the first 2^48 packets, and packet
      c + 2^48 is the first to repeat packet c. */
  lemma RepeatsExactlyAt2To48(ssrc: Uint32, initSeq: Uint16, initTs: Uint32, c: Uint64, d: Uint64)
    ensures Of(ssrc, initSeq, initTs, c) == Of(ssrc, initSeq, initTs, d) <==> c % TWO_48 == d % TWO_48
  {
    hide SeqOf, TsOf, Bytes;
    BytesInjective(ssrc, SeqOf(initSeq, c), TsOf(initTs, c), SeqOf(initSeq, d), TsOf(initTs, d));
    SeqRepeats(initSeq, c, d);
    if c % TWO_16 == d % TWO_16 {
      TsRepeats(initTs, c, d);
      SplitMod48(c, d);
    }
  }

  lemma SeqRepeats(initSeq: Uint16, c: Uint64, d: Uint64)
    ensures SeqOf(initSeq, c) == SeqOf(initSeq, d) <==> c % TWO_16 == d % TWO_16
  {
  }

  lemma TsRepeats(initTs: Uint32, c: Uint64, d: Uint64)
    requires c % TWO_16 == d % TWO_16
    ensures TsOf(initTs, c) == TsOf(initTs, d) <==> c / TWO_16 % TWO_32 == d / TWO_16 % TWO_32
  {
    var a, b := c / TWO_16, d / TWO_16;
    TsLinear(initTs, c);
    TsLinear(initTs, d);
    var tc := initTs + a * STRIDE + c % TWO_16 * TICKS;
    var td := initTs + b * STRIDE + d % TWO_16 * TICKS;
    hide TsOf;
    if tc % TWO_32 == td % TWO_32 {
      var k := SameResidue(tc, td);
      StrideInvertible(a - b, k);
      DropMultiples(b, a, k * INVERSE - (a - b) * QUOTIENT);
    }
    if a % TWO_32 == b % TWO_32 {
      var k := SameResidue(a, b);
      DropMultiples(td, tc, k * STRIDE);
    }
  }

  lemma SplitMod48(c: Uint64, d: Uint64)
    requires c % TWO_16 == d % TWO_16
    ensures c % TWO_48 == d % TWO_48 <==> c / TWO_16 % TWO_32 == d / TWO_16 % TWO_32
  {
    High(c);
    High(d);
  }

  lemma High(c: Uint64)
    ensures c % TWO_48 == c / TWO_16 % TWO_32 * TWO_16 + c % TWO_16
  {
  }

  lemma BytesInjective(ssrc: Uint32, n: Uint16, t: Uint32, n': Uint16, t': Uint32)
    ensures Bytes(ssrc, n, t) == Bytes(ssrc, n', t') ==> n == n' && t == t'
  {
    var b, b' := Bytes(ssrc, n, t), Bytes(ssrc, n', t');
    assert b[4..6] == BigEndian16(n) && b'[4..6] == BigEndian16(n');
    assert b[8..12] == BigEndian32(t) && b'[8..12] == BigEndian32(t');
    Read16(b, 4, n);
    Read16(b', 4, n');
    Read32(b, 8, t);
    Read32(b', 8, t');
  }

  /** Two senders with different SSRCs never use the same nonce, whatever they have sent. */
  lemma SendersDiffer(ssrc: Uint32, initSeq: Uint16, initTs: Uint32, c: Uint64,
                      ssrc': Uint32, initSeq': Uint16, initTs': Uint32, c': Uint64)
    requires ssrc != ssrc'
    ensures Of(ssrc, initSeq, initTs, c) != Of(ssrc', initSeq', initTs', c')
  {
    var b, b' := Of(ssrc, initSeq, initTs, c), Of(ssrc', initSeq', initTs', c');
    assert b[0..4] == BigEndian32(ssrc) && b'[0..4] == BigEndian32(ssrc');
    hide SeqOf, TsOf, Bytes, BigEndian32;
    Read32(b, 0, ssrc);
    Read32(b', 0, ssrc');
  }

  // ---------- Writers that share one state ----------

  // Writers take the count under the lock (Take) and send with it later (Send).
  datatype Event = Take(writer: nat) | Send(writer: nat)
  datatype Trace = Begin | After(before: Trace, last: Event)
  datatype Writers = Writers(count: nat, held: map<nat, nat>, sent: seq<nat>)

  ghost function Run(t: Trace): Writers {
    match t
    case Begin => Writers(0, map[], [])
    case After(t', e) =>
      var w := Run(t');
      match e {
        case Take(i) => if i in w.held then w else Writers(w.count + 1, w.held[i := w.count], w.sent)
        case Send(i) => if i in w.held then Writers(w.count, w.held - {i}, w.sent + [w.held[i]]) else w
      }
  }

  ghost predicate Distinct(s: seq<nat>) {
    forall i, j | 0 <= i < j < |s| :: s[i] != s[j]
  }

  ghost predicate Valid(w: Writers) {
    && (forall i | i in w.held :: w.held[i] < w.count && w.held[i] !in w.sent)
    && (forall i, j | i in w.held && j in w.held && i != j :: w.held[i] != w.held[j])
    && (forall c | c in w.sent :: c < w.count)
    && Distinct(w.sent)
  }

  lemma {:induction false} RunValid(t: Trace)
    ensures Valid(Run(t))
  {
    if t.After? {
      RunValid(t.before);
    }
  }

  /** The nonce of the n-th packet; the counter itself is a uint64. */
  function Nth(ssrc: Uint32, initSeq: Uint16, initTs: Uint32, n: nat): seq<Byte> {
    Of(ssrc, initSeq, initTs, n % TWO_64)
  }

  /** In every interleaving of writers, as long as at most 2^48 packets were numbered, the
      packets sent carry pairwise distinct nonces. */
  lemma SentNoncesDistinct(t: Trace, ssrc: Uint32, initSeq: Uint16, initTs: Uint32)
    requires Run(t).count <= TWO_48
    ensures var sent := Run(t).sent;
            forall i, j | 0 <= i < j < |sent| :: Nth(ssrc, initSeq, initTs, sent[i]) != Nth(ssrc, initSeq, initTs, sent[j])
  {
    hide Of, Run;
    RunValid(t);
    var sent := Run(t).sent;
    forall i, j | 0 <= i < j < |sent|
      ensures Nth(ssrc, initSeq, initTs, sent[i]) != Nth(ssrc, initSeq, initTs, sent[j])
    {
      assert sent[i] in sent && sent[j] in sent;
      RepeatsExactlyAt2To48(ssrc, initSeq, initTs, sent[i], sent[j]);
    }
  }
}
