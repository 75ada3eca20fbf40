// Machine integers and byte strings shared by the packet modules.
// Go's fixed-width values are integers in their exact range; every operation
// that can wrap writes the wrap-around out.
module Basics {

  datatype Option<+T> = None | Some(value: T)

  type Byte = x: int | 0 <= x < 0x100
  type Uint16 = x: int | 0 <= x < 0x1_0000
  type Uint32 = x: int | 0 <= x < 0x1_0000_0000
  type Uint64 = x: int | 0 <= x < 0x1_0000_0000_0000_0000

  type Packet = seq<Byte>

  const TWO_16 := 0x1_0000
  const TWO_31 := 0x8000_0000
  const TWO_32 := 0x1_0000_0000
  const TWO_48 := 0x1_0000_0000_0000
  const TWO_64 := 0x1_0000_0000_0000_0000

  const MILLISECOND := 1_000_000
  const SECOND := 1_000_000_000

  /** Big-endian bytes of a 16-bit value. */
  function BigEndian16(v: Uint16): (b: seq<Byte>)
    ensures |b| == 2
  {
    [v / 0x100, v % 0x100]
  }

  /** Big-endian bytes of a 32-bit value. */
  function BigEndian32(v: Uint32): (b: seq<Byte>)
    ensures |b| == 4
  {
    var high: int := v / 0x100 / 0x100;
    [high / 0x100, high % 0x100, v / 0x100 % 0x100, v % 0x100]
  }

  function Uint16At(b: seq<Byte>, i: nat): Uint16
    requires i + 2 <= |b|
  {
    var hi: int, lo: int := b[i], b[i + 1];
    hi * 0x100 + lo
  }

  function Uint32At(b: seq<Byte>, i: nat): Uint32
    requires i + 4 <= |b|
  {
    var b0: int, b1: int, b2: int, b3: int := b[i], b[i + 1], b[i + 2], b[i + 3];
    b0 * 0x100_0000 + b1 * 0x1_0000 + b2 * 0x100 + b3
  }

  lemma Read16(b: seq<Byte>, i: nat, v: Uint16)
    requires i + 2 <= |b| && b[i..i + 2] == BigEndian16(v)
    ensures Uint16At(b, i) == v
  {
    assert b[i..i + 2][0] == b[i] && b[i..i + 2][1] == b[i + 1];
  }

  lemma Read32(b: seq<Byte>, i: nat, v: Uint32)
    requires i + 4 <= |b| && b[i..i + 4] == BigEndian32(v)
    ensures Uint32At(b, i) == v
  {
    var s := b[i..i + 4];
    assert s[0] == b[i] && s[1] == b[i + 1] && s[2] == b[i + 2] && s[3] == b[i + 3];
    Digits(v);
  }

  lemma Digits(v: int)
    ensures var high := v / 0x100 / 0x100;
            v == high / 0x100 * 0x100_0000 + high % 0x100 * 0x1_0000 + v / 0x100 % 0x100 * 0x100 + v % 0x100
  {
  }

  lemma Write32(b: seq<Byte>, i: nat)
    requires i + 4 <= |b|
    ensures b[i..i + 4] == BigEndian32(Uint32At(b, i))
  {
    var s := b[i..i + 4];
    assert s[0] == b[i] && s[1] == b[i + 1] && s[2] == b[i + 2] && s[3] == b[i + 3];
    Undigits(b[i], b[i + 1], b[i + 2], b[i + 3]);
  }

  lemma Undigits(b0: int, b1: int, b2: int, b3: int)
    requires 0 <= b0 < 0x100 && 0 <= b1 < 0x100 && 0 <= b2 < 0x100 && 0 <= b3 < 0x100
    ensures var v := b0 * 0x100_0000 + b1 * 0x1_0000 + b2 * 0x100 + b3;
            && v / 0x100 / 0x100 / 0x100 == b0 && v / 0x100 / 0x100 % 0x100 == b1
            && v / 0x100 % 0x100 == b2 && v % 0x100 == b3
  {
    var v := b0 * 0x100_0000 + b1 * 0x1_0000 + b2 * 0x100 + b3;
    assert v / 0x100 == b0 * 0x1_0000 + b1 * 0x100 + b2;
    assert v / 0x100 / 0x100 == b0 * 0x100 + b1;
  }

  // ---------- Any element of a non-empty set, as a Go map iteration picks its next key ----------

  ghost function Choose<T>(s: set<T>): (x: T)
    requires s != {}
    ensures x in s
  {
    var x :| x in s;
    x
  }

  lemma Element<T>(s: set<T>) returns (x: T)
    requires s != {}
    ensures x in s
  {
    x :| x in s;
  }

  method AnyOf<T(==)>(s: set<T>) returns (x: T)
    requires s != {}
    ensures x in s
  {
    x :| x in s;
  }
}
