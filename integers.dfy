/**
 * Swift's fixed-width integer types as seen by a UVC integer control:
 * their ranges, `T(clamping:)` / `Int(clamping:)`, the byte size
 * `MemoryLayout<T>.size`, and the little-endian two's-complement bytes a
 * value of `T` occupies in a transfer buffer.
 */
module Integers {

  /** An octet of a transfer buffer or descriptor. */
  type byte = x: int | 0 <= x < 0x100

  /** A `UInt16` field such as a selector index, `wValue` or `wIndex`. */
  type uint16 = x: int | 0 <= x < 0x1_0000

  /** Swift's `UInt16 << 8`: bits shifted past the top are discarded. */
  function ShiftLeft8(x: uint16): (r: uint16)
    ensures r % 0x100 == 0 && r / 0x100 == x % 0x100
  {
    (x % 0x100) * 0x100
  }

  /** The `BinaryInteger` types a control can be generic over. `Int64` is also Swift's `Int`. */
  datatype BinaryInteger = Int8 | Int16 | Int32 | Int64 | UInt8 | UInt16 | UInt32 | UInt64 {

    /** `MemoryLayout<T>.size`: the number of bytes of the value, and so of the transfer. */
    function Size(): (n: nat)
      ensures n == 1 || n == 2 || n == 4 || n == 8
    {
      match this
      case Int8 | UInt8 => 1
      case Int16 | UInt16 => 2
      case Int32 | UInt32 => 4
      case Int64 | UInt64 => 8
    }

    predicate Signed() {
      Int8? || Int16? || Int32? || Int64?
    }

    /** 2 to the power of the bit width. */
    function Modulus(): (m: nat)
      ensures m == Pow256(Size())
    {
      match this
      case Int8 | UInt8 => 0x100
      case Int16 | UInt16 => 0x1_0000
      case Int32 | UInt32 => 0x1_0000_0000
      case Int64 | UInt64 => 0x1_0000_0000_0000_0000
    }

    /** `T.min` */
    function Min(): int {
      if Signed() then -(Modulus() / 2) else 0
    }

    /** `T.max` */
    function Max(): int {
      if Signed() then Modulus() / 2 - 1 else Modulus() - 1
    }
  }

  predicate InRange(t: BinaryInteger, v: int) {
    t.Min() <= v <= t.Max()
  }

  function Pow256(k: nat): (p: nat)
    ensures p > 0
  {
    if k == 0 then 1 else 256 * Pow256(k - 1)
  }

  function Dist(a: int, b: int): nat {
    if a < b then b - a else a - b
  }

  /**
   * `T(clamping: v)`: the representable value of `t` nearest to `v`, so an
   * out-of-range value is pinned to `T.min` or `T.max` and never wraps.
   */
  function Clamp(t: BinaryInteger, v: int): (r: int)
    ensures InRange(t, r)
    ensures InRange(t, v) ==> r == v
    ensures forall w :: InRange(t, w) ==> Dist(r, v) <= Dist(w, v)
  {
    if v < t.Min() then t.Min() else if v > t.Max() then t.Max() else v
  }

  /**
   * `Int(clamping: v)` for a value `v` of type `t`: exact for every type but
   * `UInt64`, whose values above `Int.max` are pinned to `Int.max`.
   */
  function Widen(t: BinaryInteger, v: int): (r: int)
    requires InRange(t, v)
    ensures InRange(Int64, r) && InRange(t, r)
    ensures t != UInt64 ==> r == v
    ensures t == UInt64 ==> r == if v > Int64.Max() then Int64.Max() else v
  {
    Clamp(Int64, v)
  }

  /** The unsigned number whose little-endian bytes are `b`. */
  function LittleEndian(b: seq<byte>): (n: nat)
    ensures n < Pow256(|b|)
  {
    if b == [] then 0 else b[0] + 256 * LittleEndian(b[1..])
  }

  /** The `k` little-endian bytes of `n`. */
  function ToLittleEndian(n: nat, k: nat): (b: seq<byte>)
    requires n < Pow256(k)
    ensures |b| == k && LittleEndian(b) == n
  {
    if k == 0 then []
    else
      var rest := ToLittleEndian(n / 256, k - 1);
      assert ([n % 256] + rest)[1..] == rest;
      [n % 256] + rest
  }

  lemma {:induction false} ToLittleEndianOfLittleEndian(b: seq<byte>)
    ensures ToLittleEndian(LittleEndian(b), |b|) == b
  {
    if b != [] {
      ToLittleEndianOfLittleEndian(b[1..]);
      var rest := LittleEndian(b[1..]);
      DivModByte(b[0], rest);
      assert b == [b[0]] + b[1..];
    }
  }

  /** A low byte and the number above it are recovered by `% 256` and `/ 256`. */
  lemma DivModByte(lo: byte, hi: nat)
    ensures (lo + 256 * hi) % 256 == lo && (lo + 256 * hi) / 256 == hi
  {
  }

  /** The bytes a value of type `t` occupies in memory (little-endian, two's complement). */
  function Encode(t: BinaryInteger, v: int): (b: seq<byte>)
    requires InRange(t, v)
    ensures |b| == t.Size()
  {
    ToLittleEndian(if v < 0 then v + t.Modulus() else v, t.Size())
  }

  /** The value of type `t` that the bytes `b` hold (`pointee` of a `T` pointer). */
  function Decode(t: BinaryInteger, b: seq<byte>): (v: int)
    requires |b| == t.Size()
    ensures InRange(t, v)
  {
    var u := LittleEndian(b);
    if t.Signed() && u >= t.Modulus() / 2 then u - t.Modulus() else u
  }

  lemma DecodeEncode(t: BinaryInteger, v: int)
    requires InRange(t, v)
    ensures Decode(t, Encode(t, v)) == v
  {
  }

  lemma EncodeDecode(t: BinaryInteger, b: seq<byte>)
    requires |b| == t.Size()
    ensures Encode(t, Decode(t, b)) == b
  {
    ToLittleEndianOfLittleEndian(b);
  }

  /**
   * Writing `v` with `set(value:)` and reading it back with `current()`
   * gives `v` again whenever `v` is an `Int` within the range of `t`.
   */
  lemma SetThenCurrent(t: BinaryInteger, v: int)
    requires InRange(t, v) && InRange(Int64, v)
    ensures Widen(t, Decode(t, Encode(t, Clamp(t, v)))) == v
  {
    DecodeEncode(t, v);
  }

  /** The two clamping cases called out for the codec: -5 into UInt16, 100000 into Int16. */
  lemma ClampExamples()
    ensures Clamp(UInt16, -5) == 0
    ensures Clamp(Int16, 100000) == 32767
    ensures Clamp(UInt8, 0xFFFF) == 0xFF
  {
  }
}
