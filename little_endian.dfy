/** Unsigned little-endian integers in byte buffers, as the `buffer` package's
    `readUInt16LE`, `readUInt32LE` and `writeUInt32LE` handle them: a read or a
    write that would go past the end of the buffer, or a value that does not fit,
    is a `RangeError`. */
module LittleEndian {
  import opened Wrappers

  type byte = x: int | 0 <= x < 256

  /** The `RangeError` the buffer methods throw. */
  datatype BufferError = OutOfRange

  /** 256 to the power n: the number of distinct unsigned values of n bytes. */
  function Pow256(n: nat): (p: nat)
    ensures p >= 1
  {
    if n == 0 then 1 else 256 * Pow256(n - 1)
  }

  /** The unsigned integer whose bytes, least significant first, are `b`. */
  function FromLE(b: seq<byte>): nat
  {
    if b == [] then 0 else b[0] + 256 * FromLE(b[1..])
  }

  /** The low `n` bytes of `x`, least significant first. */
  function ToLE(x: nat, n: nat): (b: seq<byte>)
    ensures |b| == n
  {
    if n == 0 then [] else [x % 256] + ToLE(x / 256, n - 1)
  }

  /** n bytes hold values below 256^n only. */
  lemma {:induction false} FromLEBound(b: seq<byte>)
    ensures FromLE(b) < Pow256(|b|)
  {
    if b != [] {
      FromLEBound(b[1..]);
    }
  }

  /** Writing a value that fits in n bytes and reading the n bytes back gives the value. */
  lemma {:induction false} FromLEToLE(x: nat, n: nat)
    requires x < Pow256(n)
    ensures FromLE(ToLE(x, n)) == x
  {
    if n > 0 {
      var b := ToLE(x, n);
      assert b[1..] == ToLE(x / 256, n - 1);
      FromLEToLE(x / 256, n - 1);
    }
  }

  /** Splitting `low + 256 * high` into its lowest byte and the rest. */
  lemma SplitLowByte(low: byte, high: nat)
    ensures (low + 256 * high) % 256 == low
    ensures (low + 256 * high) / 256 == high
  {
  }

  /** Reading n bytes and writing the value back gives the same n bytes. */
  lemma {:induction false} ToLEFromLE(b: seq<byte>)
    ensures ToLE(FromLE(b), |b|) == b
  {
    if b != [] {
      SplitLowByte(b[0], FromLE(b[1..]));
      ToLEFromLE(b[1..]);
    }
  }

  /** `buf.readUIntLE(offset, width)`: the unsigned little-endian value of the
      `width` bytes at `offset`, or `OutOfRange` when they run past the end. */
  function ReadUIntLE(buf: seq<byte>, offset: nat, width: nat): (r: Result<nat, BufferError>)
    ensures r.Success? <==> offset + width <= |buf|
    ensures r.Success? ==> r.value < Pow256(width)
    ensures r.Success? ==> ToLE(r.value, width) == buf[offset..offset + width]
  {
    if offset + width <= |buf| then
      var field := buf[offset..offset + width];
      FromLEBound(field);
      ToLEFromLE(field);
      Success(FromLE(field))
    else
      Failure(OutOfRange)
  }

  /** `buf.writeUIntLE(value, 0, width)` into a fresh buffer of `width` bytes:
      the bytes written, or `OutOfRange` when the value does not fit. */
  function WriteUIntLE(value: nat, width: nat): (r: Result<seq<byte>, BufferError>)
    ensures r.Success? <==> value < Pow256(width)
    ensures r.Success? ==> |r.value| == width && ReadUIntLE(r.value, 0, width) == Success(value)
  {
    if value < Pow256(width) then
      var bytes := ToLE(value, width);
      FromLEToLE(value, width);
      assert bytes[0..width] == bytes;
      Success(bytes)
    else
      Failure(OutOfRange)
  }
}
