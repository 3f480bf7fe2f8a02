/**
 * The fixed-width building blocks of the binary wire format: little-endian
 * unsigned integers of a given byte count, the `uint32` length and count
 * prefixes with Go's wrap-around conversion, the `int64` DateTime in two's
 * complement, and reads from the front of a byte sequence that fail on
 * truncated input.
 */
module Wire {
  import opened Wrappers
  import opened Schema

  const Two32: nat := 0x1_0000_0000
  const Two63: nat := 0x8000_0000_0000_0000
  const Two64: nat := 0x1_0000_0000_0000_0000

  /** The decoding failures of the generated deserializer. */
  datatype DecodeError =
    | Truncated                  // fewer bytes remain than a read needs
    | InvalidType(typeName: string)  // the scalar type has no fixed width

  function Pow256(k: nat): (p: nat)
    ensures p >= 1
  {
    if k == 0 then 1 else 256 * Pow256(k - 1)
  }

  /** The `k` low-order bytes of `n`, least significant first. */
  function LittleEndian(n: nat, k: nat): (s: seq<Byte>)
    ensures |s| == k
  {
    if k == 0 then [] else [n % 256] + LittleEndian(n / 256, k - 1)
  }

  /** The number a little-endian byte sequence denotes. */
  function FromLittleEndian(s: seq<Byte>): (n: nat)
    ensures n < Pow256(|s|)
  {
    if |s| == 0 then 0 else s[0] + 256 * FromLittleEndian(s[1..])
  }

  lemma {:induction false} LittleEndianRoundTrip(n: nat, k: nat)
    requires n < Pow256(k)
    ensures FromLittleEndian(LittleEndian(n, k)) == n
  {
    if k > 0 {
      var s := LittleEndian(n, k);
      assert s[1..] == LittleEndian(n / 256, k - 1);
      assert n / 256 < Pow256(k - 1);
      LittleEndianRoundTrip(n / 256, k - 1);
    }
  }

  /** `binary.Write(buf, LittleEndian, uint32(n))`: Go's conversion keeps n mod 2^32. */
  function U32(n: nat): (s: seq<Byte>)
    ensures |s| == 4
  {
    LittleEndian(n % Two32, 4)
  }

  /** `binary.Write(buf, LittleEndian, n)` for an `int64`: two's complement in 8 bytes. */
  function I64(n: int): (s: seq<Byte>)
    ensures |s| == 8
  {
    LittleEndian(n % Two64, 8)
  }

  /** Go's `int64(n)` conversion: n wrapped into [-2^63, 2^63). */
  function WrapInt64(n: int): (r: int)
    ensures -(Two63 as int) <= r < Two63
    ensures (r - n) % Two64 == 0
  {
    var u := n % Two64;
    if u < Two63 then u else u - Two64
  }

  /**
   * Reading an `n`-byte block from the front of `data`: succeeds exactly when
   * `n` bytes remain, and yields the block and what follows it.
   */
  function ReadN(data: seq<Byte>, n: nat): (r: Result<(seq<Byte>, seq<Byte>), DecodeError>)
    ensures r.Ok? <==> n <= |data|
    ensures r.Ok? ==> r.value.0 + r.value.1 == data && |r.value.0| == n
    ensures r.Err? ==> r.error == Truncated
  {
    if n <= |data| then Ok((data[..n], data[n..])) else Err(Truncated)
  }

  /** `binary.Read(buf, LittleEndian, &x)` for a `uint32`. */
  function ReadU32(data: seq<Byte>): (r: Result<(nat, seq<Byte>), DecodeError>)
    ensures r.Ok? <==> 4 <= |data|
    ensures r.Ok? ==> r.value.0 < Two32 && r.value.1 == data[4..]
    ensures r.Err? ==> r.error == Truncated
  {
    match ReadN(data, 4)
    case Err(e) => Err(e)
    case Ok((block, rest)) =>
      assert Pow256(4) == Two32;
      Ok((FromLittleEndian(block), rest))
  }

  /** `binary.Read(buf, LittleEndian, &x)` for an `int64`. */
  function ReadI64(data: seq<Byte>): (r: Result<(int, seq<Byte>), DecodeError>)
    ensures r.Ok? <==> 8 <= |data|
    ensures r.Ok? ==> -(Two63 as int) <= r.value.0 < Two63 && r.value.1 == data[8..]
    ensures r.Err? ==> r.error == Truncated
  {
    match ReadN(data, 8)
    case Err(e) => Err(e)
    case Ok((block, rest)) =>
      assert Pow256(8) == Two64;
      var u := FromLittleEndian(block);
      Ok((if u < Two63 then u else u - Two64, rest))
  }

  lemma U32RoundTrip(n: nat, rest: seq<Byte>)
    requires n < Two32
    ensures ReadU32(U32(n) + rest) == Ok((n, rest))
  {
    assert Pow256(4) == Two32;
    LittleEndianRoundTrip(n, 4);
    assert (U32(n) + rest)[..4] == U32(n);
    assert (U32(n) + rest)[4..] == rest;
  }

  lemma I64RoundTrip(n: int, rest: seq<Byte>)
    requires -(Two63 as int) <= n < Two63
    ensures ReadI64(I64(n) + rest) == Ok((n, rest))
  {
    assert Pow256(8) == Two64;
    LittleEndianRoundTrip(n % Two64, 8);
    assert (I64(n) + rest)[..8] == I64(n);
    assert (I64(n) + rest)[8..] == rest;
  }

  /** A length prefix wraps: a payload of 2^32 bytes is announced as empty. */
  lemma U32Wraps(n: nat)
    ensures U32(n + Two32) == U32(n)
  {
    assert (n + Two32) % Two32 == n % Two32;
  }
}
