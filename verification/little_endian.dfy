/**
 * Little-endian byte encoding of unsigned integers, as Rust's
 * `from_le_bytes`/`to_le_bytes` and the `toArrayLike(Buffer, "le", n)` of the
 * client tests produce and read it: byte `i` carries the digit of weight
 * `256^i`.
 */
module LittleEndian {
  import opened Primitives

  /** `256^n`, the number of values `n` bytes can hold. */
  function Limit(n: nat): (r: nat)
    ensures r >= 1
  {
    if n == 0 then 1 else 256 * Limit(n - 1)
  }

  /**
   * `from_le_bytes`: the unsigned value of a little-endian byte string, byte
   * `i` weighing `256^i`; `n` bytes always hold a value below `256^n`.
   */
  function FromLe(bs: seq<u8>): (r: nat)
    ensures r < Limit(|bs|)
  {
    if bs == [] then 0 else bs[0] as nat + 256 * FromLe(bs[1..])
  }

  /** `to_le_bytes` for a value of `n` bytes: its `n` least significant base-256 digits. */
  function ToLe(x: nat, n: nat): (bs: seq<u8>)
    ensures |bs| == n
  {
    if n == 0 then [] else [(x % 256) as u8] + ToLe(x / 256, n - 1)
  }

  /** Decoding the encoding of a value that fits in `n` bytes gives the value back. */
  lemma {:induction false} FromToLe(x: nat, n: nat)
    requires x < Limit(n)
    ensures FromLe(ToLe(x, n)) == x
  {
    if n > 0 {
      var bs := ToLe(x, n);
      assert bs[1..] == ToLe(x / 256, n - 1);
      FromToLe(x / 256, n - 1);
    }
  }

  /** Encoding the value of an `n`-byte string gives the string back. */
  lemma {:induction false} ToFromLe(bs: seq<u8>)
    ensures ToLe(FromLe(bs), |bs|) == bs
  {
    if bs != [] {
      var x := FromLe(bs);
      assert x % 256 == bs[0] as int && x / 256 == FromLe(bs[1..]);
      ToFromLe(bs[1..]);
    }
  }

  /** Two byte strings of one length with the same value are equal: `from_le_bytes` is injective. */
  lemma FromLeInjective(a: seq<u8>, b: seq<u8>)
    requires |a| == |b| && FromLe(a) == FromLe(b)
    ensures a == b
  {
    ToFromLe(a);
    ToFromLe(b);
  }

  /** The byte widths of `u16`, `u32`, `u64` and `u128` hold exactly those types' values. */
  lemma LimitValues()
    ensures Limit(2) == U16_LIMIT && Limit(4) == U32_LIMIT && Limit(8) == U64_LIMIT
    ensures Limit(16) == U128_LIMIT
  {
    assert Limit(2) == U16_LIMIT;
    assert Limit(4) == U32_LIMIT;
    assert Limit(8) == U64_LIMIT;
    assert Limit(16) == U128_LIMIT;
  }

  /** `u16::from_le_bytes([lo, hi])`. */
  function U16FromLe(lo: u8, hi: u8): (r: u16)
    ensures r as int == FromLe([lo, hi])
  {
    assert FromLe([hi]) == hi as int by { assert [hi][1..] == []; }
    assert [lo, hi][1..] == [hi];
    (lo as int + 256 * hi as int) as u16
  }
}
