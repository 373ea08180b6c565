/** Byte strings, failure-compatible wrappers and the big-endian integer reading
    of a byte string, shared by the transaction model. */
module Base {

  type Byte = x: int | 0 <= x < 256
  type Bytes = seq<Byte>

  /** A byte string of exactly 20 bytes (an account address). */
  type Address = a: Bytes | |a| == 20 witness seq(20, _ => 0)

  /** A byte string of exactly 32 bytes (a Keccak digest). */
  type Hash32 = h: Bytes | |h| == 32 witness seq(32, _ => 0)

  function Repeat(b: Byte, n: nat): (r: Bytes)
    ensures |r| == n && forall i :: 0 <= i < n ==> r[i] == b
  {
    seq(n, _ => b)
  }

  datatype Option<+T> = None | Some(value: T)

  datatype Result<+T, +E> = Ok(value: T) | Err(error: E)

  datatype Outcome<+E> = Pass | Fail(error: E)

  function Pow256(n: nat): (p: nat)
    ensures p >= 1
  {
    if n == 0 then 1 else 256 * Pow256(n - 1)
  }

  /** Unsigned big-endian reading of a byte string (`utils.big_endian_to_int`):
      a string of n bytes reads as a number below 256^n. */
  function BigEndianToInt(s: Bytes): (x: nat)
    ensures x < Pow256(|s|)
  {
    if s == [] then 0 else BigEndianToInt(s[..|s| - 1]) * 256 + s[|s| - 1]
  }

  /** A base-256 numeral's last digit and its prefix are determined by its value. */
  lemma LastDigit(x: nat, a: Byte, y: nat, b: Byte)
    requires x * 256 + a == y * 256 + b
    ensures x == y && a == b
  {
  }

  /** Reading is injective on byte strings of one length. */
  lemma {:induction false} BigEndianInjective(a: Bytes, b: Bytes)
    requires |a| == |b|
    requires BigEndianToInt(a) == BigEndianToInt(b)
    ensures a == b
  {
    if a != [] {
      var ia, ib := a[..|a| - 1], b[..|b| - 1];
      var la, lb := a[|a| - 1], b[|b| - 1];
      LastDigit(BigEndianToInt(ia), la, BigEndianToInt(ib), lb);
      BigEndianInjective(ia, ib);
      assert a == ia + [la] && b == ib + [lb];
    }
  }
}
