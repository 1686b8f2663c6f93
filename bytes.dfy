/**
 * Octets as the JVM holds them, and the two ways the passkey code reads them:
 * as a signed Kotlin `Byte` and as the magnitude of an unsigned big-endian
 * `BigInteger`.
 */
module Bytes {

  /** One octet, 0..255. */
  type byte = x: int | 0 <= x < 256

  type Bytes = seq<byte>

  /**
   * Kotlin's `Byte.toInt()`: the JVM stores an octet as a two's-complement
   * `Byte`, so octets 0x80..0xFF become negative.
   */
  function SignedValue(b: byte): (v: int)
    ensures -128 <= v <= 127
    ensures v % 256 == b
    ensures v >= 0 <==> b < 128
  {
    if b < 128 then b else b - 256
  }

  function Pow256(n: nat): (p: nat)
    ensures p >= 1
  {
    if n == 0 then 1 else 256 * Pow256(n - 1)
  }

  /** `BigInteger(1, s)`: the octets read as an unsigned big-endian number. */
  function BigEndian(s: Bytes): (n: nat)
    ensures s == [] ==> n == 0
    ensures s != [] ==> n % 256 == s[|s| - 1]
  {
    if s == [] then 0 else BigEndian(s[..|s| - 1]) * 256 + s[|s| - 1]
  }

  /** A big-endian number fits in as many octets as it is written with. */
  lemma {:induction false} BigEndianBound(s: Bytes)
    ensures BigEndian(s) < Pow256(|s|)
  {
    if s != [] {
      var init := s[..|s| - 1];
      BigEndianBound(init);
      assert BigEndian(init) + 1 <= Pow256(|init|);
      calc {
        BigEndian(s);
      ==
        BigEndian(init) * 256 + s[|s| - 1];
      <
        (BigEndian(init) + 1) * 256;
      <=
        Pow256(|init|) * 256;
      ==
        Pow256(|s|);
      }
    }
  }

  /** Writing `a` in front of `b` adds `a`'s value shifted past all of `b`. */
  lemma {:induction false} BigEndianAppend(a: Bytes, b: Bytes)
    ensures BigEndian(a + b) == BigEndian(a) * Pow256(|b|) + BigEndian(b)
  {
    if b == [] {
      assert a + b == a;
    } else {
      var init := b[..|b| - 1];
      var last := b[|b| - 1];
      assert (a + b)[..|a + b| - 1] == a + init;
      assert (a + b)[|a + b| - 1] == last;
      BigEndianAppend(a, init);
      calc {
        BigEndian(a + b);
      ==
        BigEndian(a + init) * 256 + last;
      ==
        (BigEndian(a) * Pow256(|init|) + BigEndian(init)) * 256 + last;
      ==
        BigEndian(a) * (Pow256(|init|) * 256) + (BigEndian(init) * 256 + last);
      ==
        BigEndian(a) * Pow256(|b|) + BigEndian(b);
      }
    }
  }

  ghost predicate AllZero(z: Bytes) {
    forall i :: 0 <= i < |z| ==> z[i] == 0
  }

  lemma {:induction false} BigEndianOfZeros(z: Bytes)
    requires AllZero(z)
    ensures BigEndian(z) == 0
  {
    if z != [] {
      BigEndianOfZeros(z[..|z| - 1]);
    }
  }

  /** Leading zero octets do not change the value `BigInteger(1, …)` reads. */
  lemma BigEndianLeadingZeros(z: Bytes, s: Bytes)
    requires AllZero(z)
    ensures BigEndian(z + s) == BigEndian(s)
  {
    BigEndianAppend(z, s);
    BigEndianOfZeros(z);
  }

  /** Two octets read as a big-endian uint16. */
  lemma BigEndianPair(hi: byte, lo: byte)
    ensures BigEndian([hi, lo]) == hi * 256 + lo
  {
    assert [hi, lo][..1] == [hi];
    assert [hi][..0] == [];
    assert BigEndian([hi]) == hi;
  }
}
