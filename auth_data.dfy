/**
 * `parseAuthData`: the slice of the authenticator data that the registration
 * ceremony takes to be the COSE-encoded credential public key.
 *
 * Authenticator data (section 6.1 of W3C WebAuthn Level 2) starts with
 * rpIdHash (32 bytes), flags (1), signCount (4); the attested credential data
 * (section 6.5.1) follows with aaguid (16), a big-endian uint16
 * credentialIdLength (bytes 53 and 54), the credential id, and then the
 * credential public key. The code reads the length from byte 54 alone, as a
 * signed Kotlin `Byte`; `StandardCredentialPublicKey` is the section 6.5.1
 * reading, kept beside it for comparison.
 */
module AuthData {

  import opened Wrappers
  import opened Bytes

  const CredentialIdLengthOffset := 53
  const CredentialIdOffset := 55

  /**
   * Kotlin's `ByteArray.copyOfRange(from, to)`: the bytes in [from, to), or
   * an exception (IndexOutOfBounds or IllegalArgument) unless
   * 0 <= from <= to <= size.
   */
  function CopyOfRange(buffer: Bytes, from: int, to: int): (r: Option<Bytes>)
    ensures r.Some? <==> 0 <= from <= to <= |buffer|
    ensures r.Some? ==> |r.value| == to - from
    ensures r.Some? ==> forall i :: 0 <= i < |r.value| ==> r.value[i] == buffer[from + i]
  {
    if 0 <= from <= to <= |buffer| then Some(buffer[from..to]) else None
  }

  /** `parseAuthData` as written: None stands for the exception `copyOfRange` throws. */
  function ParseAuthData(buffer: Bytes): (r: Option<Bytes>)
    ensures r.Some? <==> |buffer| >= 55 && 0 <= 55 + SignedValue(buffer[54]) <= |buffer|
    ensures r.Some? ==> r.value == buffer[55 + SignedValue(buffer[54])..]
  {
    match CopyOfRange(buffer, CredentialIdLengthOffset, CredentialIdOffset)
    case None => None
    case Some(credentialIdLength) =>
      CopyOfRange(buffer, CredentialIdOffset + SignedValue(credentialIdLength[1]), |buffer|)
  }

  /** credentialIdLength as section 6.5.1 of WebAuthn Level 2 defines it: a big-endian uint16. */
  function CredentialIdLength(buffer: Bytes): (n: nat)
    requires |buffer| >= 55
    ensures n == (buffer[53] as int) * 256 + buffer[54] as int
    ensures n < 65536
  {
    assert buffer[53..55] == [buffer[53], buffer[54]];
    BigEndianPair(buffer[53], buffer[54]);
    BigEndian(buffer[53..55])
  }

  /** The credential public key where section 6.5.1 places it: after the whole credential id. */
  function StandardCredentialPublicKey(buffer: Bytes): (r: Option<Bytes>)
    ensures r.Some? <==> |buffer| >= 55 && 55 + (buffer[53] as int) * 256 + buffer[54] as int <= |buffer|
    ensures r.Some? ==>
      var credentialId := buffer[55..55 + CredentialIdLength(buffer)];
      |credentialId| == CredentialIdLength(buffer) && buffer == buffer[..55] + credentialId + r.value
  {
    if |buffer| < 55 || 55 + CredentialIdLength(buffer) > |buffer| then None
    else
      var start := 55 + CredentialIdLength(buffer);
      assert buffer == buffer[..55] + buffer[55..start] + buffer[start..];
      Some(buffer[start..])
  }

  /**
   * Whether the parse fails depends on the buffer's size and byte 54 alone:
   * not on rpIdHash, flags (the attested-credential-data flag is never
   * checked), signCount, aaguid, nor the high byte of credentialIdLength.
   */
  lemma ParseAuthDataFailureDependsOnLowByte(a: Bytes, b: Bytes)
    requires |a| == |b|
    requires |a| >= 55 ==> a[54] == b[54]
    ensures ParseAuthData(a).Some? <==> ParseAuthData(b).Some?
  {
  }

  /**
   * When byte 54 is at most 0xC8, or is 0xFF, the result never depends on
   * bytes 0..53, so in particular not on the high byte of credentialIdLength:
   * below 0x80 the key starts after byte 54, from 0x80 to 0xC8 both parses
   * throw, and at 0xFF (offset 54) the key starts at byte 54 itself.
   */
  lemma ParseAuthDataIgnoresBytesBefore54(a: Bytes, b: Bytes)
    requires |a| == |b|
    requires forall i :: 54 <= i < |a| ==> a[i] == b[i]
    requires |a| >= 55 ==> a[54] <= 200 || a[54] == 255
    ensures ParseAuthData(a) == ParseAuthData(b)
  {
    if |a| >= 55 {
      var off := 55 + SignedValue(a[54]);
      if 0 <= off <= |a| {
        assert forall i :: 0 <= i < |a| - off ==> a[off..][i] == a[off + i] == b[off + i] == b[off..][i];
        assert a[off..] == b[off..];
      }
    }
  }

  /**
   * For byte 54 from 0x80 to 0xC8, `toInt()` gives -128..-56, so the offset
   * `55 + toInt()` is negative and `copyOfRange` throws, whatever the rest
   * of the buffer holds.
   */
  lemma ParseAuthDataThrowsOnNegativeOffset(buffer: Bytes)
    requires |buffer| >= 55 && 128 <= buffer[54] <= 200
    ensures ParseAuthData(buffer).None?
  {
  }

  /**
   * When byte 54 is 0x80 or more, `toInt()` makes the offset fall below 55
   * (only 0xC9..0xFF leave it at 0..54), so a successful parse hands back
   * bytes of the header as well: the result is longer than everything after
   * the credentialIdLength field.
   */
  lemma ParseAuthDataNegativeLowByteReadsHeader(buffer: Bytes)
    requires |buffer| >= 55 && buffer[54] >= 128
    ensures ParseAuthData(buffer).Some? ==> |ParseAuthData(buffer).value| > |buffer| - 55
  {
  }

  /**
   * Where section 6.5.1 has a credential public key, the code finds the same
   * slice exactly when the length's high byte is zero and its low byte is
   * below 0x80 (otherwise `toInt()` reads it as negative).
   */
  lemma ParseAuthDataAgreesWithStandardIff(buffer: Bytes)
    requires StandardCredentialPublicKey(buffer).Some?
    ensures ParseAuthData(buffer) == StandardCredentialPublicKey(buffer) <==> buffer[53] == 0 && buffer[54] < 128
  {
    var standard := 55 + CredentialIdLength(buffer);
    var written := 55 + SignedValue(buffer[54]);
    if ParseAuthData(buffer) == StandardCredentialPublicKey(buffer) {
      assert |buffer[written..]| == |buffer[standard..]|;
      assert written == standard;
      assert buffer[54] < 128;
    }
  }

  /**
   * The truncation for a 257-byte credential id (credentialIdLength
   * 0x0101): the code starts the key 1 byte into the credential id instead
   * of after all 257 bytes.
   */
  lemma ParseAuthDataTruncatesLength257(buffer: Bytes)
    requires |buffer| >= 55 + 257
    requires buffer[53] == 1 && buffer[54] == 1
    ensures ParseAuthData(buffer) == Some(buffer[56..])
    ensures StandardCredentialPublicKey(buffer) == Some(buffer[312..])
    ensures ParseAuthData(buffer) != StandardCredentialPublicKey(buffer)
  {
    assert |buffer[56..]| != |buffer[312..]|;
  }
}
