/**
 * The platform code the passkey view model calls but does not own:
 * java.security (SHA-256, `SHA256withECDSA`), the base64 helpers and the CBOR
 * decoder. Each is an uninterpreted function, so nothing here says anything
 * about its cryptographic sense; the model only fixes what the code relies
 * on, such as the 32-byte digest length.
 */
module Platform {

  import opened Wrappers
  import opened Bytes
  import opened Cbor

  /** A SHA-256 digest: `MessageDigest.getInstance("SHA-256").digest(…)` is always 32 bytes. */
  type Digest = s: Bytes | |s| == 32 witness seq(32, i => 0)

  /** `java.security.spec.ECPoint`: affine coordinates, both non-negative here. */
  datatype EcPoint = EcPoint(x: nat, y: nat)

  /** The `java.security.PublicKey` built from an `ECPublicKeySpec`. */
  datatype PublicKey = EcPublicKey(curveName: string, w: EcPoint)

  datatype Platform = Platform(
    /** `MessageDigest.getInstance("SHA-256").digest(message)` */
    sha256: Bytes -> Digest,
    /** `Signature.getInstance("SHA256withECDSA")`: initVerify(key), update(message), verify(signature) */
    ecdsaVerify: (PublicKey, Bytes, Bytes) -> bool,
    /** `ByteArray.b64Encode()` */
    b64Encode: Bytes -> string,
    /** `String.b64Decode()` */
    b64Decode: string -> Bytes,
    /** `CborDecoder.decode(bytes).first()`: None when decoding throws or yields no item. */
    cborFirst: Bytes -> Option<Item>
  )
}
