/**
 * `verifySignature`: an assertion signature is checked over
 * authenticatorData ‖ SHA-256(clientDataJSON), as section 7.2 of W3C
 * WebAuthn Level 2 (steps 19 and 20) prescribes.
 */
module Signature {

  import opened Bytes
  import opened Platform
  import opened PasskeyMessages

  /** The signed message: the raw authenticator data, then the 32-byte client-data hash, no separator. */
  function SignatureBase(p: Platform, authenticatorData: Bytes, clientDataJSON: Bytes): (r: Bytes)
    ensures |r| == |authenticatorData| + 32
    ensures r[..|authenticatorData|] == authenticatorData
    ensures r[|authenticatorData|..] == p.sha256(clientDataJSON)
  {
    authenticatorData + p.sha256(clientDataJSON)
  }

  /** `verifySignature(responseData, publicKey)`; the base64 fields are decoded first. */
  function VerifySignature(p: Platform, responseData: GetPasskeyResponseData, publicKey: PublicKey): (r: bool)
    ensures r <==> p.ecdsaVerify(publicKey,
                                 SignatureBase(p, p.b64Decode(responseData.response.authenticatorData),
                                                  p.b64Decode(responseData.response.clientDataJSON)),
                                 p.b64Decode(responseData.response.signature))
  {
    var response := responseData.response;
    p.ecdsaVerify(
      publicKey,
      SignatureBase(p, p.b64Decode(response.authenticatorData), p.b64Decode(response.clientDataJSON)),
      p.b64Decode(response.signature))
  }

  /**
   * The signed message can be split back: because the digest always has 32
   * bytes, equal messages come from equal authenticator data and equal digests.
   */
  lemma SignatureBaseUnambiguous(p: Platform, a1: Bytes, c1: Bytes, a2: Bytes, c2: Bytes)
    requires SignatureBase(p, a1, c1) == SignatureBase(p, a2, c2)
    ensures a1 == a2 && p.sha256(c1) == p.sha256(c2)
  {
    var m := SignatureBase(p, a1, c1);
    assert |a1| == |m| - 32 == |a2|;
    assert a1 == m[..|a1|] == a2;
  }

  /**
   * The verdict depends on the public key, the signed message and the
   * signature alone: two responses that decode to the same message and
   * signature get the same answer, whatever else differs (credential id,
   * user handle).
   */
  lemma VerifySignatureDependsOnlyOnMessage(p: Platform, r1: GetPasskeyResponseData, r2: GetPasskeyResponseData, key: PublicKey)
    requires p.b64Decode(r1.response.authenticatorData) == p.b64Decode(r2.response.authenticatorData)
    requires p.sha256(p.b64Decode(r1.response.clientDataJSON)) == p.sha256(p.b64Decode(r2.response.clientDataJSON))
    requires p.b64Decode(r1.response.signature) == p.b64Decode(r2.response.signature)
    ensures VerifySignature(p, r1, key) == VerifySignature(p, r2, key)
  {
  }
}
