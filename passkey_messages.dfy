/**
 * The request and response records exchanged with the credential broker, as
 * the passkey view model builds and reads them (CreatePasskeyRequest,
 * GetPasskeyRequest, CreatePasskeyResponseData, GetPasskeyResponseData).
 * Their JSON text is not modelled; a field called `type` on the wire is
 * `credentialType` here, since `type` is a Dafny keyword. Binary fields stay
 * base64 strings, as on the wire.
 */
module PasskeyMessages {

  datatype Rp = Rp(name: string, id: string)

  datatype User = User(id: string, name: string, displayName: string)

  datatype PubKeyCredParams = PubKeyCredParams(credentialType: string, alg: int)

  datatype AuthenticatorSelection = AuthenticatorSelection(
    authenticatorAttachment: string,
    requireResidentKey: bool,
    residentKey: string,
    userVerification: string)

  /** A credential descriptor, as in `allowCredentials` (and `excludeCredentials`). */
  datatype AllowCredentials = AllowCredentials(id: string, transports: seq<string>, credentialType: string)

  /** Registration options (PublicKeyCredentialCreationOptions). */
  datatype CreatePasskeyRequest = CreatePasskeyRequest(
    challenge: string,
    rp: Rp,
    user: User,
    pubKeyCredParams: seq<PubKeyCredParams>,
    timeout: int,
    attestation: string,
    excludeCredentials: seq<AllowCredentials>,
    authenticatorSelection: AuthenticatorSelection)

  /** Assertion options (PublicKeyCredentialRequestOptions). */
  datatype GetPasskeyRequest = GetPasskeyRequest(
    challenge: string,
    timeout: int,
    userVerification: string,
    rpId: string,
    allowCredentials: seq<AllowCredentials>)

  /** The fields of a registration response the code reads: the credential id and the attestation object. */
  datatype AttestationResponse = AttestationResponse(attestationObject: string)
  datatype CreatePasskeyResponseData = CreatePasskeyResponseData(id: string, response: AttestationResponse)

  /** The fields of an assertion response the code reads. */
  datatype AssertionResponse = AssertionResponse(clientDataJSON: string, authenticatorData: string, signature: string)
  datatype GetPasskeyResponseData = GetPasskeyResponseData(id: string, response: AssertionResponse)
}
