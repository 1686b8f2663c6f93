/**
 * `getCreatePasskeyRequest`, `getLoginPasskeyRequest` and
 * `generateFidoChallenge`: pure record construction with the fixed policy
 * constants of the wire contract.
 */
module PasskeyRequests {

  import opened Bytes
  import opened Platform
  import opened PasskeyMessages

  const RelyingPartyId := "google.com"
  const RelyingPartyName := "Devfest Passkeys"
  const PublicKeyType := "public-key"
  /** ES256 (ECDSA w/ SHA-256), section 8.1 of RFC 8152. */
  const Es256 := -7
  /** 30 minutes, in milliseconds. */
  const TimeoutMillis := 1800000
  const ChallengeLength := 32

  /** `generateFidoChallenge`: the 32 bytes SecureRandom fills in, base64-encoded. */
  function GenerateFidoChallenge(p: Platform, randomBytes: Bytes): (r: string)
    requires |randomBytes| == ChallengeLength
    ensures r == p.b64Encode(randomBytes)
  {
    p.b64Encode(randomBytes)
  }

  /** Both ceremonies send the challenge `generateFidoChallenge` makes from the same random bytes. */
  lemma RequestsCarryGeneratedChallenge(p: Platform, randomBytes: Bytes, userId: string, email: string,
                                        allowed: seq<string>)
    requires |randomBytes| == ChallengeLength
    ensures GetCreatePasskeyRequest(p, randomBytes, userId, email).challenge == GenerateFidoChallenge(p, randomBytes)
    ensures GetLoginPasskeyRequest(p, randomBytes, allowed).challenge == GenerateFidoChallenge(p, randomBytes)
  {
  }

  function GetCreatePasskeyRequest(p: Platform, randomBytes: Bytes, userId: string, email: string): (r: CreatePasskeyRequest)
    requires |randomBytes| == ChallengeLength
    ensures r.challenge == p.b64Encode(randomBytes)
    ensures r.rp == Rp(RelyingPartyName, RelyingPartyId)
    ensures r.user.id == userId && r.user.name == email && r.user.displayName == email
    ensures r.pubKeyCredParams == [PubKeyCredParams(PublicKeyType, Es256)]
    ensures r.timeout == TimeoutMillis && r.attestation == "none"
    ensures r.excludeCredentials == []
    ensures r.authenticatorSelection == AuthenticatorSelection("platform", false, "required", "required")
  {
    CreatePasskeyRequest(
      challenge := GenerateFidoChallenge(p, randomBytes),
      rp := Rp(name := RelyingPartyName, id := RelyingPartyId),
      user := User(id := userId, name := email, displayName := email),
      pubKeyCredParams := [PubKeyCredParams(credentialType := PublicKeyType, alg := Es256)],
      timeout := TimeoutMillis,
      attestation := "none",
      excludeCredentials := [],
      authenticatorSelection := AuthenticatorSelection(
        authenticatorAttachment := "platform",
        requireResidentKey := false,
        residentKey := "required",
        userVerification := "required"))
  }

  /** `allowedCredential.map { AllowCredentials(id = it, transports = listOf(), type = "public-key") }` */
  function AllowList(ids: seq<string>): (r: seq<AllowCredentials>)
    ensures |r| == |ids|
    ensures forall i :: 0 <= i < |ids| ==> r[i] == AllowCredentials(ids[i], [], PublicKeyType)
  {
    if ids == [] then [] else [AllowCredentials(ids[0], [], PublicKeyType)] + AllowList(ids[1..])
  }

  function GetLoginPasskeyRequest(p: Platform, randomBytes: Bytes, allowedCredential: seq<string>): (r: GetPasskeyRequest)
    requires |randomBytes| == ChallengeLength
    ensures r.challenge == p.b64Encode(randomBytes)
    ensures r.timeout == TimeoutMillis && r.userVerification == "required" && r.rpId == RelyingPartyId
    ensures |r.allowCredentials| == |allowedCredential|
    ensures forall i :: 0 <= i < |allowedCredential| ==>
      r.allowCredentials[i] == AllowCredentials(allowedCredential[i], [], PublicKeyType)
  {
    GetPasskeyRequest(
      challenge := GenerateFidoChallenge(p, randomBytes),
      timeout := TimeoutMillis,
      userVerification := "required",
      rpId := RelyingPartyId,
      allowCredentials := AllowList(allowedCredential))
  }

  /** The credential ids an allow-list names, in order. */
  function IdsOf(descriptors: seq<AllowCredentials>): (ids: seq<string>)
    ensures |ids| == |descriptors|
  {
    if descriptors == [] then [] else [descriptors[0].id] + IdsOf(descriptors[1..])
  }

  /** The allow-list keeps exactly the given ids, in the given order. */
  lemma {:induction false} AllowListKeepsIds(ids: seq<string>)
    ensures IdsOf(AllowList(ids)) == ids
  {
    if ids != [] {
      AllowListKeepsIds(ids[1..]);
      assert AllowList(ids)[1..] == AllowList(ids[1..]);
    }
  }

  /**
   * The resident-key requirement an authenticator acts on, by section 5.4.4 of
   * W3C WebAuthn Level 2: a recognised `residentKey` value wins; otherwise
   * `requireResidentKey` decides between required and discouraged.
   */
  function EffectiveResidentKey(selection: AuthenticatorSelection): (r: string)
    ensures r in {"discouraged", "preferred", "required"}
    ensures selection.residentKey in {"discouraged", "preferred", "required"} ==> r == selection.residentKey
  {
    if selection.residentKey in {"discouraged", "preferred", "required"} then selection.residentKey
    else if selection.requireResidentKey then "required"
    else "discouraged"
  }

  /**
   * Registration asks for a discoverable credential (a passkey) even though
   * `requireResidentKey` is false, because `residentKey` is "required".
   */
  lemma RegistrationRequiresResidentKey(p: Platform, randomBytes: Bytes, userId: string, email: string)
    requires |randomBytes| == ChallengeLength
    ensures EffectiveResidentKey(GetCreatePasskeyRequest(p, randomBytes, userId, email).authenticatorSelection) == "required"
    ensures !GetCreatePasskeyRequest(p, randomBytes, userId, email).authenticatorSelection.requireResidentKey
  {
  }
}
