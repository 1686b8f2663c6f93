# Passkey and password sign-in view models, in Dafny

This project models the two view models of an Android demo app that signs users in through the
Jetpack credential manager with passwords (`LoginViewModel`) and with WebAuthn passkeys
(`LoginWithPasskeysViewModel`), and proves properties of that model.

- **Passkey protocol helpers** (pure functions):
  - `parseAuthData` slices the authenticator data down to the credential public key.
  - `toJavaPublicKey` takes the EC2 x/y coordinates from the stored COSE key.
  - `verifySignature` builds the signed message authenticatorData ‖ SHA-256(clientDataJSON).
  - The registration and assertion option records carry fixed wire constants.
- **Ceremony logic** (one class per view model): the fields `loginEvents` (everything emitted on
  `_loginEvents`) and `credentialManager` (created lazily). Each public method runs its guards in
  the source's order, calls the broker and appends the event the outcome maps to. A pure function
  states each outcome, and each method's `ensures` ties the new state to it.

Foreign code is a set of uninterpreted function-valued fields of `Platform.Platform`: SHA-256,
ECDSA verification, base64 and the CBOR decoder. The digest type fixes the length at 32 bytes.
The device's answers are method parameters (`Credentials.Device`): the email regex, whether the
credential manager can be created, and whether Play Services is enabled. So is what the
credential manager answers: `LoginWithPasskeysViewModel` takes the broker as a function from the
request record to its outcome, as well as the 32 SecureRandom challenge bytes, the UUID and the
clock; `LoginViewModel` takes the lookup's outcome and the password save's exception, if any, as
plain values.

Modules: `Wrappers`, `Bytes`, `Cbor`, `Platform`, `State` (`LoginEvent`), `Models`
(`UserData`), `AuthData`, `CoseKey`, `Signature`, `PasskeyMessages`, `PasskeyRequests`,
`Credentials`, `PasswordLogin`, `PasskeyLogin`.

## Where the code departs from the standards it follows

The model follows the code in each case below; lemmas state the gap.

- **Credential id length.** Section 6.5.1 of W3C WebAuthn Level 2 makes credentialIdLength a
  big-endian uint16 (bytes 53 and 54). `parseAuthData` reads only byte 54, and reads it as a
  signed Kotlin `Byte`.
  - It matches the standard slice exactly when byte 53 is 0 and byte 54 is below 0x80
    (`AuthData.ParseAuthDataAgreesWithStandardIff`).
  - A 257-byte credential id is cut to 1 byte (`AuthData.ParseAuthDataTruncatesLength257`).
  - Bytes 0x80..0xC8 give negative offsets, so the parse throws
    (`AuthData.ParseAuthDataThrowsOnNegativeOffset`). Bytes 0xC9..0xFF give offsets 0..54, so
    header bytes come back as key bytes (`AuthData.ParseAuthDataNegativeLowByteReadsHeader`).
  - The attested-credential-data flag is never checked.
- **Resident key request.** Section 5.4.4 of W3C WebAuthn Level 2 says a relying party should
  set `requireResidentKey` to true if and only if `residentKey` is "required". The code sends
  `requireResidentKey` false with `residentKey` "required". The effective requirement is still a
  discoverable credential (`PasskeyRequests.RegistrationRequiresResidentKey`).
- **COSE key checks.** The code does not check kty, alg or crv before reading labels -2 and -3
  (section 13.1.1 of RFC 8152), and neither does the model.
- **Swallowed password-save failure.** `LoginViewModel.createPasswordCredential` ignores a
  `CreateCredentialException` and still emits Success
  (`PasswordLogin.CreateFailureStillReportsSuccess`).
- **Stubbed account lookup.** Passkey sign-in looks the user up with a stub that always yields
  null, so it never reports Success (`PasskeyLogin.RetrieveNeverSucceeds`). The branch after the
  lookup is modelled on its own (`PasskeyLogin.AssertionOutcome`).
- **Attestation object cast.** Registration casts the decoded attestation object with
  `as Map<*, *>`, that is to `kotlin.collections.Map`. The decoder's map item
  `co.nstant.in.cbor.model.Map` does not implement that interface, so the cast throws
  `ClassCastException`, which the `catch (e: CreateCredentialException)` does not catch. Every
  public-key response therefore ends in an uncaught exception and no event
  (`PasskeyLogin.AttestedAuthData`), and passkey registration never reports Success
  (`PasskeyLogin.RegistrationNeverSucceeds`). The reading with the decoder's own map class, as
  `toJavaPublicKey` does it, is `PasskeyLogin.CborMapAuthData`.
- **Assertion and registration checks.** Section 7.2 of W3C WebAuthn Level 2 has the relying
  party check the client data's type, challenge and origin, the rpIdHash, the user-present and
  user-verified flags and the signature counter. `verifySignature` and `retrieveCredentials` check
  none of these; the challenge `generateFidoChallenge` returns is never compared with anything.
  The model reproduces this: the outcome depends only on the signature check.

## Model

| member | source | states |
|---|---|---|
| Bytes.SignedValue | app/src/main/java/com/me/devfest_passkeys/ui/viewModel/LoginWithPasskeyViewModel.kt:197 | `Byte.toInt()` of an octet lies in -128..127, is congruent to the octet mod 256, and is negative exactly for octets 0x80 and above |
| Bytes.BigEndianAppend | app/src/main/java/com/me/devfest_passkeys/ui/viewModel/LoginWithPasskeyViewModel.kt:251 | the unsigned big-endian value of a ++ b is value(a)·256^abs(b) + value(b) |
| Bytes.BigEndianLeadingZeros | app/src/main/java/com/me/devfest_passkeys/ui/viewModel/LoginWithPasskeyViewModel.kt:251 | leading zero octets do not change the value `BigInteger(1, …)` reads |
| Bytes.BigEndianBound | app/src/main/java/com/me/devfest_passkeys/ui/viewModel/LoginWithPasskeyViewModel.kt:251 | a value read from n octets is below 256^n |
| Cbor.ByteStringAt | app/src/main/java/com/me/devfest_passkeys/ui/viewModel/LoginWithPasskeyViewModel.kt:249-250 | the label lookup and byte-string cast on a decoder map succeed exactly when the item is a map holding a byte string at the key, and yield those bytes |
| AuthData.CopyOfRange | app/src/main/java/com/me/devfest_passkeys/ui/viewModel/LoginWithPasskeyViewModel.kt:195-197 | `copyOfRange(from, to)` succeeds exactly when 0 <= from <= to <= size, and yields the to - from bytes starting at from |
| AuthData.ParseAuthData | app/src/main/java/com/me/devfest_passkeys/ui/viewModel/LoginWithPasskeyViewModel.kt:190-198 | fails exactly when the buffer is shorter than 55 bytes or 55 + (byte 54 as a signed byte) is outside 0..size; otherwise yields the buffer from that offset to the end |
| AuthData.CredentialIdLength | app/src/main/java/com/me/devfest_passkeys/ui/viewModel/LoginWithPasskeyViewModel.kt:195-196 | the WebAuthn credentialIdLength is byte53·256 + byte54, below 65536 |
| AuthData.StandardCredentialPublicKey | app/src/main/java/com/me/devfest_passkeys/ui/viewModel/LoginWithPasskeyViewModel.kt:191-197 | the section 6.5.1 reading: succeeds exactly when 55 + the uint16 length fits, and the buffer then splits into header ++ credential id of that length ++ result |
| AuthData.ParseAuthDataFailureDependsOnLowByte | app/src/main/java/com/me/devfest_passkeys/ui/viewModel/LoginWithPasskeyViewModel.kt:195-197 | whether the parse fails depends only on the size and byte 54, never on rpIdHash, flags, signCount, aaguid or the high length byte |
| AuthData.ParseAuthDataIgnoresBytesBefore54 | app/src/main/java/com/me/devfest_passkeys/ui/viewModel/LoginWithPasskeyViewModel.kt:190-198 | when byte 54 is at most 0xC8 or is 0xFF, buffers that agree from byte 54 on parse to the same result |
| AuthData.ParseAuthDataThrowsOnNegativeOffset | app/src/main/java/com/me/devfest_passkeys/ui/viewModel/LoginWithPasskeyViewModel.kt:197 | for byte 54 from 0x80 to 0xC8 the offset is negative and the parse always throws |
| AuthData.ParseAuthDataNegativeLowByteReadsHeader | app/src/main/java/com/me/devfest_passkeys/ui/viewModel/LoginWithPasskeyViewModel.kt:197 | when byte 54 is 0x80 or more, a successful parse returns more than the bytes after offset 55, i.e. header bytes |
| AuthData.ParseAuthDataAgreesWithStandardIff | app/src/main/java/com/me/devfest_passkeys/ui/viewModel/LoginWithPasskeyViewModel.kt:190-198 | where the standard key slice exists, the code's result equals it if and only if byte 53 is 0 and byte 54 is below 0x80 |
| AuthData.ParseAuthDataTruncatesLength257 | app/src/main/java/com/me/devfest_passkeys/ui/viewModel/LoginWithPasskeyViewModel.kt:196-197 | with credentialIdLength 0x0101 the code returns the buffer from byte 56, the standard from byte 312, and the two differ |
| Bytes.BigEndian | app/src/main/java/com/me/devfest_passkeys/ui/viewModel/LoginWithPasskeyViewModel.kt:251 | `BigInteger(1, s)`: the empty string is 0 and the last octet is the value mod 256; with `BigEndianAppend`, `BigEndianBound` and `BigEndianLeadingZeros` it is the unsigned big-endian magnitude |
| CoseKey.CosePoint | app/src/main/java/com/me/devfest_passkeys/ui/viewModel/LoginWithPasskeyViewModel.kt:248-251 | a point exists exactly when the decoded item is a map with byte strings at -2 and -3; x is the unsigned big-endian value at -2, y the one at -3 |
| CoseKey.ToJavaPublicKey | app/src/main/java/com/me/devfest_passkeys/ui/viewModel/LoginWithPasskeyViewModel.kt:247-257 | the stored key resolves exactly when it base64- and CBOR-decodes to such a map, and then gives a secp256r1 key at that point |
| CoseKey.CoordinatesNeverSwapped | app/src/main/java/com/me/devfest_passkeys/ui/viewModel/LoginWithPasskeyViewModel.kt:249-251 | exchanging the values at labels -2 and -3 exchanges x and y |
| CoseKey.LeadingZerosKeepPoint | app/src/main/java/com/me/devfest_passkeys/ui/viewModel/LoginWithPasskeyViewModel.kt:251 | prefixing zero bytes to either coordinate string gives the same point |
| CoseKey.CoordinatesBoundedByLength | app/src/main/java/com/me/devfest_passkeys/ui/viewModel/LoginWithPasskeyViewModel.kt:251 | each coordinate is below 256^(length of its byte string) |
| Signature.SignatureBase | app/src/main/java/com/me/devfest_passkeys/ui/viewModel/LoginWithPasskeyViewModel.kt:266-268 | the signed message has length abs(authData) + 32, starts with the authenticator data and ends with SHA-256(clientDataJSON) |
| Signature.VerifySignature | app/src/main/java/com/me/devfest_passkeys/ui/viewModel/LoginWithPasskeyViewModel.kt:262-271 | the verdict is ecdsaVerify, under the given key, of the decoded signature over SignatureBase of the decoded authenticatorData and clientDataJSON |
| Signature.SignatureBaseUnambiguous | app/src/main/java/com/me/devfest_passkeys/ui/viewModel/LoginWithPasskeyViewModel.kt:267-268 | equal signed messages come from equal authenticator data and equal client-data digests |
| Signature.VerifySignatureDependsOnlyOnMessage | app/src/main/java/com/me/devfest_passkeys/ui/viewModel/LoginWithPasskeyViewModel.kt:262-271 | two responses that decode to the same authenticator data, client-data digest and signature get the same verdict under a key |
| PasskeyRequests.GenerateFidoChallenge | app/src/main/java/com/me/devfest_passkeys/ui/viewModel/LoginWithPasskeyViewModel.kt:179-184 | the challenge is the base64 encoding of the 32 random bytes |
| PasskeyRequests.RequestsCarryGeneratedChallenge | app/src/main/java/com/me/devfest_passkeys/ui/viewModel/LoginWithPasskeyViewModel.kt:148 | both request builders send the challenge generateFidoChallenge makes from the same random bytes |
| PasskeyRequests.GetCreatePasskeyRequest | app/src/main/java/com/me/devfest_passkeys/ui/viewModel/LoginWithPasskeyViewModel.kt:145-175 | registration options: the challenge is the base64 of the 32 challenge bytes, rp {"Devfest Passkeys", "google.com"}, user id = userId, name = displayName = email, the single parameter {"public-key", -7}, timeout 1800000, attestation "none", no excluded credentials, selection {platform, requireResidentKey false, residentKey required, userVerification required} |
| PasskeyRequests.AllowList | app/src/main/java/com/me/devfest_passkeys/ui/viewModel/LoginWithPasskeyViewModel.kt:280-286 | the allow-list has one descriptor per input id, in order: id = input[i], no transports, type "public-key" |
| PasskeyRequests.GetLoginPasskeyRequest | app/src/main/java/com/me/devfest_passkeys/ui/viewModel/LoginWithPasskeyViewModel.kt:273-289 | assertion options: the challenge is the base64 of the 32 challenge bytes, timeout 1800000, userVerification "required", rpId "google.com", and the allow-list above |
| PasskeyRequests.AllowListKeepsIds | app/src/main/java/com/me/devfest_passkeys/ui/viewModel/LoginWithPasskeyViewModel.kt:280-286 | reading the ids back from the allow-list gives exactly the input list |
| PasskeyRequests.EffectiveResidentKey | app/src/main/java/com/me/devfest_passkeys/ui/viewModel/LoginWithPasskeyViewModel.kt:167-172 | WebAuthn Level 2 section 5.4.4: a recognised residentKey value is the effective requirement |
| PasskeyRequests.RegistrationRequiresResidentKey | app/src/main/java/com/me/devfest_passkeys/ui/viewModel/LoginWithPasskeyViewModel.kt:167-172 | registration's effective resident-key requirement is "required" although requireResidentKey is false |
| Credentials.CheckAvailability | app/src/main/java/com/me/devfest_passkeys/ui/viewModel/LoginViewModel.kt:108-118 | an answer of true coincides with the field being set afterwards; a set field gives true and is unchanged; an unset one gives the platform's creation result |
| Credentials.AvailabilityIsSticky | app/src/main/java/com/me/devfest_passkeys/ui/viewModel/LoginViewModel.kt:108-118 | once the field is set, no series of further checks changes it |
| Credentials.AvailableOnceAvailableAlways | app/src/main/java/com/me/devfest_passkeys/ui/viewModel/LoginViewModel.kt:108-118 | after one check that answered true, every later check answers true whatever the platform says |
| Credentials.EnvironmentGuard | app/src/main/java/com/me/devfest_passkeys/ui/viewModel/LoginViewModel.kt:73-83 | both guards pass exactly when the manager and Play Services are available; a missing manager is reported first, with its message; otherwise a missing Play Services, with its message |
| Credentials.GetFailureEvent | app/src/main/java/com/me/devfest_passkeys/ui/viewModel/LoginViewModel.kt:53-58 | a GetCredentialException gives NoCredentials exactly for TYPE_NO_CREDENTIAL, otherwise Error(message), or Error("Unknown error") without a message |
| PasswordLogin.CredentialEvent | app/src/main/java/com/me/devfest_passkeys/ui/viewModel/LoginViewModel.kt:43-52 | a PasswordCredential gives Success(credential id); any other credential, or none, gives NoCredentials |
| PasswordLogin.RetrieveEvent | app/src/main/java/com/me/devfest_passkeys/ui/viewModel/LoginViewModel.kt:23-61 | the retrieve event: guard errors first; Success exactly for a password credential, with its id; NoCredentials exactly for another credential or TYPE_NO_CREDENTIAL; other failures give Error(message ?: "Unknown error") |
| PasswordLogin.CreateEvent | app/src/main/java/com/me/devfest_passkeys/ui/viewModel/LoginViewModel.kt:63-100 | sign-up: EmailError exactly for an invalid email; PasswordError exactly for a valid email with fewer than 6 characters; then the two guard errors; Success(email) exactly when all guards pass |
| PasswordLogin.CreateFailureStillReportsSuccess | app/src/main/java/com/me/devfest_passkeys/ui/viewModel/LoginViewModel.kt:87-98 | with all guards passed, a CreateCredentialException still yields Success(email), the same event as no exception |
| PasswordLogin.PasswordBoundary | app/src/main/java/com/me/devfest_passkeys/ui/viewModel/LoginViewModel.kt:69-72 | a 6-character password passes the guard; the same password cut to 5 gets PasswordError |
| PasswordLogin.LoginViewModel.constructor | app/src/main/java/com/me/devfest_passkeys/ui/viewModel/LoginViewModel.kt:15-19 | starts with no manager and no events |
| PasswordLogin.LoginViewModel.IsCredentialManagerAvailable | app/src/main/java/com/me/devfest_passkeys/ui/viewModel/LoginViewModel.kt:108-118 | answer and new field are those of CheckAvailability; no event is emitted |
| PasswordLogin.LoginViewModel.RetrieveCredentials | app/src/main/java/com/me/devfest_passkeys/ui/viewModel/LoginViewModel.kt:23-61 | appends exactly the RetrieveEvent for the device's answers and the broker outcome; the field becomes the checked one |
| PasswordLogin.LoginViewModel.CreatePasswordCredential | app/src/main/java/com/me/devfest_passkeys/ui/viewModel/LoginViewModel.kt:63-100 | appends exactly the CreateEvent; the manager is created only when the email and password guards have passed |
| PasskeyLogin.AttestedAuthData | app/src/main/java/com/me/devfest_passkeys/ui/viewModel/LoginWithPasskeyViewModel.kt:126-127 | the cast of the decoded attestation object to kotlin.collections.Map throws for every item, so no authData is ever obtained |
| PasskeyLogin.CborMapAuthData | app/src/main/java/com/me/devfest_passkeys/ui/viewModel/LoginWithPasskeyViewModel.kt:126-127 | with the decoder's map class, authData is found exactly when the attestation object decodes to a map with a byte string at "authData", and is those bytes |
| PasskeyLogin.RegistrationRecord | app/src/main/java/com/me/devfest_passkeys/ui/viewModel/LoginWithPasskeyViewModel.kt:128-129 | a UserData is built from authData exactly when parseAuthData succeeds; it holds the response id, the email, the base64 of the parsed key and the creation time |
| PasskeyLogin.RegistrationOutcome | app/src/main/java/com/me/devfest_passkeys/ui/viewModel/LoginWithPasskeyViewModel.kt:126-136 | after a public-key response: Success(email) exactly when authData was obtained and parseAuthData succeeds, an uncaught exception otherwise; no other event |
| PasskeyLogin.CreateOutcomeOf | app/src/main/java/com/me/devfest_passkeys/ui/viewModel/LoginWithPasskeyViewModel.kt:94-143 | registration: EmailError exactly for an invalid email, before any availability check; then the guard errors; a CreateCredentialException gives Error(message ?: ""); another response type crashes; a public-key response ends as RegistrationOutcome of the extracted authData; a crash only after createCredential returned |
| PasskeyLogin.StoredUserData | app/src/main/java/com/me/devfest_passkeys/ui/viewModel/LoginWithPasskeyViewModel.kt:70 | the account lookup by credential id always yields no user |
| PasskeyLogin.AssertionOutcome | app/src/main/java/com/me/devfest_passkeys/ui/viewModel/LoginWithPasskeyViewModel.kt:70-83 | no user data gives NoCredentials; an undecodable stored key crashes; Success(user's email) exactly when the signature verifies under the stored key; otherwise NoCredentials |
| PasskeyLogin.RetrieveOutcomeOf | app/src/main/java/com/me/devfest_passkeys/ui/viewModel/LoginWithPasskeyViewModel.kt:50-92 | sign-in: guard errors first; a GetCredentialException is mapped by GetFailureEvent; a public-key credential goes to AssertionOutcome with the looked-up user data; any other credential crashes the cast |
| PasskeyLogin.RetrieveNeverSucceeds | app/src/main/java/com/me/devfest_passkeys/ui/viewModel/LoginWithPasskeyViewModel.kt:68-75 | since the lookup always yields null, passkey sign-in never emits Success |
| PasskeyLogin.RegistrationNeverSucceeds | app/src/main/java/com/me/devfest_passkeys/ui/viewModel/LoginWithPasskeyViewModel.kt:114-141 | since the attestation-object cast always throws, passkey registration never emits Success |
| PasskeyLogin.CborMapReadingRegisters | app/src/main/java/com/me/devfest_passkeys/ui/viewModel/LoginWithPasskeyViewModel.kt:126-136 | with the decoder's map class, a response whose authData parses would register: Success(email) and a UserData |
| PasskeyLogin.LoginWithPasskeysViewModel.constructor | app/src/main/java/com/me/devfest_passkeys/ui/viewModel/LoginWithPasskeyViewModel.kt:40-44 | starts with no manager and no events |
| PasskeyLogin.LoginWithPasskeysViewModel.IsCredentialManagerAvailable | app/src/main/java/com/me/devfest_passkeys/ui/viewModel/LoginWithPasskeyViewModel.kt:206-216 | answer and new field are those of CheckAvailability; no event is emitted |
| PasskeyLogin.LoginWithPasskeysViewModel.RetrieveCredentials | app/src/main/java/com/me/devfest_passkeys/ui/viewModel/LoginWithPasskeyViewModel.kt:50-92 | appends exactly the events of RetrieveOutcomeOf: one event, or none on a crash; the field becomes the checked one |
| PasskeyLogin.LoginWithPasskeysViewModel.CreatePasswordCredential | app/src/main/java/com/me/devfest_passkeys/ui/viewModel/LoginWithPasskeyViewModel.kt:94-143 | appends exactly the events of CreateOutcomeOf; the manager is created only when the email guard has passed |

## Left out

- Base64, CBOR, SHA-256 and ECDSA are foreign code. `Platform.Platform`'s fields stand for them and are uninterpreted; nothing is claimed about their cryptographic sense. Malformed base64 and a provider's SignatureException are not modelled.
- KeyFactory and BouncyCastle: the secp256r1 parameters and any rejection of a point by `generatePublic` are not modelled. A decoded point always yields a key.
- CBOR map keys other than integers and text strings are not modelled: the code never looks them up.
- Gson JSON: the records stand for the JSON text. A broker response is taken as already parsed, so a JSON syntax error is not modelled.
- SecureRandom, UUID, Instant.now(): their values are parameters. A challenge's randomness and single use cannot be stated.
- PasskeyRequests.GenerateFidoChallenge: the SecureRandom draw is its 32-byte parameter; that the bytes are random is not stated.
- Coroutines, viewModelScope, SharedFlow: each call runs to completion before the next. An emit is an append. A SharedFlow with no subscriber drops values; that is not modelled.
- An uncaught exception ends the coroutine with no event (`Credentials.Outcome.Crash`). What the platform then does with the app is not modelled.
- `Log.e` calls, the Activity and the `createCredential` call of the password flow have no effect on the model's state.
- Persisting the registered UserData: the source builds the record and discards it, and so does the model.
- `password.count()` counts UTF-16 code units; the model counts the characters of a Dafny string.
- `UserData.creationDate` is a Kotlin Long; the model uses an unbounded int.
- The UI files (screens, MainActivity) and the build configuration are not part of this model. `LoginEvent.Idle` is never emitted by either view model.
