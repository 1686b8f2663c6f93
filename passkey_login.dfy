/**
 * `LoginWithPasskeysViewModel`: passkey registration and sign-in. The
 * environment guards and the broker call are the same as in the password
 * view model (registration has no password-length guard); what
 * follows the broker differs. Registration digs the credential public key out
 * of the attestation object and builds a `UserData`; sign-in would look the
 * user up and check the assertion signature, but the lookup is a stub that
 * always finds nobody.
 */
module PasskeyLogin {

  import opened Wrappers
  import opened Bytes
  import opened Cbor
  import opened Platform
  import opened State
  import opened Models
  import opened PasskeyMessages
  import opened PasskeyRequests
  import opened AuthData
  import opened CoseKey
  import opened Signature
  import opened Credentials

  const AuthDataLabel := TextLabel("authData")

  /**
   * `authData` of the attestation object as the code reads it. The decoded
   * item is cast with `as Map<*, *>`, i.e. to `kotlin.collections.Map`
   * (`java.util.Map`); the decoder's map item `co.nstant.in.cbor.model.Map` is
   * a `DataItem` and does not implement it, so the cast throws
   * `ClassCastException` for every item the decoder can return, and a failed
   * decode throws before it. The lookup after the cast is never reached.
   */
  function AttestedAuthData(p: Platform, registration: CreatePasskeyResponseData): (r: Option<Bytes>)
    ensures r.None?
  {
    match p.cborFirst(p.b64Decode(registration.response.attestationObject))
    case None => None
    case Some(attestationObject) => None
  }

  /**
   * `authData` as the code evidently means to read it: with the cast to the
   * decoder's own map class, as `toJavaPublicKey` does.
   */
  function CborMapAuthData(p: Platform, registration: CreatePasskeyResponseData): (r: Option<Bytes>)
    ensures r.Some? <==>
      var decoded := p.cborFirst(p.b64Decode(registration.response.attestationObject));
      decoded.Some? && decoded.value.MapItem?
      && AuthDataLabel in decoded.value.entries && decoded.value.entries[AuthDataLabel].ByteString?
    ensures r.Some? ==>
      r.value == p.cborFirst(p.b64Decode(registration.response.attestationObject)).value.entries[AuthDataLabel].bytes
  {
    match p.cborFirst(p.b64Decode(registration.response.attestationObject))
    case None => None
    case Some(attestationObject) => ByteStringAt(attestationObject, AuthDataLabel)
  }

  /**
   * The `UserData` registration builds once it holds the authenticator data:
   * the credential id, the email, the base64 of what `parseAuthData` returns
   * and the creation time. None stands for `parseAuthData` throwing.
   */
  function RegistrationRecord(p: Platform, registration: CreatePasskeyResponseData, authData: Bytes,
                              email: string, now: int): (r: Option<UserData>)
    ensures r.Some? <==> ParseAuthData(authData).Some?
    ensures r.Some? ==>
      && r.value.credentialId == registration.id
      && r.value.email == email
      && r.value.publicKey == p.b64Encode(ParseAuthData(authData).value)
      && r.value.creationDate == now
  {
    match ParseAuthData(authData)
    case None => None
    case Some(publicKey) => Some(UserData(registration.id, email, p.b64Encode(publicKey), now))
  }

  /**
   * How registration ends once `createCredential` has returned a public-key
   * response, given the authenticator data the code extracted from it.
   */
  function RegistrationOutcome(p: Platform, authData: Option<Bytes>, registration: CreatePasskeyResponseData,
                               email: string, now: int): (r: Outcome)
    ensures r == Emit(Success(email)) <==> authData.Some? && ParseAuthData(authData.value).Some?
    ensures r.Crash? <==> authData.None? || ParseAuthData(authData.value).None?
    ensures r.Emit? ==> r.event == Success(email)
  {
    match authData
    case None => Crash
    case Some(bytes) =>
      if RegistrationRecord(p, registration, bytes, email, now).Some? then Emit(Success(email)) else Crash
  }

  /** How `createPasswordCredential` ends. */
  function CreateOutcomeOf(emailValid: bool, managerAvailable: bool, playServicesAvailable: bool,
                           p: Platform, randomBytes: Bytes, userId: string, email: string, now: int,
                           broker: CreatePasskeyRequest -> CreateOutcome): (r: Outcome)
    requires |randomBytes| == ChallengeLength
    ensures r == Emit(EmailError) <==> !emailValid
    ensures emailValid && EnvironmentGuard(managerAvailable, playServicesAvailable).Some? ==>
      r == Emit(EnvironmentGuard(managerAvailable, playServicesAvailable).value)
    ensures
      var sent := broker(GetCreatePasskeyRequest(p, randomBytes, userId, email));
      && (emailValid && managerAvailable && playServicesAvailable && sent.CreateFailed? ==>
            r == Emit(Error(sent.error.message.GetOr(""))))
      && (emailValid && managerAvailable && playServicesAvailable && sent.Created? && sent.response.OtherCreated? ==>
            r == Crash)
      && (emailValid && managerAvailable && playServicesAvailable && sent.Created? && sent.response.PublicKeyCreated? ==>
            r == RegistrationOutcome(p, AttestedAuthData(p, sent.response.registration),
                                     sent.response.registration, email, now))
      && (r == Crash ==> emailValid && managerAvailable && playServicesAvailable && sent.Created?)
    ensures r.Emit? && r.event.Success? ==> r.event.email == email
  {
    if !emailValid then Emit(EmailError)
    else
      match EnvironmentGuard(managerAvailable, playServicesAvailable)
      case Some(e) => Emit(e)
      case None =>
        match broker(GetCreatePasskeyRequest(p, randomBytes, userId, email))
        case CreateFailed(e) => Emit(Error(e.message.GetOr("")))
        case Created(OtherCreated) => Crash
        case Created(PublicKeyCreated(registration)) =>
          RegistrationOutcome(p, AttestedAuthData(p, registration), registration, email, now)
  }

  /**
   * Because the cast to `kotlin.collections.Map` always throws, passkey
   * registration never emits Success: once the guards pass it ends in
   * Error(message ?: "") or in an uncaught exception.
   */
  lemma RegistrationNeverSucceeds(emailValid: bool, managerAvailable: bool, playServicesAvailable: bool,
                                  p: Platform, randomBytes: Bytes, userId: string, email: string, now: int,
                                  broker: CreatePasskeyRequest -> CreateOutcome)
    requires |randomBytes| == ChallengeLength
    ensures
      var r := CreateOutcomeOf(emailValid, managerAvailable, playServicesAvailable, p, randomBytes, userId, email, now, broker);
      r.Emit? ==> !r.event.Success?
  {
  }

  /**
   * With the cast to the decoder's map class, a public-key response whose
   * attestation object holds parseable authenticator data would register:
   * Success(email), with the UserData built from that data.
   */
  lemma CborMapReadingRegisters(p: Platform, registration: CreatePasskeyResponseData, email: string, now: int)
    requires CborMapAuthData(p, registration).Some?
    requires ParseAuthData(CborMapAuthData(p, registration).value).Some?
    ensures RegistrationOutcome(p, CborMapAuthData(p, registration), registration, email, now) == Emit(Success(email))
    ensures RegistrationRecord(p, registration, CborMapAuthData(p, registration).value, email, now).Some?
  {
  }

  /** `val userData: UserData? = null`: the account lookup by credential id is a stub. */
  function StoredUserData(credentialId: string): (r: Option<UserData>)
    ensures r.None?
  {
    None
  }

  /**
   * How sign-in would end once the broker has returned an assertion, given
   * what the account lookup found.
   */
  function AssertionOutcome(p: Platform, userData: Option<UserData>, responseData: GetPasskeyResponseData): (r: Outcome)
    ensures userData.None? ==> r == Emit(NoCredentials)
    ensures r.Crash? <==> userData.Some? && ToJavaPublicKey(p, userData.value.publicKey).None?
    ensures r.Emit? && r.event.Success? <==>
      && userData.Some? && ToJavaPublicKey(p, userData.value.publicKey).Some?
      && VerifySignature(p, responseData, ToJavaPublicKey(p, userData.value.publicKey).value)
    ensures r.Emit? && r.event.Success? ==> r.event.email == userData.value.email
    ensures r.Emit? ==> r.event.Success? || r.event == NoCredentials
  {
    match userData
    case None => Emit(NoCredentials)
    case Some(user) =>
      match ToJavaPublicKey(p, user.publicKey)
      case None => Crash
      case Some(publicKey) =>
        if VerifySignature(p, responseData, publicKey) then Emit(Success(user.email)) else Emit(NoCredentials)
  }

  /** How `retrieveCredentials` ends. */
  function RetrieveOutcomeOf(managerAvailable: bool, playServicesAvailable: bool, p: Platform, randomBytes: Bytes,
                             broker: GetPasskeyRequest -> GetOutcome): (r: Outcome)
    requires |randomBytes| == ChallengeLength
    ensures EnvironmentGuard(managerAvailable, playServicesAvailable).Some? ==>
      r == Emit(EnvironmentGuard(managerAvailable, playServicesAvailable).value)
    ensures
      var answer := broker(GetLoginPasskeyRequest(p, randomBytes, []));
      managerAvailable && playServicesAvailable ==>
        && (answer.GetFailed? ==> r == Emit(GetFailureEvent(answer.error)))
        && (answer.Got? && answer.credential.PublicKeyCredential? ==>
              r == AssertionOutcome(p, StoredUserData(answer.credential.authenticationResponse.id),
                                    answer.credential.authenticationResponse))
        && (answer.Got? && !answer.credential.PublicKeyCredential? ==> r == Crash)
  {
    match EnvironmentGuard(managerAvailable, playServicesAvailable)
    case Some(e) => Emit(e)
    case None =>
      match broker(GetLoginPasskeyRequest(p, randomBytes, []))
      case GetFailed(e) => Emit(GetFailureEvent(e))
      case Got(PublicKeyCredential(responseData)) =>
        AssertionOutcome(p, StoredUserData(responseData.id), responseData)
      case Got(_) => Crash
  }

  /**
   * Because the lookup always finds nobody, passkey sign-in never reports
   * Success: a returned assertion always ends in NoCredentials.
   */
  lemma RetrieveNeverSucceeds(managerAvailable: bool, playServicesAvailable: bool, p: Platform, randomBytes: Bytes,
                              broker: GetPasskeyRequest -> GetOutcome)
    requires |randomBytes| == ChallengeLength
    ensures RetrieveOutcomeOf(managerAvailable, playServicesAvailable, p, randomBytes, broker).Emit? ==>
      !RetrieveOutcomeOf(managerAvailable, playServicesAvailable, p, randomBytes, broker).event.Success?
  {
  }

  class LoginWithPasskeysViewModel {

    /** `credentialManager`, created on the first successful availability check. */
    var credentialManager: Option<CredentialManager>
    /** Everything emitted on `_loginEvents`, oldest first. */
    var loginEvents: seq<LoginEvent>

    constructor ()
      ensures credentialManager == None && loginEvents == []
    {
      credentialManager := None;
      loginEvents := [];
    }

    method IsCredentialManagerAvailable(managerCreatable: bool) returns (available: bool)
      modifies this
      ensures Availability(available, credentialManager) == CheckAvailability(old(credentialManager), managerCreatable)
      ensures loginEvents == old(loginEvents)
    {
      if credentialManager == None {
        if managerCreatable {
          credentialManager := Some(CredentialManager);
          return true;
        } else {
          return false;
        }
      }
      return true;
    }

    /** `randomBytes` are the challenge bytes SecureRandom would produce for this call. */
    method RetrieveCredentials(device: Device, p: Platform, randomBytes: Bytes, broker: GetPasskeyRequest -> GetOutcome)
      requires |randomBytes| == ChallengeLength
      modifies this
      ensures loginEvents == old(loginEvents) + Emitted(RetrieveOutcomeOf(
        CheckAvailability(old(credentialManager), device.managerCreatable).available,
        device.playServicesAvailable, p, randomBytes, broker))
      ensures credentialManager == CheckAvailability(old(credentialManager), device.managerCreatable).manager
    {
      var available := IsCredentialManagerAvailable(device.managerCreatable);
      if !available {
        loginEvents := loginEvents + [Error(ManagerUnsupported)];
        return;
      }
      if !device.playServicesAvailable {
        loginEvents := loginEvents + [Error(PlayServicesDisabled)];
        return;
      }
      var option := GetLoginPasskeyRequest(p, randomBytes, []);
      if credentialManager.None? {
        // `null as PublicKeyCredential` throws
        return;
      }
      match broker(option)
      case GetFailed(e) =>
        loginEvents := loginEvents + [GetFailureEvent(e)];
      case Got(OtherCredential) =>
        // the cast to PublicKeyCredential throws
      case Got(PasswordCredential(_, _)) =>
        // the cast to PublicKeyCredential throws
      case Got(PublicKeyCredential(responseData)) =>
        // what follows the lookup is only reachable with a real account store
        var userData := StoredUserData(responseData.id);
        loginEvents := loginEvents + Emitted(AssertionOutcome(p, userData, responseData));
    }

    /**
     * `userId` is the random UUID and `now` the epoch second this call would
     * draw; `randomBytes` the challenge bytes.
     */
    method CreatePasswordCredential(device: Device, p: Platform, email: string, userId: string, randomBytes: Bytes,
                                    now: int, broker: CreatePasskeyRequest -> CreateOutcome)
      requires |randomBytes| == ChallengeLength
      modifies this
      ensures loginEvents == old(loginEvents) + Emitted(CreateOutcomeOf(
        device.emailAddress(email),
        CheckAvailability(old(credentialManager), device.managerCreatable).available,
        device.playServicesAvailable, p, randomBytes, userId, email, now, broker))
      ensures credentialManager ==
        if device.emailAddress(email) then CheckAvailability(old(credentialManager), device.managerCreatable).manager
        else old(credentialManager)
    {
      if !device.emailAddress(email) {
        loginEvents := loginEvents + [EmailError];
        return;
      }
      var available := IsCredentialManagerAvailable(device.managerCreatable);
      if !available {
        loginEvents := loginEvents + [Error(ManagerUnsupported)];
        return;
      }
      if !device.playServicesAvailable {
        loginEvents := loginEvents + [Error(PlayServicesDisabled)];
        return;
      }
      var request := GetCreatePasskeyRequest(p, randomBytes, userId, email);
      if credentialManager.None? {
        // `null as CreatePublicKeyCredentialResponse` throws
        return;
      }
      match broker(request)
      case CreateFailed(e) =>
        loginEvents := loginEvents + [Error(e.message.GetOr(""))];
      case Created(OtherCreated) =>
        // the cast to CreatePublicKeyCredentialResponse throws
      case Created(PublicKeyCreated(registration)) =>
        // `as Map<*, *>` throws on the decoded attestation object; see AttestedAuthData
        var authData := AttestedAuthData(p, registration);
        loginEvents := loginEvents + Emitted(RegistrationOutcome(p, authData, registration, email, now));
    }
  }
}
