/**
 * `LoginViewModel`: password sign-in and sign-up through the credential
 * manager. Each public call runs its guards in a fixed order and emits exactly
 * one `LoginEvent`; the only other state is the lazily created
 * `credentialManager`.
 */
module PasswordLogin {

  import opened Wrappers
  import opened State
  import opened Credentials

  const MinPasswordLength := 6

  /** The event for the credential in the broker's response (`response?.credential`). */
  function CredentialEvent(credential: Option<Credential>): (r: LoginEvent)
    ensures r.Success? <==> credential.Some? && credential.value.PasswordCredential?
    ensures r.Success? ==> r.email == credential.value.id
    ensures !r.Success? ==> r == NoCredentials
  {
    match credential
    case Some(PasswordCredential(id, _)) => Success(id)
    case _ => NoCredentials
  }

  /** The one event `retrieveCredentials` emits. */
  function RetrieveEvent(managerAvailable: bool, playServicesAvailable: bool, outcome: GetOutcome): (r: LoginEvent)
    ensures !managerAvailable ==> r == Error(ManagerUnsupported)
    ensures managerAvailable && !playServicesAvailable ==> r == Error(PlayServicesDisabled)
    ensures r.Success? <==>
      managerAvailable && playServicesAvailable && outcome.Got? && outcome.credential.PasswordCredential?
    ensures r.Success? ==> r.email == outcome.credential.id
    ensures r == NoCredentials <==>
      && managerAvailable && playServicesAvailable
      && ((outcome.Got? && !outcome.credential.PasswordCredential?)
          || (outcome.GetFailed? && outcome.error.kind == TypeNoCredential))
    ensures managerAvailable && playServicesAvailable && outcome.GetFailed? && outcome.error.kind != TypeNoCredential
      ==> r == Error(outcome.error.message.GetOr(UnknownError))
    ensures r.Success? || r == NoCredentials || r.Error?
  {
    match EnvironmentGuard(managerAvailable, playServicesAvailable)
    case Some(e) => e
    case None =>
      match outcome
      case Got(credential) => CredentialEvent(Some(credential))
      case GetFailed(e) => GetFailureEvent(e)
  }

  /**
   * The one event `createPasswordCredential` emits. The outcome of
   * `createCredential` is swallowed by an empty catch, so it cannot change
   * the event.
   */
  function CreateEvent(emailValid: bool, password: string, managerAvailable: bool, playServicesAvailable: bool,
                       createError: Option<CredentialException>, email: string): (r: LoginEvent)
    ensures r == EmailError <==> !emailValid
    ensures r == PasswordError <==> emailValid && |password| < MinPasswordLength
    ensures r == Error(ManagerUnsupported) <==> emailValid && |password| >= MinPasswordLength && !managerAvailable
    ensures r == Error(PlayServicesDisabled) <==>
      emailValid && |password| >= MinPasswordLength && managerAvailable && !playServicesAvailable
    ensures r.Success? <==> emailValid && |password| >= MinPasswordLength && managerAvailable && playServicesAvailable
    ensures r.Success? ==> r.email == email
  {
    if !emailValid then EmailError
    else if |password| < MinPasswordLength then PasswordError
    else
      match EnvironmentGuard(managerAvailable, playServicesAvailable)
      case Some(e) => e
      case None => Success(email)
  }

  /** A failed `createCredential` still reports Success: the exception is swallowed. */
  lemma CreateFailureStillReportsSuccess(password: string, e: CredentialException, email: string)
    requires |password| >= MinPasswordLength
    ensures CreateEvent(true, password, true, true, Some(e), email) == Success(email)
    ensures CreateEvent(true, password, true, true, Some(e), email) == CreateEvent(true, password, true, true, None, email)
  {
  }

  /** The password guard admits exactly the passwords of six characters or more. */
  lemma PasswordBoundary(password: string, email: string)
    requires |password| == MinPasswordLength
    ensures CreateEvent(true, password, true, true, None, email) == Success(email)
    ensures CreateEvent(true, password[..MinPasswordLength - 1], true, true, None, email) == PasswordError
  {
  }

  class LoginViewModel {

    /** `credentialManager`, created on the first successful availability check. */
    var credentialManager: Option<CredentialManager>
    /** Everything emitted on `_loginEvents`, oldest first. */
    var loginEvents: seq<LoginEvent>

    constructor ()
      ensures credentialManager == None && loginEvents == []
    {
      credentialManager := None;
      loginEvents := [];
    }

    method IsCredentialManagerAvailable(managerCreatable: bool) returns (available: bool)
      modifies this
      ensures Availability(available, credentialManager) == CheckAvailability(old(credentialManager), managerCreatable)
      ensures loginEvents == old(loginEvents)
    {
      if credentialManager == None {
        if managerCreatable {
          credentialManager := Some(CredentialManager);
          return true;
        } else {
          return false;
        }
      }
      return true;
    }

    method RetrieveCredentials(device: Device, outcome: GetOutcome)
      modifies this
      ensures loginEvents == old(loginEvents) + [RetrieveEvent(
        CheckAvailability(old(credentialManager), device.managerCreatable).available,
        device.playServicesAvailable, outcome)]
      ensures credentialManager == CheckAvailability(old(credentialManager), device.managerCreatable).manager
    {
      var available := IsCredentialManagerAvailable(device.managerCreatable);
      if !available {
        loginEvents := loginEvents + [Error(ManagerUnsupported)];
        return;
      }
      if !device.playServicesAvailable {
        loginEvents := loginEvents + [Error(PlayServicesDisabled)];
        return;
      }
      match outcome
      case GetFailed(e) =>
        loginEvents := loginEvents + [GetFailureEvent(e)];
      case Got(credential) =>
        var response := if credentialManager.Some? then Some(credential) else None;
        loginEvents := loginEvents + [CredentialEvent(response)];
    }

    method CreatePasswordCredential(device: Device, email: string, password: string, createError: Option<CredentialException>)
      modifies this
      ensures loginEvents == old(loginEvents) + [CreateEvent(
        device.emailAddress(email), password,
        CheckAvailability(old(credentialManager), device.managerCreatable).available,
        device.playServicesAvailable, createError, email)]
      ensures credentialManager ==
        if device.emailAddress(email) && |password| >= MinPasswordLength
        then CheckAvailability(old(credentialManager), device.managerCreatable).manager
        else old(credentialManager)
    {
      if !device.emailAddress(email) {
        loginEvents := loginEvents + [EmailError];
        return;
      }
      if |password| < MinPasswordLength {
        loginEvents := loginEvents + [PasswordError];
        return;
      }
      var available := IsCredentialManagerAvailable(device.managerCreatable);
      if !available {
        loginEvents := loginEvents + [Error(ManagerUnsupported)];
        return;
      }
      if !device.playServicesAvailable {
        loginEvents := loginEvents + [Error(PlayServicesDisabled)];
        return;
      }
      // createCredential runs here; a CreateCredentialException is caught and ignored
      loginEvents := loginEvents + [Success(email)];
    }
  }
}
