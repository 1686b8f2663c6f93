/**
 * What both view models share: the credential-broker outcomes they react to,
 * the environment answers they depend on, the lazily created
 * `credentialManager`, the two availability guards and the mapping of a
 * `GetCredentialException` to an event.
 */
module Credentials {

  import opened Wrappers
  import opened State
  import opened PasskeyMessages

  /** The platform handle `CredentialManager.create(activity)` returns. */
  datatype CredentialManager = CredentialManager

  /** A `GetCredentialException` or `CreateCredentialException`: its `type` and nullable `message`. */
  datatype CredentialException = CredentialException(kind: string, message: Option<string>)

  /** `android.credentials.GetCredentialException.TYPE_NO_CREDENTIAL` */
  const TypeNoCredential := "android.credentials.GetCredentialException.TYPE_NO_CREDENTIAL"

  const ManagerUnsupported := "CredentialManager is not supported on this device."
  const PlayServicesDisabled := "Google Play Services is not enabled on this device."
  const UnknownError := "Unknown error"

  /** The credential in a `GetCredentialResponse`. */
  datatype Credential =
    | PasswordCredential(id: string, password: string)
    | PublicKeyCredential(authenticationResponse: GetPasskeyResponseData)
    | OtherCredential

  /** What `credentialManager.getCredential(…)` does: return a credential or throw. */
  datatype GetOutcome = Got(credential: Credential) | GetFailed(error: CredentialException)

  /** The response of `credentialManager.createCredential(…)`. */
  datatype CreateResponse = PublicKeyCreated(registration: CreatePasskeyResponseData) | OtherCreated

  /** What `credentialManager.createCredential(…)` does: return a response or throw. */
  datatype CreateOutcome = Created(response: CreateResponse) | CreateFailed(error: CredentialException)

  /**
   * The device's answers during one call: whether
   * `Patterns.EMAIL_ADDRESS` matches a string, whether
   * `CredentialManager.create` succeeds, and whether Google Play Services
   * reports SUCCESS.
   */
  datatype Device = Device(emailAddress: string -> bool, managerCreatable: bool, playServicesAvailable: bool)

  /** What `isCredentialManagerAvailable` answers, and the field afterwards. */
  datatype Availability = Availability(available: bool, manager: Option<CredentialManager>)

  /**
   * `isCredentialManagerAvailable`: a set field answers true untouched; an
   * unset one is created if the platform allows, and stays unset otherwise.
   */
  function CheckAvailability(manager: Option<CredentialManager>, creatable: bool): (r: Availability)
    ensures r.available <==> r.manager.Some?
    ensures manager.Some? ==> r == Availability(true, manager)
    ensures manager.None? ==> r.available == creatable
  {
    if manager.None? then
      if creatable then Availability(true, Some(CredentialManager)) else Availability(false, None)
    else Availability(true, manager)
  }

  /** Once the check has answered true it answers true forever, and the field no longer changes. */
  lemma {:induction false} AvailabilityIsSticky(manager: Option<CredentialManager>, answers: seq<bool>)
    requires manager.Some?
    ensures AfterChecks(manager, answers) == manager
  {
    if answers != [] {
      AvailabilityIsSticky(CheckAvailability(manager, answers[0]).manager, answers[1..]);
    }
  }

  /** The field after a series of checks, one platform answer each. */
  function AfterChecks(manager: Option<CredentialManager>, answers: seq<bool>): Option<CredentialManager>
    decreases |answers|
  {
    if answers == [] then manager else AfterChecks(CheckAvailability(manager, answers[0]).manager, answers[1..])
  }

  /** A single successful check makes every later check succeed, whatever the platform then says. */
  lemma AvailableOnceAvailableAlways(manager: Option<CredentialManager>, creatable: bool, answers: seq<bool>, later: bool)
    requires CheckAvailability(manager, creatable).available
    ensures CheckAvailability(AfterChecks(CheckAvailability(manager, creatable).manager, answers), later).available
  {
    AvailabilityIsSticky(CheckAvailability(manager, creatable).manager, answers);
  }

  /**
   * The two environment guards, in the source's order: no credential manager
   * is reported before Play Services is even looked at.
   */
  function EnvironmentGuard(managerAvailable: bool, playServicesAvailable: bool): (r: Option<LoginEvent>)
    ensures r.None? <==> managerAvailable && playServicesAvailable
    ensures !managerAvailable ==> r == Some(Error(ManagerUnsupported))
    ensures managerAvailable && !playServicesAvailable ==> r == Some(Error(PlayServicesDisabled))
  {
    if !managerAvailable then Some(Error(ManagerUnsupported))
    else if !playServicesAvailable then Some(Error(PlayServicesDisabled))
    else None
  }

  /** The `catch (e: GetCredentialException)` branch of both `retrieveCredentials`. */
  function GetFailureEvent(e: CredentialException): (r: LoginEvent)
    ensures r == NoCredentials <==> e.kind == TypeNoCredential
    ensures e.kind != TypeNoCredential ==> r.Error?
    ensures r.Error? && e.message.Some? ==> r.message == e.message.value
    ensures r.Error? && e.message.None? ==> r.message == UnknownError
  {
    if e.kind == TypeNoCredential then NoCredentials else Error(e.message.GetOr(UnknownError))
  }

  /** How a ceremony ends: one event emitted, or an exception nobody catches and no event. */
  datatype Outcome = Emit(event: LoginEvent) | Crash

  /** The events an outcome appends to `_loginEvents`. */
  function Emitted(o: Outcome): (s: seq<LoginEvent>)
    ensures o.Emit? ==> s == [o.event]
    ensures o.Crash? ==> s == []
  {
    match o
    case Emit(e) => [e]
    case Crash => []
  }
}
