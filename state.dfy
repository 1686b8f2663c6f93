/** The events a login screen observes (the sealed class `LoginEvent`). */
module State {

  datatype LoginEvent =
    | Idle
    | EmailError
    | PasswordError
    | Success(email: string)
    | NoCredentials
    | Error(message: string)
}
