/** The account record the passkey registration builds (the data class `UserData`). */
module Models {

  /** `creationDate` is a Kotlin `Long` holding epoch seconds; it is kept unbounded here. */
  datatype UserData = UserData(credentialId: string, email: string, publicKey: string, creationDate: int)
}
