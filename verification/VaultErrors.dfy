/** Why a vault operation fails. */
module VaultErrors {
  import opened PayloadCheck

  datatype VaultError =
    | PayloadRejected(why: Rejection)
    | Duplicate
    | NoSuchRecord
    | NotAMember
    | ShareNotHeld
    | LogNotEmpty
    | MalformedKeyList
}
