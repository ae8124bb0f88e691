/** The states of a transaction handle; a handle that was moved from is InValid. */
module HandleState {
  datatype TxState = NotInited | Started | RolledBack | Committed | InValid
}
