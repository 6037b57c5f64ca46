/** The request lifecycle shared by every slice of the store. */
module RequestStatus {

  datatype Status = Idle | Loading | Succeeded | Failed
}
