/** The request status the Redux slices keep next to their data */
module RequestStatus {
  datatype Status = Idle | Loading | Succeeded | Failed
}
