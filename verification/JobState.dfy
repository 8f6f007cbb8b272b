/** The states of a queue job. */
module JobStates {
  datatype State = WaitDependencies | Pending | Enqueued | Started | Done | Cancelled | Failed
}
