module Policies {
  /** What happens to owned processes when their owner shuts down. */
  datatype Policy = TerminateOwned | PreserveOwned
}
