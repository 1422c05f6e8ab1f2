/** Option and Result, the shapes every remote outcome and every decision in
    the connector is expressed in. */
module Wrappers {

  /** A possibly absent value; `None` stands for Java's `null`. */
  datatype Option<+T> = None | Some(value: T)

  /** The outcome of one step: a value, or the error the step rejects with. */
  datatype Result<+T, +E> = Ok(value: T) | Err(error: E)
}

/** Types the connector shares with the cloud orchestrator above it. */
module CloudTypes {
  import opened Wrappers

  /** The orchestrator's lifecycle status of an agent instance. */
  datatype InstanceStatus =
    | UNKNOWN
    | SCHEDULED_TO_START
    | STARTING
    | RUNNING
    | RESTARTING
    | SCHEDULED_TO_STOP
    | STOPPING
    | STOPPED
    | ERROR
    | ERROR_CANNOT_STOP

  /** A rejection: the message of the exception and the message of its
      cause, if the exception has a cause with a message. */
  datatype Failure = Failure(message: string, causeMessage: Option<string>)

  /** An exception raised by the connector itself, without a cause. */
  function CloudError(message: string): (f: Failure)
    ensures f.message == message && f.causeMessage.None?
  {
    Failure(message, None)
  }

  /** The outcome of a remote call, or of a chain of them. */
  type Outcome<T> = Result<T, Failure>
}
