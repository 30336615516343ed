/**
 * The fault handler of a RepNode or ArbNode service
 * (oracle.kv.impl.fault.ServiceFaultHandler): which exception a failed
 * request surfaces to its caller, whether the process must exit, the
 * service status the shutdown reports, and the recorded shutdown fault.
 */
module ServiceFaultHandler {
  import opened Common
  import opened ConfigurableService

  /** The exception classes the handler tests with `instanceof`. */
  datatype ExceptionClass =
    | RNUnavailableException
    | WrappedClientException
    | FaultException
    | SessionAccessException
    | KVSecurityException
    | MetadataNotFoundException
    | ClientAccessException
    | EnvironmentFailureRetryException
    | QueryRuntimeException
    | TableVersionException
    | EnvironmentFailureException

  /**
   * A raised exception. `classes` holds every class above that it is an
   * instance of, so an exception whose class extends several of them is
   * represented as it is. `corrupted` is what
   * EnvironmentFailureException.isCorrupted() reports.
   */
  datatype Raised = Raised(
    classes: set<ExceptionClass>,
    message: Option<string>,
    cause: Option<Raised>,
    corrupted: bool)

  /** Java's `instanceof`: null is an instance of nothing. */
  predicate InstanceOf(e: Option<Raised>, c: ExceptionClass)
  {
    e.Some? && c in e.value.classes
  }

  /** The three classes that already are caller-visible failures of an operation. */
  predicate IsOperationFailure(e: Option<Raised>)
  {
    InstanceOf(e, RNUnavailableException) || InstanceOf(e, WrappedClientException) || InstanceOf(e, FaultException)
  }

  /** No test of getThrowException matches: the generic fallback applies. */
  predicate Unmatched(e: Option<Raised>)
  {
    && !IsOperationFailure(e)
    && !InstanceOf(e, SessionAccessException)
    && !InstanceOf(e, KVSecurityException)
    && !InstanceOf(e, MetadataNotFoundException)
    && !InstanceOf(e, ClientAccessException)
    && !InstanceOf(e, EnvironmentFailureRetryException)
    && !InstanceOf(e, QueryRuntimeException)
    && !InstanceOf(e, TableVersionException)
  }

  /** The message of the fault a schema-update race is surfaced as. */
  const TABLE_SCHEMA_RETRY_MESSAGE: string :=
    "Store is updating table schema information; operation should be retried"

  /** The exception the handler throws back to the caller. */
  datatype Surfaced =
    | Unchanged(e: Option<Raised>)             // the request exception itself
    | WrappedForClient(wrapped: Raised)        // new WrappedClientException(e)
    | ClientCause(cause: Option<Raised>)       // ClientAccessException.getCause()
    | Unavailable(message: Option<string>)     // new RNUnavailableException(e.getMessage())
    | RemoteFault(text: string)                // new FaultException(message, true)
    | RemoteFaultFor(original: Option<Raised>)  // new FaultException(e, true)

  /**
   * getThrowException: the first matching test, in the source's order,
   * decides the surfaced exception; a query-runtime wrapper is classified by
   * its cause.
   */
  function GetThrowException(e: Option<Raised>): (r: Surfaced)
    decreases e
    // operation failures and session-access failures pass through
    ensures IsOperationFailure(e) ==> r == Unchanged(e)
    ensures !IsOperationFailure(e) && InstanceOf(e, SessionAccessException) ==> r == Unchanged(e)
    // whatever the recursion through query-runtime wrappers reaches, only an
    // operation failure or a session-access failure is passed on as it is,
    // only a security or missing-metadata failure is wrapped for the client,
    // and only an exception that no test matches becomes a generic remote fault
    ensures r.Unchanged? ==>
              IsOperationFailure(r.e) || InstanceOf(r.e, SessionAccessException)
    ensures r.WrappedForClient? ==>
              InstanceOf(Some(r.wrapped), KVSecurityException) || InstanceOf(Some(r.wrapped), MetadataNotFoundException)
    ensures r.RemoteFaultFor? ==> Unmatched(r.original)
  {
    if IsOperationFailure(e) then Unchanged(e)
    else if InstanceOf(e, SessionAccessException) then Unchanged(e)
    else if InstanceOf(e, KVSecurityException) || InstanceOf(e, MetadataNotFoundException) then
      WrappedForClient(e.value)
    else if InstanceOf(e, ClientAccessException) then ClientCause(e.value.cause)
    else if InstanceOf(e, EnvironmentFailureRetryException) then Unavailable(e.value.message)
    else if InstanceOf(e, QueryRuntimeException) then GetThrowException(e.value.cause)
    else if InstanceOf(e, TableVersionException) then RemoteFault(TABLE_SCHEMA_RETRY_MESSAGE)
    else RemoteFaultFor(e)
  }

  /** The rows of the classification below the two pass-through rows, each
      applying only when no earlier row matched. */
  lemma ClassificationRows(e: Option<Raised>)
    requires !IsOperationFailure(e) && !InstanceOf(e, SessionAccessException)
    ensures InstanceOf(e, KVSecurityException) || InstanceOf(e, MetadataNotFoundException) ==>
              GetThrowException(e) == WrappedForClient(e.value)
    ensures !InstanceOf(e, KVSecurityException) && !InstanceOf(e, MetadataNotFoundException) ==>
              && (InstanceOf(e, ClientAccessException) ==> GetThrowException(e) == ClientCause(e.value.cause))
              && (!InstanceOf(e, ClientAccessException) && InstanceOf(e, EnvironmentFailureRetryException) ==>
                    GetThrowException(e) == Unavailable(e.value.message))
    ensures !InstanceOf(e, KVSecurityException) && !InstanceOf(e, MetadataNotFoundException)
            && !InstanceOf(e, ClientAccessException) && !InstanceOf(e, EnvironmentFailureRetryException) ==>
              && (InstanceOf(e, QueryRuntimeException) ==> GetThrowException(e) == GetThrowException(e.value.cause))
              && (!InstanceOf(e, QueryRuntimeException) && InstanceOf(e, TableVersionException) ==>
                    GetThrowException(e) == RemoteFault(TABLE_SCHEMA_RETRY_MESSAGE))
    ensures Unmatched(e) ==> GetThrowException(e) == RemoteFaultFor(e)
  {
  }

  /** An exception whose only class is `c`. */
  function Plain(c: ExceptionClass, message: Option<string>, cause: Option<Raised>): Raised
  {
    Raised({c}, message, cause, false)
  }

  /** `n` query-runtime wrappers around `inner`. */
  function WrapInQueries(inner: Option<Raised>, n: nat): Option<Raised>
  {
    if n == 0 then inner else Some(Plain(QueryRuntimeException, None, WrapInQueries(inner, n - 1)))
  }

  /** However deeply an exception is wrapped in query-runtime exceptions, the
      caller sees what the exception itself would have surfaced as. */
  lemma {:induction false} QueryWrappersAreTransparent(inner: Option<Raised>, n: nat)
    ensures GetThrowException(WrapInQueries(inner, n)) == GetThrowException(inner)
  {
    if n > 0 {
      QueryWrappersAreTransparent(inner, n - 1);
    }
  }

  /** The exception the handler creates, as a raised exception in its own right
      (messages the model does not know are left absent). Null for a cause
      or pass-through that is null. */
  function AsRaised(s: Surfaced): Option<Raised>
  {
    match s
    case Unchanged(e) => e
    case WrappedForClient(w) => Some(Plain(WrappedClientException, None, Some(w)))
    case ClientCause(c) => c
    case Unavailable(m) => Some(Plain(RNUnavailableException, m, None))
    case RemoteFault(m) => Some(Plain(FaultException, Some(m), None))
    case RemoteFaultFor(w) => Some(Plain(FaultException, None, w))
  }

  /** An exit decision: `None` is Java's null, "do not exit". The enum's
      other constants are told apart only by name. */
  datatype ProcessExitCode = NO_RESTART | OtherExitCode(name: string)

  /** getExitCode: a corrupted environment never restarts; an operation
      failure does not exit; anything else takes the supplied default. */
  function GetExitCode(e: Option<Raised>, exitCode: ProcessExitCode): (r: Option<ProcessExitCode>)
    ensures InstanceOf(e, EnvironmentFailureException) && e.value.corrupted ==> r == Some(NO_RESTART)
    ensures r.None? <==>
              IsOperationFailure(e) && !(InstanceOf(e, EnvironmentFailureException) && e.value.corrupted)
    ensures !(InstanceOf(e, EnvironmentFailureException) && e.value.corrupted) && !IsOperationFailure(e) ==>
              r == Some(exitCode)
  {
    if InstanceOf(e, EnvironmentFailureException) && e.value.corrupted then Some(NO_RESTART)
    else if IsOperationFailure(e) then None
    else Some(exitCode)
  }

  /** Every exception the handler creates itself is a final answer: classified
      again, it passes through unchanged and never shuts the process down. */
  lemma CreatedExceptionsAreFinal(e: Option<Raised>, exitCode: ProcessExitCode)
    requires !GetThrowException(e).Unchanged? && !GetThrowException(e).ClientCause?
    ensures var s := AsRaised(GetThrowException(e));
            GetThrowException(s) == Unchanged(s) && GetExitCode(s, exitCode) == None
  {
  }

  /** The service status the production shutdown thread reports before exiting. */
  function ShutdownStatus(exitCode: ProcessExitCode): (status: ServiceStatus)
    ensures status == ERROR_NO_RESTART <==> exitCode == NO_RESTART
    ensures status == ERROR_NO_RESTART || status == ERROR_RESTARTING
  {
    if exitCode == NO_RESTART then ERROR_NO_RESTART else ERROR_RESTARTING
  }

  /** A fault that does shut the process down reports "no restart" exactly
      when the environment is corrupted or the default already says so. */
  lemma ShutdownStatusOfFault(e: Option<Raised>, defaultExitCode: ProcessExitCode)
    requires GetExitCode(e, defaultExitCode).Some?
    ensures (ShutdownStatus(GetExitCode(e, defaultExitCode).value) == ERROR_NO_RESTART)
              == ((InstanceOf(e, EnvironmentFailureException) && e.value.corrupted)
                  || defaultExitCode == NO_RESTART)
  {
  }

  class ServiceFaultHandler {
    const defaultExitCode: ProcessExitCode
    /** The fault that results in the process shutting down. */
    var shutdownFault: Option<Raised>

    constructor (defaultExitCode: ProcessExitCode)
      ensures this.defaultExitCode == defaultExitCode
      ensures shutdownFault == None
    {
      this.defaultExitCode := defaultExitCode;
      shutdownFault := None;
    }

    /** Records the fault that shuts the process down; starting the shutdown
        thread is not modelled. The fault is never null. */
    method QueueShutdownInternal(fault: Raised, exitCode: ProcessExitCode)
      modifies this
      ensures shutdownFault == Some(fault)
    {
      shutdownFault := Some(fault);
    }

    method GetShutdownFault() returns (fault: Option<Raised>)
      ensures fault == shutdownFault
    {
      fault := shutdownFault;
    }
  }
}
