/**
 * ConfigurableService.ServiceStatus, the lifecycle status a service reports.
 * The enum itself is not part of this model; the constants listed are the
 * ones this model's code refers to, plus the usual running states.
 */
module ConfigurableService {

  datatype ServiceStatus =
    | STARTING
    | WAITING_FOR_DEPLOY
    | RUNNING
    | STOPPING
    | STOPPED
    | ERROR_RESTARTING
    | ERROR_NO_RESTART
    | UNREACHABLE

  /** Java's `toString()` of an enum constant: its name. */
  function StatusName(s: ServiceStatus): (name: string)
    ensures |name| > 0 && name[|name| - 1] != ')'
  {
    match s
    case STARTING => "STARTING"
    case WAITING_FOR_DEPLOY => "WAITING_FOR_DEPLOY"
    case RUNNING => "RUNNING"
    case STOPPING => "STOPPING"
    case STOPPED => "STOPPED"
    case ERROR_RESTARTING => "ERROR_RESTARTING"
    case ERROR_NO_RESTART => "ERROR_NO_RESTART"
    case UNREACHABLE => "UNREACHABLE"
  }
}
