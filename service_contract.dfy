/**
 * The MAUI service-probe contract (`IServiceManager.cs`): the normalised
 * `ServiceStatus` record and the six-valued `ServiceState`.
 */
module ServiceContract {

  /** `ServiceState`, in declaration order; `Unknown` is the default (value 0). */
  datatype ServiceState = Unknown | Stopped | Running | Starting | Stopping | Error

  /** `ServiceStatus`; a probe that found the service leaves `errorMessage` empty. */
  datatype ServiceStatus = ServiceStatus(
    name: string,
    displayName: string,
    status: ServiceState,
    isRunning: bool,
    errorMessage: string)

  /** `new ServiceStatus()`: empty strings, `Unknown`, not running. */
  const DefaultStatus := ServiceStatus("", "", Unknown, false, "")

  /** "No error": `string.IsNullOrEmpty(status.ErrorMessage)`. */
  predicate Answered(s: ServiceStatus) {
    |s.errorMessage| == 0
  }
}
