/** The shared record shapes: registry entries, global configuration, proxy
    status and log entries. */
module Types {
  import opened Wrappers

  /** One registered backend: requests for `subdomain` go to `port`. */
  datatype HostConfig = HostConfig(id: string, subdomain: string, port: int, enabled: bool)

  /** The global configuration. */
  datatype AppConfig = AppConfig(base_domain: string, http_port: int, https_port: int, auto_launch: bool)

  datatype ProxyStatus = Running | Stopped | Error

  datatype LogType = Http | Ws | ErrorLog | Info

  /** The spelling of a log type on the wire, which the log view filters on. */
  function LogTypeName(t: LogType): string {
    match t
    case Http => "http"
    case Ws => "ws"
    case ErrorLog => "error"
    case Info => "info"
  }

  /** A log event. `id` is the emitter's running counter; the wall-clock prefix of
      the source's id string and the timestamp are not modelled. */
  datatype LogEntry = LogEntry(id: nat, logType: LogType, message: string,
                               subdomain: Option<string>, target: Option<string>)

  /** What the Electron `app` object and `process` report: whether the app is
      packaged, its resource and application directories, the per-user data
      directory and the CPU architecture. */
  datatype AppEnvironment = AppEnvironment(isPackaged: bool, resourcesPath: string, appPath: string,
                                           userData: string, arch: string)
}
