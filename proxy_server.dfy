/** The desktop proxy (ProxyServer): request routing on the TLS listener, the
    301 redirect on the plain listener, and the start/stop/restart lifecycle.

    Sockets, TLS and the forwarding library are not modelled: forwarding is the
    reply `Forward(target)`. What the operating system decides (whether the
    certificate files exist, whether the listeners bind, in which order the
    close callbacks and the stop timer fire) is passed in. The stop timer is
    never cancelled and close callbacks of a timed-out stop may still arrive, so
    both are kept as pending events that fire later. */
module ProxyServer {
  import opened Wrappers
  import opened Text
  import opened Types
  import opened Routing
  import opened Store

  /** Delay, in milliseconds, of the timer `stop` arms. Time itself is not
      modelled: the timer is an event (`DrainOrder`, `StaleTimerStep`). */
  const STOP_TIMEOUT_MS := 3000

  // ---- routing ----

  /** A log event before `emitLog` numbers it. */
  datatype LogRecord = LogRecord(logType: LogType, message: string,
                                 subdomain: Option<string>, target: Option<string>)

  /** `http://127.0.0.1:${port}`. */
  function BackendTarget(port: int): string {
    "http://127.0.0.1:" + IntToString(port)
  }

  /** The backend URL names the registered port and nothing else: reading the
      port back from it gives the port. */
  lemma BackendTargetNamesPort(port: int)
    ensures |BackendTarget(port)| > 17 && BackendTarget(port)[..17] == "http://127.0.0.1:"
    ensures ParseInt(BackendTarget(port)[17..]) == Int(port)
  {
    assert BackendTarget(port)[17..] == IntToString(port);
    ParseIntRoundTrip(port);
  }

  datatype Resolution =
    | InvalidHost
    | UnknownHost(subdomain: string)
    | Resolved(subdomain: string, target: string)

  /** The lookup both handlers share: subdomain rule, then the first enabled
      registry entry for it. */
  function Resolve(host: string, baseDomain: string, hosts: seq<HostConfig>): (r: Resolution)
    ensures r.InvalidHost? <==> IsInvalidSubdomain(host, baseDomain)
    ensures !r.InvalidHost? ==> r.subdomain == SubdomainOf(host, baseDomain)
    ensures r.UnknownHost? <==> !IsInvalidSubdomain(host, baseDomain)
                                && FindEnabledHost(hosts, SubdomainOf(host, baseDomain)).None?
    ensures r.Resolved? ==> var h := FindEnabledHost(hosts, r.subdomain);
                            h.Some? && h.value.enabled && r.target == BackendTarget(h.value.port)
  {
    var subdomain := SubdomainOf(host, baseDomain);
    if subdomain == "" || subdomain == host then InvalidHost
    else match FindEnabledHost(hosts, subdomain)
      case None => UnknownHost(subdomain)
      case Some(h) => Resolved(subdomain, BackendTarget(h.port))
  }

  datatype RequestOutcome = RequestOutcome(reply: HttpReply, log: LogRecord)

  /** What the TLS listener's request handler answers and logs (forwarding
      assumed possible). */
  function RouteRequest(host: string, httpMethod: string, url: string,
                        baseDomain: string, hosts: seq<HostConfig>): (o: RequestOutcome)
    ensures IsInvalidSubdomain(host, baseDomain) ==>
              o == RequestOutcome(TextPlain(400, "Invalid subdomain"),
                                  LogRecord(ErrorLog, "Invalid subdomain: " + host, None, None))
    ensures Resolve(host, baseDomain, hosts).UnknownHost? ==>
              var sub := SubdomainOf(host, baseDomain);
              o == RequestOutcome(TextPlain(404, "Host not found: " + sub),
                                  LogRecord(ErrorLog, "Host not registered: " + sub, None, None))
    ensures o.reply.Forward? <==> Resolve(host, baseDomain, hosts).Resolved?
    ensures o.reply.Forward? ==>
              var sub := SubdomainOf(host, baseDomain);
              var h := FindEnabledHost(hosts, sub).value;
              && o.reply.target == BackendTarget(h.port)
              && o.log == LogRecord(Http, httpMethod + " " + url, Some(sub), Some(o.reply.target))
    ensures o.log.logType == Http <==> o.reply.Forward?
  {
    match Resolve(host, baseDomain, hosts)
    case InvalidHost =>
      RequestOutcome(TextPlain(400, "Invalid subdomain"),
                     LogRecord(ErrorLog, "Invalid subdomain: " + host, None, None))
    case UnknownHost(sub) =>
      RequestOutcome(TextPlain(404, "Host not found: " + sub),
                     LogRecord(ErrorLog, "Host not registered: " + sub, None, None))
    case Resolved(sub, target) =>
      RequestOutcome(Forward(target), LogRecord(Http, httpMethod + " " + url, Some(sub), Some(target)))
  }

  datatype UpgradeOutcome = UpgradeOutcome(action: UpgradeAction, log: Option<LogRecord>)

  /** What the upgrade handler does: same lookup; any failure destroys the socket
      without a log; success logs 'ws' and relays. */
  function RouteUpgrade(host: string, baseDomain: string, hosts: seq<HostConfig>): (o: UpgradeOutcome)
    ensures o.action.Destroy? <==> !Resolve(host, baseDomain, hosts).Resolved?
    ensures o.action.Destroy? ==> o.log.None?
    ensures o.action.Relay? ==>
              var sub := SubdomainOf(host, baseDomain);
              o.log == Some(LogRecord(Ws, "WebSocket upgrade", Some(sub), Some(o.action.target)))
    ensures o.log.Some? <==> o.action.Relay?
  {
    match Resolve(host, baseDomain, hosts)
    case Resolved(sub, target) =>
      UpgradeOutcome(Relay(target), Some(LogRecord(Ws, "WebSocket upgrade", Some(sub), Some(target))))
    case _ => UpgradeOutcome(Destroy, None)
  }

  /** A WebSocket upgrade goes exactly where a plain request for the same host goes. */
  lemma UpgradeMatchesRequest(host: string, httpMethod: string, url: string,
                              baseDomain: string, hosts: seq<HostConfig>)
    ensures var req := RouteRequest(host, httpMethod, url, baseDomain, hosts);
            var up := RouteUpgrade(host, baseDomain, hosts);
            && (up.action.Relay? <==> req.reply.Forward?)
            && (up.action.Relay? ==> up.action.target == req.reply.target)
  {
  }

  /** A one-label subdomain whose first enabled entry is `h` is forwarded to
      `h`'s port on the loopback address, and logged as "<method> <url>". */
  lemma RegisteredLabelIsForwarded(name: string, baseDomain: string, hosts: seq<HostConfig>,
                                   h: HostConfig, httpMethod: string, url: string)
    requires name != "" && '.' !in name
    requires FindEnabledHost(hosts, name) == Some(h)
    ensures var o := RouteRequest(name + "." + baseDomain, httpMethod, url, baseDomain, hosts);
            && o.reply == Forward(BackendTarget(h.port))
            && o.log == LogRecord(Http, httpMethod + " " + url, Some(name), Some(BackendTarget(h.port)))
  {
    LabelHostResolves(name, baseDomain);
  }

  /** A one-label subdomain with no enabled entry is answered 404 naming it,
      whatever the method and path. */
  lemma UnregisteredHostIsNotFound(name: string, baseDomain: string, hosts: seq<HostConfig>,
                                   httpMethod: string, url: string)
    requires name != "" && '.' !in name
    requires forall j :: 0 <= j < |hosts| ==> !Serves(hosts[j], name)
    ensures var o := RouteRequest(name + "." + baseDomain, httpMethod, url, baseDomain, hosts);
            && o.reply == TextPlain(404, "Host not found: " + name)
            && o.log == LogRecord(ErrorLog, "Host not registered: " + name, None, None)
  {
    LabelHostResolves(name, baseDomain);
  }

  // ---- lifecycle ----

  /** Everything the lifecycle changes: the status, the log counter, the three
      handles, the emitted 'log' and 'status' events, and the events still due:
      armed stop timers whose stop already finished, and timed-out stops whose
      two close callbacks have not all arrived. */
  datatype Snapshot = Snapshot(
    status: ProxyStatus,
    logIdCounter: nat,
    hasProxy: bool,
    hasHttpServer: bool,
    hasHttpsServer: bool,
    logs: seq<LogEntry>,
    statusEvents: seq<ProxyStatus>,
    staleTimers: nat,
    staleDrains: nat)

  const Initial := Snapshot(Stopped, 0, false, false, false, [], [], 0, 0)

  /** Each emitted log carries the counter value it was emitted at; the three
      handles are created and cleared together; running implies all bound;
      stopped implies none. */
  predicate Consistent(s: Snapshot) {
    && s.logIdCounter == |s.logs|
    && (forall i :: 0 <= i < |s.logs| ==> s.logs[i].id == i)
    && s.hasProxy == s.hasHttpServer == s.hasHttpsServer
    && (s.status == Running ==> s.hasProxy)
    && (s.status == Stopped ==> !s.hasProxy)
  }

  /** `emitLog`: one 'log' event, numbered by the counter, which goes up by one. */
  function EmitLogStep(s: Snapshot, r: LogRecord): Snapshot {
    s.(logs := s.logs + [LogEntry(s.logIdCounter, r.logType, r.message, r.subdomain, r.target)],
       logIdCounter := s.logIdCounter + 1)
  }

  /** `setStatus`: the new status and one 'status' event. */
  function SetStatusStep(s: Snapshot, st: ProxyStatus): Snapshot {
    s.(status := st, statusEvents := s.statusEvents + [st])
  }

  function ClearHandles(s: Snapshot): Snapshot {
    s.(hasProxy := false, hasHttpServer := false, hasHttpsServer := false)
  }

  lemma EmitLogKeepsConsistent(s: Snapshot, r: LogRecord)
    requires Consistent(s)
    ensures Consistent(EmitLogStep(s, r))
    ensures |EmitLogStep(s, r).logs| == |s.logs| + 1
    ensures EmitLogStep(s, r).logs[|s.logs|].id == s.logIdCounter
  {
  }

  /** Where `start` looks for the key and the certificate: `certs/_wildcard.<d>-key.pem`
      and `certs/_wildcard.<d>.pem` under the resources directory (the app
      directory when not packaged). */
  function StartKeyPath(env: AppEnvironment, baseDomain: string): string {
    var resources := if env.isPackaged then env.resourcesPath else env.appPath;
    PathJoin(PathJoin(resources, "certs"), "_wildcard." + baseDomain + "-key.pem")
  }

  function StartCertPath(env: AppEnvironment, baseDomain: string): string {
    var resources := if env.isPackaged then env.resourcesPath else env.appPath;
    PathJoin(PathJoin(resources, "certs"), "_wildcard." + baseDomain + ".pem")
  }

  /** The error thrown when a certificate file is missing. */
  function CertMissingMessage(keyPath: string, certPath: string, baseDomain: string): string {
    "証明書が見つかりません。\n" +
    "期待するパス:\n  " + keyPath + "\n  " + certPath + "\n\n" +
    "mkcertで生成してください:\n" +
    "  mkcert \"*." + baseDomain + "\""
  }

  /** How binding the two listeners ends: both bound, or an 'error' event with
      its message. */
  datatype BindOutcome = Bound | BindFailed(message: string)

  /** `start`. */
  function StartStep(s: Snapshot, config: AppConfig, env: AppEnvironment,
                     files: set<string>, bind: BindOutcome): (Snapshot, Outcome<string>)
  {
    if s.status == Running then (s, Pass)
    else
      var keyPath := StartKeyPath(env, config.base_domain);
      var certPath := StartCertPath(env, config.base_domain);
      if keyPath !in files || certPath !in files then
        var message := CertMissingMessage(keyPath, certPath, config.base_domain);
        (EmitLogStep(SetStatusStep(s, Error), LogRecord(ErrorLog, "Failed to start: " + message, None, None)),
         Fail(message))
      else
        var created := s.(hasProxy := true, hasHttpServer := true, hasHttpsServer := true);
        match bind
        case Bound =>
          (EmitLogStep(SetStatusStep(created, Running),
                       LogRecord(Info, "Proxy started. HTTP:" + IntToString(config.http_port)
                                       + " HTTPS:" + IntToString(config.https_port), None, None)),
           Pass)
        case BindFailed(message) =>
          (EmitLogStep(SetStatusStep(created, Error), LogRecord(ErrorLog, "Failed to start: " + message, None, None)),
           Fail(message))
  }

  /** Which of `stop`'s two completions happens first: both close callbacks, or
      the STOP_TIMEOUT_MS timer. Without listeners no callback is registered and
      only the timer can end the stop. */
  datatype DrainOrder = CloseCallbacksFirst | TimerFirst

  /** `stop`, awaited to completion. */
  function StopStep(s: Snapshot, order: DrainOrder): Snapshot {
    if s.status == Stopped then s
    else if order == CloseCallbacksFirst && s.hasHttpServer && s.hasHttpsServer then
      var t := EmitLogStep(SetStatusStep(ClearHandles(s), Stopped), LogRecord(Info, "Proxy stopped", None, None));
      t.(staleTimers := s.staleTimers + 1)
    else
      var t := SetStatusStep(ClearHandles(s), Stopped);
      if s.hasHttpServer && s.hasHttpsServer then t.(staleDrains := s.staleDrains + 1) else t
  }

  /** A stop timer that outlived its stop fires: whatever the state by now, unless
      it is stopped it is forced to stopped, with no log. */
  function StaleTimerStep(s: Snapshot): Snapshot
    requires s.staleTimers > 0
  {
    var t := s.(staleTimers := s.staleTimers - 1);
    if t.status != Stopped then SetStatusStep(ClearHandles(t), Stopped) else t
  }

  /** The last close callback of a stop that already timed out arrives: the
      completion runs anyway, forcing stopped and logging "Proxy stopped". */
  function StaleDrainStep(s: Snapshot): Snapshot
    requires s.staleDrains > 0
  {
    var t := s.(staleDrains := s.staleDrains - 1);
    EmitLogStep(SetStatusStep(ClearHandles(t), Stopped), LogRecord(Info, "Proxy stopped", None, None))
  }

  /** `restart`: `stop` completes, then `start`. */
  function RestartStep(s: Snapshot, order: DrainOrder, config: AppConfig, env: AppEnvironment,
                       files: set<string>, bind: BindOutcome): (Snapshot, Outcome<string>)
  {
    StartStep(StopStep(s, order), config, env, files, bind)
  }

  /** Every lifecycle step keeps the snapshot consistent. */
  lemma StartKeepsConsistent(s: Snapshot, config: AppConfig, env: AppEnvironment,
                             files: set<string>, bind: BindOutcome)
    requires Consistent(s)
    ensures Consistent(StartStep(s, config, env, files, bind).0)
  {
  }

  lemma StopKeepsConsistent(s: Snapshot, order: DrainOrder)
    requires Consistent(s)
    ensures Consistent(StopStep(s, order))
  {
    if s.status != Stopped {
      EmitLogKeepsConsistent(SetStatusStep(ClearHandles(s), Stopped), LogRecord(Info, "Proxy stopped", None, None));
    }
  }

  lemma StaleEventsKeepConsistent(s: Snapshot)
    requires Consistent(s)
    ensures s.staleTimers > 0 ==> Consistent(StaleTimerStep(s))
    ensures s.staleDrains > 0 ==> Consistent(StaleDrainStep(s))
  {
    if s.staleDrains > 0 {
      var t := s.(staleDrains := s.staleDrains - 1);
      EmitLogKeepsConsistent(SetStatusStep(ClearHandles(t), Stopped), LogRecord(Info, "Proxy stopped", None, None));
    }
  }

  /** `start` while running changes nothing and emits nothing. */
  lemma StartWhileRunningIsNoop(s: Snapshot, config: AppConfig, env: AppEnvironment,
                                files: set<string>, bind: BindOutcome)
    requires s.status == Running
    ensures StartStep(s, config, env, files, bind) == (s, Pass)
  {
  }

  /** `stop` while stopped changes nothing and emits nothing. */
  lemma StopWhileStoppedIsNoop(s: Snapshot, order: DrainOrder)
    requires s.status == Stopped
    ensures StopStep(s, order) == s
  {
  }

  /** A start that finds a certificate file missing ends in 'error' with one
      "Failed to start: ..." log, touches no handle, and rethrows. */
  lemma StartWithoutCertificate(s: Snapshot, config: AppConfig, env: AppEnvironment,
                                files: set<string>, bind: BindOutcome)
    requires s.status != Running
    requires StartKeyPath(env, config.base_domain) !in files || StartCertPath(env, config.base_domain) !in files
    ensures var (t, r) := StartStep(s, config, env, files, bind);
            var message := CertMissingMessage(StartKeyPath(env, config.base_domain),
                                              StartCertPath(env, config.base_domain), config.base_domain);
            && r == Fail(message)
            && t.status == Error && t.statusEvents == s.statusEvents + [Error]
            && t.logs == s.logs + [LogEntry(s.logIdCounter, ErrorLog, "Failed to start: " + message, None, None)]
            && t.hasProxy == s.hasProxy && t.hasHttpServer == s.hasHttpServer && t.hasHttpsServer == s.hasHttpsServer
  {
  }

  /** A start whose listeners bind ends running, after one 'info' log naming both
      ports; one whose bind fails ends in 'error' and keeps the new handles. */
  lemma StartWithCertificate(s: Snapshot, config: AppConfig, env: AppEnvironment,
                             files: set<string>, bind: BindOutcome)
    requires s.status != Running
    requires StartKeyPath(env, config.base_domain) in files && StartCertPath(env, config.base_domain) in files
    ensures var (t, r) := StartStep(s, config, env, files, bind);
            && t.hasProxy && t.hasHttpServer && t.hasHttpsServer
            && (bind.Bound? ==>
                  && r == Pass && t.status == Running && t.statusEvents == s.statusEvents + [Running]
                  && t.logs == s.logs + [LogEntry(s.logIdCounter, Info,
                       "Proxy started. HTTP:" + IntToString(config.http_port)
                       + " HTTPS:" + IntToString(config.https_port), None, None)])
            && (bind.BindFailed? ==>
                  && r == Fail(bind.message) && t.status == Error
                  && t.logs == s.logs + [LogEntry(s.logIdCounter, ErrorLog, "Failed to start: " + bind.message, None, None)])
  {
  }

  /** `stop` from any status but 'stopped' ends stopped with every handle cleared.
      It logs "Proxy stopped" exactly when both close callbacks came first; when
      the timer came first nothing is logged. */
  lemma StopAlwaysEndsStopped(s: Snapshot, order: DrainOrder)
    requires Consistent(s)
    requires s.status != Stopped
    ensures var t := StopStep(s, order);
            && t.status == Stopped && t.statusEvents == s.statusEvents + [Stopped]
            && !t.hasProxy && !t.hasHttpServer && !t.hasHttpsServer
            && (order == CloseCallbacksFirst && s.hasHttpServer ==>
                  t.logs == s.logs + [LogEntry(s.logIdCounter, Info, "Proxy stopped", None, None)])
            && (order == TimerFirst || !s.hasHttpServer ==> t.logs == s.logs && t.logIdCounter == s.logIdCounter)
  {
  }

  /** `restart` never ends running when its `start` fails. */
  lemma RestartFailureEndsInError(s: Snapshot, order: DrainOrder, config: AppConfig, env: AppEnvironment,
                                  files: set<string>, bind: BindOutcome)
    requires Consistent(s)
    ensures var (t, r) := RestartStep(s, order, config, env, files, bind);
            && (r.Fail? ==> t.status == Error)
            && (r.Pass? ==> t.status == Running)
  {
  }

  /** After a quick restart of a running proxy (close callbacks first, then a good
      start) the old stop timer is still armed, and when it fires the running
      proxy is forced back to stopped, its handles cleared, without a log. */
  lemma StaleTimerStopsRestartedProxy(s: Snapshot, config: AppConfig, env: AppEnvironment, files: set<string>)
    requires Consistent(s) && s.status == Running
    requires StartKeyPath(env, config.base_domain) in files && StartCertPath(env, config.base_domain) in files
    ensures var (t, r) := RestartStep(s, CloseCallbacksFirst, config, env, files, Bound);
            && r == Pass && t.status == Running && t.staleTimers == s.staleTimers + 1
            && var u := StaleTimerStep(t);
               && u.status == Stopped && !u.hasProxy && !u.hasHttpServer && !u.hasHttpsServer
               && u.logs == t.logs && u.statusEvents == t.statusEvents + [Stopped]
  {
  }

  /** After a stop that timed out, a restarted proxy is forced back to stopped when
      the old listeners' close callbacks finally arrive, and "Proxy stopped" is
      logged then. */
  lemma StaleCallbacksStopRestartedProxy(s: Snapshot, config: AppConfig, env: AppEnvironment, files: set<string>)
    requires Consistent(s) && s.status == Running
    requires StartKeyPath(env, config.base_domain) in files && StartCertPath(env, config.base_domain) in files
    ensures var (t, r) := RestartStep(s, TimerFirst, config, env, files, Bound);
            && r == Pass && t.status == Running && t.staleDrains == s.staleDrains + 1
            && var u := StaleDrainStep(t);
               && u.status == Stopped && !u.hasProxy
               && u.logs == t.logs + [LogEntry(t.logIdCounter, Info, "Proxy stopped", None, None)]
  {
  }

  class ProxyServer {
    const store: AppStore
    var status: ProxyStatus
    var logIdCounter: nat
    var hasProxy: bool
    var hasHttpServer: bool
    var hasHttpsServer: bool
    /** Every 'log' event emitted so far, in order. */
    var logs: seq<LogEntry>
    /** Every 'status' event emitted so far, in order. */
    var statusEvents: seq<ProxyStatus>
    var staleTimers: nat
    var staleDrains: nat

    function Snap(): Snapshot
      reads this
    {
      Snapshot(status, logIdCounter, hasProxy, hasHttpServer, hasHttpsServer,
               logs, statusEvents, staleTimers, staleDrains)
    }

    ghost predicate Valid()
      reads this
    {
      Consistent(Snap())
    }

    constructor (store: AppStore)
      ensures this.store == store
      ensures Snap() == Initial && Valid()
    {
      this.store := store;
      status := Stopped;
      logIdCounter := 0;
      hasProxy, hasHttpServer, hasHttpsServer := false, false, false;
      logs, statusEvents := [], [];
      staleTimers, staleDrains := 0, 0;
    }

    function GetStatus(): ProxyStatus
      reads this
    {
      status
    }

    method EmitLog(r: LogRecord)
      modifies this
      ensures Snap() == EmitLogStep(old(Snap()), r)
    {
      logs := logs + [LogEntry(logIdCounter, r.logType, r.message, r.subdomain, r.target)];
      logIdCounter := logIdCounter + 1;
    }

    method SetStatus(st: ProxyStatus)
      modifies this
      ensures Snap() == SetStatusStep(old(Snap()), st)
    {
      status := st;
      statusEvents := statusEvents + [st];
    }

    method ClearHandleFields()
      modifies this
      ensures Snap() == ClearHandles(old(Snap()))
    {
      hasProxy, hasHttpServer, hasHttpsServer := false, false, false;
    }

    /** The TLS listener's request handler. */
    method HandleRequest(hostHeader: Option<string>, httpMethod: string, url: string)
      returns (reply: HttpReply)
      requires Valid()
      modifies this
      ensures Valid()
      ensures var o := RouteRequest(HostValue(hostHeader), httpMethod, url,
                                    store.config.base_domain, store.hosts);
              && Snap() == EmitLogStep(old(Snap()), o.log)
              && reply == (if o.reply.Forward? && !hasProxy then NoReply else o.reply)
    {
      var config := store.GetConfig();
      var host := HostValue(hostHeader);
      var subdomain := SubdomainOf(host, config.base_domain);
      if subdomain == "" || subdomain == host {
        reply := TextPlain(400, "Invalid subdomain");
        EmitLog(LogRecord(ErrorLog, "Invalid subdomain: " + host, None, None));
        return;
      }
      var hostConfig := store.GetHostBySubdomain(subdomain);
      if hostConfig.None? {
        reply := TextPlain(404, "Host not found: " + subdomain);
        EmitLog(LogRecord(ErrorLog, "Host not registered: " + subdomain, None, None));
        return;
      }
      var target := BackendTarget(hostConfig.value.port);
      EmitLog(LogRecord(Http, httpMethod + " " + url, Some(subdomain), Some(target)));
      reply := if hasProxy then Forward(target) else NoReply;
    }

    /** The TLS listener's upgrade handler. */
    method HandleUpgrade(hostHeader: Option<string>) returns (action: UpgradeAction)
      requires Valid()
      modifies this
      ensures Valid()
      ensures var o := RouteUpgrade(HostValue(hostHeader), store.config.base_domain, store.hosts);
              && (o.log.None? ==> Snap() == old(Snap()))
              && (o.log.Some? ==> Snap() == EmitLogStep(old(Snap()), o.log.value))
              && action == (if o.action.Relay? && !hasProxy then Ignore else o.action)
    {
      var config := store.GetConfig();
      var host := HostValue(hostHeader);
      var subdomain := SubdomainOf(host, config.base_domain);
      if subdomain == "" || subdomain == host {
        return Destroy;
      }
      var hostConfig := store.GetHostBySubdomain(subdomain);
      if hostConfig.None? {
        return Destroy;
      }
      var target := BackendTarget(hostConfig.value.port);
      EmitLog(LogRecord(Ws, "WebSocket upgrade", Some(subdomain), Some(target)));
      action := if hasProxy then Relay(target) else Ignore;
    }

    /** The forwarding library reports a backend failure (refused, timed out):
        an 'error' log, and a 502 when the failed exchange is an HTTP response. */
    method OnProxyError(message: string, isHttpResponse: bool) returns (reply: Option<HttpReply>)
      requires Valid()
      modifies this
      ensures Valid()
      ensures Snap() == EmitLogStep(old(Snap()), LogRecord(ErrorLog, "Proxy error: " + message, None, None))
      ensures reply == if isHttpResponse then Some(TextPlain(502, "Proxy Error: " + message)) else None
    {
      EmitLog(LogRecord(ErrorLog, "Proxy error: " + message, None, None));
      reply := if isHttpResponse then Some(TextPlain(502, "Proxy Error: " + message)) else None;
    }

    method Start(env: AppEnvironment, files: set<string>, bind: BindOutcome) returns (r: Outcome<string>)
      requires Valid()
      modifies this
      ensures Valid()
      ensures (Snap(), r) == StartStep(old(Snap()), store.config, env, files, bind)
    {
      StartKeepsConsistent(Snap(), store.config, env, files, bind);
      if status == Running {
        return Pass;
      }
      var config := store.GetConfig();
      var keyPath := StartKeyPath(env, config.base_domain);
      var certPath := StartCertPath(env, config.base_domain);
      if keyPath !in files || certPath !in files {
        var message := CertMissingMessage(keyPath, certPath, config.base_domain);
        SetStatus(Error);
        EmitLog(LogRecord(ErrorLog, "Failed to start: " + message, None, None));
        return Fail(message);
      }
      hasProxy := true;
      hasHttpServer := true;
      hasHttpsServer := true;
      match bind
      case Bound =>
        SetStatus(Running);
        EmitLog(LogRecord(Info, "Proxy started. HTTP:" + IntToString(config.http_port)
                                + " HTTPS:" + IntToString(config.https_port), None, None));
        r := Pass;
      case BindFailed(message) =>
        SetStatus(Error);
        EmitLog(LogRecord(ErrorLog, "Failed to start: " + message, None, None));
        r := Fail(message);
    }

    method Stop(order: DrainOrder)
      requires Valid()
      modifies this
      ensures Valid()
      ensures Snap() == StopStep(old(Snap()), order)
    {
      StopKeepsConsistent(Snap(), order);
      if status == Stopped {
        return;
      }
      // close callbacks registered: one per listener handle still held
      var registered := (if hasHttpServer then 1 else 0) + (if hasHttpsServer then 1 else 0);
      if order == CloseCallbacksFirst && registered == 2 {
        ClearHandleFields();
        SetStatus(Stopped);
        EmitLog(LogRecord(Info, "Proxy stopped", None, None));
        staleTimers := staleTimers + 1;
      } else {
        ClearHandleFields();
        SetStatus(Stopped);
        if registered == 2 {
          staleDrains := staleDrains + 1;
        }
      }
    }

    method FireStaleTimer()
      requires Valid() && staleTimers > 0
      modifies this
      ensures Valid()
      ensures Snap() == StaleTimerStep(old(Snap()))
    {
      StaleEventsKeepConsistent(Snap());
      staleTimers := staleTimers - 1;
      if status != Stopped {
        ClearHandleFields();
        SetStatus(Stopped);
      }
    }

    method FireStaleCloseCallbacks()
      requires Valid() && staleDrains > 0
      modifies this
      ensures Valid()
      ensures Snap() == StaleDrainStep(old(Snap()))
    {
      StaleEventsKeepConsistent(Snap());
      staleDrains := staleDrains - 1;
      ClearHandleFields();
      SetStatus(Stopped);
      EmitLog(LogRecord(Info, "Proxy stopped", None, None));
    }

    method Restart(order: DrainOrder, env: AppEnvironment, files: set<string>, bind: BindOutcome)
      returns (r: Outcome<string>)
      requires Valid()
      modifies this
      ensures Valid()
      ensures (Snap(), r) == RestartStep(old(Snap()), order, store.config, env, files, bind)
    {
      Stop(order);
      r := Start(env, files, bind);
    }
  }
}
