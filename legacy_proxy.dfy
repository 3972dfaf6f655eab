/** The standalone proxy (src/index.ts): the subdomain names a directory under
    the projects directory, and the port comes from that project's `.env` file.
    The file system is the set of paths that exist; reading and parsing a
    `.env` file is the function `dotenv` from its path to its entries. The
    YAML configuration is already loaded into `LegacyConfig`. */
module LegacyProxy {
  import opened Wrappers
  import opened Text
  import opened Routing

  datatype LegacyConfig = LegacyConfig(base_domain: string, projects_dir: string,
                                       env_key: string, default_port: int)

  /** What `resolve_port` returns: `null` when the project is missing, else a
      number. */
  datatype PortLookup = NoProject | Port(n: Num)

  function ProjectDir(cfg: LegacyConfig, subdomain: string): string {
    PathJoin(cfg.projects_dir, subdomain)
  }

  function EnvPath(cfg: LegacyConfig, subdomain: string): string {
    PathJoin(ProjectDir(cfg, subdomain), ".env")
  }

  /** `resolve_port`: no project directory gives `null`; no `.env`, or an
      `env_key` entry that is missing or empty, gives the default port;
      otherwise the entry read with `parseInt(value, 10)`. */
  function ResolvePort(cfg: LegacyConfig, subdomain: string, paths: set<string>,
                       dotenv: string -> map<string, string>): (r: PortLookup)
    ensures ProjectDir(cfg, subdomain) !in paths <==> r == NoProject
    ensures ProjectDir(cfg, subdomain) in paths && EnvPath(cfg, subdomain) !in paths ==>
              r == Port(Int(cfg.default_port))
    ensures ProjectDir(cfg, subdomain) in paths && EnvPath(cfg, subdomain) in paths ==>
              var env := dotenv(EnvPath(cfg, subdomain));
              && (cfg.env_key !in env || env[cfg.env_key] == "" ==> r == Port(Int(cfg.default_port)))
              && (cfg.env_key in env && env[cfg.env_key] != "" ==> r == Port(ParseInt(env[cfg.env_key])))
  {
    if ProjectDir(cfg, subdomain) !in paths then NoProject
    else if EnvPath(cfg, subdomain) !in paths then Port(Int(cfg.default_port))
    else
      var env := dotenv(EnvPath(cfg, subdomain));
      if cfg.env_key !in env || env[cfg.env_key] == "" then Port(Int(cfg.default_port))
      else Port(ParseInt(env[cfg.env_key]))
  }

  /** `!port`: null, 0 and NaN all count as "no port". */
  predicate IsFalsy(p: PortLookup) {
    p.NoProject? || p.n.NaN? || p.n.value == 0
  }

  function LocalTarget(port: int): string {
    "http://localhost:" + IntToString(port)
  }

  /** `handle_request`: 400 for an invalid subdomain, 404 naming it when no usable
      port is found, else forwarded to the port on localhost. */
  function HandleRequest(cfg: LegacyConfig, hostHeader: Option<string>, paths: set<string>,
                         dotenv: string -> map<string, string>): (r: HttpReply)
    ensures var host := HostValue(hostHeader);
            var sub := SubdomainOf(host, cfg.base_domain);
            var port := ResolvePort(cfg, sub, paths, dotenv);
            && (IsInvalidSubdomain(host, cfg.base_domain) ==> r == TextPlain(400, "Invalid subdomain"))
            && (!IsInvalidSubdomain(host, cfg.base_domain) && IsFalsy(port) ==>
                  r == TextPlain(404, "Project not found: " + sub))
            && (r.Forward? <==> !IsInvalidSubdomain(host, cfg.base_domain) && !IsFalsy(port))
            && (r.Forward? ==> r.target == LocalTarget(port.n.value))
  {
    var host := HostValue(hostHeader);
    var sub := SubdomainOf(host, cfg.base_domain);
    if sub == "" || sub == host then TextPlain(400, "Invalid subdomain")
    else
      var port := ResolvePort(cfg, sub, paths, dotenv);
      if IsFalsy(port) then TextPlain(404, "Project not found: " + sub)
      else Forward(LocalTarget(port.n.value))
  }

  /** `handle_upgrade`: the socket is destroyed on an invalid subdomain or a
      falsy port, and relayed otherwise. */
  function HandleUpgrade(cfg: LegacyConfig, hostHeader: Option<string>, paths: set<string>,
                         dotenv: string -> map<string, string>): (r: UpgradeAction)
    ensures r.Destroy? || r.Relay?
    ensures var host := HostValue(hostHeader);
            var port := ResolvePort(cfg, SubdomainOf(host, cfg.base_domain), paths, dotenv);
            r.Destroy? <==> IsInvalidSubdomain(host, cfg.base_domain) || IsFalsy(port)
  {
    var host := HostValue(hostHeader);
    var sub := SubdomainOf(host, cfg.base_domain);
    if sub == "" || sub == host then Destroy
    else
      var port := ResolvePort(cfg, sub, paths, dotenv);
      if IsFalsy(port) then Destroy else Relay(LocalTarget(port.n.value))
  }

  /** A WebSocket upgrade goes exactly where a plain request for the same host goes. */
  lemma UpgradeMatchesRequest(cfg: LegacyConfig, hostHeader: Option<string>, paths: set<string>,
                              dotenv: string -> map<string, string>)
    ensures var req := HandleRequest(cfg, hostHeader, paths, dotenv);
            var up := HandleUpgrade(cfg, hostHeader, paths, dotenv);
            && (up.Relay? <==> req.Forward?)
            && (up.Relay? ==> up.target == req.target)
  {
  }

  /** A project whose `.env` gives a port as the decimal text of a non-zero
      integer is forwarded to that port. */
  lemma EnvPortIsForwarded(cfg: LegacyConfig, name: string, paths: set<string>,
                           dotenv: string -> map<string, string>, port: int)
    requires name != "" && '.' !in name
    requires ProjectDir(cfg, name) in paths && EnvPath(cfg, name) in paths
    requires cfg.env_key in dotenv(EnvPath(cfg, name))
    requires dotenv(EnvPath(cfg, name))[cfg.env_key] == IntToString(port)
    requires port != 0
    ensures HandleRequest(cfg, Some(name + "." + cfg.base_domain), paths, dotenv)
            == Forward(LocalTarget(port))
  {
    LabelHostResolves(name, cfg.base_domain);
    ParseIntRoundTrip(port);
  }

  /** A `.env` entry with no digit in it is read as NaN, which is falsy: the
      project is answered 404 rather than falling back to the default port. */
  lemma NonNumericEnvPortIsNotFound(cfg: LegacyConfig, name: string, paths: set<string>,
                                    dotenv: string -> map<string, string>)
    requires name != "" && '.' !in name
    requires ProjectDir(cfg, name) in paths && EnvPath(cfg, name) in paths
    requires cfg.env_key in dotenv(EnvPath(cfg, name))
    requires dotenv(EnvPath(cfg, name))[cfg.env_key] != ""
    requires NoDigit(dotenv(EnvPath(cfg, name))[cfg.env_key])
    ensures HandleRequest(cfg, Some(name + "." + cfg.base_domain), paths, dotenv)
            == TextPlain(404, "Project not found: " + name)
  {
    LabelHostResolves(name, cfg.base_domain);
    ParseIntNoDigit(dotenv(EnvPath(cfg, name))[cfg.env_key]);
  }

  /** With a default port of 0, a project without `.env` is answered 404 too. */
  lemma ZeroDefaultPortIsNotFound(cfg: LegacyConfig, name: string, paths: set<string>,
                                  dotenv: string -> map<string, string>)
    requires name != "" && '.' !in name && cfg.default_port == 0
    requires ProjectDir(cfg, name) in paths && EnvPath(cfg, name) !in paths
    ensures HandleRequest(cfg, Some(name + "." + cfg.base_domain), paths, dotenv)
            == TextPlain(404, "Project not found: " + name)
  {
    LabelHostResolves(name, cfg.base_domain);
  }
}
