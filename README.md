# dev-proxy, modelled in Dafny

dev-proxy is a local development reverse proxy for macOS.

- A request for `https://<sub>.<base_domain>` reaches a TLS listener. The proxy takes the subdomain out of the Host header and looks it up in a registry of hosts. An enabled entry sends the request to `http://127.0.0.1:<port>`.
- A plain-HTTP listener answers every request with a 301 redirect to the same host and path over https.
- Around this the application:
  - keeps the registry and the global configuration (the AppStore);
  - starts, stops and restarts the two listeners and emits numbered 'log' and 'status' events;
  - provisions a wildcard certificate with the bundled mkcert binary;
  - installs pf rules that redirect ports 80 and 443 to the proxy's ports;
  - suggests a free port for a new host.
- The window (renderer) keeps a newest-first log buffer of at most 500 entries, a type filter, and the add/edit host form.
- An older standalone proxy, src/index.ts, resolves the port per project from a `.env` file instead of a registry. Its plain listener builds the same redirect as `Routing.HttpRedirect`.

The model has one module per source file, plus five shared modules:

- `Text`: the JavaScript string operations the code relies on, written out:
  - `trim` over the full ECMAScript white-space set;
  - `parseInt(s, 10)`, returning an integer or NaN;
  - integer printing;
  - `indexOf` and `includes`;
  - `replace` with a string pattern, which replaces the FIRST occurrence only;
  - `path.join` of one name.
- `Routing`: the subdomain taken from a `Host` header, the rule that rejects it, and the HTTP-to-HTTPS redirect; shared by `src/main/proxy-server.ts` and `src/index.ts`.
- `Lists`: `findIndex` and `filter`.
- `Wrappers`: `Option`, `Result` and `Outcome`.
- `System`: the file system as a set of existing paths, plus the sequence of external programs run (`execFile`).

What the operating system decides is given as a parameter: whether files exist, whether a bind succeeds, how a process run ends, and which of two stop completions comes first.

The model follows the code in these places:

- `ProxyServer.start` does not ask `CertManager` whether a certificate exists. It looks for `certs/_wildcard.<d>-key.pem` and `certs/_wildcard.<d>.pem` under the resources directory, or under the application directory when the app is not packaged (`ProxyServer.StartKeyPath`). `CertManager` keeps its certificates under the per-user data directory instead.
- The certificate files are named `_wildcard.<d>.pem` and `_wildcard.<d>-key.pem`, with a leading underscore.
- A bind failure carries only the error's message, not the port.

Quirks of the code that the model keeps, each stated as a lemma:

- The subdomain is the host with the first occurrence of `.<base_domain>` cut out, wherever it stands. So `a.dev.test.x` is routed as `a.x`, and `app.dev.test:8443` as `app:8443`.
- The stop timer is never cancelled. After a quick restart it forces the running proxy back to `stopped`.
- When the timer ends a stop first, no "Proxy stopped" is logged. The close callbacks that arrive later still run the completion.
- A failed `start` keeps the handles it created.
- `checkRules` searches the rule table for text, so a rule for port 8080 also "enables" port 808.
- The certificate file for base domain `x-key` is the key file for base domain `x`.
- In the standalone proxy, a `.env` port that does not parse gives 404, not the default port.

## Model

| member | source | states |
|---|---|---|
| Text.Trim | src/renderer/main.ts:193 | what `trim` leaves is never longer than the input and has white space at neither end; it is empty exactly when the input is all white space (that only white space is removed is stated by `Text.TrimPadded`) |
| Text.TrimPadded | src/main/cert-manager.ts:67 | trimming any white space off both sides of a value gives the value back |
| Text.ParseIntRoundTrip | src/renderer/main.ts:194 | `parseInt(String(i), 10)` is `i` for every integer that JavaScript prints in plain decimal |
| Text.ParseIntAfterPrint | src/index.ts:65 | `parseInt` reads a printed integer back even when text not starting with a digit follows it |
| Text.ParseIntNoDigit | src/renderer/main.ts:194 | a string with no decimal digit in it parses to NaN |
| Text.ParseInt | src/renderer/main.ts:194 | `parseInt(s, 10)`: skip leading white space, an optional sign, then the digits; its contract is stated by `Text.ParseIntNoDigit` (no digit gives NaN), `Text.ParseIntAfterPrint` and `Text.ParseIntRoundTrip` (a printed integer is read back) |
| Text.IntToString | src/renderer/main.ts:180 | `String(i)`: never empty, and made of digits alone exactly when `i` is not negative; `Text.ParseIntRoundTrip` reads it back |
| Text.IndexOf | src/main/proxy-server.ts:51 | the position found is an occurrence and no earlier position is; none is found exactly when there is no occurrence |
| Text.ReplaceFirst | src/main/proxy-server.ts:51 | `replace` with a string pattern: only the first occurrence found by `Text.IndexOf` is replaced, and a string without one is unchanged; stated for the subdomain by `Routing.SubdomainCutsFirst` and `Routing.InvalidSubdomainIff` |
| Text.PathJoinInjective | src/main/cert-manager.ts:43-49 | joining different names onto the same directory gives different paths |
| Text.PathJoin | src/main/cert-manager.ts:45-46 | the joined path ends in the name and, under a non-empty directory, starts with the directory; `Text.PathJoinInjective` tells names apart |
| Routing.InvalidSubdomainIff | src/main/proxy-server.ts:51-53 | the host is rejected exactly when `.<base_domain>` does not occur in it, or when it is nothing else |
| Routing.SubdomainOf | src/main/proxy-server.ts:51 | `host.replace('.' + base_domain, '')`; stated by `Routing.SubdomainCutsFirst`, `Routing.TextAfterBaseDomainIsKept` and `Routing.LabelHostResolves` |
| Routing.IsInvalidSubdomain | src/main/proxy-server.ts:53 | `!subdomain \|\| subdomain === host`; `Routing.InvalidSubdomainIff` gives both directions, and `Routing.BareBaseDomainRejected` the bare base domain |
| Routing.LabelHostResolves | src/main/proxy-server.ts:51-53 | `<name>.<base_domain>`, for a non-empty name without a dot, resolves to `name` and is accepted |
| Routing.SubdomainCutsFirst | src/main/proxy-server.ts:51 | when `.<base_domain>` occurs at position i and nowhere before it, the subdomain is the host with that occurrence cut out |
| Routing.TextAfterBaseDomainIsKept | src/main/proxy-server.ts:51-53 | for a one-label name, whatever follows the base domain stays in the subdomain and the host is accepted: a port survives (`app.dev.test:8443` gives `app:8443`) and a name merely containing the base domain passes (`a.dev.test.x` gives `a.x`) |
| Routing.BareBaseDomainRejected | src/main/proxy-server.ts:53 | the base domain itself, with or without the leading dot, is rejected |
| Routing.RedirectLocation | src/main/proxy-server.ts:103-104 | the Location is `https://` followed by exactly the host and then the url |
| Routing.HttpRedirect | src/main/proxy-server.ts:102-107 | the plain listener always answers 301, an empty body and the single header Location = `https://<host><url>`; a missing Host reads as empty; there is no registry input |
| Store.IndexOfId | src/main/store.ts:42-43 | the index found holds the id and no earlier entry does; none is found exactly when no entry has the id |
| Store.MergeHost | src/main/store.ts:46 | `{ ...hosts[index], ...updates, id }`; stated by `Store.MergeHostOverwritesSupplied` |
| Store.MergeHostOverwritesSupplied | src/main/store.ts:46 | an updated entry takes each supplied field, keeps the rest, and always keeps the looked-up id |
| Store.WithoutId | src/main/store.ts:54 | no remaining entry has the id; every other entry remains; an absent id changes nothing |
| Store.WithoutIdKeepsOrder | src/main/store.ts:52-56 | deleting preserves the order of the remaining entries (deleting from a concatenation deletes from each part) |
| Store.DeletedIdIsGone | src/main/store.ts:52-56 | after a delete no entry has the id, so a later update of it fails |
| Store.FindEnabledHost | src/main/store.ts:58-60 | the entry returned is enabled, has the subdomain, and no earlier entry serves it; none is returned exactly when no enabled entry has the subdomain |
| Store.AddedHostIsFound | src/main/store.ts:29-38 | an enabled entry just added is what the lookup of its subdomain finds, when no earlier entry serves it |
| Store.MergeConfigOverwritesSupplied | src/main/store.ts:67-70 | `setConfig` overwrites exactly the supplied fields |
| Store.MergeConfig | src/main/store.ts:69 | `{ ...config, ...updates }`; stated by `Store.MergeConfigOverwritesSupplied` |
| Store.AppStore.constructor | src/main/store.ts:14-22 | a missing host list reads as empty and a missing configuration as localhost/8080/8443/false |
| Store.AppStore.GetHosts | src/main/store.ts:25-27 | the stored host list; `Store.AppStore.AddHost`, `UpdateHost` and `DeleteHost` state how each write changes it |
| Store.AppStore.GetHostBySubdomain | src/main/store.ts:58-60 | the first enabled entry with the subdomain, as `Store.FindEnabledHost` states (none exactly when no enabled entry has it); `Store.AddedHostIsFound` finds a new entry |
| Store.AppStore.GetConfig | src/main/store.ts:63-65 | the stored configuration; `Store.AppStore.constructor` gives its defaults and `Store.AppStore.SetConfig` its updates |
| Store.AppStore.AddHost | src/main/store.ts:29-38 | exactly one entry is appended at the end, with the given fields and the fresh id, and is returned; earlier entries and the configuration are unchanged |
| Store.AppStore.UpdateHost | src/main/store.ts:40-50 | an unknown id fails with "Host not found: <id>" and changes nothing; otherwise only the first entry with the id is replaced by the merge, and the length is kept |
| Store.AppStore.DeleteHost | src/main/store.ts:52-56 | the list becomes the list without every entry with that id |
| Store.AppStore.SetConfig | src/main/store.ts:67-70 | the configuration becomes the merge of the old one with the updates; hosts are unchanged |
| ProxyServer.BackendTargetNamesPort | src/main/proxy-server.ts:69 | the target is `http://127.0.0.1:` followed by text that reads back as the registered port |
| ProxyServer.Resolve | src/main/proxy-server.ts:49-67 | invalid exactly under the subdomain rule; unknown exactly when no enabled entry serves the subdomain; otherwise the target of the first enabled match |
| ProxyServer.RouteRequest | src/main/proxy-server.ts:48-73 | an invalid host gives 400 "Invalid subdomain" and the error log "Invalid subdomain: <host>"; an unknown subdomain gives 404 "Host not found: <sub>" and "Host not registered: <sub>"; otherwise the request is forwarded to the match's target with an 'http' log carrying method, url, subdomain and target; the log is 'http' exactly when forwarded |
| ProxyServer.RouteUpgrade | src/main/proxy-server.ts:75-100 | any lookup failure destroys the socket and logs nothing; a 'ws' log appears exactly on success |
| ProxyServer.UpgradeMatchesRequest | src/main/proxy-server.ts:80-99 | an upgrade is relayed exactly when a request to the same host is forwarded, to the same target |
| ProxyServer.RegisteredLabelIsForwarded | src/main/proxy-server.ts:51-72 | a one-label subdomain whose first enabled entry is `h` is forwarded to `http://127.0.0.1:<h.port>` and logged as `<method> <url>` with that subdomain and target |
| ProxyServer.UnregisteredHostIsNotFound | src/main/proxy-server.ts:60-66 | a one-label subdomain that no enabled entry serves gets 404 naming it and one error log |
| ProxyServer.EmitLogStep | src/main/proxy-server.ts:26-41 | one log event whose id is the counter, and the counter goes up by one; stated by `ProxyServer.EmitLogKeepsConsistent` |
| ProxyServer.SetStatusStep | src/main/proxy-server.ts:43-46 | the status is set and one status event is appended; used by `ProxyServer.ProxyServer.SetStatus` |
| ProxyServer.StartStep | src/main/proxy-server.ts:109-181 | `start` as a step on the server's state; `ProxyServer.StartKeepsConsistent` shows each branch keeps the state consistent, and `ProxyServer.StartWhileRunningIsNoop`, `ProxyServer.StartWithoutCertificate` and `ProxyServer.StartWithCertificate` give its outcomes |
| ProxyServer.StopStep | src/main/proxy-server.ts:183-217 | `stop` for either completion order; `ProxyServer.StopKeepsConsistent` keeps the state consistent, and `ProxyServer.StopWhileStoppedIsNoop` and `ProxyServer.StopAlwaysEndsStopped` give its outcomes |
| ProxyServer.StaleDrainStep | src/main/proxy-server.ts:190-201 | a close callback of an earlier stop that arrives late runs `checkDone`; `ProxyServer.StaleEventsKeepConsistent` and `ProxyServer.StaleCallbacksStopRestartedProxy` |
| ProxyServer.StaleTimerStep | src/main/proxy-server.ts:206-215 | the 3000 ms timer of an earlier stop forces `stopped` unless already stopped; `ProxyServer.StaleEventsKeepConsistent` and `ProxyServer.StaleTimerStopsRestartedProxy` |
| ProxyServer.RestartStep | src/main/proxy-server.ts:219-222 | `stop`, then `start`; `ProxyServer.RestartFailureEndsInError` |
| ProxyServer.EmitLogKeepsConsistent | src/main/proxy-server.ts:26-41 | each log carries the counter's value and the counter goes up by one |
| ProxyServer.StartKeepsConsistent | src/main/proxy-server.ts:109-181 | `start` keeps log numbering and the handle invariants (running implies handles) |
| ProxyServer.StopKeepsConsistent | src/main/proxy-server.ts:183-217 | `stop` keeps log numbering and the handle invariants |
| ProxyServer.StaleEventsKeepConsistent | src/main/proxy-server.ts:190-215 | a late timer or late close callbacks keep the invariants |
| ProxyServer.StartWhileRunningIsNoop | src/main/proxy-server.ts:110-112 | `start` while running changes no field and emits nothing |
| ProxyServer.StopWhileStoppedIsNoop | src/main/proxy-server.ts:184-186 | `stop` while stopped changes no field and emits nothing |
| ProxyServer.StartWithoutCertificate | src/main/proxy-server.ts:118-131 | a missing key or certificate ends in 'error' with one "Failed to start: …" log, the handles untouched, and the error rethrown |
| ProxyServer.StartWithCertificate | src/main/proxy-server.ts:133-180 | a good bind ends 'running' with the info log naming both ports; a failed bind ends 'error', logs the message, and keeps the new handles |
| ProxyServer.StopAlwaysEndsStopped | src/main/proxy-server.ts:188-216 | from any other status `stop` ends 'stopped' with handles cleared; it logs "Proxy stopped" when both close callbacks come first and nothing when the timer does |
| ProxyServer.RestartFailureEndsInError | src/main/proxy-server.ts:219-222 | `restart` ends 'running' when its start passes and 'error' when it fails |
| ProxyServer.StaleTimerStopsRestartedProxy | src/main/proxy-server.ts:206-215 | after a quick restart the old timer is still armed, and firing it forces the running proxy to 'stopped' with no log |
| ProxyServer.StaleCallbacksStopRestartedProxy | src/main/proxy-server.ts:190-201 | after a timed-out stop and a restart, the old listeners' close callbacks force 'stopped' and log "Proxy stopped" |
| ProxyServer.ProxyServer.constructor | src/main/proxy-server.ts:11-20 | a new server is stopped, with no handles, counter 0 and no events |
| ProxyServer.ProxyServer.GetStatus | src/main/proxy-server.ts:22-24 | the current status, which each method states through the snapshot it leaves |
| ProxyServer.ProxyServer.EmitLog | src/main/proxy-server.ts:26-41 | one log numbered by the counter is emitted and the counter goes up by one |
| ProxyServer.ProxyServer.SetStatus | src/main/proxy-server.ts:43-46 | the status is set and one 'status' event is emitted |
| ProxyServer.ProxyServer.HandleRequest | src/main/proxy-server.ts:48-73 | answers and logs as `RouteRequest` does; a forward with no proxy handle goes unanswered |
| ProxyServer.ProxyServer.HandleUpgrade | src/main/proxy-server.ts:75-100 | acts and logs as `RouteUpgrade` does |
| ProxyServer.ProxyServer.OnProxyError | src/main/proxy-server.ts:136-142 | a backend failure logs "Proxy error: <message>" and answers 502 "Proxy Error: <message>" when an HTTP response is pending |
| ProxyServer.ProxyServer.Start | src/main/proxy-server.ts:109-181 | the new state and outcome are `StartStep` of the old state |
| ProxyServer.ProxyServer.Stop | src/main/proxy-server.ts:183-217 | the new state is `StopStep` of the old state for the given completion order |
| ProxyServer.ProxyServer.FireStaleTimer | src/main/proxy-server.ts:206-215 | a late timer forces 'stopped' unless already stopped, with no log |
| ProxyServer.ProxyServer.FireStaleCloseCallbacks | src/main/proxy-server.ts:190-201 | late close callbacks force 'stopped' and log "Proxy stopped" |
| ProxyServer.ProxyServer.Restart | src/main/proxy-server.ts:219-222 | the new state is `start` after `stop` |
| CertManager.MkcertPathNamesBinary | src/main/cert-manager.ts:30-38 | the binary is `mkcert-darwin-arm64` on arm64 and `mkcert-darwin-amd64` on every other architecture |
| CertManager.MkcertPathUnderRoot | src/main/cert-manager.ts:30-38 | the binary lies under the resources directory when packaged and under the application directory otherwise |
| CertManager.MkcertPath | src/main/cert-manager.ts:30-38 | the bundled binary's path; `CertManager.MkcertPathNamesBinary` and `CertManager.MkcertPathUnderRoot` |
| CertManager.GetCertPaths | src/main/cert-manager.ts:43-49 | the paths are the certificate directory joined with `_wildcard.<d>.pem` and `_wildcard.<d>-key.pem`, and they differ |
| CertManager.CertPathsInjective | src/main/cert-manager.ts:43-49 | different base domains get different certificate files |
| CertManager.CertOfKeyDomainIsKeyOfDomain | src/main/cert-manager.ts:43-49 | the certificate file of `<d>-key` is the key file of `<d>` |
| CertManager.CheckCertExists | src/main/cert-manager.ts:54-58 | present exactly when both files exist; paths are returned exactly when present |
| CertManager.CAInstalled | src/main/cert-manager.ts:63-73 | a failed CAROOT query gives false, never an error |
| CertManager.RootCertPath | src/main/cert-manager.ts:67-68 | `rootCA.pem` under the trimmed CAROOT output; `CertManager.CARootLineIsTrimmed` |
| CertManager.CARootLineIsTrimmed | src/main/cert-manager.ts:66-69 | with white space around the printed directory, the root certificate is still looked for in that directory |
| CertManager.CertManager.constructor | src/main/cert-manager.ts:22-25 | certificates are kept in `<userData>/certs` |
| CertManager.CertManager.IsCAInstalled | src/main/cert-manager.ts:63-73 | runs `mkcert -CAROOT` once; true exactly when `rootCA.pem` exists under the trimmed output |
| CertManager.CertManager.InstallCA | src/main/cert-manager.ts:78-81 | runs `mkcert -install` once and reports its failure |
| CertManager.CertManager.GenerateCert | src/main/cert-manager.ts:86-107 | creates the directory, runs mkcert for `*.<d>` inside it, and succeeds exactly when both files exist afterwards; otherwise it fails with the tool's error or "証明書の生成に失敗しました: <d>" |
| CertManager.CertManager.Provision | src/main/cert-manager.ts:118-125 | the CA is installed exactly when the query says it is missing; an install failure is rethrown and nothing is generated; otherwise the certificate is generated; the commands run and the files afterwards follow those steps |
| CertManager.CertManager.EnsureCert | src/main/cert-manager.ts:112-127 | an existing bundle is returned with nothing run and nothing created; otherwise the CA is installed exactly when the query says it is missing, then the certificate is generated unless the install failed; the files afterwards are the old ones plus what each run that happened wrote, plus the certificate directory when generation was reached; success means the bundle is present |
| System.Machine.Exec | src/main/cert-manager.ts:96-98 | a run is recorded, and what it writes exists afterwards |
| System.Machine.MakeDirectory | src/main/cert-manager.ts:88-90 | the directory exists afterwards |
| PortForward.ValidatePort | src/main/port-forward-manager.ts:25-29 | passes exactly the integers 1..65535, and otherwise fails with "Invalid <name>: <port>" |
| PortForward.NewPortForwardManager | src/main/port-forward-manager.ts:34-41 | missing ports default to 8080/8443; the HTTP port is validated before the HTTPS one; the configuration is kept only when both pass |
| PortForward.DefaultsAreValid | src/main/port-forward-manager.ts:17-20 | with no options the manager forwards to 8080 and 8443 |
| PortForward.CheckRules | src/main/port-forward-manager.ts:46-73 | each flag holds exactly when the output contains that rule's text; all = http and https; a failed query gives all false |
| PortForward.RuleText | src/main/port-forward-manager.ts:53-58 | the pf redirect rule for a port; `PortForward.AnchorSatisfiesCheck` and `PortForward.LongerPortMatchesRule` |
| PortForward.AnchorContent | src/main/port-forward-manager.ts:79-82 | the anchor is the HTTP rule, a newline, then the HTTPS rule |
| PortForward.AnchorSatisfiesCheck | src/main/port-forward-manager.ts:53-64 | a rule table that contains the loaded anchor reports everything enabled |
| PortForward.LongerPortMatchesRule | src/main/port-forward-manager.ts:53-55 | the table for port `10p+d` also counts as holding the rule for port `p` |
| PortForward.EnableError | src/main/port-forward-manager.ts:97-103 | a message containing "User canceled" becomes "User cancelled port forwarding setup"; any other message is kept unchanged |
| PortForward.CancelAnywhereIsCancellation | src/main/port-forward-manager.ts:98 | the marker is recognised wherever it appears in the message |
| PortForward.Enable | src/main/port-forward-manager.ts:91-103 | a run that passes passes; a failure is rethrown through the mapping |
| PortForward.EnsurePortForwarding | src/main/port-forward-manager.ts:109-121 | the anchor is loaded exactly when the check does not report all enabled |
| PortForward.EnsureAfterEnableIsQuiet | src/main/port-forward-manager.ts:109-121 | once the anchor is listed, ensuring again only queries |
| PortUtils.CheckPortAvailable | src/main/port-utils.ts:6-22 | a port outside 0..65535 is rejected by `listen` with a range error; otherwise available exactly when the bind on 127.0.0.1 succeeds; `listen` is always called first, and the listener is closed exactly when true is reported |
| PortUtils.FindAvailablePort | src/main/port-utils.ts:28-39 | the result lies in [start, end] and is available; every lower port in the range was probed in ascending order and found busy; the first port above 65535 reached by the search ends it with that probe's range error; the error "No available port found between <start> and <end>" comes exactly when every port in the range is valid and busy, empty ranges included |
| PortUtils.SuggestPort | src/main/port-utils.ts:28-31 | the default range is 3000 to 9999, so its only failure is the "No available port" error for that range |
| PortUtils.RangePastMaxIsRejected | src/main/port-utils.ts:20 | with every port busy, the search from 65535 to 65540 probes 65535 and then fails on 65536 with the range error |
| PortUtils.TwoBusyPortsAreSkipped | src/main/port-utils.test.ts:62-85 | with 3000 and 3001 busy, the search from 3000 to 3010 gives 3002 after probing 3000, 3001, 3002 |
| PortUtils.FullRangeFails | src/main/port-utils.test.ts:87-101 | with every port busy, 3000 to 3002 fails with "No available port found between 3000 and 3002" |
| LegacyProxy.ResolvePort | src/index.ts:41-66 | null exactly when the project directory is missing; the default port without `.env` or with a missing or empty entry; otherwise `parseInt` of the entry |
| LegacyProxy.IsFalsy | src/index.ts:81 | `!port`: no project, NaN or 0; `LegacyProxy.NonNumericEnvPortIsNotFound` and `LegacyProxy.ZeroDefaultPortIsNotFound` |
| LegacyProxy.HandleRequest | src/index.ts:69-91 | 400 "Invalid subdomain" under the first-occurrence rule; 404 "Project not found: <sub>" for a null, 0 or NaN port; otherwise forwarded to `http://localhost:<port>` |
| LegacyProxy.HandleUpgrade | src/index.ts:94-114 | the socket is destroyed exactly on an invalid subdomain or a falsy port |
| LegacyProxy.UpgradeMatchesRequest | src/index.ts:94-114 | an upgrade is relayed exactly when a request is forwarded, to the same target |
| LegacyProxy.EnvPortIsForwarded | src/index.ts:79-90 | a project whose entry is the text of a non-zero integer is forwarded to that port |
| LegacyProxy.NonNumericEnvPortIsNotFound | src/index.ts:58-65 | an entry with no digits is NaN, so the project gets 404 rather than the default port |
| LegacyProxy.ZeroDefaultPortIsNotFound | src/index.ts:81-85 | a default port of 0 makes projects without `.env` answer 404 |
| Renderer.Prepend | src/renderer/main.ts:242-247 | the new entry is first, the older ones follow in order, and the length is capped at 500 |
| Renderer.PrependKeepsCap | src/renderer/main.ts:245-247 | the buffer never exceeds 500; below the cap nothing is dropped |
| Renderer.AddAllKeepsNewest | src/renderer/main.ts:242-248 | for a buffer within the cap, adding any number of entries one after another leaves the newest 500 of the new entries (latest first) and the old buffer |
| Renderer.FilterLogs | src/renderer/main.ts:252-253 | 'all' shows every log; any other filter shows only logs of that type, and all of them |
| Renderer.UnknownFilterShowsNothing | src/renderer/main.ts:253 | a filter naming no log type shows nothing |
| Renderer.FilterAfterPrepend | src/renderer/main.ts:242-253 | after an addition the view is the view of the older entries the cap keeps (all of them below the cap), with the new entry in front exactly when it passes the filter |
| Renderer.SaveDecision | src/renderer/main.ts:192-203 | nothing is sent when the trimmed subdomain is empty or the port is NaN; an update is sent exactly when a non-empty id is being edited; the fields sent are the trimmed subdomain, the parsed port and the checkbox |
| Renderer.SaveUnchangedEditSendsSameFields | src/renderer/main.ts:173-203 | for an entry with a non-empty id and a non-empty subdomain without white space at either end (as every entry the window writes has), opening it for editing and saving it untouched sends the entry's own fields back |
| Renderer.EditForm | src/renderer/main.ts:179-181 | the form filled from an entry, the port as `String(port)`; `Renderer.SaveUnchangedEditSendsSameFields` |
| Renderer.EmptyIdIsSavedAsNew | src/renderer/main.ts:199 | an empty id counts as no id, so the entry is added, not updated |
| Renderer.Renderer.constructor | src/renderer/main.ts:10-14 | the window starts with no hosts, no logs, filter 'all' and nothing being edited |
| Renderer.Renderer.VisibleLogs | src/renderer/main.ts:251-253 | the buffer under the current filter; `Renderer.FilterLogs` and `Renderer.FilterAfterPrepend` |
| Renderer.Renderer.AddLog | src/renderer/main.ts:242-249 | the buffer becomes `Prepend` of the old buffer; nothing else changes |
| Renderer.Renderer.ClearLogs | src/renderer/main.ts:236-239 | the buffer and the view become empty |
| Renderer.Renderer.SelectFilter | src/renderer/main.ts:224-233 | a button without a `data-filter` value leaves the filter as it was; otherwise the filter becomes that value; either way the view shows the buffer under the current filter |
| Renderer.Renderer.LoadHosts | src/renderer/main.ts:76-79 | the host list becomes the registry's |
| Renderer.Renderer.OpenAddModal | src/renderer/main.ts:164-171 | an empty form with 'enabled' ticked, editing nothing |
| Renderer.Renderer.OpenEditModal | src/renderer/main.ts:173-185 | an unknown id changes nothing; otherwise the first entry with the id fills the form and becomes the one edited |
| Renderer.Renderer.CloseModal | src/renderer/main.ts:187-190 | the modal closes and nothing is being edited |
| Renderer.Renderer.SaveHost | src/renderer/main.ts:192-207 | carries out `SaveDecision` on the registry; after a completed call the modal is closed and the hosts are reloaded; a failed update changes nothing |
| Renderer.Renderer.DeleteHost | src/renderer/main.ts:209-217 | an unknown id or a declined confirmation does nothing; otherwise the entry is deleted and the list reloaded |

## Left out

- Sockets, TLS, certificate contents and `fs.readFileSync` are left out. Forwarding by the `http-proxy` library is the reply `Forward(target)` or the action `Relay(target)`. A backend failure is the event `OnProxyError`.
- Time is left out. The 3000 ms stop timer and the listeners' close callbacks are events: `DrainOrder` for the stop in progress, and `FireStaleTimer`/`FireStaleCloseCallbacks` for events that arrive later. The order in which the event emitter delivers them is not modelled.
- Overlapping `start`/`stop` calls, and requests that arrive while a stop is in progress, are not modelled, because the code has no serialization to verify.
- ProxyServer.ProxyServer.Start: a failure after only one listener has bound is modelled as the single event `BindFailed(message)`.
- Log ids keep only the counter. The `Date.now()` prefix and the timestamps are left out because they are clock readings.
- Host ids (`host_<time>_<random>`) are the parameter `freshId`, because they come from the clock and a random source.
- electron-store persistence is left out. The store's methods write the whole list or the whole configuration, and the class fields are what is persisted.
- `app.getPath`, `app.isPackaged`, `process.resourcesPath` and `process.arch` enter as `AppEnvironment`.
- Text.PathJoin: it does not normalise `..`, `.` or repeated separators as `path.join` does. Subdomains such as `..` (reachable in the standalone proxy) are therefore not resolved to parent directories.
- System.Machine.MakeDirectory: parent directories created by the recursive mkdir are not tracked, and a failing `mkdirSync` (a permission error, say) is not modelled: the directory is always created.
- mkcert, `pfctl`, `sudo` and `osascript` are external programs. The caller supplies how each run ends. The AppleScript text and its shell quoting are not modelled; the run is recorded as `LoadAnchor(content)`. Thrown values that are not `Error` objects are not distinguished.
- `console` output is left out. This includes the standalone proxy's warnings and the "Port forwarding …" messages.
- YAML configuration loading, dotenv parsing, the standalone proxy's start-up certificate check and `process.exit` are left out. The environment file is the function `dotenv` from a path to its entries.
- Numbers are integers or NaN. Floating-point values (an `http_port` of 80.5, say) are not modelled. The integers are unbounded: JavaScript loses precision above 2^53 and prints integers from 10^21 on in exponent form, which `Text.IntToString` does not model.
- PortUtils.CheckPortAvailable: the range error carries only the port, not the text of Node's `RangeError` message.
- PortForward.NewPortForwardManager: a key given explicitly as `undefined` is treated like a missing key, whereas the spread would override the default with `undefined`.
- Store.MergeHost: a field given explicitly as `undefined` in the update is treated like a missing one, whereas `{...h, ...updates}` would store `undefined`.
- Store.MergeConfig: likewise, an explicit `undefined` in the update keeps the stored value, whereas the spread would override it.
- The renderer's DOM rendering, `escapeHtml`, `formatTime`, tabs, alerts, the settings panel and the status badge are left out. So are the Electron shell (src/main/index.ts), the IPC wiring (src/main/ipc-handlers.ts and src/renderer/preload.ts) and the build and lint files.
- Renderer.Renderer.OpenAddModal: `form.reset()` is taken to restore empty inputs, since the HTML defaults are not part of this model.
- Renderer.Renderer.SaveHost: an IPC call goes straight to the registry, so an `addHost` that fails in the main process is not modelled.
