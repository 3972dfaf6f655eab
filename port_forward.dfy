/** Redirecting the standard ports 80 and 443 to the proxy's listeners with pf
    (PortForwardManager): port validation, the configuration the manager is
    built with, the exact redirection rules, how the loaded rule table is
    searched for them, and the check-then-enable sequence. The `pfctl` query and
    the privileged `osascript` run are external: the caller supplies how each
    ends. */
module PortForward {
  import opened Wrappers
  import opened Text

  const STANDARD_HTTP_PORT := 80
  const STANDARD_HTTPS_PORT := 443
  const DEFAULT_HTTP_PORT := 8080
  const DEFAULT_HTTPS_PORT := 8443
  const MAX_PORT := 65535

  /** `validatePort`: the integers 1..65535 pass; anything else (NaN included)
      fails with "Invalid <name>: <port>". */
  function ValidatePort(port: Num, name: string): (r: Outcome<string>)
    ensures r.Pass? <==> port.Int? && 1 <= port.value <= MAX_PORT
    ensures r.Fail? ==> r.error == "Invalid " + name + ": " + NumToString(port)
  {
    if port.NaN? || port.value < 1 || port.value > MAX_PORT then
      Fail("Invalid " + name + ": " + NumToString(port))
    else Pass
  }

  /** The ports the manager forwards to, both already validated. */
  datatype PortForwardConfig = PortForwardConfig(http_port: int, https_port: int)

  /** `Partial<PortForwardConfig>`: `None` is a key that was not given. */
  datatype PortForwardOptions = PortForwardOptions(http_port: Option<Num>, https_port: Option<Num>)

  datatype PortForwardManager = PortForwardManager(config: PortForwardConfig)

  /** The constructor: missing ports default to 8080 and 8443, the HTTP port is
      validated first, then the HTTPS port, and only a configuration that passes
      both is kept. */
  function NewPortForwardManager(options: PortForwardOptions): (r: Result<PortForwardManager, string>)
    ensures var h := options.http_port.GetOr(Int(DEFAULT_HTTP_PORT));
            var s := options.https_port.GetOr(Int(DEFAULT_HTTPS_PORT));
            && (r.Success? <==> ValidatePort(h, "http_port").Pass? && ValidatePort(s, "https_port").Pass?)
            && (r.Success? ==> r.value.config == PortForwardConfig(h.value, s.value))
            && (ValidatePort(h, "http_port").Fail? ==> r == Failure(ValidatePort(h, "http_port").error))
            && (ValidatePort(h, "http_port").Pass? && ValidatePort(s, "https_port").Fail? ==>
                  r == Failure(ValidatePort(s, "https_port").error))
  {
    var h := options.http_port.GetOr(Int(DEFAULT_HTTP_PORT));
    var s := options.https_port.GetOr(Int(DEFAULT_HTTPS_PORT));
    match ValidatePort(h, "http_port")
    case Fail(e) => Failure(e)
    case Pass =>
      match ValidatePort(s, "https_port")
      case Fail(e) => Failure(e)
      case Pass => Success(PortForwardManager(PortForwardConfig(h.value, s.value)))
  }

  /** Without options the manager forwards to 8080 and 8443. */
  lemma DefaultsAreValid()
    ensures NewPortForwardManager(PortForwardOptions(None, None))
            == Success(PortForwardManager(PortForwardConfig(8080, 8443)))
  {
  }

  /** The pf rule that redirects a standard port to one on the loopback address. */
  function RuleText(standard: int, port: int): string {
    "rdr pass on lo0 inet proto tcp from any to any port " + IntToString(standard)
    + " -> 127.0.0.1 port " + IntToString(port)
  }

  function HttpRule(c: PortForwardConfig): string {
    RuleText(STANDARD_HTTP_PORT, c.http_port)
  }

  function HttpsRule(c: PortForwardConfig): string {
    RuleText(STANDARD_HTTPS_PORT, c.https_port)
  }

  datatype RuleCheck = RuleCheck(http_enabled: bool, https_enabled: bool, all_enabled: bool)

  /** `checkRules`, given how the rule query ended (its output, or an error): each
      flag says whether the output contains that rule's text anywhere, and a
      failed query is "nothing enabled", never an error. */
  function CheckRules(m: PortForwardManager, query: Result<string, string>): (r: RuleCheck)
    ensures query.Failure? ==> r == RuleCheck(false, false, false)
    ensures query.Success? ==> (r.http_enabled <==> Includes(query.value, HttpRule(m.config)))
    ensures query.Success? ==> (r.https_enabled <==> Includes(query.value, HttpsRule(m.config)))
    ensures r.all_enabled <==> r.http_enabled && r.https_enabled
  {
    match query
    case Failure(_) => RuleCheck(false, false, false)
    case Success(rules) =>
      var httpEnabled := Includes(rules, HttpRule(m.config));
      var httpsEnabled := Includes(rules, HttpsRule(m.config));
      RuleCheck(httpEnabled, httpsEnabled, httpEnabled && httpsEnabled)
  }

  /** What `enable` loads into the firewall anchor: the HTTP rule, a newline, the
      HTTPS rule. */
  function AnchorContent(c: PortForwardConfig): (r: string)
    ensures OccursAt(r, HttpRule(c), 0)
    ensures OccursAt(r, HttpsRule(c), |HttpRule(c)| + 1)
    ensures |r| == |HttpRule(c)| + 1 + |HttpsRule(c)| && r[|HttpRule(c)|] == '\n'
  {
    TwoLines(HttpRule(c), HttpsRule(c));
    HttpRule(c) + "\n" + HttpsRule(c)
  }

  /** Two lines joined by a newline hold each line where it was put. */
  lemma TwoLines(x: string, y: string)
    ensures OccursAt(x + "\n" + y, x, 0)
    ensures OccursAt(x + "\n" + y, y, |x| + 1)
  {
    var r := x + "\n" + y;
    assert r[..|x|] == x;
    assert r[|x| + 1..] == y;
  }

  /** Once the anchor is loaded, a query that lists it reports everything
      enabled, so a second `ensurePortForwarding` does nothing. */
  lemma AnchorSatisfiesCheck(m: PortForwardManager, before: string, after: string)
    ensures CheckRules(m, Success(before + AnchorContent(m.config) + after)).all_enabled
  {
    TwoLinesWithin(before, HttpRule(m.config), HttpsRule(m.config), after);
  }

  /** Text around two joined lines still includes each line. */
  lemma TwoLinesWithin(before: string, x: string, y: string, after: string)
    ensures Includes(before + (x + "\n" + y) + after, x)
    ensures Includes(before + (x + "\n" + y) + after, y)
  {
    var a := x + "\n" + y;
    var t := before + a + after;
    TwoLines(x, y);
    OccursWithin(before, a, after, x, 0);
    OccursWithin(before, a, after, y, |x| + 1);
    IncludesAt(t, x, |before|);
    IncludesAt(t, y, |before| + |x| + 1);
  }

  lemma OccursWithin(before: string, a: string, after: string, pat: string, i: nat)
    requires OccursAt(a, pat, i)
    ensures OccursAt(before + a + after, pat, |before| + i)
  {
    var t := before + a + after;
    assert t[|before| + i..|before| + i + |pat|] == a[i..i + |pat|];
  }

  /** The search is for text, not for a rule: a table holding only the rule for a
      port `10 * p + d` also counts as holding the rule for port `p`, since the
      one rule text is a prefix of the other (808 is "enabled" by the rule for
      8080). */
  lemma LongerPortMatchesRule(m: PortForwardManager, d: nat)
    requires m.config.http_port >= 1 && d < 10
    ensures CheckRules(m, Success(RuleText(STANDARD_HTTP_PORT, 10 * m.config.http_port + d))).http_enabled
  {
    var p := m.config.http_port;
    var q := 10 * p + d;
    assert q / 10 == p && q % 10 == d;
    assert IntToString(q) == IntToString(p) + [DigitChar(d)];
    assert RuleText(STANDARD_HTTP_PORT, q) == RuleText(STANDARD_HTTP_PORT, p) + [DigitChar(d)];
    assert OccursAt(RuleText(STANDARD_HTTP_PORT, q), RuleText(STANDARD_HTTP_PORT, p), 0);
    IncludesAt(RuleText(STANDARD_HTTP_PORT, q), RuleText(STANDARD_HTTP_PORT, p), 0);
  }

  const CANCELED_MARKER := "User canceled"
  const CANCELLED_MESSAGE := "User cancelled port forwarding setup"

  /** `enable`'s error mapping: a dialog the user dismissed becomes
      "User cancelled port forwarding setup"; any other error is rethrown
      unchanged. */
  function EnableError(message: string): (r: string)
    ensures Includes(message, CANCELED_MARKER) ==> r == CANCELLED_MESSAGE
    ensures !Includes(message, CANCELED_MARKER) ==> r == message
  {
    if Includes(message, CANCELED_MARKER) then CANCELLED_MESSAGE else message
  }

  /** The marker is found wherever the tool put it in its message. */
  lemma CancelAnywhereIsCancellation(before: string, after: string)
    ensures EnableError(before + CANCELED_MARKER + after) == CANCELLED_MESSAGE
  {
    OccursWithin(before, CANCELED_MARKER, after, CANCELED_MARKER, 0);
    IncludesAt(before + CANCELED_MARKER + after, CANCELED_MARKER, |before|);
  }

  /** `enable`, given how the privileged script run ended. */
  function Enable(run: Outcome<string>): (r: Outcome<string>)
    ensures run.Pass? <==> r.Pass?
    ensures run.Fail? ==> r.error == EnableError(run.error)
  {
    match run
    case Pass => Pass
    case Fail(e) => Fail(EnableError(e))
  }

  /** The external effects, in order: the rule query, then loading the anchor. */
  datatype PfAction = QueryRules | LoadAnchor(content: string)

  /** `ensurePortForwarding`: query the rules; stop there when everything is
      enabled, otherwise load the anchor and report how that ended. */
  function EnsurePortForwarding(m: PortForwardManager, query: Result<string, string>,
                                run: Outcome<string>): (r: (Outcome<string>, seq<PfAction>))
    ensures CheckRules(m, query).all_enabled ==> r == (Pass, [QueryRules])
    ensures !CheckRules(m, query).all_enabled ==>
              r == (Enable(run), [QueryRules, LoadAnchor(AnchorContent(m.config))])
    ensures LoadAnchor(AnchorContent(m.config)) in r.1 <==> !CheckRules(m, query).all_enabled
  {
    if CheckRules(m, query).all_enabled then (Pass, [QueryRules])
    else (Enable(run), [QueryRules, LoadAnchor(AnchorContent(m.config))])
  }

  /** Enabling and then ensuring again loads the anchor only once. */
  lemma EnsureAfterEnableIsQuiet(m: PortForwardManager, before: string, after: string, run: Outcome<string>)
    ensures EnsurePortForwarding(m, Success(before + AnchorContent(m.config) + after), run) == (Pass, [QueryRules])
  {
    AnchorSatisfiesCheck(m, before, after);
  }
}
