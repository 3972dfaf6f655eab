/** How both proxies turn a Host header into a subdomain, the replies their
    handlers give, and the redirect of the plain-HTTP listener. The rule is `host.replace("." + baseDomain, "")`:
    the FIRST occurrence of "." + baseDomain is deleted wherever it stands, which
    is not the same as stripping a suffix. */
module Routing {
  import opened Wrappers
  import opened Text

  /** The Host header's value; a missing header reads as the empty string. */
  function HostValue(header: Option<string>): string {
    header.GetOr("")
  }

  /** `host.replace("." + baseDomain, "")`. */
  function SubdomainOf(host: string, baseDomain: string): string {
    ReplaceFirst(host, "." + baseDomain, "")
  }

  /** `!subdomain || subdomain === host`: the request is answered with
      "Invalid subdomain" (or its socket destroyed). */
  predicate IsInvalidSubdomain(host: string, baseDomain: string) {
    var sub := SubdomainOf(host, baseDomain);
    sub == "" || sub == host
  }

  /** A host is rejected exactly when "." + baseDomain does not occur in it at all,
      or when it is nothing but "." + baseDomain. */
  lemma InvalidSubdomainIff(host: string, baseDomain: string)
    ensures IsInvalidSubdomain(host, baseDomain)
            <==> !Includes(host, "." + baseDomain) || host == "." + baseDomain
  {
    var pat := "." + baseDomain;
    match IndexOf(host, pat)
    case None =>
      assert SubdomainOf(host, baseDomain) == host;
      assert !OccursAt(host, pat, 0);
    case Some(i) =>
      var sub := host[..i] + host[i + |pat|..];
      assert SubdomainOf(host, baseDomain) == sub;
      assert |sub| == |host| - |pat| < |host|;
      if sub == "" {
        assert host == host[i..i + |pat|];
      }
      if host == pat {
        assert |sub| == 0;
      }
  }

  /** Whatever follows the base domain stays in the subdomain, which is why a
      port in the Host header survives ("app.dev.test:8443" gives "app:8443") and
      a name that merely contains the base domain is accepted ("a.dev.test.x"
      gives "a.x"). */
  lemma TextAfterBaseDomainIsKept(name: string, baseDomain: string, rest: string)
    requires name != "" && '.' !in name
    ensures SubdomainOf(name + "." + baseDomain + rest, baseDomain) == name + rest
    ensures !IsInvalidSubdomain(name + "." + baseDomain + rest, baseDomain)
  {
    var pat := "." + baseDomain;
    var host := name + pat + rest;
    assert host == name + "." + baseDomain + rest;
    assert host[|name|..|name| + |pat|] == pat;
    forall j | 0 <= j < |name|
      ensures !OccursAt(host, pat, j)
    {
      assert host[j] == name[j] != '.' == pat[0];
    }
    SubdomainCutsFirst(host, baseDomain, |name|);
    assert host[..|name|] == name;
    assert host[|name| + |baseDomain| + 1..] == rest;
  }

  /** The intended case: a single DNS label in front of the base domain resolves
      to that name. */
  lemma LabelHostResolves(name: string, baseDomain: string)
    requires name != "" && '.' !in name
    ensures SubdomainOf(name + "." + baseDomain, baseDomain) == name
    ensures !IsInvalidSubdomain(name + "." + baseDomain, baseDomain)
  {
    TextAfterBaseDomainIsKept(name, baseDomain, "");
    assert name + "." + baseDomain + "" == name + "." + baseDomain;
    assert name + "" == name;
  }

  /** Once the first occurrence is known, the subdomain is the host with that
      occurrence cut out. */
  lemma SubdomainCutsFirst(host: string, baseDomain: string, i: nat)
    requires OccursAt(host, "." + baseDomain, i)
    requires forall j :: 0 <= j < i ==> !OccursAt(host, "." + baseDomain, j)
    ensures SubdomainOf(host, baseDomain) == host[..i] + host[i + |baseDomain| + 1..]
  {
  }

  /** The bare base domain, with or without the leading dot, is rejected. */
  lemma BareBaseDomainRejected(baseDomain: string)
    ensures IsInvalidSubdomain(baseDomain, baseDomain)
    ensures IsInvalidSubdomain("." + baseDomain, baseDomain)
  {
    InvalidSubdomainIff(baseDomain, baseDomain);
    InvalidSubdomainIff("." + baseDomain, baseDomain);
  }

  /** The Location of the 301 answer on the plain listener: `https://${host}${url}`. */
  function RedirectLocation(host: string, url: string): (loc: string)
    ensures |loc| == 8 + |host| + |url|
    ensures loc[..8] == "https://" && loc[8..] == host + url
  {
    "https://" + host + url
  }

  // ---- replies ----

  datatype HttpReply =
    | Respond(status: nat, headers: map<string, string>, body: string)
    | Forward(target: string)          // handed to the forwarding library
    | NoReply                          // the proxy handle is gone: left unanswered

  datatype UpgradeAction = Destroy | Relay(target: string) | Ignore

  function TextPlain(status: nat, body: string): HttpReply {
    Respond(status, map["Content-Type" := "text/plain"], body)
  }

  /** The plain listener's handler: always 301 Moved Permanently (section 15.4.2
      of RFC 9110) to the same host and path over https, whatever the registry
      holds. */
  function HttpRedirect(hostHeader: Option<string>, url: string): (r: HttpReply)
    ensures r.Respond? && r.status == 301 && r.body == ""
    ensures r.headers == map["Location" := RedirectLocation(HostValue(hostHeader), url)]
  {
    Respond(301, map["Location" := RedirectLocation(HostValue(hostHeader), url)], "")
  }
}
