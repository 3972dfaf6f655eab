/** The host registry and global configuration (AppStore). Persistence itself is
    external: the object holds what is persisted, and every method writes the
    whole list or the whole configuration back. */
module Store {
  import opened Wrappers
  import opened Types
  import opened Lists

  const DEFAULT_CONFIG := AppConfig("localhost", 8080, 8443, false)

  /** A registry entry without its id (`Omit<HostConfig, 'id'>`). */
  datatype NewHost = NewHost(subdomain: string, port: int, enabled: bool)

  /** `Partial<HostConfig>`: `None` is a field the caller did not supply. */
  datatype HostUpdate = HostUpdate(id: Option<string>, subdomain: Option<string>,
                                   port: Option<int>, enabled: Option<bool>)

  /** `Partial<AppConfig>`. */
  datatype ConfigUpdate = ConfigUpdate(base_domain: Option<string>, http_port: Option<int>,
                                       https_port: Option<int>, auto_launch: Option<bool>)

  /** What the backing store holds when the registry is opened; a key that is
      missing is filled with its default. */
  datatype Persisted = Persisted(hosts: Option<seq<HostConfig>>, config: Option<AppConfig>)

  /** `hosts.findIndex(h => h.id === id)`. */
  function IndexOfId(hosts: seq<HostConfig>, id: string): (r: Option<nat>)
    ensures r.Some? ==> r.value < |hosts| && hosts[r.value].id == id
    ensures r.Some? ==> forall j :: 0 <= j < r.value ==> hosts[j].id != id
    ensures r.None? <==> forall j :: 0 <= j < |hosts| ==> hosts[j].id != id
  {
    FindIndex(hosts, (h: HostConfig) => h.id == id)
  }

  /** `{ ...h, ...updates, id }`: supplied fields win, and the id is always the one
      looked up, even when the updates carry another. */
  function MergeHost(h: HostConfig, u: HostUpdate, id: string): HostConfig {
    HostConfig(id, u.subdomain.GetOr(h.subdomain), u.port.GetOr(h.port), u.enabled.GetOr(h.enabled))
  }

  /** The merged entry takes every supplied field, keeps the others, and always
      carries the id looked up, whatever id the updates hold. */
  lemma MergeHostOverwritesSupplied(h: HostConfig, u: HostUpdate, id: string)
    ensures var r := MergeHost(h, u, id);
      && r.id == id
      && (u.subdomain.Some? ==> r.subdomain == u.subdomain.value)
      && (u.subdomain.None? ==> r.subdomain == h.subdomain)
      && (u.port.Some? ==> r.port == u.port.value)
      && (u.port.None? ==> r.port == h.port)
      && (u.enabled.Some? ==> r.enabled == u.enabled.value)
      && (u.enabled.None? ==> r.enabled == h.enabled)
  {
  }

  /** `hosts.filter(h => h.id !== id)`. */
  function WithoutId(hosts: seq<HostConfig>, id: string): (r: seq<HostConfig>)
    ensures forall k :: 0 <= k < |r| ==> r[k].id != id && r[k] in hosts
    ensures forall k :: 0 <= k < |hosts| && hosts[k].id != id ==> hosts[k] in r
    ensures IndexOfId(hosts, id).None? ==> r == hosts
  {
    Filter(hosts, (h: HostConfig) => h.id != id)
  }

  /** Deleting keeps the other entries in their order: deleting from a
      concatenation deletes from each part. */
  lemma WithoutIdKeepsOrder(a: seq<HostConfig>, b: seq<HostConfig>, id: string)
    ensures WithoutId(a + b, id) == WithoutId(a, id) + WithoutId(b, id)
  {
    FilterConcat(a, b, (h: HostConfig) => h.id != id);
  }

  predicate Serves(h: HostConfig, subdomain: string) {
    h.subdomain == subdomain && h.enabled
  }

  /** `hosts.find(h => h.subdomain === subdomain && h.enabled)`: the first enabled
      entry for the subdomain; disabled entries are never returned. */
  function FindEnabledHost(hosts: seq<HostConfig>, subdomain: string): (r: Option<HostConfig>)
    ensures r.Some? ==> r.value.subdomain == subdomain && r.value.enabled
    ensures r.Some? ==> exists i :: 0 <= i < |hosts| && hosts[i] == r.value
                                  && forall j :: 0 <= j < i ==> !Serves(hosts[j], subdomain)
    ensures r.None? <==> forall j :: 0 <= j < |hosts| ==> !Serves(hosts[j], subdomain)
  {
    match FindIndex(hosts, (h: HostConfig) => Serves(h, subdomain))
    case None => None
    case Some(i) => Some(hosts[i])
  }

  /** A host just added, enabled, is what a lookup of its subdomain finds, unless an
      earlier enabled entry already serves that subdomain. */
  lemma {:induction false} AddedHostIsFound(hosts: seq<HostConfig>, added: HostConfig)
    requires added.enabled
    requires FindEnabledHost(hosts, added.subdomain).None?
    ensures FindEnabledHost(hosts + [added], added.subdomain) == Some(added)
  {
    var all := hosts + [added];
    assert Serves(all[|hosts|], added.subdomain);
    assert forall j :: 0 <= j < |hosts| ==> all[j] == hosts[j];
  }

  /** Once an id is deleted no entry has it, so a later update of it fails. */
  lemma DeletedIdIsGone(hosts: seq<HostConfig>, id: string)
    ensures IndexOfId(WithoutId(hosts, id), id).None?
  {
  }

  /** `{ ...config, ...updates }`. */
  function MergeConfig(c: AppConfig, u: ConfigUpdate): AppConfig {
    AppConfig(u.base_domain.GetOr(c.base_domain), u.http_port.GetOr(c.http_port),
              u.https_port.GetOr(c.https_port), u.auto_launch.GetOr(c.auto_launch))
  }

  /** Merging overwrites exactly the supplied fields. */
  lemma MergeConfigOverwritesSupplied(c: AppConfig, u: ConfigUpdate)
    ensures var r := MergeConfig(c, u);
      && (u.base_domain.Some? ==> r.base_domain == u.base_domain.value)
      && (u.base_domain.None? ==> r.base_domain == c.base_domain)
      && (u.http_port.Some? ==> r.http_port == u.http_port.value)
      && (u.http_port.None? ==> r.http_port == c.http_port)
      && (u.https_port.Some? ==> r.https_port == u.https_port.value)
      && (u.https_port.None? ==> r.https_port == c.https_port)
      && (u.auto_launch.Some? ==> r.auto_launch == u.auto_launch.value)
      && (u.auto_launch.None? ==> r.auto_launch == c.auto_launch)
  {
  }

  class AppStore {
    var hosts: seq<HostConfig>
    var config: AppConfig

    /** Opening the store fills a missing host list with [] and a missing
        configuration with DEFAULT_CONFIG. */
    constructor (persisted: Persisted)
      ensures hosts == persisted.hosts.GetOr([])
      ensures config == persisted.config.GetOr(DEFAULT_CONFIG)
    {
      hosts := persisted.hosts.GetOr([]);
      config := persisted.config.GetOr(DEFAULT_CONFIG);
    }

    function GetHosts(): seq<HostConfig>
      reads this
    {
      hosts
    }

    /** Appends one entry with the caller's fields and the fresh id, and returns it.
        The id (`host_<time>_<random>` in the source) is a parameter here. */
    method AddHost(host: NewHost, freshId: string) returns (added: HostConfig)
      modifies this
      ensures added == HostConfig(freshId, host.subdomain, host.port, host.enabled)
      ensures hosts == old(hosts) + [added]
      ensures config == old(config)
    {
      var list := GetHosts();
      added := HostConfig(freshId, host.subdomain, host.port, host.enabled);
      list := list + [added];
      hosts := list;
    }

    /** Replaces the first entry with that id by the merge of it and the updates;
        an unknown id is the error "Host not found: <id>" and nothing changes. */
    method UpdateHost(id: string, updates: HostUpdate) returns (r: Result<HostConfig, string>)
      modifies this
      ensures config == old(config)
      ensures IndexOfId(old(hosts), id).None? ==>
                r == Failure("Host not found: " + id) && hosts == old(hosts)
      ensures IndexOfId(old(hosts), id).Some? ==>
                var i := IndexOfId(old(hosts), id).value;
                && r == Success(MergeHost(old(hosts)[i], updates, id))
                && hosts == old(hosts)[i := r.value]
    {
      var list := GetHosts();
      var index := IndexOfId(list, id);
      if index.None? {
        return Failure("Host not found: " + id);
      }
      var updated := MergeHost(list[index.value], updates, id);
      list := list[index.value := updated];
      hosts := list;
      r := Success(updated);
    }

    /** Removes every entry with that id. */
    method DeleteHost(id: string)
      modifies this
      ensures hosts == WithoutId(old(hosts), id)
      ensures config == old(config)
    {
      var list := GetHosts();
      hosts := WithoutId(list, id);
    }

    function GetHostBySubdomain(subdomain: string): Option<HostConfig>
      reads this
    {
      FindEnabledHost(hosts, subdomain)
    }

    function GetConfig(): AppConfig
      reads this
    {
      config
    }

    /** Writes back the configuration with the supplied fields overwritten. */
    method SetConfig(updates: ConfigUpdate)
      modifies this
      ensures config == MergeConfig(old(config), updates)
      ensures hosts == old(hosts)
    {
      var current := GetConfig();
      config := MergeConfig(current, updates);
    }
  }
}
