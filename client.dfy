/**
 * The GitHub client factory of github/client.go: routing between GitHub Enterprise and
 * GitHub.com, and the per-organisation installation-ID cache shared by both paths.
 */
module GitHubClient {
  import opened Wrappers
  import opened GoTypes
  import Config

  /** One GitHub App installation as listed by the Apps API: its ID and its account's login ("" when absent). */
  datatype Installation = Installation(id: Int64, login: GoString)

  /** Which GitHub the factory talks to; an Enterprise host carries its configured URL as written. */
  datatype Host = OnEnterprise(enterpriseUrl: GoString) | OnGitHubCom

  /**
   * The API endpoints a client is configured with: GitHub.com's defaults, or the base URL given to
   * the installation transport together with the client's REST and upload base URLs.
   */
  datatype Endpoints =
    | DefaultEndpoints
    | CustomEndpoints(transportBaseUrl: GoString, baseUrl: GoString, uploadUrl: GoString)

  /** An installation-authenticated client. */
  datatype Client = Client(installationId: Int64, endpoints: Endpoints)

  datatype ClientError =
    | EnterpriseUrlNotConfigured                       // "GitHub Enterprise URL not configured"
    | AppTransportFailed(cause: GoString)              // "failed to create app transport: %w"
    | ListInstallationsFailed(host: Host, cause: GoString) // "failed to list app installations on ...: %w"
    | NoInstallation(org: GoString, host: Host)        // "no installation found for organization ..."
    | InstallationTransportFailed(cause: GoString)     // "failed to create installation transport: %w"
    | CreateClientDeprecated                           // "CreateClient is deprecated - use CreateClientForOrg instead"

  /**
   * What GitHub and the authentication library answer during one factory call:
   * building the App transport, listing the App's installations, and building the
   * installation transport. `installations` is the single page the listing asks for
   * (at most `InstallationsPageSize` entries); later pages are never requested.
   */
  datatype AppBackend = AppBackend(
    appsTransport: Outcome<GoString>,
    installations: Result<seq<Installation>, GoString>,
    installationTransport: Outcome<GoString>)

  /** The page size of the installation listing; only this first page is scanned. */
  const InstallationsPageSize := 100

  /** The result of one factory call together with the installation cache after it. */
  datatype Step = Step(result: Result<Client, ClientError>, cache: map<GoString, Int64>)

  /** Go's `strings.TrimSuffix`: drop `suffix` once if `s` ends with it. */
  function TrimSuffix(s: GoString, suffix: GoString): (r: GoString)
    ensures |suffix| <= |s| && s[|s| - |suffix|..] == suffix ==> r + suffix == s
    ensures !(|suffix| <= |s| && s[|s| - |suffix|..] == suffix) ==> r == s
  {
    if |suffix| <= |s| && s[|s| - |suffix|..] == suffix then s[..|s| - |suffix|] else s
  }

  /** The Enterprise URL without one trailing slash. */
  function EnterpriseBase(enterpriseUrl: GoString): GoString
  {
    TrimSuffix(enterpriseUrl, "/")
  }

  /**
   * The Enterprise endpoints: all three URLs start from the trimmed Enterprise URL; the client's
   * REST base is the transport's base with a closing slash.
   */
  function EnterpriseEndpoints(enterpriseUrl: GoString): (e: Endpoints)
    ensures e.CustomEndpoints?
    ensures e.baseUrl == e.transportBaseUrl + "/"
    ensures var base := EnterpriseBase(enterpriseUrl);
            && |e.transportBaseUrl| == |base| + 7 && |e.uploadUrl| == |base| + 13
            && e.transportBaseUrl[..|base|] == base && e.transportBaseUrl[|base|..] == "/api/v3"
            && e.uploadUrl[..|base|] == base && e.uploadUrl[|base|..] == "/api/uploads/"
  {
    var base := EnterpriseBase(enterpriseUrl);
    CustomEndpoints(base + "/api/v3", base + "/api/v3" + "/", base + "/api/uploads/")
  }

  /** Exactly one trailing slash is removed, so "https://ghe/" and "https://ghe" give the same endpoints. */
  lemma EnterpriseUrlTrimming(url: GoString)
    ensures (url == [] || url[|url| - 1] != '/') ==> EnterpriseEndpoints(url + "/") == EnterpriseEndpoints(url)
    ensures EnterpriseBase(url + "/") == url
    ensures (url == [] || url[|url| - 1] != '/') ==> EnterpriseBase(url) == url
    ensures EnterpriseBase(url + "//") == url + "/"
  {
    assert (url + "/")[|url + "/"| - 1..] == "/";
    assert (url + "//")[|url + "//"| - 1..] == "/";
    assert (url + "//")[..|url + "//"| - 1] == url + "/";
  }

  /**
   * createEnterpriseInstallationClient / createGitHubComInstallationClient: build the
   * installation transport, then a client on the host's endpoints.
   */
  function InstallationClient(host: Host, installationId: Int64, transport: Outcome<GoString>): (r: Result<Client, ClientError>)
    ensures r.Success? <==> transport.Pass?
    ensures transport.Fail? ==> r == Failure(InstallationTransportFailed(transport.error))
    ensures r.Success? ==> r.value.installationId == installationId
    ensures r.Success? && host.OnGitHubCom? ==> r.value.endpoints == DefaultEndpoints
    ensures r.Success? && host.OnEnterprise? ==> r.value.endpoints == EnterpriseEndpoints(host.enterpriseUrl)
  {
    match transport
    case Fail(cause) => Failure(InstallationTransportFailed(cause))
    case Pass =>
      match host
      case OnEnterprise(url) => Success(Client(installationId, EnterpriseEndpoints(url)))
      case OnGitHubCom => Success(Client(installationId, DefaultEndpoints))
  }

  /** The index of the first installation whose login is `org`, if any. */
  function FirstMatch(installations: seq<Installation>, org: GoString): (k: Option<nat>)
    ensures k.Some? ==> k.value < |installations| && installations[k.value].login == org
    ensures k.Some? ==> forall j :: 0 <= j < k.value ==> installations[j].login != org
    ensures k.None? ==> forall j :: 0 <= j < |installations| ==> installations[j].login != org
  {
    if installations == [] then None
    else if installations[0].login == org then Some(0)
    else
      match FirstMatch(installations[1..], org)
      case None => None
      case Some(k) => Some(k + 1)
  }

  /** The installation ID the scan ends with: the first match's ID, or 0 when nothing matches. */
  function TargetInstallationId(installations: seq<Installation>, org: GoString): Int64
  {
    match FirstMatch(installations, org)
    case None => 0
    case Some(k) => installations[k].id
  }

  /** The cache after the scan: the first match, if any, is recorded under `org`. */
  function CacheAfterScan(cache: map<GoString, Int64>, installations: seq<Installation>, org: GoString): map<GoString, Int64>
  {
    match FirstMatch(installations, org)
    case None => cache
    case Some(k) => cache[org := installations[k].id]
  }

  /**
   * The per-organisation lookup shared by the Enterprise and GitHub.com paths
   * (after the Enterprise path has checked that a URL is configured).
   */
  function ForHost(host: Host, cache: map<GoString, Int64>, org: GoString, backend: AppBackend): (s: Step)
    ensures cache.Keys <= s.cache.Keys <= cache.Keys + {org}
    ensures forall o :: o in cache ==> s.cache[o] == cache[o]
    ensures s.result.Success? ==> org in s.cache && s.result.value.installationId == s.cache[org]
    ensures s.result.Success? ==> s.result == InstallationClient(host, s.cache[org], backend.installationTransport)
  {
    if org in cache then
      Step(InstallationClient(host, cache[org], backend.installationTransport), cache)
    else if backend.appsTransport.Fail? then
      Step(Failure(AppTransportFailed(backend.appsTransport.error)), cache)
    else if backend.installations.Failure? then
      Step(Failure(ListInstallationsFailed(host, backend.installations.error)), cache)
    else
      var installations := backend.installations.value;
      var target := TargetInstallationId(installations, org);
      var cache' := CacheAfterScan(cache, installations, org);
      if target == 0 then Step(Failure(NoInstallation(org, host)), cache')
      else Step(InstallationClient(host, target, backend.installationTransport), cache')
  }

  /** CreateEnterpriseClientForOrg. */
  function EnterpriseForOrg(cfg: Config.GitHubConfig, cache: map<GoString, Int64>, org: GoString, backend: AppBackend): (s: Step)
    ensures cfg.enterpriseUrl == "" ==> s == Step(Failure(EnterpriseUrlNotConfigured), cache)
    ensures s.result.Success? ==> s.result.value.endpoints == EnterpriseEndpoints(cfg.enterpriseUrl)
  {
    if cfg.enterpriseUrl == "" then Step(Failure(EnterpriseUrlNotConfigured), cache)
    else ForHost(OnEnterprise(cfg.enterpriseUrl), cache, org, backend)
  }

  /** CreateClientForOrg: Enterprise when a URL is configured, GitHub.com otherwise. */
  function ForOrg(cfg: Config.GitHubConfig, cache: map<GoString, Int64>, org: GoString, backend: AppBackend): (s: Step)
    ensures s.result != Failure(EnterpriseUrlNotConfigured)
    ensures s.result.Success? ==>
              s.result.value.endpoints == (if cfg.enterpriseUrl != "" then EnterpriseEndpoints(cfg.enterpriseUrl)
                                           else DefaultEndpoints)
  {
    if cfg.enterpriseUrl != "" then EnterpriseForOrg(cfg, cache, org, backend)
    else ForHost(OnGitHubCom, cache, org, backend)
  }

  /** The host CreateClientForOrg talks to. */
  function HostOf(cfg: Config.GitHubConfig): Host
  {
    if cfg.enterpriseUrl != "" then OnEnterprise(cfg.enterpriseUrl) else OnGitHubCom
  }

  /** Routing: the Enterprise path iff a URL is configured; asked directly with no URL it refuses. */
  lemma ForOrgRouting(cfg: Config.GitHubConfig, cache: map<GoString, Int64>, org: GoString, backend: AppBackend)
    ensures ForOrg(cfg, cache, org, backend) == ForHost(HostOf(cfg), cache, org, backend)
    ensures cfg.enterpriseUrl == "" ==>
              EnterpriseForOrg(cfg, cache, org, backend) == Step(Failure(EnterpriseUrlNotConfigured), cache)
    ensures ForOrg(cfg, cache, org, backend).result != Failure(EnterpriseUrlNotConfigured)
  {
  }

  /** A cache hit uses the cached ID and consults neither the App transport nor the installation list. */
  lemma CacheHitSkipsListing(host: Host, cache: map<GoString, Int64>, org: GoString, b1: AppBackend, b2: AppBackend)
    requires org in cache
    requires b1.installationTransport == b2.installationTransport
    ensures ForHost(host, cache, org, b1) == ForHost(host, cache, org, b2)
    ensures ForHost(host, cache, org, b1) == Step(InstallationClient(host, cache[org], b1.installationTransport), cache)
  {
  }

  /** On a miss, the first installation in list order whose login is `org` is chosen and cached. */
  lemma {:induction false} MissCachesFirstMatch(host: Host, cache: map<GoString, Int64>, org: GoString,
                                                backend: AppBackend, k: nat)
    requires org !in cache && backend.appsTransport.Pass? && backend.installations.Success?
    requires k < |backend.installations.value| && backend.installations.value[k].login == org
    requires forall j :: 0 <= j < k ==> backend.installations.value[j].login != org
    ensures var s := ForHost(host, cache, org, backend);
            var id := backend.installations.value[k].id;
            && s.cache == cache[org := id]
            && (id != 0 ==> s.result == InstallationClient(host, id, backend.installationTransport))
            && (id == 0 ==> s.result == Failure(NoInstallation(org, host)))
  {
    assert FirstMatch(backend.installations.value, org) == Some(k);
  }

  /** When no login matches, the call fails and the cache is left as it was. */
  lemma NoMatchLeavesCache(host: Host, cache: map<GoString, Int64>, org: GoString, backend: AppBackend)
    requires org !in cache && backend.appsTransport.Pass? && backend.installations.Success?
    requires forall j :: 0 <= j < |backend.installations.value| ==> backend.installations.value[j].login != org
    ensures ForHost(host, cache, org, backend) == Step(Failure(NoInstallation(org, host)), cache)
  {
    assert FirstMatch(backend.installations.value, org) == None;
  }

  /** When the App transport or the listing fails, the call fails and the cache is left as it was. */
  lemma BackendFailureLeavesCache(host: Host, cache: map<GoString, Int64>, org: GoString, backend: AppBackend)
    requires org !in cache && (backend.appsTransport.Fail? || backend.installations.Failure?)
    ensures ForHost(host, cache, org, backend).result.Failure?
    ensures ForHost(host, cache, org, backend).cache == cache
    ensures backend.appsTransport.Pass? ==>
              ForHost(host, cache, org, backend).result == Failure(ListInstallationsFailed(host, backend.installations.error))
  {
  }

  /**
   * The cache only grows, whichever entry point is used (either public per-host method, whatever
   * the configuration, or the router): every existing entry is kept and only `org` may be added.
   */
  lemma CacheOnlyGrows(host: Host, cfg: Config.GitHubConfig, cache: map<GoString, Int64>, org: GoString,
                       backend: AppBackend)
    ensures forall c :: c in {ForHost(host, cache, org, backend).cache,
                              EnterpriseForOrg(cfg, cache, org, backend).cache,
                              ForOrg(cfg, cache, org, backend).cache} ==>
              && cache.Keys <= c.Keys
              && c.Keys <= cache.Keys + {org}
              && (forall o :: o in cache ==> c[o] == cache[o])
  {
  }

  /** After a call that succeeds, every later call for the same organisation is a cache hit. */
  lemma SuccessIsCachedForLaterCalls(cfg: Config.GitHubConfig, cache: map<GoString, Int64>, org: GoString,
                                     b1: AppBackend, b2: AppBackend)
    requires ForOrg(cfg, cache, org, b1).result.Success?
    ensures var s1 := ForOrg(cfg, cache, org, b1);
            && org in s1.cache
            && s1.result.value.installationId == s1.cache[org]
            && ForOrg(cfg, s1.cache, org, b2)
               == Step(InstallationClient(HostOf(cfg), s1.cache[org], b2.installationTransport), s1.cache)
  {
  }

  /**
   * An installation with ID 0 is indistinguishable from "not found" after the scan: the first
   * call caches 0 and reports no installation, and the next call for that organisation is a
   * cache hit that builds a client for installation 0.
   */
  lemma ZeroInstallationIdIsCachedButRejected(host: Host, cache: map<GoString, Int64>, org: GoString,
                                              b1: AppBackend, b2: AppBackend, k: nat)
    requires org !in cache && b1.appsTransport.Pass? && b1.installations.Success?
    requires FirstMatch(b1.installations.value, org) == Some(k) && b1.installations.value[k].id == 0
    ensures ForHost(host, cache, org, b1) == Step(Failure(NoInstallation(org, host)), cache[org := 0])
    ensures ForHost(host, cache[org := 0], org, b2)
            == Step(InstallationClient(host, 0, b2.installationTransport), cache[org := 0])
  {
  }

  /** The factory of github/client.go: configuration, private key and the installation cache. */
  class ClientFactory {
    const config: Config.GitHubConfig
    const privateKey: seq<Byte>
    var installationCache: map<GoString, Int64>

    /** NewClientFactory: the cache starts empty. */
    constructor (cfg: Config.GitHubConfig, privateKey: seq<Byte>)
      ensures config == cfg && this.privateKey == privateKey
      ensures installationCache == map[]
    {
      config := cfg;
      this.privateKey := privateKey;
      installationCache := map[];
    }

    /** CreateClient: deprecated, fails whatever the factory holds. */
    function CreateClient(): (r: Result<Client, ClientError>)
      ensures r.Failure? && r.error == CreateClientDeprecated
    {
      Failure(CreateClientDeprecated)
    }

    /** CreateClientForOrg. */
    method CreateClientForOrg(org: GoString, backend: AppBackend) returns (r: Result<Client, ClientError>)
      modifies this
      ensures Step(r, installationCache) == ForOrg(config, old(installationCache), org, backend)
    {
      if config.enterpriseUrl != "" {
        r := CreateEnterpriseClientForOrg(org, backend);
        return;
      }
      r := CreateGitHubComClientForOrg(org, backend);
    }

    /** CreateEnterpriseClientForOrg. */
    method CreateEnterpriseClientForOrg(org: GoString, backend: AppBackend) returns (r: Result<Client, ClientError>)
      modifies this
      ensures Step(r, installationCache) == EnterpriseForOrg(config, old(installationCache), org, backend)
    {
      if config.enterpriseUrl == "" {
        return Failure(EnterpriseUrlNotConfigured);
      }
      r := ClientForHost(OnEnterprise(config.enterpriseUrl), org, backend);
    }

    /** CreateGitHubComClientForOrg. */
    method CreateGitHubComClientForOrg(org: GoString, backend: AppBackend) returns (r: Result<Client, ClientError>)
      modifies this
      ensures Step(r, installationCache) == ForHost(OnGitHubCom, old(installationCache), org, backend)
    {
      r := ClientForHost(OnGitHubCom, org, backend);
    }

    /** The body the two per-organisation paths share: cache lookup, listing, scan, client. */
    method ClientForHost(host: Host, org: GoString, backend: AppBackend) returns (r: Result<Client, ClientError>)
      modifies this
      ensures Step(r, installationCache) == ForHost(host, old(installationCache), org, backend)
    {
      if org in installationCache {
        return InstallationClient(host, installationCache[org], backend.installationTransport);
      }
      if backend.appsTransport.Fail? {
        return Failure(AppTransportFailed(backend.appsTransport.error));
      }
      if backend.installations.Failure? {
        return Failure(ListInstallationsFailed(host, backend.installations.error));
      }
      var targetInstallationId := ScanInstallations(backend.installations.value, org);
      if targetInstallationId == 0 {
        return Failure(NoInstallation(org, host));
      }
      r := InstallationClient(host, targetInstallationId, backend.installationTransport);
    }

    /** The `for ... range installations` loop: cache the first match and stop. */
    method ScanInstallations(installations: seq<Installation>, org: GoString) returns (targetInstallationId: Int64)
      modifies this
      ensures targetInstallationId == TargetInstallationId(installations, org)
      ensures installationCache == CacheAfterScan(old(installationCache), installations, org)
    {
      targetInstallationId := 0;
      var i := 0;
      while i < |installations|
        invariant 0 <= i <= |installations|
        invariant forall j :: 0 <= j < i ==> installations[j].login != org
        invariant installationCache == old(installationCache)
      {
        if installations[i].login == org {
          targetInstallationId := installations[i].id;
          installationCache := installationCache[org := targetInstallationId];
          break;
        }
        i := i + 1;
      }
    }
  }
}
