/** Configuration loading: the choice of the configuration file, the
    defaults for the general settings, and the per-provider validation.
    Reading the file and decoding its YAML are inputs: `parse` gives the
    decoded configuration (or the read/decode error) of a path. */
module Config {
  import opened Common

  const DefaultUpdateInterval: int := 300
  const DefaultConnectivityCheckInterval: int := 10
  const DefaultConnectivityCheckIP: string := "8.8.8.8"
  const DefaultConnectivityCheckPort: string := "53"

  const SystemConfigPath: string := "/etc/cfddns/cfddns.yml"
  const LocalConfigPath: string := "cfddns.yml"
  const NotFoundError: string := "config file not found"

  /** A provider's free-form `settings` block. */
  type Settings = map<string, Value>

  datatype RecordConfig = RecordConfig(
    name: string,
    rtype: string,
    proxied: bool,
    ttl: int,
    updateToken: string)

  datatype ProviderConfig = ProviderConfig(
    ptype: string,
    settings: Settings,
    records: seq<RecordConfig>)

  datatype GeneralSettings = GeneralSettings(
    updateInterval: int,
    connectivityCheckInterval: int,
    connectivityCheckIP: string,
    connectivityCheckPort: string)

  datatype Config = Config(general: GeneralSettings, providers: seq<ProviderConfig>)

  // ---------------------------------------------------------------------
  // General settings defaults

  /** Every general setting has a usable value. */
  predicate Defaulted(g: GeneralSettings) {
    && g.updateInterval > 0
    && g.connectivityCheckInterval > 0
    && g.connectivityCheckIP != ""
    && g.connectivityCheckPort != ""
  }

  /** Replaces each unusable general setting (non-positive interval, empty
      address or port) by its default and keeps every usable one. */
  function ApplyDefaults(g: GeneralSettings): (r: GeneralSettings)
    ensures Defaulted(r)
    ensures g.updateInterval > 0 ==> r.updateInterval == g.updateInterval
    ensures g.updateInterval <= 0 ==> r.updateInterval == DefaultUpdateInterval
    ensures g.connectivityCheckInterval > 0 ==> r.connectivityCheckInterval == g.connectivityCheckInterval
    ensures g.connectivityCheckInterval <= 0 ==> r.connectivityCheckInterval == DefaultConnectivityCheckInterval
    ensures g.connectivityCheckIP != "" ==> r.connectivityCheckIP == g.connectivityCheckIP
    ensures g.connectivityCheckIP == "" ==> r.connectivityCheckIP == DefaultConnectivityCheckIP
    ensures g.connectivityCheckPort != "" ==> r.connectivityCheckPort == g.connectivityCheckPort
    ensures g.connectivityCheckPort == "" ==> r.connectivityCheckPort == DefaultConnectivityCheckPort
  {
    var g1 := if g.updateInterval <= 0 then g.(updateInterval := DefaultUpdateInterval) else g;
    var g2 := if g1.connectivityCheckInterval <= 0 then g1.(connectivityCheckInterval := DefaultConnectivityCheckInterval) else g1;
    var g3 := if g2.connectivityCheckIP == "" then g2.(connectivityCheckIP := DefaultConnectivityCheckIP) else g2;
    if g3.connectivityCheckPort == "" then g3.(connectivityCheckPort := DefaultConnectivityCheckPort) else g3
  }

  /** Settings that are already usable are left alone, so defaulting twice
      is defaulting once. */
  lemma DefaultsIdempotent(g: GeneralSettings)
    ensures Defaulted(g) ==> ApplyDefaults(g) == g
    ensures ApplyDefaults(ApplyDefaults(g)) == ApplyDefaults(g)
  {
  }

  // ---------------------------------------------------------------------
  // Provider validation

  const CloudflareError: string := "cloudflare provider requires either apiToken or both email and globalApiKey"
  const Route53Error: string := "route53 provider requires both accessKeyId and secretAccessKey"
  const DigitalOceanError: string := "digitalocean provider requires both apiToken and domain"
  const CloudDnsError: string := "clouddns provider requires projectId, credentialsJsonPath, and zone"
  const DuckDnsError: string := "duckdns provider requires token"
  const NoIpError: string := "noip provider requires username and password"
  const FreeDnsError: string := "freedns provider requires updateToken per record"
  const DynuError: string := "dynu provider requires username and password"

  function UnsupportedError(ptype: string): string {
    "unsupported provider type: " + ptype
  }

  /** The message a rejected provider of each type gets. */
  function RejectionFor(ptype: string): string {
    match ptype
    case "cloudflare" => CloudflareError
    case "route53" => Route53Error
    case "digitalocean" => DigitalOceanError
    case "clouddns" => CloudDnsError
    case "duckdns" => DuckDnsError
    case "noip" => NoIpError
    case "freedns" => FreeDnsError
    case "dynu" => DynuError
    case _ => UnsupportedError(ptype)
  }

  /** The provider types whose check is a fixed list of required keys,
      with that list. */
  function RequiredKeys(ptype: string): Option<seq<string>> {
    match ptype
    case "route53" => Some(["accessKeyId", "secretAccessKey"])
    case "digitalocean" => Some(["apiToken", "domain"])
    case "clouddns" => Some(["projectId", "credentialsJsonPath", "zone"])
    case "duckdns" => Some(["token"])
    case "noip" => Some(["username", "password"])
    case "dynu" => Some(["username", "password"])
    case _ => None
  }

  /** What validation demands of one provider, stated independently of the
      order of the checks: cloudflare needs an API token or an email and a
      global key; freedns needs a token on every record; the keyed types need
      all their keys; any other type is refused. Only key presence matters. */
  ghost predicate Acceptable(p: ProviderConfig) {
    if p.ptype == "cloudflare" then
      "apiToken" in p.settings || ("email" in p.settings && "globalApiKey" in p.settings)
    else if p.ptype == "freedns" then
      forall r :: r in p.records ==> r.updateToken != ""
    else
      RequiredKeys(p.ptype).Some?
      && forall k :: k in RequiredKeys(p.ptype).value ==> k in p.settings
  }

  /** The freedns loop: some record has an empty update token. */
  function SomeTokenMissing(records: seq<RecordConfig>): (missing: bool)
    ensures missing <==> exists i :: 0 <= i < |records| && records[i].updateToken == ""
  {
    if |records| == 0 then false
    else if records[0].updateToken == "" then true
    else
      var rest := SomeTokenMissing(records[1..]);
      assert forall i :: 1 <= i < |records| ==> records[i] == records[1..][i - 1];
      rest
  }

  /** The validation switch for one provider: `None` when it passes, the
      error message otherwise. */
  function ValidateProvider(p: ProviderConfig): (err: Option<string>)
    ensures err.None? <==> Acceptable(p)
    ensures err.Some? ==> err.value == RejectionFor(p.ptype)
  {
    var s := p.settings;
    match p.ptype
    case "cloudflare" =>
      if "apiToken" !in s && ("email" !in s || "globalApiKey" !in s) then Some(CloudflareError) else None
    case "route53" =>
      if "accessKeyId" !in s || "secretAccessKey" !in s then Some(Route53Error) else None
    case "digitalocean" =>
      if "apiToken" !in s || "domain" !in s then Some(DigitalOceanError) else None
    case "clouddns" =>
      if "projectId" !in s || "credentialsJsonPath" !in s || "zone" !in s then Some(CloudDnsError) else None
    case "duckdns" =>
      if "token" !in s then Some(DuckDnsError) else None
    case "noip" =>
      if "username" !in s || "password" !in s then Some(NoIpError) else None
    case "freedns" =>
      if SomeTokenMissing(p.records) then Some(FreeDnsError) else None
    case "dynu" =>
      if "username" !in s || "password" !in s then Some(DynuError) else None
    case _ =>
      Some(UnsupportedError(p.ptype))
  }

  /** Validation looks only at which keys are present, never at their
      values. */
  lemma ValidationSeesOnlyKeys(p: ProviderConfig, s: Settings)
    requires s.Keys == p.settings.Keys
    ensures ValidateProvider(p.(settings := s)) == ValidateProvider(p)
  {
  }

  /** A freedns provider without records is accepted. */
  lemma FreeDnsWithoutRecordsAccepted(s: Settings)
    ensures ValidateProvider(ProviderConfig("freedns", s, [])) == None
  {
  }

  /** Validates the providers in order and stops at the first failure. */
  function ValidateProviders(ps: seq<ProviderConfig>): (err: Option<string>)
    ensures err.None? <==> forall i :: 0 <= i < |ps| ==> ValidateProvider(ps[i]).None?
    ensures err.Some? ==> exists i :: 0 <= i < |ps| && ValidateProvider(ps[i]) == err
                                   && forall j :: 0 <= j < i ==> ValidateProvider(ps[j]).None?
  {
    if |ps| == 0 then None
    else
      var e := ValidateProvider(ps[0]);
      if e.Some? then e
      else
        var rest := ValidateProviders(ps[1..]);
        assert forall i :: 1 <= i < |ps| ==> ps[i] == ps[1..][i - 1];
        if rest.Some? then
          var k :| 0 <= k < |ps[1..]| && ValidateProvider(ps[1..][k]) == rest
                   && forall j :: 0 <= j < k ==> ValidateProvider(ps[1..][j]).None?;
          assert ValidateProvider(ps[k + 1]) == rest;
          assert forall j :: 1 <= j < k + 1 ==> ValidateProvider(ps[j]).None?;
          rest
        else rest
  }

  // ---------------------------------------------------------------------
  // Configuration file choice

  /** The index of the first candidate that exists. */
  function FirstExisting(candidates: seq<string>, existing: set<string>): (r: Option<nat>)
    ensures r.Some? ==> r.value < |candidates| && candidates[r.value] in existing
                        && forall j :: 0 <= j < r.value ==> candidates[j] !in existing
    ensures r.None? ==> forall j :: 0 <= j < |candidates| ==> candidates[j] !in existing
  {
    if |candidates| == 0 then None
    else if candidates[0] in existing then Some(0)
    else
      match FirstExisting(candidates[1..], existing)
      case None => None
      case Some(k) => Some(k + 1)
  }

  /** `getConfigFilePath`: a non-empty environment override wins; otherwise
      the user's file, the system file and the working-directory file are
      tried in that order, and "" means none exists. `userPath` is the
      joined path under the user's home directory. */
  function ConfigFilePath(env: string, userPath: string, existing: set<string>): (path: string)
  {
    if env != "" then env
    else if userPath in existing then userPath
    else if SystemConfigPath in existing then SystemConfigPath
    else if LocalConfigPath in existing then LocalConfigPath
    else ""
  }

  /** The path choice is a first-existing search over the three locations
      in priority order, after the environment override. */
  lemma ConfigFilePathPriority(env: string, userPath: string, existing: set<string>)
    ensures env != "" ==> ConfigFilePath(env, userPath, existing) == env
    ensures env == "" ==>
      ConfigFilePath(env, userPath, existing) ==
        match FirstExisting([userPath, SystemConfigPath, LocalConfigPath], existing)
        case Some(i) => [userPath, SystemConfigPath, LocalConfigPath][i]
        case None => ""
  {
    var c := [userPath, SystemConfigPath, LocalConfigPath];
    assert c[1..] == [SystemConfigPath, LocalConfigPath];
    assert c[1..][1..] == [LocalConfigPath];
    assert c[1..][1..][1..] == [];
    assert FirstExisting(c[1..][1..][1..], existing) == None;
    if userPath in existing {
      assert FirstExisting(c, existing) == Some(0);
    } else if SystemConfigPath in existing {
      assert FirstExisting(c, existing) == Some(1);
    } else if LocalConfigPath in existing {
      assert FirstExisting(c[1..][1..], existing) == Some(0);
      assert FirstExisting(c[1..], existing) == Some(1);
      assert FirstExisting(c, existing) == Some(2);
    } else {
      assert FirstExisting(c, existing) == None;
    }
  }

  /** `LoadConfig`: chooses the file, decodes it, applies the defaults and
      validates every provider. */
  function LoadConfig(env: string, userPath: string, existing: set<string>,
                      parse: string -> Result<Config>): (r: Result<Config>)
    ensures ConfigFilePath(env, userPath, existing) == "" ==> r == Err(NotFoundError)
    // a read or decode failure of the chosen file is returned as it is
    ensures ConfigFilePath(env, userPath, existing) != "" && parse(ConfigFilePath(env, userPath, existing)).Err? ==>
      r == Err(parse(ConfigFilePath(env, userPath, existing)).error)
    ensures r.Ok? ==>
      var path := ConfigFilePath(env, userPath, existing);
      && path != ""
      && parse(path).Ok?
      && r.value.providers == parse(path).value.providers
      && r.value.general == ApplyDefaults(parse(path).value.general)
      && forall i :: 0 <= i < |r.value.providers| ==> Acceptable(r.value.providers[i])
    ensures r.Err? && ConfigFilePath(env, userPath, existing) != "" && parse(ConfigFilePath(env, userPath, existing)).Ok? ==>
      ValidateProviders(parse(ConfigFilePath(env, userPath, existing)).value.providers) == Some(r.error)
  {
    var path := ConfigFilePath(env, userPath, existing);
    if path == "" then Err(NotFoundError)
    else
      match parse(path)
      case Err(e) => Err(e)
      case Ok(cfg) =>
        var c := cfg.(general := ApplyDefaults(cfg.general));
        match ValidateProviders(c.providers)
        case Some(e) => Err(e)
        case None => Ok(c)
  }
}
