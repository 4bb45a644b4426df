/** One update pass (`runOnce`): the external addresses are fetched once,
    then every configured provider is built from its settings and every
    one of its records that has an address of its family is committed, in
    configuration order. A commit's outcome is only logged, so it never
    steers the pass; the provider commits themselves are an input here
    (`commit`), modelled one by one in the provider modules. */
module Orchestrator {
  import opened Common
  import Config
  import Providers
  import Cloudflare
  import Route53
  import DigitalOcean
  import CloudDns
  import DuckDns
  import NoIp
  import Dynu

  /** A built provider, one variant per implementation. */
  datatype Provider =
    | CloudflareProvider(cloudflare: Cloudflare.Provider)
    | Route53Provider(route53: Route53.Provider)
    | DigitalOceanProvider(digitalOcean: DigitalOcean.Provider)
    | CloudDnsProvider(cloudDns: CloudDns.Provider)
    | DuckDnsProvider(duckDns: DuckDns.Provider)
    | NoIpProvider(noIp: NoIp.Provider)
    | FreeDnsProvider
    | DynuProvider(dynu: Dynu.Provider)

  const DefaultRegion: string := "us-east-1"

  /** The provider types the pass knows how to build. */
  predicate Handled(ptype: string) {
    ptype in {"cloudflare", "route53", "digitalocean", "clouddns", "duckdns", "noip", "freedns"}
  }

  /** The provider switch of the pass. `files` holds the readable files
      and their contents; a clouddns provider whose credentials file cannot
      be read is skipped, and so is every type the switch does not know. */
  function Build(pc: Config.ProviderConfig, files: map<string, string>): (r: Option<Provider>)
    ensures r.Some? <==> Handled(pc.ptype)
                         && (pc.ptype == "clouddns" ==> StringSetting(pc.settings, "credentialsJsonPath") in files)
    // each type reads its own setting keys; a missing or non-string setting reads as empty
    ensures pc.ptype == "cloudflare" ==>
      r.Some? && r.value.CloudflareProvider? &&
      var c := r.value.cloudflare;
      && c.email == StringSetting(pc.settings, "email")
      && c.globalApiKey == StringSetting(pc.settings, "globalApiKey")
      && c.apiToken == StringSetting(pc.settings, "apiToken")
      && c.zoneName == StringSetting(pc.settings, "zone")
      && c.zoneId == ""
    ensures pc.ptype == "route53" ==>
      r.Some? && r.value.Route53Provider? &&
      var c := r.value.route53;
      && c.zoneName == StringSetting(pc.settings, "zone")
      && c.zoneId == ""
      && (StringSetting(pc.settings, "region") == "" ==> c.region == DefaultRegion)
      && (StringSetting(pc.settings, "region") != "" ==> c.region == StringSetting(pc.settings, "region"))
      && c.accessKeyId == StringSetting(pc.settings, "accessKeyId")
      && c.secretAccessKey == StringSetting(pc.settings, "secretAccessKey")
    ensures pc.ptype == "digitalocean" ==>
      r == Some(DigitalOceanProvider(DigitalOcean.Provider(
             StringSetting(pc.settings, "apiToken"), StringSetting(pc.settings, "domain"))))
    ensures pc.ptype == "clouddns" && StringSetting(pc.settings, "credentialsJsonPath") in files ==>
      r == Some(CloudDnsProvider(CloudDns.Provider(
             StringSetting(pc.settings, "projectId"),
             files[StringSetting(pc.settings, "credentialsJsonPath")],
             StringSetting(pc.settings, "zone"))))
    ensures pc.ptype == "duckdns" ==> r == Some(DuckDnsProvider(DuckDns.Provider(StringSetting(pc.settings, "token"))))
    ensures pc.ptype == "noip" ==>
      r == Some(NoIpProvider(NoIp.Provider(StringSetting(pc.settings, "username"), StringSetting(pc.settings, "password"))))
    ensures pc.ptype == "freedns" ==> r == Some(FreeDnsProvider)
  {
    var s := pc.settings;
    match pc.ptype
    case "cloudflare" =>
      Some(CloudflareProvider(Cloudflare.Provider(
        StringSetting(s, "email"), StringSetting(s, "globalApiKey"), StringSetting(s, "apiToken"),
        StringSetting(s, "zone"), "")))
    case "route53" =>
      var region := StringSetting(s, "region");
      Some(Route53Provider(Route53.Provider(
        StringSetting(s, "zone"), "", if region == "" then DefaultRegion else region,
        StringSetting(s, "accessKeyId"), StringSetting(s, "secretAccessKey"))))
    case "digitalocean" =>
      Some(DigitalOceanProvider(DigitalOcean.Provider(StringSetting(s, "apiToken"), StringSetting(s, "domain"))))
    case "clouddns" =>
      var path := StringSetting(s, "credentialsJsonPath");
      if path !in files then None
      else Some(CloudDnsProvider(CloudDns.Provider(StringSetting(s, "projectId"), files[path], StringSetting(s, "zone"))))
    case "duckdns" =>
      Some(DuckDnsProvider(DuckDns.Provider(StringSetting(s, "token"))))
    case "noip" =>
      Some(NoIpProvider(NoIp.Provider(StringSetting(s, "username"), StringSetting(s, "password"))))
    case "freedns" =>
      Some(FreeDnsProvider)
    case _ =>
      None
  }

  /** The switch with the case validation promises but the pass lacks: a
      dynu provider is built from its user name and password. */
  function BuildFixed(pc: Config.ProviderConfig, files: map<string, string>): (r: Option<Provider>)
    ensures pc.ptype != "dynu" ==> r == Build(pc, files)
    ensures pc.ptype == "dynu" ==>
      r == Some(DynuProvider(Dynu.Provider(StringSetting(pc.settings, "username"), StringSetting(pc.settings, "password"))))
  {
    if pc.ptype == "dynu" then
      Some(DynuProvider(Dynu.Provider(StringSetting(pc.settings, "username"), StringSetting(pc.settings, "password"))))
    else Build(pc, files)
  }

  /** The desired record for a configured one: an A record takes the IPv4
      address and an AAAA record the IPv6 address, when that address is
      known; anything else is skipped. */
  function RecordFor(rc: Config.RecordConfig, v4: string, v6: string): (r: Option<Providers.DNSRecord>)
    ensures r.Some? <==> (rc.rtype == "A" && v4 != "") || (rc.rtype == "AAAA" && v6 != "")
    ensures r.Some? ==>
      && r.value.content != ""
      && r.value.content == (if rc.rtype == "A" then v4 else v6)
      && r.value.name == rc.name && r.value.rtype == rc.rtype && r.value.ttl == rc.ttl
      && r.value.proxied == rc.proxied && r.value.updateToken == rc.updateToken
  {
    var address :=
      if rc.rtype == "A" && v4 != "" then Some(v4)
      else if rc.rtype == "AAAA" && v6 != "" then Some(v6)
      else None;
    match address
    case None => None
    case Some(ip) => Some(Providers.DNSRecord(rc.name, rc.rtype, ip, rc.ttl, rc.proxied, rc.updateToken))
  }

  /** One commit of the pass: which provider and record of the
      configuration, the built provider, the desired record, and the
      outcome. */
  datatype Attempt = Attempt(
    providerIndex: nat,
    recordIndex: nat,
    provider: Provider,
    record: Providers.DNSRecord,
    status: Status)

  /** Configuration order: by provider, then by record. */
  predicate Before(a: Attempt, b: Attempt) {
    a.providerIndex < b.providerIndex || (a.providerIndex == b.providerIndex && a.recordIndex < b.recordIndex)
  }

  predicate Ordered(out: seq<Attempt>) {
    forall k, l :: 0 <= k < l < |out| ==> Before(out[k], out[l])
  }

  /** Which (provider, record) pairs of the configuration a pass commits. */
  function Committed(out: seq<Attempt>): (r: set<(nat, nat)>)
    ensures forall k :: 0 <= k < |out| ==> (out[k].providerIndex, out[k].recordIndex) in r
    decreases |out|
  {
    if |out| == 0 then {}
    else
      var rest := Committed(out[1..]);
      assert forall k :: 1 <= k < |out| ==> out[k] == out[1..][k - 1];
      {(out[0].providerIndex, out[0].recordIndex)} + rest
  }

  /** A pair no attempt carries is not committed. */
  lemma {:induction false} NotCommitted(out: seq<Attempt>, i: nat, j: nat)
    requires forall k :: 0 <= k < |out| ==> out[k].providerIndex != i || out[k].recordIndex != j
    ensures (i, j) !in Committed(out)
    decreases |out|
  {
    if |out| > 0 {
      NotCommitted(out[1..], i, j);
    }
  }

  lemma {:induction false} CommittedAppend(a: seq<Attempt>, b: seq<Attempt>)
    ensures Committed(a + b) == Committed(a) + Committed(b)
    decreases |a|
  {
    if |a| == 0 {
      assert a + b == b;
    } else {
      assert (a + b)[1..] == a[1..] + b;
      CommittedAppend(a[1..], b);
    }
  }

  /** Every configured provider built by one switch: as written, or with
      the dynu case. */
  function BuildAll(ps: seq<Config.ProviderConfig>, files: map<string, string>, fixed: bool): (b: seq<Option<Provider>>)
    ensures |b| == |ps|
    ensures forall i :: 0 <= i < |ps| ==> b[i] == if fixed then BuildFixed(ps[i], files) else Build(ps[i], files)
  {
    seq(|ps|, i requires 0 <= i < |ps| => if fixed then BuildFixed(ps[i], files) else Build(ps[i], files))
  }

  /** The desired record (or none) for every configured record of every
      provider. */
  function DesiredAll(ps: seq<Config.ProviderConfig>, v4: string, v6: string): (d: seq<seq<Option<Providers.DNSRecord>>>)
    ensures |d| == |ps|
    ensures forall i :: 0 <= i < |ps| ==> |d[i]| == |ps[i].records|
    ensures forall i, j :: 0 <= i < |ps| && 0 <= j < |ps[i].records| ==> d[i][j] == RecordFor(ps[i].records[j], v4, v6)
  {
    seq(|ps|, i requires 0 <= i < |ps| =>
      seq(|ps[i].records|, j requires 0 <= j < |ps[i].records| => RecordFor(ps[i].records[j], v4, v6)))
  }

  /** The record loop of provider `pi`, from record `ri` on: `wanted`
      holds the desired record (or none) of each configured record. */
  function RecordsFrom(pi: nat, prov: Provider, wanted: seq<Option<Providers.DNSRecord>>, ri: nat,
                       commit: (Provider, Providers.DNSRecord) -> Status): (out: seq<Attempt>)
    requires ri <= |wanted|
    ensures forall k :: 0 <= k < |out| ==>
      && out[k].providerIndex == pi && out[k].provider == prov
      && ri <= out[k].recordIndex < |wanted|
      && wanted[out[k].recordIndex] == Some(out[k].record)
      && out[k].status == commit(prov, out[k].record)
    decreases |wanted| - ri
  {
    if ri == |wanted| then []
    else
      var rest := RecordsFrom(pi, prov, wanted, ri + 1, commit);
      match wanted[ri]
      case None =>
        rest
      case Some(d) =>
        var out := [Attempt(pi, ri, prov, d, commit(prov, d))] + rest;
        assert forall k :: 1 <= k < |out| ==> out[k] == rest[k - 1];
        out
  }

  /** One turn of the record loop adds the current record's pair, if it
      has a desired record. */
  lemma RecordsFromStep(pi: nat, prov: Provider, wanted: seq<Option<Providers.DNSRecord>>, ri: nat,
                        commit: (Provider, Providers.DNSRecord) -> Status)
    requires ri < |wanted|
    ensures Committed(RecordsFrom(pi, prov, wanted, ri, commit))
         == (if wanted[ri].Some? then {(pi, ri)} else {}) + Committed(RecordsFrom(pi, prov, wanted, ri + 1, commit))
  {
    var rest := RecordsFrom(pi, prov, wanted, ri + 1, commit);
    if wanted[ri].Some? {
      var d := wanted[ri].value;
      var first := Attempt(pi, ri, prov, d, commit(prov, d));
      assert RecordsFrom(pi, prov, wanted, ri, commit) == [first] + rest;
      CommittedAppend([first], rest);
      assert [first][1..] == [];
    }
  }

  /** The record loop commits a record exactly when it has a desired
      record. */
  lemma {:induction false} RecordsFromCovers(pi: nat, prov: Provider, wanted: seq<Option<Providers.DNSRecord>>,
                                             ri: nat, commit: (Provider, Providers.DNSRecord) -> Status, j: nat)
    requires ri <= j < |wanted|
    ensures wanted[j].Some? <==> (pi, j) in Committed(RecordsFrom(pi, prov, wanted, ri, commit))
    decreases |wanted| - ri
  {
    RecordsFromStep(pi, prov, wanted, ri, commit);
    if j == ri {
      NotCommitted(RecordsFrom(pi, prov, wanted, ri + 1, commit), pi, ri);
    } else {
      RecordsFromCovers(pi, prov, wanted, ri + 1, commit, j);
    }
  }

  /** The record loop commits in configuration order. */
  lemma {:induction false} RecordsFromOrdered(pi: nat, prov: Provider, wanted: seq<Option<Providers.DNSRecord>>,
                                              ri: nat, commit: (Provider, Providers.DNSRecord) -> Status)
    requires ri <= |wanted|
    ensures Ordered(RecordsFrom(pi, prov, wanted, ri, commit))
    decreases |wanted| - ri
  {
    if ri < |wanted| {
      var rest := RecordsFrom(pi, prov, wanted, ri + 1, commit);
      RecordsFromOrdered(pi, prov, wanted, ri + 1, commit);
      if wanted[ri].Some? {
        var d := wanted[ri].value;
        var out := [Attempt(pi, ri, prov, d, commit(prov, d))] + rest;
        forall k, l | 0 <= k < l < |out| ensures Before(out[k], out[l]) {
          assert out[l] == rest[l - 1];
          if k > 0 {
            assert out[k] == rest[k - 1];
          }
        }
      }
    }
  }

  lemma OrderStep(pi: nat, mine: seq<Attempt>, rest: seq<Attempt>)
    requires Ordered(mine) && Ordered(rest)
    requires forall k :: 0 <= k < |mine| ==> mine[k].providerIndex == pi
    requires forall k :: 0 <= k < |rest| ==> rest[k].providerIndex > pi
    ensures Ordered(mine + rest)
  {
    var out := mine + rest;
    forall k, l | 0 <= k < l < |out| ensures Before(out[k], out[l]) {
      if l < |mine| {
        assert out[k] == mine[k] && out[l] == mine[l];
      } else if k < |mine| {
        assert out[k] == mine[k] && out[l] == rest[l - |mine|];
      } else {
        assert out[k] == rest[k - |mine|] && out[l] == rest[l - |mine|];
      }
    }
  }

  /** The provider loop, from provider `pi` on: `built` holds the result
      of the switch for each provider and `wanted` the desired records of
      each provider's configured records. */
  function ProvidersFrom(built: seq<Option<Provider>>, wanted: seq<seq<Option<Providers.DNSRecord>>>, pi: nat,
                         commit: (Provider, Providers.DNSRecord) -> Status): (out: seq<Attempt>)
    requires |built| == |wanted| && pi <= |built|
    ensures forall k :: 0 <= k < |out| ==>
      && pi <= out[k].providerIndex < |built|
      && built[out[k].providerIndex] == Some(out[k].provider)
      && out[k].recordIndex < |wanted[out[k].providerIndex]|
      && wanted[out[k].providerIndex][out[k].recordIndex] == Some(out[k].record)
      && out[k].status == commit(out[k].provider, out[k].record)
    decreases |built| - pi
  {
    if pi == |built| then []
    else
      var rest := ProvidersFrom(built, wanted, pi + 1, commit);
      match built[pi]
      case None =>
        rest
      case Some(prov) =>
        var mine := RecordsFrom(pi, prov, wanted[pi], 0, commit);
        var out := mine + rest;
        assert forall k :: |mine| <= k < |out| ==> out[k] == rest[k - |mine|];
        assert forall k :: 0 <= k < |mine| ==> out[k] == mine[k];
        out
  }

  /** One turn of the provider loop adds the pairs of a built provider's
      record loop. */
  lemma ProvidersFromStep(built: seq<Option<Provider>>, wanted: seq<seq<Option<Providers.DNSRecord>>>,
                          pi: nat, commit: (Provider, Providers.DNSRecord) -> Status)
    requires |built| == |wanted| && pi < |built|
    ensures Committed(ProvidersFrom(built, wanted, pi, commit))
         == (if built[pi].Some? then Committed(RecordsFrom(pi, built[pi].value, wanted[pi], 0, commit)) else {})
            + Committed(ProvidersFrom(built, wanted, pi + 1, commit))
  {
    var rest := ProvidersFrom(built, wanted, pi + 1, commit);
    if built[pi].Some? {
      var mine := RecordsFrom(pi, built[pi].value, wanted[pi], 0, commit);
      assert ProvidersFrom(built, wanted, pi, commit) == mine + rest;
      CommittedAppend(mine, rest);
    }
  }

  /** The provider loop commits a record exactly when its provider was
      built and it has a desired record. */
  lemma {:induction false} ProvidersFromCovers(built: seq<Option<Provider>>, wanted: seq<seq<Option<Providers.DNSRecord>>>,
                                               pi: nat, commit: (Provider, Providers.DNSRecord) -> Status, i: nat, j: nat)
    requires |built| == |wanted| && pi <= i < |built| && j < |wanted[i]|
    ensures built[i].Some? && wanted[i][j].Some? <==> (i, j) in Committed(ProvidersFrom(built, wanted, pi, commit))
    decreases |built| - pi
  {
    ProvidersFromStep(built, wanted, pi, commit);
    if i == pi {
      NotCommitted(ProvidersFrom(built, wanted, pi + 1, commit), pi, j);
      if built[pi].Some? {
        RecordsFromCovers(pi, built[pi].value, wanted[pi], 0, commit, j);
      }
    } else {
      ProvidersFromCovers(built, wanted, pi + 1, commit, i, j);
      if built[pi].Some? {
        NotCommitted(RecordsFrom(pi, built[pi].value, wanted[pi], 0, commit), i, j);
      }
    }
  }

  /** The provider loop commits in configuration order. */
  lemma {:induction false} ProvidersFromOrdered(built: seq<Option<Provider>>, wanted: seq<seq<Option<Providers.DNSRecord>>>,
                                                pi: nat, commit: (Provider, Providers.DNSRecord) -> Status)
    requires |built| == |wanted| && pi <= |built|
    ensures Ordered(ProvidersFrom(built, wanted, pi, commit))
    decreases |built| - pi
  {
    if pi < |built| {
      var rest := ProvidersFrom(built, wanted, pi + 1, commit);
      ProvidersFromOrdered(built, wanted, pi + 1, commit);
      if built[pi].Some? {
        var mine := RecordsFrom(pi, built[pi].value, wanted[pi], 0, commit);
        RecordsFromOrdered(pi, built[pi].value, wanted[pi], 0, commit);
        OrderStep(pi, mine, rest);
      }
    }
  }

  /** The pass: the addresses are the fetchers' results, an error counting
      as no address. */
  function RunOnce(cfg: Config.Config, v4: Result<string>, v6: Result<string>, files: map<string, string>,
                   commit: (Provider, Providers.DNSRecord) -> Status): (out: seq<Attempt>)
    ensures forall k :: 0 <= k < |out| ==>
      && out[k].providerIndex < |cfg.providers|
      && Handled(cfg.providers[out[k].providerIndex].ptype)
      && out[k].recordIndex < |cfg.providers[out[k].providerIndex].records|
      && out[k].record.rtype in {"A", "AAAA"}
      && out[k].record.content == (if out[k].record.rtype == "A" then OrEmpty(v4) else OrEmpty(v6))
      && out[k].record.content != ""
      && Some(out[k].provider) == Build(cfg.providers[out[k].providerIndex], files)
      && Some(out[k].record) == RecordFor(cfg.providers[out[k].providerIndex].records[out[k].recordIndex],
                                          OrEmpty(v4), OrEmpty(v6))
      && out[k].status == commit(out[k].provider, out[k].record)
  {
    var ps := cfg.providers;
    ProvidersFrom(BuildAll(ps, files, false), DesiredAll(ps, OrEmpty(v4), OrEmpty(v6)), 0, commit)
  }

  /** Every configured record of a built provider that has an address of
      its family is committed, nothing else is, and the commits follow
      the configuration order. */
  lemma RunOnceCommitsEligible(cfg: Config.Config, v4: Result<string>, v6: Result<string>,
                               files: map<string, string>, commit: (Provider, Providers.DNSRecord) -> Status)
    ensures var out := RunOnce(cfg, v4, v6, files, commit);
            && (forall i, j :: 0 <= i < |cfg.providers| && 0 <= j < |cfg.providers[i].records| ==>
                  (Build(cfg.providers[i], files).Some?
                   && RecordFor(cfg.providers[i].records[j], OrEmpty(v4), OrEmpty(v6)).Some?
                   <==> (i, j) in Committed(out)))
            && Ordered(out)
  {
    var ps := cfg.providers;
    var built: seq<Option<Provider>> := BuildAll(ps, files, false);
    var wanted: seq<seq<Option<Providers.DNSRecord>>> := DesiredAll(ps, OrEmpty(v4), OrEmpty(v6));
    forall i, j | 0 <= i < |ps| && 0 <= j < |ps[i].records|
      ensures built[i].Some? && wanted[i][j].Some? <==> (i, j) in Committed(ProvidersFrom(built, wanted, 0, commit))
    {
      ProvidersFromCovers(built, wanted, 0, commit, i, j);
    }
    ProvidersFromOrdered(built, wanted, 0, commit);
  }

  /** The pass with the corrected switch. */
  function RunOnceFixed(cfg: Config.Config, v4: Result<string>, v6: Result<string>, files: map<string, string>,
                        commit: (Provider, Providers.DNSRecord) -> Status): (out: seq<Attempt>)
    ensures forall k :: 0 <= k < |out| ==>
      && out[k].providerIndex < |cfg.providers|
      && (Handled(cfg.providers[out[k].providerIndex].ptype) || cfg.providers[out[k].providerIndex].ptype == "dynu")
      && out[k].recordIndex < |cfg.providers[out[k].providerIndex].records|
      && Some(out[k].provider) == BuildFixed(cfg.providers[out[k].providerIndex], files)
      && Some(out[k].record) == RecordFor(cfg.providers[out[k].providerIndex].records[out[k].recordIndex],
                                          OrEmpty(v4), OrEmpty(v6))
      && out[k].status == commit(out[k].provider, out[k].record)
  {
    var ps := cfg.providers;
    ProvidersFrom(BuildAll(ps, files, true), DesiredAll(ps, OrEmpty(v4), OrEmpty(v6)), 0, commit)
  }

  lemma RunOnceFixedCommitsEligible(cfg: Config.Config, v4: Result<string>, v6: Result<string>,
                                    files: map<string, string>, commit: (Provider, Providers.DNSRecord) -> Status)
    ensures var out := RunOnceFixed(cfg, v4, v6, files, commit);
            && (forall i, j :: 0 <= i < |cfg.providers| && 0 <= j < |cfg.providers[i].records| ==>
                  (BuildFixed(cfg.providers[i], files).Some?
                   && RecordFor(cfg.providers[i].records[j], OrEmpty(v4), OrEmpty(v6)).Some?
                   <==> (i, j) in Committed(out)))
            && Ordered(out)
  {
    var ps := cfg.providers;
    var built: seq<Option<Provider>> := BuildAll(ps, files, true);
    var wanted: seq<seq<Option<Providers.DNSRecord>>> := DesiredAll(ps, OrEmpty(v4), OrEmpty(v6));
    forall i, j | 0 <= i < |ps| && 0 <= j < |ps[i].records|
      ensures built[i].Some? && wanted[i][j].Some? <==> (i, j) in Committed(ProvidersFrom(built, wanted, 0, commit))
    {
      ProvidersFromCovers(built, wanted, 0, commit, i, j);
    }
    ProvidersFromOrdered(built, wanted, 0, commit);
  }

  /** An attempt without its outcome. */
  datatype Planned = Planned(providerIndex: nat, recordIndex: nat, provider: Provider, record: Providers.DNSRecord)

  function Plan(out: seq<Attempt>): (p: seq<Planned>)
    ensures |p| == |out|
    ensures forall k :: 0 <= k < |out| ==>
      p[k] == Planned(out[k].providerIndex, out[k].recordIndex, out[k].provider, out[k].record)
  {
    if |out| == 0 then []
    else [Planned(out[0].providerIndex, out[0].recordIndex, out[0].provider, out[0].record)] + Plan(out[1..])
  }

  lemma PlanAppend(a: seq<Attempt>, b: seq<Attempt>)
    ensures Plan(a + b) == Plan(a) + Plan(b)
  {
  }

  lemma {:induction false} RecordPlanIndependent(pi: nat, prov: Provider, wanted: seq<Option<Providers.DNSRecord>>,
                                                 ri: nat,
                                                 c1: (Provider, Providers.DNSRecord) -> Status,
                                                 c2: (Provider, Providers.DNSRecord) -> Status)
    requires ri <= |wanted|
    ensures Plan(RecordsFrom(pi, prov, wanted, ri, c1)) == Plan(RecordsFrom(pi, prov, wanted, ri, c2))
    decreases |wanted| - ri
  {
    if ri < |wanted| {
      RecordPlanIndependent(pi, prov, wanted, ri + 1, c1, c2);
      match wanted[ri]
      case None =>
      case Some(d) =>
        PlanAppend([Attempt(pi, ri, prov, d, c1(prov, d))], RecordsFrom(pi, prov, wanted, ri + 1, c1));
        PlanAppend([Attempt(pi, ri, prov, d, c2(prov, d))], RecordsFrom(pi, prov, wanted, ri + 1, c2));
    }
  }

  lemma {:induction false} ProviderPlanIndependent(built: seq<Option<Provider>>,
                                                   wanted: seq<seq<Option<Providers.DNSRecord>>>, pi: nat,
                                                   c1: (Provider, Providers.DNSRecord) -> Status,
                                                   c2: (Provider, Providers.DNSRecord) -> Status)
    requires |built| == |wanted| && pi <= |built|
    ensures Plan(ProvidersFrom(built, wanted, pi, c1)) == Plan(ProvidersFrom(built, wanted, pi, c2))
    decreases |built| - pi
  {
    if pi < |built| {
      ProviderPlanIndependent(built, wanted, pi + 1, c1, c2);
      match built[pi]
      case None =>
      case Some(prov) =>
        RecordPlanIndependent(pi, prov, wanted[pi], 0, c1, c2);
        PlanAppend(RecordsFrom(pi, prov, wanted[pi], 0, c1), ProvidersFrom(built, wanted, pi + 1, c1));
        PlanAppend(RecordsFrom(pi, prov, wanted[pi], 0, c2), ProvidersFrom(built, wanted, pi + 1, c2));
    }
  }

  /** A failed commit is logged and the pass goes on: which commits are
      made, in which order, with which records, does not depend on the
      outcomes. */
  lemma OutcomesDoNotSteer(cfg: Config.Config, v4: Result<string>, v6: Result<string>,
                           files: map<string, string>,
                           c1: (Provider, Providers.DNSRecord) -> Status,
                           c2: (Provider, Providers.DNSRecord) -> Status)
    ensures Plan(RunOnce(cfg, v4, v6, files, c1)) == Plan(RunOnce(cfg, v4, v6, files, c2))
  {
    var ps := cfg.providers;
    ProviderPlanIndependent(BuildAll(ps, files, false), DesiredAll(ps, OrEmpty(v4), OrEmpty(v6)), 0, c1, c2);
  }

  // ---------------------------------------------------------------------
  // The dynu provider

  /** As written: validation accepts a dynu provider that has a user name
      and a password, but the pass's switch has no dynu case, so such a
      provider is never built and none of its records is ever committed. */
  lemma DynuValidatedButSkipped(cfg: Config.Config, v4: Result<string>, v6: Result<string>,
                                files: map<string, string>, commit: (Provider, Providers.DNSRecord) -> Status, i: nat)
    requires i < |cfg.providers| && cfg.providers[i].ptype == "dynu"
    requires Config.ValidateProvider(cfg.providers[i]).None?
    ensures Build(cfg.providers[i], files).None?
    ensures forall j :: 0 <= j < |cfg.providers[i].records| ==> (i, j) !in Committed(RunOnce(cfg, v4, v6, files, commit))
  {
    RunOnceCommitsEligible(cfg, v4, v6, files, commit);
  }

  /** A concrete configuration that shows it: one valid dynu provider with
      one A record, an IPv4 address at hand, and an empty pass. */
  lemma DynuPassIsEmpty(g: Config.GeneralSettings, files: map<string, string>,
                        commit: (Provider, Providers.DNSRecord) -> Status)
    ensures var pc := Config.ProviderConfig("dynu", map["username" := Str("user"), "password" := Str("secret")],
                                            [Config.RecordConfig("home.example.net", "A", false, 300, "")]);
            && Config.ValidateProviders([pc]).None?
            && RunOnce(Config.Config(g, [pc]), Ok("192.0.2.1"), Err("no IPv6"), files, commit) == []
  {
    var pc := Config.ProviderConfig("dynu", map["username" := Str("user"), "password" := Str("secret")],
                                    [Config.RecordConfig("home.example.net", "A", false, 300, "")]);
    assert Config.ValidateProvider(pc).None?;
    var built := BuildAll([pc], files, false);
    var wanted := DesiredAll([pc], "192.0.2.1", "");
    assert built == [None];
    assert ProvidersFrom(built, wanted, 1, commit) == [];
  }

  /** Corrected: with the dynu case every provider that passes validation
      is built (a clouddns one needs its credentials file to be readable),
      so every eligible record of a valid configuration is committed. */
  lemma ValidProvidersAreBuilt(pc: Config.ProviderConfig, files: map<string, string>)
    requires Config.ValidateProvider(pc).None?
    requires pc.ptype == "clouddns" ==> StringSetting(pc.settings, "credentialsJsonPath") in files
    ensures BuildFixed(pc, files).Some?
  {
  }

  lemma RunOnceFixedCoversValidConfig(cfg: Config.Config, v4: Result<string>, v6: Result<string>,
                                      files: map<string, string>, commit: (Provider, Providers.DNSRecord) -> Status,
                                      i: nat, j: nat)
    requires Config.ValidateProviders(cfg.providers).None?
    requires i < |cfg.providers| && j < |cfg.providers[i].records|
    requires cfg.providers[i].ptype == "clouddns" ==>
      StringSetting(cfg.providers[i].settings, "credentialsJsonPath") in files
    requires RecordFor(cfg.providers[i].records[j], OrEmpty(v4), OrEmpty(v6)).Some?
    ensures (i, j) in Committed(RunOnceFixed(cfg, v4, v6, files, commit))
  {
    assert Config.ValidateProvider(cfg.providers[i]).None?;
    ValidProvidersAreBuilt(cfg.providers[i], files);
    RunOnceFixedCommitsEligible(cfg, v4, v6, files, commit);
  }
}
