# cfddns in Dafny

A model of cfddns, a small Go daemon that keeps DNS address records (A and
AAAA) in step with the host's public IPv4 and IPv6 addresses across several
DNS providers. The model covers:

- the configuration loader: the choice of the configuration file, the
  defaults of the general settings, and the per-provider validation
  (`config.dfy`);
- the external address resolver: a shuffled list of "what is my IP"
  services, tried in order until one answers with a valid address of the
  requested family (`ipfetcher.dfy`);
- one update pass, `runOnce`: the provider switch that builds each provider
  from its settings, the choice of an address for each record, and the
  commit of every eligible record in configuration order
  (`orchestrator.dfy`);
- the daemon loop, `runDaemon`: the connectivity flag, the last addresses
  seen and the update deadline, driven by connectivity ticks, update-timer
  fires and the stop signal (`daemon.dfy`);
- the `CommitRecord` of every provider: Cloudflare (read, compare, then
  create or update, with a cached zone ID), DigitalOcean (list, find the
  first match, edit or create), Route 53 (cached hosted-zone lookup, then an
  unconditional UPSERT), Google Cloud DNS (list, then replace), and the
  update-URL providers No-IP, Dynu, DuckDNS and FreeDNS.

Everything is a pure function. The network replies, the connectivity probe,
the random draws of the shuffle, `net.ParseIP`, Base64, MD5, the file system
and the YAML decoder are inputs: a reply datatype per exchange, or a function
parameter where the source calls a library (`parse`, `base64`, `md5Hex`,
`net`). Shared pieces: `common.dfy` (option, result, Go `error` status,
decoded YAML scalars), `strings.dfy` (the parts of Go's `strings` package
the program uses), `query.dfy` (URLs of the form `base?k=v&k=v` and their
read-back), `providers.dfy` (the desired record and a plain HTTP GET reply).

Points where the code does less, or otherwise, than a reader of a DNS
updater might expect; the model follows the code:

- After a pass on startup or on reconnection, the daemon looks the addresses
  up again and remembers those, not the ones the pass used (`Daemon.Step`
  takes them as separate inputs).
- Read-before-write holds only for Cloudflare and DigitalOcean. Route 53
  upserts unconditionally, Cloud DNS always replaces, and the update-URL
  providers always send their request. DigitalOcean does not compare the
  proxied flag.
- A record type other than A or AAAA never reaches a provider: the pass
  skips it with a "missing IP" warning before any commit (main.go:173-180),
  as it does an A or AAAA record whose address is unknown, and
  `Orchestrator.RunOnce` states that every committed record is A or AAAA.
  The providers' own "unsupported record type" errors are modelled but
  cannot arise from the pass, and nothing rejects such a record at startup.
- The DuckDNS provider defines `UpdateOrCreateRecord` rather than
  `CommitRecord` (providers/duckdns/duckdns.go:17), yet main.go:149 uses it
  as a provider. The model treats `DuckDns.UpdateOrCreateRecord` as its
  commit.

## Model

| member | source | states |
|---|---|---|
| Common.StringSetting | main.go:86-89 | a non-empty setting is exactly the string stored under its key; a key holding a string yields that string, anything else the empty string |
| Common.OrEmpty | main.go:67-77 | a failed address lookup counts as the empty address, a successful one as its value |
| Strings.TrimSpace | ipfetcher/ipfetcher.go:52 | the trimmed text is no longer than the body and starts and ends with a non-space character |
| Strings.TrimSpaceKeepsInfix | ipfetcher/ipfetcher.go:83 | trimming removes only white space, at the two ends: the result is an infix of the body and everything outside it is space |
| Strings.TrimSpaceIdempotent | ipfetcher/ipfetcher.go:52-54 | a trimmed address trims to itself, so the returned address carries no white space |
| Strings.Contains | providers/dynu/dynu.go:50 | true exactly when some position of the body starts a copy of the keyword |
| Strings.TrimSuffix | providers/duckdns/duckdns.go:20-22 | with the suffix present, the result followed by the suffix is the input; otherwise the input is unchanged |
| Config.ApplyDefaults | config/config.go:54-66 | afterwards every general setting is usable; usable settings are kept and each unusable one becomes its default (300, 10, "8.8.8.8", "53") |
| Config.DefaultsIdempotent | config/config.go:54-66 | settings that are already usable are left alone, so defaulting twice equals defaulting once |
| Config.SomeTokenMissing | config/config.go:115-119 | true exactly when some record has an empty update token |
| Config.ValidateProvider | config/config.go:70-129 | a provider passes exactly when it meets the per-type requirement stated independently (API token or email and key; all required keys; a token on every freedns record; a known type), and a failure carries that type's message |
| Config.ValidationSeesOnlyKeys | config/config.go:70-129 | validation depends only on which settings keys are present, never on their values |
| Config.FreeDnsWithoutRecordsAccepted | config/config.go:114-119 | a freedns provider without records is accepted |
| Config.ValidateProviders | config/config.go:69-132 | the providers pass exactly when each passes; otherwise the error is that of the first failing provider, every earlier one passing |
| Config.FirstExisting | config/config.go:142-155 | the index returned names an existing candidate with no existing candidate before it; none means no candidate exists |
| Config.ConfigFilePathPriority | config/config.go:135-156 | a non-empty environment override wins; otherwise the path is the first existing of the user, system and working-directory files, or empty |
| Config.LoadConfig | config/config.go:37-133 | no file gives "config file not found"; a read or decode failure of the chosen file is returned; a loaded configuration has the decoded providers, defaulted general settings and only acceptable providers; a validation failure reports the first failing provider's error |
| IpFetcher.FamiliesAreExclusive | ipfetcher/ipfetcher.go:19-28 | a parsable address is valid for exactly one family: IPv4 when it has a 4-byte form, IPv6 otherwise; an unparsable one for neither |
| IpFetcher.ShuffleServices | ipfetcher/ipfetcher.go:13-17 | the shuffled list is a permutation of the services |
| IpFetcher.ShuffleKeepsServices | ipfetcher/ipfetcher.go:13-17 | every shuffled entry is a listed service and every listed service appears |
| IpFetcher.Get | ipfetcher/ipfetcher.go:41-44 | a URL without an http or https scheme fails before reaching the network; any other reaches it |
| IpFetcher.Read | ipfetcher/ipfetcher.go:41-57 | one service gives an address exactly when it answers 200 with a fully read body whose trimmed text is valid for the family; a 200 with a failed read aborts the loop with that error; anything else passes to the next service |
| IpFetcher.FirstValidFrom | ipfetcher/ipfetcher.go:40-59 | every service asked before the last one passed; success means the last one asked gave the address; failure is either the read error of the last one asked or the fixed failure message after all passed |
| IpFetcher.Resolve | ipfetcher/ipfetcher.go:40-59 | an address returned is the trimmed 200 body of a service asked, valid for the family and free of surrounding space |
| IpFetcher.GetExternalIP | ipfetcher/ipfetcher.go:30-60 | at most the four services are asked; an address returned is a trimmed valid IPv4 address |
| IpFetcher.GetExternalIPv6 | ipfetcher/ipfetcher.go:62-91 | at most the three listed services are asked; an address returned is a trimmed valid IPv6 address |
| IpFetcher.GetExternalIPv6Fixed | ipfetcher/ipfetcher.go:62-91 | the same with the service list corrected |
| IpFetcher.AllUnreachableFails | ipfetcher/ipfetcher.go:40-59 | when no service can be reached, every one is asked and the fixed failure message is returned |
| IpFetcher.FirstYieldWins | ipfetcher/ipfetcher.go:40-56 | the address of the first service that yields one is the result, after exactly that many services |
| IpFetcher.LaterAnswersIrrelevant | ipfetcher/ipfetcher.go:54-56 | services after the first that yields are never asked: replacing their answers changes nothing |
| IpFetcher.UnschemedServiceNeverAnswers | ipfetcher/ipfetcher.go:65 | the second IPv6 service has no scheme, so every request to it fails whatever the network |
| IpFetcher.FixedServicesAllReachable | ipfetcher/ipfetcher.go:63-67 | with the scheme supplied, every IPv6 service reaches the network |
| IpFetcher.IcanhazipUnreachableAsWritten | ipfetcher/ipfetcher.go:62-91 | on a network where only icanhazip answers, the resolver as written fails, whatever the shuffle |
| IpFetcher.IcanhazipReachableWhenFixed | ipfetcher/ipfetcher.go:62-91 | on the same network the corrected resolver returns icanhazip's address, whatever the shuffle |
| IpFetcher.FixedListReachesNetwork | ipfetcher/ipfetcher.go:69-75 | with the corrected list, in any shuffled order, each service's answer is the network's answer for it |
| Cloudflare.AuthHeaders | providers/cloudflare/cloudflare.go:36-44 | always a JSON content type; an API token gives only a bearer header; otherwise email and key give both X-Auth headers; otherwise no credentials |
| Cloudflare.FetchZoneId | providers/cloudflare/cloudflare.go:46-82 | a cached ID is returned with no request; otherwise one zone listing, the first zone's ID cached on success, the zone error on an unsuccessful or empty listing, and the cache untouched on failure |
| Cloudflare.ZoneIdCached | providers/cloudflare/cloudflare.go:47-49 | after a successful lookup a second lookup sends nothing and gives the same ID |
| Cloudflare.FetchDnsRecord | providers/cloudflare/cloudflare.go:84-125 | after a good zone lookup the records of that zone with the record's type and name are listed, and nothing else is sent; on success the result is the first listed record or none; an unsuccessful listing gives the fetch error; a zone error is passed on |
| Cloudflare.WriteStatus | providers/cloudflare/cloudflare.go:153-162 | a write succeeds exactly when the decoded reply has "success" set to true |
| Cloudflare.CommitRecord | providers/cloudflare/cloudflare.go:207-240 | a commit succeeds only after a successful read, passes a read error on, sends at most one write, and changes only the provider's zone-ID cache; after a good read, no write and a good write-side zone lookup mean success, and a failure without a write is that lookup's error |
| Cloudflare.ReadSendsOnlyReads | providers/cloudflare/cloudflare.go:84-125 | the read step sends only zone and record listings |
| Cloudflare.AbsentRecordIsCreated | providers/cloudflare/cloudflare.go:232-238 | with no live record no update is sent; if the create's zone lookup succeeds, the requests are the read's, that lookup's and one create to the zone it returned carrying the desired fields, and the commit succeeds exactly when the reply reports success, otherwise that lookup's error is returned with no write |
| Cloudflare.DifferingRecordIsUpdated | providers/cloudflare/cloudflare.go:221-228 | a live record differing in content, TTL or proxying gets no create; if the update's zone lookup succeeds, the requests are the read's, that lookup's and one update to the zone it returned, on the live ID with the desired fields, and the commit succeeds exactly when the reply reports success, otherwise that lookup's error is returned with no write |
| Cloudflare.UpToDateRecordIsLeftAlone | providers/cloudflare/cloudflare.go:229-231 | a live record equal on content, TTL and proxying gets no write and the commit succeeds |
| Cloudflare.CachedAfterRead | providers/cloudflare/cloudflare.go:47-49 | after a successful read that found a non-empty zone ID, the write's zone lookup sends nothing and returns that ID |
| Cloudflare.EmptyZoneIdIsLookedUpAgain | providers/cloudflare/cloudflare.go:128-131 | after a successful read that found an empty zone ID, the write's zone lookup sends its own zone listing |
| Cloudflare.RecommitWritesNothing | providers/cloudflare/cloudflare.go:207-240 | committing the same record again against the state the first commit left sends no write and succeeds |
| DigitalOcean.FindExisting | providers/digitalocean/digitalocean.go:35-41 | the index returned is the first listed record matching type and name; none means no record matches |
| DigitalOcean.CommitRecord | providers/digitalocean/digitalocean.go:25-76 | the listing and every write address the provider's domain; a listing error is reported with no write; a stale match gets one edit on its ID, a fresh match none, no match one create, each carrying the desired type, name, data and TTL; a commit that writes succeeds exactly when the write does, and a failed edit or create carries its own message |
| DigitalOcean.OnlyFirstMatchCounts | providers/digitalocean/digitalocean.go:35-41 | records before the first match and all records after it never influence the commit |
| DigitalOcean.RecommitWritesNothing | providers/digitalocean/digitalocean.go:43-59 | once the first match carries the desired data and TTL nothing is written, whatever the proxied flag |
| Route53.FindZone | providers/route53/route53.go:55-60 | the index returned is the first hosted zone whose name, less a trailing dot, is the configured zone; none means no zone matches |
| Route53.GetZoneId | providers/route53/route53.go:36-63 | a cached ID is returned without listing; otherwise the first matching zone's ID, less "/hostedzone/", is returned and cached, no match gives the not-found error, and a failure leaves the cache alone |
| Route53.CommitRecord | providers/route53/route53.go:65-106 | a change is sent exactly when the session and the zone lookup succeed: one UPSERT of the desired name, type, TTL and single value into the zone |
| Route53.UpsertIsUnconditional | providers/route53/route53.go:78-99 | with a zone cached, committing again sends the same change batch: no read, no diff |
| Route53.CachedZoneSkipsListing | providers/route53/route53.go:37-39 | with a zone ID cached, the hosted-zone listing has no influence |
| CloudDns.Fqdn | providers/clouddns/google.go:33-36 | the name ends in a dot: unchanged when it already did, otherwise with one dot appended |
| CloudDns.FqdnIdempotent | providers/clouddns/google.go:33-36 | making a name absolute twice equals once, and it names the same host |
| CloudDns.CommitRecord | providers/clouddns/google.go:26-73 | a service error stops before listing; the listing asks for the absolute name and type; a change is applied exactly when listing succeeds, deleting the first listed set if any and adding the desired one |
| CloudDns.RecommitReplacesWithItself | providers/clouddns/google.go:57-62 | committing a record whose desired set is already live replaces that set with itself |
| NoIp.Endpoint | providers/noip/noip.go:20-30 | an A or AAAA record gives the update URL with the host name and the address under myip or myipv6; any other type is refused |
| NoIp.Authorization | providers/noip/noip.go:37-40 | the header is "Basic " followed by the Base64 of "user:password" |
| NoIp.CommitRecord | providers/noip/noip.go:19-62 | a request is sent exactly when the type is supported and the request can be built, with the URL, the Basic credentials and the fixed user agent; success exactly when the body starts with "good" or "nochg"; each failure (unsupported type, request not built, transport, read, rejected body) carries its message |
| NoIp.EndpointCarriesRecord | providers/noip/noip.go:22-27 | reading the URL back gives the update endpoint, the host name and the address under its family's key |
| Dynu.Endpoint | providers/dynu/dynu.go:29-36 | an A or AAAA record gives the update URL with the address under myip or myipv6, the user name and the password digest; any other type is refused |
| Dynu.CommitRecord | providers/dynu/dynu.go:25-56 | the URL is fetched exactly when the type is supported; success exactly when the body contains "good" or "nochg"; each failure carries its message |
| Dynu.EndpointCarriesCredentials | providers/dynu/dynu.go:29-36 | reading the URL back gives the update endpoint, the address under its family's key, the user name and the password digest |
| Dynu.KeywordAnywhereAccepted | providers/dynu/dynu.go:50-55 | a body with "good" anywhere in it is accepted |
| DuckDns.Subdomain | providers/duckdns/duckdns.go:18-22 | the name without ".duckdns.org" when it ends in it, the name itself otherwise |
| DuckDns.Endpoint | providers/duckdns/duckdns.go:24-44 | an A or AAAA record gives the update URL with the subdomain, the token and the address under ip or ipv6; any other type is refused |
| DuckDns.UpdateOrCreateRecord | providers/duckdns/duckdns.go:17-59 | the URL is fetched exactly when the type is supported; success exactly when the body is "OK"; each failure carries its message |
| DuckDns.ReadErrorIgnored | providers/duckdns/duckdns.go:52-55 | a failed body read is not reported: only the bytes read count |
| DuckDns.EndpointCarriesRecord | providers/duckdns/duckdns.go:24-44 | reading the URL back gives the subdomain, the token and the address; the subdomain plus ".duckdns.org" is the record name when it ended in it |
| FreeDns.Endpoint | providers/freedns/freedns.go:17-29 | a missing token or an address on a type other than A or AAAA is refused with its message; otherwise the token follows the '?', then the address when there is one |
| FreeDns.Judge | providers/freedns/freedns.go:43-51 | a body is acknowledged exactly when it says "has not changed." or "Updated", rejected exactly when it does not but says "ERROR", and unexpected otherwise |
| FreeDns.CommitRecord | providers/freedns/freedns.go:16-52 | nothing is sent for a refused endpoint; otherwise success exactly when the body is read and not rejected, a warning exactly when it is unexpected; each failure carries its message |
| FreeDns.EndpointCarriesToken | providers/freedns/freedns.go:21-29 | reading the URL back gives the token as a lone key and the address, when there is one, under "address" |
| FreeDns.MissingTokenSendsNothing | providers/freedns/freedns.go:17-19 | a record without a token fails with the token message before anything is sent |
| FreeDns.AcknowledgementWins | providers/freedns/freedns.go:43-47 | a body that acknowledges is accepted even when it also says "ERROR" |
| Orchestrator.Build | main.go:82-169 | a provider is built exactly for the seven handled types, a clouddns one only when its credentials file is readable; each type's fields come from its own setting keys ("email", "globalApiKey", "apiToken", "zone", "region", "accessKeyId", "secretAccessKey", "domain", "projectId", "token", "username", "password"), the credentials from the file's contents; route53 defaults its region to "us-east-1"; the caches start empty |
| Orchestrator.BuildFixed | main.go:82-169 | the switch with a dynu case: a dynu provider is built from its user name and password, every other type as before |
| Orchestrator.RecordFor | main.go:171-190 | a record is committed exactly when it is A with an IPv4 address or AAAA with an IPv6 address, carrying that address and the configured fields |
| Orchestrator.RecordsFromCovers | main.go:171-196 | the record loop commits a record exactly when it has a desired record |
| Orchestrator.ProvidersFromCovers | main.go:79-197 | the provider loop commits a record exactly when its provider was built and it has a desired record |
| Orchestrator.RunOnce | main.go:66-198 | every commit is of a configured A or AAAA record of a handled provider, made by the provider built from that entry's settings with the record derived from that entry and the non-empty address of its family, and its outcome is the provider's answer |
| Orchestrator.RunOnceCommitsEligible | main.go:66-198 | a configured record is committed exactly when its provider is built and it has an address of its family, and the commits follow configuration order |
| Orchestrator.RunOnceFixed | main.go:79-197 | with the corrected switch, every commit is of a configured record of a handled or dynu provider, made by the provider the corrected switch builds from that entry with the record derived from it, and its outcome is the provider's answer |
| Orchestrator.RunOnceFixedCommitsEligible | main.go:79-197 | the same coverage and order for the corrected pass |
| Orchestrator.OutcomesDoNotSteer | main.go:192-195 | a failed commit is only logged: which commits are made, in which order and with which records does not depend on the outcomes |
| Orchestrator.DynuValidatedButSkipped | main.go:166-168 | a dynu provider that passes validation is never built, and none of its records is ever committed |
| Orchestrator.DynuPassIsEmpty | main.go:166-168 | a valid configuration of one dynu provider with one A record yields an empty pass even with an IPv4 address at hand |
| Orchestrator.ValidProvidersAreBuilt | main.go:82-169 | with the corrected switch every provider that passes validation is built, a clouddns one given its credentials file |
| Orchestrator.RunOnceFixedCoversValidConfig | main.go:79-197 | in a valid configuration, every record with an address of its family is committed by the corrected pass |
| Daemon.Start | main.go:209-229 | the timer is armed; a pass runs exactly when the first probe succeeds, and the last addresses are then the lookups made after it, empty otherwise |
| Daemon.Step | main.go:237-291 | a tick runs a pass exactly on a down-to-up edge, which also resets the timer; a fire re-arms the timer and runs a pass exactly when connected with changed addresses; stop ends the loop; a stopped loop ignores everything |
| Daemon.Run | main.go:237-291 | no more passes than events, and a stopped daemon never restarts |
| Daemon.SameConnectivityIsQuiet | main.go:239-258 | a tick that confirms the current connectivity changes nothing |
| Daemon.StoppedIgnoresEvents | main.go:287-289 | every event after the stop signal is ignored |
| Daemon.StopEndsTheLoop | main.go:287-289 | a stop signal ends the loop with no pass, whatever follows |
| Daemon.SteadyNetworkIsQuiet | main.go:237-291 | on a steady network with unchanged addresses no pass ever runs and the daemon stays connected with the same addresses |
| Daemon.OfflineIsQuiet | main.go:259-286 | while every probe fails no pass runs, whatever the lookups say, and the last addresses are kept |
| Daemon.ReconnectRunsOnce | main.go:239-258 | two successful probes in a row after an outage bring one pass, not two |
| Daemon.RepeatedFireIsQuiet | main.go:259-282 | a second fire with the same lookups runs no pass |

## Left out

- Logging, `setupLogging`, the command-line flags and `main`: they only print or dispatch.
- The probe `isInternetAvailable` (`net.JoinHostPort`, `DialTimeout`) is an input of each tick, and event times are inputs; the timers' stop-and-drain plumbing, the signal goroutine and the channels are replaced by an explicit event sequence.
- File reads, the YAML decoder, `os.Getenv` and `os.UserHomeDir`: the configuration decoder is the `parse` input, the environment override and the user path are inputs, and file existence is a set.
- Config.LoadConfig: the read and decode error messages ("error reading config file", "error unmarshalling yaml") are carried inside the `parse` input rather than built by the model.
- IpFetcher.ShuffleServices: the draws model the steps of `rand.Shuffle`, not its distribution or its seeding from the clock.
- `net.ParseIP`, Base64 and MD5 are function inputs (`parse`, `base64`, `md5Hex`); their algorithms are not modelled.
- Request headers: the Cloudflare requests in the model do not carry headers; every one of them gets the same `addAuthHeaders` set, which `Cloudflare.AuthHeaders` states separately.
- `defer resp.Body.Close()` and the HTTP client setup carry no logic that the model needs.
- Cloudflare.WriteStatus: the failure message omits the printed response map and status code; errors of `http.NewRequest` and `json.Marshal` are folded into the reply inputs.
- Daemon.Step: a `Fire` event is accepted at any time; the recorded deadline is not checked against it, and that fires come no earlier than the deadline is left to the event source.
- Orchestrator.RunOnce: the provider commit is a pure function input, so the zone-ID cache a provider builds while committing one record is not carried to its next record within the pass.
- The SDK clients of DigitalOcean, Route 53 and Cloud DNS are replaced by their replies; Route 53's two session creations within one commit see the same outcome.
- The DuckDNS method name mismatch: the model treats `UpdateOrCreateRecord` as the DuckDNS commit although the Go program, as written, does not compile there.

## Findings

| source | as written | input that shows it | evidently intended | confidence | as-written member | corrected member |
|---|---|---|---|---|---|---|
| main.go:82-169 | validation accepts a "dynu" provider (config/config.go:120-126) but the pass's switch has no dynu case, so it logs "Unsupported provider type" and skips it | one dynu provider with a user name, a password and one A record, with an IPv4 address known: the pass commits nothing | the switch builds a Dynu provider from its user name and password | high (not executed) | Orchestrator.DynuPassIsEmpty | Orchestrator.RunOnceFixedCoversValidConfig |
| ipfetcher/ipfetcher.go:65 | the IPv6 service "ipv6.icanhazip.com" has no scheme, so `http.Get` always fails for it | a network where only icanhazip answers with an IPv6 address: `GetExternalIPv6` fails for every shuffle | the entry is "https://ipv6.icanhazip.com" | high (not executed) | IpFetcher.IcanhazipUnreachableAsWritten | IpFetcher.IcanhazipReachableWhenFixed |
