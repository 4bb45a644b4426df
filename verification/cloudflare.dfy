/** The Cloudflare provider: looks the zone up once (and caches its ID),
    reads the record of the same name and type, and creates it, updates it,
    or leaves it alone. Each HTTP exchange is an input; the requests sent
    are part of each result. A request records its method, path and body
    but not its headers: every request carries the same headers,
    `AuthHeaders` of the provider, which is modelled on its own. */
module Cloudflare {
  import opened Common
  import Providers

  datatype Provider = Provider(
    email: string,
    globalApiKey: string,
    apiToken: string,
    zoneName: string,
    zoneId: string)

  datatype Zone = Zone(id: string, name: string)

  /** A record as the API reports and accepts it. */
  datatype DnsRecord = DnsRecord(
    id: string,
    rtype: string,
    name: string,
    content: string,
    proxied: bool,
    ttl: int)

  /** The requests the provider sends. */
  datatype Request =
    | GetZones(zoneName: string)
    | GetRecords(zoneId: string, rtype: string, name: string)
    | PutRecord(zoneId: string, record: DnsRecord)
    | PostRecord(zoneId: string, record: DnsRecord)

  /** A decoded `{success, result}` envelope, or the transport/decoding
      error met on the way. */
  datatype ListReply<T> = ListFailed(message: string) | Listed(success: bool, result: seq<T>)

  /** A create/update reply: transport error, undecodable body, or the
      decoded JSON object. */
  datatype WriteReply =
    | WriteFailed(message: string)
    | WriteUndecodable(message: string)
    | WriteBody(body: map<string, Value>)

  /** The network as one commit sees it: the reply to the read's zone
      lookup, the record list's reply, the reply to the create/update's own
      zone lookup (asked only when the read left no ID cached, which happens
      when the zone's listed ID is empty), and the create/update reply. */
  datatype Net = Net(
    zones: ListReply<Zone>,
    records: ListReply<DnsRecord>,
    writeZones: ListReply<Zone>,
    write: WriteReply)

  // ---------------------------------------------------------------------
  // Authentication

  /** `addAuthHeaders`: an API token gives a bearer token only; otherwise an
      email and global key, both non-empty, give the two X-Auth headers;
      the JSON content type is always set. */
  function AuthHeaders(p: Provider): (h: map<string, string>)
    ensures "Content-Type" in h && h["Content-Type"] == "application/json"
    ensures p.apiToken != "" ==> h.Keys == {"Authorization", "Content-Type"}
                                 && h["Authorization"] == "Bearer " + p.apiToken
    ensures p.apiToken == "" && p.email != "" && p.globalApiKey != "" ==>
              h.Keys == {"X-Auth-Email", "X-Auth-Key", "Content-Type"}
              && h["X-Auth-Email"] == p.email && h["X-Auth-Key"] == p.globalApiKey
    ensures p.apiToken == "" && (p.email == "" || p.globalApiKey == "") ==> h.Keys == {"Content-Type"}
  {
    var auth: map<string, string> :=
      if p.apiToken != "" then map["Authorization" := "Bearer " + p.apiToken]
      else if p.email != "" && p.globalApiKey != "" then map["X-Auth-Email" := p.email, "X-Auth-Key" := p.globalApiKey]
      else map[];
    auth["Content-Type" := "application/json"]
  }

  // ---------------------------------------------------------------------
  // Zone lookup

  /** A step that may update the provider (its cached zone ID) and sends
      some requests. */
  datatype Step<T> = Step(provider: Provider, result: Result<T>, sent: seq<Request>)

  function ZoneError(zoneName: string): string {
    "failed to fetch zone ID for domain: " + zoneName
  }

  /** `fetchZoneID`: a cached ID is returned without a request; otherwise
      the zone is looked up by name and the first zone's ID is cached. */
  function FetchZoneId(p: Provider, reply: ListReply<Zone>): (s: Step<string>)
    ensures p.zoneId != "" ==> s == Step(p, Ok(p.zoneId), [])
    ensures p.zoneId == "" ==> s.sent == [GetZones(p.zoneName)]
    ensures s.provider.(zoneId := p.zoneId) == p
    ensures s.result.Ok? ==> s.provider.zoneId == s.result.value
    ensures s.result.Err? ==> s.provider == p
    ensures p.zoneId == "" && s.result.Ok? ==>
      reply.Listed? && reply.success && |reply.result| > 0 && s.result.value == reply.result[0].id
    ensures p.zoneId == "" && reply.Listed? && (!reply.success || |reply.result| == 0) ==>
      s.result == Err(ZoneError(p.zoneName))
  {
    if p.zoneId != "" then Step(p, Ok(p.zoneId), [])
    else
      var sent := [GetZones(p.zoneName)];
      match reply
      case ListFailed(e) => Step(p, Err(e), sent)
      case Listed(success, zones) =>
        if !success || |zones| == 0 then Step(p, Err(ZoneError(p.zoneName)), sent)
        else
          var p' := p.(zoneId := zones[0].id);
          Step(p', Ok(p'.zoneId), sent)
  }

  /** Once a lookup has succeeded with a non-empty ID, later lookups cost no
      request and give the same ID. */
  lemma ZoneIdCached(p: Provider, reply: ListReply<Zone>, later: ListReply<Zone>)
    requires FetchZoneId(p, reply).result.Ok? && FetchZoneId(p, reply).result.value != ""
    ensures var s := FetchZoneId(p, reply);
            FetchZoneId(s.provider, later) == Step(s.provider, s.result, [])
  {
  }

  // ---------------------------------------------------------------------
  // Record lookup

  const FetchRecordsError: string := "failed to fetch DNS records"

  /** `fetchDNSRecord`: the first record the API lists for the name and
      type, `None` when it lists none. */
  function FetchDnsRecord(p: Provider, name: string, rtype: string, net: Net): (s: Step<Option<DnsRecord>>)
    ensures s.result.Ok? ==>
      && net.records.Listed? && net.records.success
      && (|net.records.result| == 0 <==> s.result.value.None?)
      && (|net.records.result| > 0 ==> s.result.value == Some(net.records.result[0]))
    ensures net.records.Listed? && !net.records.success && FetchZoneId(p, net.zones).result.Ok? ==>
      s.result == Err(FetchRecordsError)
    ensures FetchZoneId(p, net.zones).result.Err? ==>
      s == Step(p, Err(FetchZoneId(p, net.zones).result.error), FetchZoneId(p, net.zones).sent)
    // after a good zone lookup, the records of that zone with this type and name are listed
    ensures FetchZoneId(p, net.zones).result.Ok? ==>
      && s.provider == FetchZoneId(p, net.zones).provider
      && s.sent == FetchZoneId(p, net.zones).sent + [GetRecords(FetchZoneId(p, net.zones).result.value, rtype, name)]
  {
    var z := FetchZoneId(p, net.zones);
    match z.result
    case Err(e) => Step(z.provider, Err(e), z.sent)
    case Ok(zoneId) =>
      var sent := z.sent + [GetRecords(zoneId, rtype, name)];
      match net.records
      case ListFailed(e) => Step(z.provider, Err(e), sent)
      case Listed(success, records) =>
        if !success then Step(z.provider, Err(FetchRecordsError), sent)
        else if |records| > 0 then Step(z.provider, Ok(Some(records[0])), sent)
        else Step(z.provider, Ok(None), sent)
  }

  // ---------------------------------------------------------------------
  // Writes

  /** A create or update is accepted when the decoded body's "success"
      field is the boolean true. */
  predicate WriteAccepted(body: map<string, Value>) {
    "success" in body && body["success"] == Bool(true)
  }

  function WriteStatus(reply: WriteReply, verb: string): (st: Status)
    ensures st.Nil? <==> reply.WriteBody? && WriteAccepted(reply.body)
  {
    match reply
    case WriteFailed(e) => Error(e)
    case WriteUndecodable(e) => Error("failed to parse response: " + e)
    case WriteBody(body) =>
      if WriteAccepted(body) then Nil else Error("failed to " + verb + " DNS record")
  }

  /** The result of a commit: the provider (with its cache), the status,
      and the requests sent. */
  datatype Commit = Commit(provider: Provider, status: Status, sent: seq<Request>)

  predicate IsWrite(r: Request) {
    r.PutRecord? || r.PostRecord?
  }

  /** The number of create/update requests among `rs`. */
  function Writes(rs: seq<Request>): (n: nat)
    ensures n <= |rs|
    ensures n == 0 <==> forall i :: 0 <= i < |rs| ==> !IsWrite(rs[i])
    ensures n == |rs| <==> forall i :: 0 <= i < |rs| ==> IsWrite(rs[i])
  {
    if |rs| == 0 then 0 else (if IsWrite(rs[0]) then 1 else 0) + Writes(rs[1..])
  }

  lemma {:induction false} WritesAppend(a: seq<Request>, b: seq<Request>)
    ensures Writes(a + b) == Writes(a) + Writes(b)
  {
    if |a| > 0 {
      assert (a + b)[1..] == a[1..] + b;
      assert (a + b)[0] == a[0];
      WritesAppend(a[1..], b);
    } else {
      assert a + b == b;
    }
  }

  /** The record's fields differ from the live record's in something the
      provider compares: content, TTL or proxying. */
  predicate Differs(live: DnsRecord, want: Providers.DNSRecord) {
    live.content != want.content || live.ttl != want.ttl || live.proxied != want.proxied
  }

  function Payload(id: string, rec: Providers.DNSRecord): DnsRecord {
    DnsRecord(id, rec.rtype, rec.name, rec.content, rec.proxied, rec.ttl)
  }

  /** The read step of a commit of `rec`. */
  function ReadStep(p: Provider, rec: Providers.DNSRecord, net: Net): Step<Option<DnsRecord>> {
    FetchDnsRecord(p, rec.name, rec.rtype, net)
  }

  /** The zone lookup a create/update makes, starting from the provider the
      read left. */
  function WriteZoneStep(p: Provider, rec: Providers.DNSRecord, net: Net): Step<string> {
    FetchZoneId(ReadStep(p, rec, net).provider, net.writeZones)
  }

  /** `CommitRecord`: read, compare, and create or update. */
  function CommitRecord(p: Provider, rec: Providers.DNSRecord, net: Net): (c: Commit)
    // the read step is always the first thing done
    ensures c.status.Nil? ==> ReadStep(p, rec, net).result.Ok?
    // a read error is returned and nothing is written
    ensures ReadStep(p, rec, net).result.Err? ==>
              c.status == Error(ReadStep(p, rec, net).result.error) && Writes(c.sent) == 0
    // at most one write is sent
    ensures Writes(c.sent) <= 1
    // only the zone-ID cache of the provider changes
    ensures c.provider.(zoneId := p.zoneId) == p
    // after a good read, no write and a good write-side zone lookup mean success
    ensures Writes(c.sent) == 0 && ReadStep(p, rec, net).result.Ok? && WriteZoneStep(p, rec, net).result.Ok? ==>
              c.status.Nil?
    // after a good read, a failure without a write is the write-side zone lookup's error
    ensures Writes(c.sent) == 0 && ReadStep(p, rec, net).result.Ok? && c.status.Error? ==>
              WriteZoneStep(p, rec, net).result.Err? && c.status == Error(WriteZoneStep(p, rec, net).result.error)
  {
    var f := FetchDnsRecord(p, rec.name, rec.rtype, net);
    WritesAppend(f.sent, []);
    match f.result
    case Err(e) =>
      assert Writes(f.sent) == 0 by { FetchSendsNoWrites(p, rec.name, rec.rtype, net); }
      Commit(f.provider, Error(e), f.sent)
    case Ok(existing) =>
      FetchSendsNoWrites(p, rec.name, rec.rtype, net);
      // the zone ID is cached now unless the zone's listed ID was empty
      var z := FetchZoneId(f.provider, net.writeZones);
      match existing
      case Some(live) =>
        if Differs(live, rec) then
          match z.result
          case Err(e) => ZoneStepSendsNoWrites(f.provider, net.writeZones); WritesAppend(f.sent, z.sent);
                         Commit(z.provider, Error(e), f.sent + z.sent)
          case Ok(zoneId) =>
            var sent := f.sent + z.sent + [PutRecord(zoneId, Payload(live.id, rec))];
            ZoneStepSendsNoWrites(f.provider, net.writeZones); WritesAppend(f.sent, z.sent);
            WritesAppend(f.sent + z.sent, [PutRecord(zoneId, Payload(live.id, rec))]);
            Commit(z.provider, WriteStatus(net.write, "update"), sent)
        else Commit(f.provider, Nil, f.sent)
      case None =>
        match z.result
        case Err(e) => ZoneStepSendsNoWrites(f.provider, net.writeZones); WritesAppend(f.sent, z.sent);
                       Commit(z.provider, Error(e), f.sent + z.sent)
        case Ok(zoneId) =>
          var sent := f.sent + z.sent + [PostRecord(zoneId, Payload("", rec))];
          ZoneStepSendsNoWrites(f.provider, net.writeZones); WritesAppend(f.sent, z.sent);
          WritesAppend(f.sent + z.sent, [PostRecord(zoneId, Payload("", rec))]);
          Commit(z.provider, WriteStatus(net.write, "create"), sent)
  }

  lemma ZoneStepSendsNoWrites(p: Provider, reply: ListReply<Zone>)
    ensures Writes(FetchZoneId(p, reply).sent) == 0
  {
  }

  lemma FetchSendsNoWrites(p: Provider, name: string, rtype: string, net: Net)
    ensures Writes(FetchDnsRecord(p, name, rtype, net).sent) == 0
  {
    var z := FetchZoneId(p, net.zones);
    if z.result.Ok? {
      WritesAppend(z.sent, [GetRecords(z.result.value, rtype, name)]);
    }
  }

  /** Reading found the live record (if any) and the zone is known. */
  predicate ReadSucceeds(p: Provider, rec: Providers.DNSRecord, net: Net) {
    FetchDnsRecord(p, rec.name, rec.rtype, net).result.Ok?
  }

  /** No live record: no update is sent; when the create's zone lookup
      succeeds exactly one create is sent, carrying the desired fields, and
      the commit succeeds exactly when the reply reports success; when that
      lookup fails its error is the status and nothing is written. */
  lemma {:induction false} AbsentRecordIsCreated(p: Provider, rec: Providers.DNSRecord, net: Net)
    requires ReadSucceeds(p, rec, net)
    requires |net.records.result| == 0
    ensures var c := CommitRecord(p, rec, net);
      && (forall r :: r in c.sent ==> !r.PutRecord?)
      && (WriteZoneStep(p, rec, net).result.Ok? ==>
            && Writes(c.sent) == 1
            && c.sent == ReadStep(p, rec, net).sent + WriteZoneStep(p, rec, net).sent
                          + [PostRecord(WriteZoneStep(p, rec, net).result.value, Payload("", rec))]
            && (c.status.Nil? <==> net.write.WriteBody? && WriteAccepted(net.write.body)))
      && (WriteZoneStep(p, rec, net).result.Err? ==>
            Writes(c.sent) == 0 && c.status == Error(WriteZoneStep(p, rec, net).result.error))
  {
    var f := ReadStep(p, rec, net);
    var z := WriteZoneStep(p, rec, net);
    ReadSendsOnlyReads(p, rec, net);
    FetchSendsNoWrites(p, rec.name, rec.rtype, net);
    ZoneStepSendsNoWrites(f.provider, net.writeZones);
    WritesAppend(f.sent, z.sent);
    if z.result.Ok? {
      var post := PostRecord(z.result.value, Payload("", rec));
      assert CommitRecord(p, rec, net).sent == f.sent + z.sent + [post];
      WritesAppend(f.sent + z.sent, [post]);
      assert Writes([post]) == 1;
    } else {
      assert CommitRecord(p, rec, net).sent == f.sent + z.sent;
    }
  }

  /** A live record that differs: no create is sent; when the update's zone
      lookup succeeds exactly one update is sent, targeting the live
      record's ID with the desired fields; when that lookup fails its error
      is the status and nothing is written. */
  lemma {:induction false} DifferingRecordIsUpdated(p: Provider, rec: Providers.DNSRecord, net: Net)
    requires ReadSucceeds(p, rec, net)
    requires |net.records.result| > 0 && Differs(net.records.result[0], rec)
    ensures var c := CommitRecord(p, rec, net);
      && (forall r :: r in c.sent ==> !r.PostRecord?)
      && (WriteZoneStep(p, rec, net).result.Ok? ==>
            && Writes(c.sent) == 1
            && c.sent == ReadStep(p, rec, net).sent + WriteZoneStep(p, rec, net).sent
                          + [PutRecord(WriteZoneStep(p, rec, net).result.value, Payload(net.records.result[0].id, rec))]
            && (c.status.Nil? <==> net.write.WriteBody? && WriteAccepted(net.write.body)))
      && (WriteZoneStep(p, rec, net).result.Err? ==>
            Writes(c.sent) == 0 && c.status == Error(WriteZoneStep(p, rec, net).result.error))
  {
    var f := ReadStep(p, rec, net);
    var z := WriteZoneStep(p, rec, net);
    ReadSendsOnlyReads(p, rec, net);
    FetchSendsNoWrites(p, rec.name, rec.rtype, net);
    ZoneStepSendsNoWrites(f.provider, net.writeZones);
    WritesAppend(f.sent, z.sent);
    if z.result.Ok? {
      var put := PutRecord(z.result.value, Payload(net.records.result[0].id, rec));
      assert CommitRecord(p, rec, net).sent == f.sent + z.sent + [put];
      WritesAppend(f.sent + z.sent, [put]);
      assert Writes([put]) == 1;
    } else {
      assert CommitRecord(p, rec, net).sent == f.sent + z.sent;
    }
  }

  /** A live record equal on content, TTL and proxying: nothing is written
      and the commit succeeds. */
  lemma UpToDateRecordIsLeftAlone(p: Provider, rec: Providers.DNSRecord, net: Net)
    requires ReadSucceeds(p, rec, net)
    requires |net.records.result| > 0 && !Differs(net.records.result[0], rec)
    ensures CommitRecord(p, rec, net).status == Nil
    ensures Writes(CommitRecord(p, rec, net).sent) == 0
  {
  }

  /** A read that found a non-empty zone ID leaves it cached, so the
      create/update's zone lookup sends nothing and gives the same ID. */
  lemma CachedAfterRead(p: Provider, rec: Providers.DNSRecord, net: Net)
    requires ReadSucceeds(p, rec, net)
    requires ReadStep(p, rec, net).provider.zoneId != ""
    ensures var q := ReadStep(p, rec, net).provider;
            WriteZoneStep(p, rec, net) == Step(q, Ok(q.zoneId), [])
  {
  }

  /** A read whose zone lookup listed an empty ID leaves nothing cached, so
      the create/update looks the zone up again with a request of its own. */
  lemma EmptyZoneIdIsLookedUpAgain(p: Provider, rec: Providers.DNSRecord, net: Net)
    requires ReadSucceeds(p, rec, net)
    requires ReadStep(p, rec, net).provider.zoneId == ""
    ensures WriteZoneStep(p, rec, net).sent == [GetZones(p.zoneName)]
  {
  }

  lemma ReadSendsOnlyReads(p: Provider, rec: Providers.DNSRecord, net: Net)
    ensures forall r :: r in FetchDnsRecord(p, rec.name, rec.rtype, net).sent ==> r.GetZones? || r.GetRecords?
    ensures forall r :: r in WriteZoneStep(p, rec, net).sent ==> r.GetZones?
  {
  }

  /** The live record after a successful write of `rec` over `live`. */
  function Applied(live: DnsRecord, rec: Providers.DNSRecord): DnsRecord {
    live.(content := rec.content, ttl := rec.ttl, proxied := rec.proxied)
  }

  /** Idempotence: committing the same record again, against the live state
      the first commit left, writes nothing. */
  lemma RecommitWritesNothing(p: Provider, rec: Providers.DNSRecord, net: Net, again: Net)
    requires ReadSucceeds(p, rec, net)
    requires CommitRecord(p, rec, net).status.Nil?
    requires |net.records.result| > 0
    requires var live := Applied(net.records.result[0], rec);
             again.records.Listed? && again.records.success && |again.records.result| > 0
             && again.records.result[0] == live
    requires FetchZoneId(CommitRecord(p, rec, net).provider, again.zones).result.Ok?
    ensures Writes(CommitRecord(CommitRecord(p, rec, net).provider, rec, again).sent) == 0
    ensures CommitRecord(CommitRecord(p, rec, net).provider, rec, again).status.Nil?
  {
    var p2 := CommitRecord(p, rec, net).provider;
    assert !Differs(again.records.result[0], rec);
    assert ReadSucceeds(p2, rec, again);
    UpToDateRecordIsLeftAlone(p2, rec, again);
  }
}
