/** The Route 53 provider: finds the hosted zone by name (once, then
    cached) and sends a single UPSERT for the record, without reading the
    live record first. Creating the AWS session, listing the hosted zones
    and applying the change are inputs. */
module Route53 {
  import opened Common
  import opened Strings
  import Providers

  datatype Provider = Provider(
    zoneName: string,
    zoneId: string,
    region: string,
    accessKeyId: string,
    secretAccessKey: string)

  datatype HostedZone = HostedZone(id: string, name: string)

  datatype ResourceRecordSet = ResourceRecordSet(name: string, rtype: string, ttl: int, values: seq<string>)

  datatype Change = Change(action: string, recordSet: ResourceRecordSet)

  datatype ChangeBatch = ChangeBatch(hostedZoneId: string, changes: seq<Change>)

  const HostedZonePrefix: string := "/hostedzone/"

  /** The zone `z` is the one configured: its name, less one trailing dot,
      is the configured zone name. */
  predicate NamesZone(z: HostedZone, zoneName: string) {
    TrimSuffix(z.name, ".") == zoneName
  }

  /** The search loop over the hosted zones: the first one that names the
      configured zone. */
  function FindZone(zones: seq<HostedZone>, zoneName: string): (r: Option<nat>)
    ensures r.Some? ==> r.value < |zones| && NamesZone(zones[r.value], zoneName)
                        && forall j :: 0 <= j < r.value ==> !NamesZone(zones[j], zoneName)
    ensures r.None? ==> forall j :: 0 <= j < |zones| ==> !NamesZone(zones[j], zoneName)
  {
    if |zones| == 0 then None
    else if NamesZone(zones[0], zoneName) then Some(0)
    else
      match FindZone(zones[1..], zoneName)
      case None => None
      case Some(k) => Some(k + 1)
  }

  /** The outcome of a zone lookup: the provider (with its cache), the
      zone ID or error, and whether the zones were listed. */
  datatype ZoneLookup = ZoneLookup(provider: Provider, result: Result<string>, listed: bool)

  function SessionError(e: string): string {
    "failed to create AWS session: " + e
  }

  function NotFound(zoneName: string): string {
    "hosted zone for " + zoneName + " not found"
  }

  /** `getZoneID`. `session` is the error of creating the AWS session and
      `zones` the reply of listing the hosted zones. */
  function GetZoneId(p: Provider, session: Status, zones: Result<seq<HostedZone>>): (z: ZoneLookup)
    ensures p.zoneId != "" ==> z == ZoneLookup(p, Ok(p.zoneId), false)
    ensures z.listed ==> p.zoneId == "" && session.Nil?
    ensures z.result.Ok? && p.zoneId == "" ==>
      && zones.Ok?
      && FindZone(zones.value, p.zoneName).Some?
      && var zone := zones.value[FindZone(zones.value, p.zoneName).value];
         HostedZonePrefix + z.result.value == zone.id
         || (!HasPrefix(zone.id, HostedZonePrefix) && z.result.value == zone.id)
    ensures z.result.Ok? ==> z.provider == p.(zoneId := z.result.value)
    ensures z.result.Err? ==> z.provider == p
    ensures p.zoneId == "" && session.Nil? && zones.Ok? && FindZone(zones.value, p.zoneName).None? ==>
      z.result == Err(NotFound(p.zoneName))
  {
    if p.zoneId != "" then ZoneLookup(p, Ok(p.zoneId), false)
    else if session.Error? then ZoneLookup(p, Err(SessionError(session.message)), false)
    else
      match zones
      case Err(e) => ZoneLookup(p, Err("failed to list hosted zones: " + e), true)
      case Ok(list) =>
        match FindZone(list, p.zoneName)
        case None => ZoneLookup(p, Err(NotFound(p.zoneName)), true)
        case Some(i) =>
          var id := TrimPrefix(list[i].id, HostedZonePrefix);
          ZoneLookup(p.(zoneId := id), Ok(id), true)
  }

  /** The result of a commit: the provider (with its cache), the change
      batch sent (if any) and the status. */
  datatype Commit = Commit(provider: Provider, sent: Option<ChangeBatch>, status: Status)

  /** The single change every commit sends. */
  function Upsert(rec: Providers.DNSRecord): Change {
    Change("UPSERT", ResourceRecordSet(rec.name, rec.rtype, rec.ttl, [rec.content]))
  }

  /** `CommitRecord`: session, zone, then one UPSERT; `applied` is the
      error of the change request. */
  function CommitRecord(p: Provider, rec: Providers.DNSRecord, session: Status,
                        zones: Result<seq<HostedZone>>, applied: Status): (c: Commit)
    ensures session.Error? ==> c == Commit(p, None, Error(SessionError(session.message)))
    ensures session.Nil? && GetZoneId(p, session, zones).result.Err? ==>
      c == Commit(p, None, Error(GetZoneId(p, session, zones).result.error))
    ensures c.sent.Some? <==> session.Nil? && GetZoneId(p, session, zones).result.Ok?
    ensures c.sent.Some? ==>
      && c.sent.value.changes == [Upsert(rec)]
      && c.sent.value.hostedZoneId == GetZoneId(p, session, zones).result.value
      && (c.status.Nil? <==> applied.Nil?)
  {
    if session.Error? then Commit(p, None, Error(SessionError(session.message)))
    else
      var z := GetZoneId(p, session, zones);
      match z.result
      case Err(e) => Commit(z.provider, None, Error(e))
      case Ok(zoneId) =>
        var batch := ChangeBatch(zoneId, [Upsert(rec)]);
        Commit(z.provider, Some(batch),
               if applied.Nil? then Nil else Error("failed to update or create record: " + applied.message))
  }

  /** No read, no diff: once a non-empty zone ID is cached the change sent
      depends on the desired record alone, so committing the same record
      twice sends the same UPSERT twice. */
  lemma UpsertIsUnconditional(p: Provider, rec: Providers.DNSRecord,
                              zones: Result<seq<HostedZone>>, applied: Status, zones2: Result<seq<HostedZone>>,
                              applied2: Status)
    requires CommitRecord(p, rec, Nil, zones, applied).sent.Some?
    requires CommitRecord(p, rec, Nil, zones, applied).sent.value.hostedZoneId != ""
    ensures var c1 := CommitRecord(p, rec, Nil, zones, applied);
            var c2 := CommitRecord(c1.provider, rec, Nil, zones2, applied2);
            c2.sent == c1.sent
  {
  }

  /** A cached zone ID makes the hosted-zone listing irrelevant. */
  lemma CachedZoneSkipsListing(p: Provider, rec: Providers.DNSRecord, session: Status,
                               zones1: Result<seq<HostedZone>>, zones2: Result<seq<HostedZone>>, applied: Status)
    requires p.zoneId != ""
    ensures CommitRecord(p, rec, session, zones1, applied) == CommitRecord(p, rec, session, zones2, applied)
  {
  }
}
