/** The DigitalOcean provider: lists the domain's records, takes the first
    one of the same type and name, and edits it when its data or TTL
    differ, or creates the record when there is none. The list reply and
    the write reply are inputs. */
module DigitalOcean {
  import opened Common
  import Providers

  datatype Provider = Provider(apiToken: string, domain: string)

  datatype DomainRecord = DomainRecord(id: int, rtype: string, name: string, data: string, ttl: int)

  datatype EditRequest = EditRequest(rtype: string, name: string, data: string, ttl: int)

  /** An edit or create call, addressed to a domain. */
  datatype Write = Edit(domain: string, id: int, request: EditRequest) | Create(domain: string, request: EditRequest)

  /** What one commit did: the domain whose records it listed, the write it
      sent (if any) and its status. */
  datatype Commit = Commit(listed: string, write: Option<Write>, status: Status)

  predicate Matches(r: DomainRecord, rec: Providers.DNSRecord) {
    r.rtype == rec.rtype && r.name == rec.name
  }

  /** The search loop: the first listed record whose type and name both
      match. */
  function FindExisting(records: seq<DomainRecord>, rec: Providers.DNSRecord): (r: Option<nat>)
    ensures r.Some? ==> r.value < |records| && Matches(records[r.value], rec)
                        && forall j :: 0 <= j < r.value ==> !Matches(records[j], rec)
    ensures r.None? ==> forall j :: 0 <= j < |records| ==> !Matches(records[j], rec)
  {
    if |records| == 0 then None
    else if Matches(records[0], rec) then Some(0)
    else
      match FindExisting(records[1..], rec)
      case None => None
      case Some(k) => Some(k + 1)
  }

  function RequestFor(rec: Providers.DNSRecord): EditRequest {
    EditRequest(rec.rtype, rec.name, rec.content, rec.ttl)
  }

  /** The record needs an edit: its data or its TTL differ. Proxying is not
      compared (DigitalOcean has none). */
  predicate Stale(r: DomainRecord, rec: Providers.DNSRecord) {
    r.data != rec.content || r.ttl != rec.ttl
  }

  /** `CommitRecord`. `list` is the reply of the record listing and
      `written` the error of the edit or create call. */
  function CommitRecord(p: Provider, rec: Providers.DNSRecord, list: Result<seq<DomainRecord>>,
                        written: Status): (c: Commit)
    // the listing and any write are addressed to the provider's domain
    ensures c.listed == p.domain
    ensures c.write.Some? ==> c.write.value.domain == p.domain
    ensures list.Err? ==> c == Commit(p.domain, None, Error("failed to list DNS records: " + list.error))
    ensures list.Ok? ==>
      match FindExisting(list.value, rec)
      case None =>
        c.write == Some(Create(p.domain, RequestFor(rec)))
      case Some(i) =>
        && (Stale(list.value[i], rec) ==> c.write == Some(Edit(p.domain, list.value[i].id, RequestFor(rec))))
        && (!Stale(list.value[i], rec) ==> c == Commit(p.domain, None, Nil))
    // a write's status is its call's outcome, with the call's message on failure
    ensures c.write.Some? ==> (c.status.Nil? <==> written.Nil?)
    ensures c.write.Some? && c.write.value.Edit? && written.Error? ==>
      c.status == Error("failed to update DNS record: " + written.message)
    ensures c.write.Some? && c.write.value.Create? && written.Error? ==>
      c.status == Error("failed to create DNS record: " + written.message)
  {
    match list
    case Err(e) => Commit(p.domain, None, Error("failed to list DNS records: " + e))
    case Ok(records) =>
      match FindExisting(records, rec)
      case Some(i) =>
        var existing := records[i];
        if Stale(existing, rec) then
          var w := Edit(p.domain, existing.id, RequestFor(rec));
          Commit(p.domain, Some(w), if written.Nil? then Nil else Error("failed to update DNS record: " + written.message))
        else Commit(p.domain, None, Nil)
      case None =>
        var w := Create(p.domain, RequestFor(rec));
        Commit(p.domain, Some(w), if written.Nil? then Nil else Error("failed to create DNS record: " + written.message))
  }

  /** Records of other names or types never influence the commit: only
      the first matching record does. */
  lemma OnlyFirstMatchCounts(p: Provider, rec: Providers.DNSRecord, before: seq<DomainRecord>,
                             r: DomainRecord, after: seq<DomainRecord>, written: Status)
    requires forall j :: 0 <= j < |before| ==> !Matches(before[j], rec)
    requires Matches(r, rec)
    ensures CommitRecord(p, rec, Ok(before + [r] + after), written) == CommitRecord(p, rec, Ok([r]), written)
  {
    var all := before + [r] + after;
    assert forall j :: 0 <= j < |before| ==> all[j] == before[j];
    var i := FindExisting(all, rec);
    assert all[|before|] == r;
    assert i == Some(|before|);
    assert FindExisting([r], rec) == Some(0);
  }

  /** The record left live after a successful write. */
  function Applied(r: DomainRecord, rec: Providers.DNSRecord): DomainRecord {
    r.(data := rec.content, ttl := rec.ttl)
  }

  /** Idempotence: once a matching record carries the desired data and TTL,
      a commit writes nothing, whatever its proxied flag says. */
  lemma RecommitWritesNothing(p: Provider, rec: Providers.DNSRecord, before: seq<DomainRecord>,
                              r: DomainRecord, after: seq<DomainRecord>, written: Status)
    requires forall j :: 0 <= j < |before| ==> !Matches(before[j], rec)
    requires Matches(r, rec)
    ensures CommitRecord(p, rec, Ok(before + [Applied(r, rec)] + after), written) == Commit(p.domain, None, Nil)
    ensures CommitRecord(p, rec.(proxied := !rec.proxied), Ok(before + [Applied(r, rec)] + after), written) == Commit(p.domain, None, Nil)
  {
    OnlyFirstMatchCounts(p, rec, before, Applied(r, rec), after, written);
    var rec' := rec.(proxied := !rec.proxied);
    assert forall j :: 0 <= j < |before| ==> !Matches(before[j], rec');
    OnlyFirstMatchCounts(p, rec', before, Applied(r, rec), after, written);
  }
}
