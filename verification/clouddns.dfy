/** The Google Cloud DNS provider: makes the record name absolute, lists
    the record sets of that name and type, and applies one change that
    deletes the first listed set (if any) and adds the desired one. The
    service creation, the listing and the change request are inputs. */
module CloudDns {
  import opened Common
  import opened Strings
  import Providers

  datatype Provider = Provider(projectId: string, credentialsJson: string, zoneName: string)

  datatype RecordSet = RecordSet(name: string, rtype: string, ttl: int, rrdatas: seq<string>)

  datatype Change = Change(deletions: seq<RecordSet>, additions: seq<RecordSet>)

  /** The list query sent: project, zone, name and type. */
  datatype ListQuery = ListQuery(projectId: string, zoneName: string, name: string, rtype: string)

  /** The record name made absolute: a trailing "." is appended unless
      one is already there (a fully qualified domain name in the sense of
      section 3.1 of RFC 1034). */
  function Fqdn(name: string): (r: string)
    ensures HasSuffix(r, ".")
    ensures HasSuffix(name, ".") ==> r == name
    ensures !HasSuffix(name, ".") ==> r == name + "."
  {
    if HasSuffix(name, ".") then name else name + "."
  }

  /** Making a name absolute twice is making it absolute once, and it
      changes nothing about a name other than the final dot. */
  lemma FqdnIdempotent(name: string)
    ensures Fqdn(Fqdn(name)) == Fqdn(name)
    ensures TrimSuffix(Fqdn(name), ".") == TrimSuffix(name, ".")
  {
    if !HasSuffix(name, ".") {
      assert (name + ".")[..|name|] == name;
    }
  }

  /** What one commit did: the listing it requested, the change it applied
      (if it got that far), and its status. */
  datatype Commit = Commit(query: Option<ListQuery>, change: Option<Change>, status: Status)

  /** The record set the commit adds for `rec`. */
  function Desired(rec: Providers.DNSRecord): RecordSet {
    RecordSet(Fqdn(rec.name), rec.rtype, rec.ttl, [rec.content])
  }

  /** `CommitRecord`. `service` is the error of creating the service,
      `listed` the reply of the listing and `applied` the error of the
      change request. */
  function CommitRecord(p: Provider, rec: Providers.DNSRecord, service: Status,
                        listed: Result<seq<RecordSet>>, applied: Status): (c: Commit)
    ensures service.Error? ==> c == Commit(None, None, Error("failed to create Cloud DNS service: " + service.message))
    ensures service.Nil? ==> c.query == Some(ListQuery(p.projectId, p.zoneName, Fqdn(rec.name), rec.rtype))
    ensures service.Nil? && listed.Err? ==> c.change == None && c.status == Error("failed to list DNS records: " + listed.error)
    ensures c.change.Some? <==> service.Nil? && listed.Ok?
    ensures c.change.Some? ==>
      && c.change.value.additions == [RecordSet(Fqdn(rec.name), rec.rtype, rec.ttl, [rec.content])]
      && (|listed.value| > 0 ==> c.change.value.deletions == [listed.value[0]])
      && (|listed.value| == 0 ==> c.change.value.deletions == [])
      && (c.status.Nil? <==> applied.Nil?)
  {
    if service.Error? then Commit(None, None, Error("failed to create Cloud DNS service: " + service.message))
    else
      var fqdn := Fqdn(rec.name);
      var query := Some(ListQuery(p.projectId, p.zoneName, fqdn, rec.rtype));
      match listed
      case Err(e) => Commit(query, None, Error("failed to list DNS records: " + e))
      case Ok(sets) =>
        var rrset := RecordSet(fqdn, rec.rtype, rec.ttl, [rec.content]);
        var deletions := if |sets| > 0 then [sets[0]] else [];
        var change := Change(deletions, [rrset]);
        Commit(query, Some(change),
               if applied.Nil? then Nil else Error("failed to apply DNS changes: " + applied.message))
  }

  /** After a successful change the zone holds the desired set in place of
      the deleted one; a second commit against that state replaces the set
      with itself: its deletion and its addition are the same record set. */
  lemma RecommitReplacesWithItself(p: Provider, rec: Providers.DNSRecord, rest: seq<RecordSet>)
    ensures var c := CommitRecord(p, rec, Nil, Ok([Desired(rec)] + rest), Nil);
            c.change == Some(Change([Desired(rec)], [Desired(rec)])) && c.status == Nil
  {
  }
}
