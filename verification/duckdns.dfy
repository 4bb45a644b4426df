/** The DuckDNS provider: strips ".duckdns.org" from the record name, sends
    one GET with the subdomain, the token and the address, and succeeds
    exactly when the body is "OK". A failed body read is not reported: the
    bytes read so far are judged. The exchange is an input. */
module DuckDns {
  import opened Common
  import opened Strings
  import opened Query
  import Providers

  datatype Provider = Provider(token: string)

  const UpdateBase: string := "https://www.duckdns.org/update"
  const DomainSuffix: string := ".duckdns.org"

  /** What one update did: the URL it fetched (if any) and its status. */
  datatype Commit = Commit(sent: Option<string>, status: Status)

  function AddressKey(rtype: string): Option<string> {
    if rtype == "A" then Some("ip")
    else if rtype == "AAAA" then Some("ipv6")
    else None
  }

  /** The subdomain DuckDNS expects: the record name without the service's
      own domain. */
  function Subdomain(name: string): (sub: string)
    ensures HasSuffix(name, DomainSuffix) ==> sub + DomainSuffix == name
    ensures !HasSuffix(name, DomainSuffix) ==> sub == name
  {
    if HasSuffix(name, DomainSuffix) then TrimSuffix(name, DomainSuffix) else name
  }

  function UpdateParams(p: Provider, rec: Providers.DNSRecord, key: string): seq<Param> {
    [Param("domains", Subdomain(rec.name)), Param("token", p.token), Param(key, rec.content)]
  }

  /** The update URL, or the error for a type DuckDNS cannot carry. */
  function Endpoint(p: Provider, rec: Providers.DNSRecord): (r: Result<string>)
    ensures AddressKey(rec.rtype).None? <==> r.Err?
    ensures r.Err? ==> r.error == "unsupported record type: " + rec.rtype
    ensures r.Ok? ==> r.value == Encode(UpdateBase, UpdateParams(p, rec, AddressKey(rec.rtype).value))
  {
    var subdomain := Subdomain(rec.name);
    var key := if rec.rtype == "A" then "ip" else "ipv6";
    EncodeThree(UpdateBase, Param("domains", subdomain), Param("token", p.token), Param(key, rec.content));
    assert "?domains=" == "?" + "domains" + "=";
    assert "&token=" == "&" + "token" + "=";
    assert "&ip=" == "&" + "ip" + "=";
    assert "&ipv6=" == "&" + "ipv6" + "=";
    if rec.rtype == "A" then
      Ok(UpdateBase + "?domains=" + subdomain + "&token=" + p.token + "&ip=" + rec.content)
    else if rec.rtype == "AAAA" then
      Ok(UpdateBase + "?domains=" + subdomain + "&token=" + p.token + "&ipv6=" + rec.content)
    else Err("unsupported record type: " + rec.rtype)
  }

  /** `UpdateOrCreateRecord`; `reply` is the GET of the update URL. */
  function UpdateOrCreateRecord(p: Provider, rec: Providers.DNSRecord, reply: Providers.HttpReply): (c: Commit)
    ensures Endpoint(p, rec).Err? ==> c == Commit(None, Error(Endpoint(p, rec).error))
    ensures Endpoint(p, rec).Ok? ==> c.sent == Some(Endpoint(p, rec).value)
    ensures c.status.Nil? <==> c.sent.Some? && reply.Reply? && reply.body == "OK"
    ensures c.sent.Some? && reply.TransportError? ==> c.status == Error("failed to update DNS record: " + reply.message)
    ensures c.sent.Some? && reply.Reply? && reply.body != "OK" ==>
      c.status == Error("failed to update DNS record, response: " + reply.body)
  {
    match Endpoint(p, rec)
    case Err(e) => Commit(None, Error(e))
    case Ok(url) =>
      match reply
      case TransportError(e) => Commit(Some(url), Error("failed to update DNS record: " + e))
      case Reply(body, _) =>
        if body != "OK" then Commit(Some(url), Error("failed to update DNS record, response: " + body))
        else Commit(Some(url), Nil)
  }

  /** A failed read of the body changes nothing: only the bytes matter. */
  lemma ReadErrorIgnored(p: Provider, rec: Providers.DNSRecord, body: string, e: string)
    ensures UpdateOrCreateRecord(p, rec, Providers.Reply(body, Providers.ReadFailed(e)))
         == UpdateOrCreateRecord(p, rec, Providers.Reply(body, Providers.ReadOk))
  {
  }

  lemma BaseHasNoQuery()
    ensures NoChar(UpdateBase, '?')
  {
    forall i | 0 <= i < |UpdateBase| ensures UpdateBase[i] != '?' {
      assert UpdateBase[i] in "https://www.duckdns.org/update";
    }
  }

  /** Reading the URL back gives the subdomain, the token and the address
      under the key of the record's type; putting the service's domain back
      on the subdomain gives the record name whenever it ended in it. */
  lemma EndpointCarriesRecord(p: Provider, rec: Providers.DNSRecord)
    requires rec.rtype == "A" || rec.rtype == "AAAA"
    requires NoChar(rec.name, '&') && NoChar(p.token, '&') && NoChar(rec.content, '&')
    ensures var (base, ps) := Decode(Endpoint(p, rec).value);
            && base == UpdateBase
            && ps == [Param("domains", Subdomain(rec.name)), Param("token", p.token),
                      Param(AddressKey(rec.rtype).value, rec.content)]
            && (HasSuffix(rec.name, DomainSuffix) ==> ps[0].value + DomainSuffix == rec.name)
  {
    BaseHasNoQuery();
    var sub := Subdomain(rec.name);
    assert sub == rec.name[..|sub|];
    assert NoChar(sub, '&');
    var ps := UpdateParams(p, rec, AddressKey(rec.rtype).value);
    assert forall k :: 0 <= k < |ps| ==> Plain(ps[k]);
    DecodeEncode(UpdateBase, ps);
  }
}
