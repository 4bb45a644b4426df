/** The No-IP provider: one authenticated GET to the dynamic-update
    endpoint, with the hostname and the address in the query, and a reply
    that succeeds when it starts with "good" or "nochg". Base64, building
    the request and the exchange itself are inputs. */
module NoIp {
  import opened Common
  import opened Strings
  import opened Query
  import Providers

  datatype Provider = Provider(username: string, password: string)

  const Host: string := "https://dynupdate.no-ip.com"
  const UpdatePath: string := "/nic/update"
  const UpdateBase: string := Host + UpdatePath
  const UserAgent: string := "cfddns/1.0 (root@dnim.dev)"

  /** The request sent: URL and the two headers set. */
  datatype Request = Request(url: string, authorization: string, userAgent: string)

  /** What one commit did: the request it sent (if any) and its status. */
  datatype Commit = Commit(sent: Option<Request>, status: Status)

  /** The query parameter that carries the address, by record type. */
  function AddressKey(rtype: string): Option<string> {
    if rtype == "A" then Some("myip")
    else if rtype == "AAAA" then Some("myipv6")
    else None
  }

  /** The update URL for `rec`, or the error for a type No-IP cannot carry. */
  function Endpoint(rec: Providers.DNSRecord): (r: Result<string>)
    ensures AddressKey(rec.rtype).None? <==> r.Err?
    ensures r.Err? ==> r.error == "unsupported record type: " + rec.rtype
    ensures r.Ok? ==> r.value == Encode(UpdateBase, [Param("hostname", rec.name),
                                                     Param(AddressKey(rec.rtype).value, rec.content)])
  {
    var key := if rec.rtype == "A" then "myip" else "myipv6";
    EncodeTwo(UpdateBase, Param("hostname", rec.name), Param(key, rec.content));
    assert "?hostname=" == "?" + "hostname" + "=";
    assert "&myip=" == "&" + "myip" + "=";
    assert "&myipv6=" == "&" + "myipv6" + "=";
    if rec.rtype == "A" then
      Ok(UpdateBase + "?hostname=" + rec.name + "&myip=" + rec.content)
    else if rec.rtype == "AAAA" then
      Ok(UpdateBase + "?hostname=" + rec.name + "&myipv6=" + rec.content)
    else Err("unsupported record type: " + rec.rtype)
  }

  /** HTTP Basic credentials: `base64` stands for standard Base64 encoding
      (RFC 4648, section 4). */
  function Authorization(p: Provider, base64: string -> string): (h: string)
    ensures HasPrefix(h, "Basic ") && h[6..] == base64(p.username + ":" + p.password)
  {
    "Basic " + base64(p.username + ":" + p.password)
  }

  /** The reply body means success. */
  predicate Accepted(body: string) {
    HasPrefix(body, "good") || HasPrefix(body, "nochg")
  }

  /** `CommitRecord`. `newRequest` is the error of building the request for
      a URL, `reply` the exchange. */
  function CommitRecord(p: Provider, rec: Providers.DNSRecord, base64: string -> string,
                        newRequest: string -> Status, reply: Providers.HttpReply): (c: Commit)
    ensures Endpoint(rec).Err? ==> c == Commit(None, Error(Endpoint(rec).error))
    ensures c.sent.Some? <==> Endpoint(rec).Ok? && newRequest(Endpoint(rec).value).Nil?
    ensures Endpoint(rec).Ok? && newRequest(Endpoint(rec).value).Error? ==>
      c == Commit(None, Error("failed to create HTTP request: " + newRequest(Endpoint(rec).value).message))
    ensures c.sent.Some? ==> c.sent.value == Request(Endpoint(rec).value, Authorization(p, base64), UserAgent)
    ensures c.status.Nil? <==> c.sent.Some? && reply.Reply? && reply.readError.ReadOk? && Accepted(reply.body)
    ensures c.sent.Some? && reply.TransportError? ==> c.status == Error("failed to send HTTP request: " + reply.message)
    ensures c.sent.Some? && reply.Reply? && reply.readError.ReadFailed? ==>
      c.status == Error("failed to read HTTP response: " + reply.readError.message)
    ensures c.sent.Some? && reply.Reply? && reply.readError.ReadOk? && !Accepted(reply.body) ==>
      c.status == Error("failed to update No-IP record, response: " + reply.body)
  {
    match Endpoint(rec)
    case Err(e) => Commit(None, Error(e))
    case Ok(url) =>
      if newRequest(url).Error? then Commit(None, Error("failed to create HTTP request: " + newRequest(url).message))
      else
        var req := Request(url, Authorization(p, base64), UserAgent);
        match reply
        case TransportError(e) => Commit(Some(req), Error("failed to send HTTP request: " + e))
        case Reply(body, ReadFailed(e)) => Commit(Some(req), Error("failed to read HTTP response: " + e))
        case Reply(body, ReadOk) =>
          if Accepted(body) then Commit(Some(req), Nil)
          else Commit(Some(req), Error("failed to update No-IP record, response: " + body))
  }

  /** The base URL has no '?', so the query starts right after it. */
  lemma HostHasNoQuery()
    ensures NoChar(Host, '?')
  {
    forall i | 0 <= i < |Host| ensures Host[i] != '?' {
      assert Host[i] in "https://dynupdate.no-ip.com";
    }
  }

  lemma PathHasNoQuery()
    ensures NoChar(UpdatePath, '?')
  {
    forall i | 0 <= i < |UpdatePath| ensures UpdatePath[i] != '?' {
      assert UpdatePath[i] in "/nic/update";
    }
  }

  lemma BaseHasNoQuery()
    ensures NoChar(UpdateBase, '?')
  {
    HostHasNoQuery();
    PathHasNoQuery();
    NoCharConcat(Host, UpdatePath, '?');
  }

  /** The URL says what the record says: reading it back gives the update
      endpoint, the hostname and the address under the key of the record's
      type, provided neither name nor address contains '&'. */
  lemma EndpointCarriesRecord(rec: Providers.DNSRecord)
    requires rec.rtype == "A" || rec.rtype == "AAAA"
    requires NoChar(rec.name, '&') && NoChar(rec.content, '&')
    ensures Decode(Endpoint(rec).value)
            == (UpdateBase, [Param("hostname", rec.name), Param(AddressKey(rec.rtype).value, rec.content)])
  {
    BaseHasNoQuery();
    var ps := [Param("hostname", rec.name), Param(AddressKey(rec.rtype).value, rec.content)];
    assert forall k :: 0 <= k < |ps| ==> Plain(ps[k]);
    DecodeEncode(UpdateBase, ps);
  }
}
