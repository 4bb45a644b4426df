/** The Dynu provider: one GET carrying the address, the user name and the
    MD5 digest of the password in the query; the reply succeeds when it
    contains "good" or "nochg" anywhere. The digest and the exchange are
    inputs. */
module Dynu {
  import opened Common
  import opened Strings
  import opened Query
  import Providers

  datatype Provider = Provider(username: string, password: string)

  const Host: string := "http://api.dynu.com"
  const UpdatePath: string := "/nic/update"
  const UpdateBase: string := Host + UpdatePath

  /** What one commit did: the URL it fetched (if any) and its status. */
  datatype Commit = Commit(sent: Option<string>, status: Status)

  function AddressKey(rtype: string): Option<string> {
    if rtype == "A" then Some("myip")
    else if rtype == "AAAA" then Some("myipv6")
    else None
  }

  /** The parameters of the update URL, in the order they are written. */
  function UpdateParams(p: Provider, rec: Providers.DNSRecord, md5Hex: string -> string, key: string): seq<Param> {
    [Param(key, rec.content), Param("username", p.username), Param("password", md5Hex(p.password))]
  }

  /** The update URL, or the error for a type Dynu cannot carry.
      `md5Hex` stands for the lower-case hexadecimal MD5 digest (RFC 1321). */
  function Endpoint(p: Provider, rec: Providers.DNSRecord, md5Hex: string -> string): (r: Result<string>)
    ensures AddressKey(rec.rtype).None? <==> r.Err?
    ensures r.Err? ==> r.error == "unsupported record type: " + rec.rtype
    ensures r.Ok? ==> r.value == Encode(UpdateBase, UpdateParams(p, rec, md5Hex, AddressKey(rec.rtype).value))
  {
    var hashed := md5Hex(p.password);
    var key := if rec.rtype == "A" then "myip" else "myipv6";
    EncodeThree(UpdateBase, Param(key, rec.content), Param("username", p.username), Param("password", hashed));
    assert "?myip=" == "?" + "myip" + "=";
    assert "?myipv6=" == "?" + "myipv6" + "=";
    assert "&username=" == "&" + "username" + "=";
    assert "&password=" == "&" + "password" + "=";
    if rec.rtype == "A" then
      Ok(UpdateBase + "?myip=" + rec.content + "&username=" + p.username + "&password=" + hashed)
    else if rec.rtype == "AAAA" then
      Ok(UpdateBase + "?myipv6=" + rec.content + "&username=" + p.username + "&password=" + hashed)
    else Err("unsupported record type: " + rec.rtype)
  }

  /** The reply body means success: "good" or "nochg" occurs in it. */
  predicate Accepted(body: string) {
    Contains(body, "good") || Contains(body, "nochg")
  }

  /** `CommitRecord`; `reply` is the GET of the update URL. */
  function CommitRecord(p: Provider, rec: Providers.DNSRecord, md5Hex: string -> string,
                        reply: Providers.HttpReply): (c: Commit)
    ensures Endpoint(p, rec, md5Hex).Err? ==> c == Commit(None, Error(Endpoint(p, rec, md5Hex).error))
    ensures Endpoint(p, rec, md5Hex).Ok? ==> c.sent == Some(Endpoint(p, rec, md5Hex).value)
    ensures c.status.Nil? <==> c.sent.Some? && reply.Reply? && reply.readError.ReadOk? && Accepted(reply.body)
    ensures c.sent.Some? && reply.TransportError? ==> c.status == Error("failed to update DNS record: " + reply.message)
    ensures c.sent.Some? && reply.Reply? && reply.readError.ReadFailed? ==>
      c.status == Error("failed to read HTTP response: " + reply.readError.message)
    ensures c.sent.Some? && reply.Reply? && reply.readError.ReadOk? && !Accepted(reply.body) ==>
      c.status == Error("failed to update Dynu record, response: " + reply.body)
  {
    match Endpoint(p, rec, md5Hex)
    case Err(e) => Commit(None, Error(e))
    case Ok(url) =>
      match reply
      case TransportError(e) => Commit(Some(url), Error("failed to update DNS record: " + e))
      case Reply(body, ReadFailed(e)) => Commit(Some(url), Error("failed to read HTTP response: " + e))
      case Reply(body, ReadOk) =>
        if Contains(body, "good") || Contains(body, "nochg") then Commit(Some(url), Nil)
        else Commit(Some(url), Error("failed to update Dynu record, response: " + body))
  }

  lemma HostHasNoQuery()
    ensures NoChar(Host, '?')
  {
    forall i | 0 <= i < |Host| ensures Host[i] != '?' {
      assert Host[i] in "http://api.dynu.com";
    }
  }

  lemma PathHasNoQuery()
    ensures NoChar(UpdatePath, '?')
  {
    forall i | 0 <= i < |UpdatePath| ensures UpdatePath[i] != '?' {
      assert UpdatePath[i] in "/nic/update";
    }
  }

  lemma BaseHasNoQuery()
    ensures NoChar(UpdateBase, '?')
  {
    HostHasNoQuery();
    PathHasNoQuery();
    NoCharConcat(Host, UpdatePath, '?');
  }

  /** The parameter names need no escaping. */
  lemma KeysArePlain()
    ensures Plain(Param("myip", "")) && Plain(Param("myipv6", ""))
    ensures Plain(Param("username", "")) && Plain(Param("password", ""))
  {
  }

  /** The URL says what it should: reading it back gives the update
      endpoint, the address under the key of the record's type, the user
      name and the password digest, provided none of them contains '&'. */
  lemma EndpointCarriesCredentials(p: Provider, rec: Providers.DNSRecord, md5Hex: string -> string)
    requires rec.rtype == "A" || rec.rtype == "AAAA"
    requires NoChar(rec.content, '&') && NoChar(p.username, '&') && NoChar(md5Hex(p.password), '&')
    ensures Decode(Endpoint(p, rec, md5Hex).value)
            == (UpdateBase, [Param(AddressKey(rec.rtype).value, rec.content),
                             Param("username", p.username),
                             Param("password", md5Hex(p.password))])
  {
    BaseHasNoQuery();
    KeysArePlain();
    var ps := UpdateParams(p, rec, md5Hex, AddressKey(rec.rtype).value);
    assert Plain(ps[0]) && Plain(ps[1]) && Plain(ps[2]);
    DecodeEncode(UpdateBase, ps);
  }

  /** Unlike No-IP, Dynu accepts the keyword anywhere in the body, not only
      at its start. */
  lemma KeywordAnywhereAccepted(prefix: string, rest: string)
    ensures Accepted(prefix + "good" + rest)
  {
    var body := prefix + "good" + rest;
    assert body[|prefix|..|prefix| + 4] == "good";
    assert OccursAt(body, "good", |prefix|);
  }
}
