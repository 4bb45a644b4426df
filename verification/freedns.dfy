/** The FreeDNS (afraid.org) provider: each record carries its own update
    token, which is put verbatim after the '?' of the update URL, followed
    by the address when there is one. The reply is judged three ways: an
    acknowledgement, an "ERROR", or anything else (accepted with a
    warning). The exchange is an input. */
module FreeDns {
  import opened Common
  import opened Strings
  import opened Query
  import Providers

  const Host: string := "https://freedns.afraid.org"
  const UpdatePath: string := "/dynamic/update.php"
  const UpdateBase: string := Host + UpdatePath
  const MissingToken: string := "UpdateToken is required for FreeDNS record"

  /** How a reply was judged. */
  datatype Verdict = Acknowledged | Rejected | Unexpected

  /** What one commit did: the URL it fetched (if any), its status, and
      whether it logged an unexpected reply. */
  datatype Commit = Commit(sent: Option<string>, status: Status, warned: bool)

  /** The update URL, or the error for a record that cannot be sent: a
      missing token, or an address on a record that is neither A nor AAAA. */
  function Endpoint(rec: Providers.DNSRecord): (r: Result<string>)
    ensures r.Err? <==> rec.updateToken == "" || (rec.content != "" && rec.rtype != "A" && rec.rtype != "AAAA")
    ensures rec.updateToken == "" ==> r == Err(MissingToken)
    ensures rec.updateToken != "" && r.Err? ==> r.error == "unsupported record type: " + rec.rtype
    ensures r.Ok? && rec.content == "" ==> r.value == UpdateBase + "?" + rec.updateToken
    ensures r.Ok? && rec.content != "" ==>
      r.value == UpdateBase + "?" + rec.updateToken + "&" + Field(Param("address", rec.content))
  {
    if rec.updateToken == "" then Err(MissingToken)
    else
      var endpoint := UpdateBase + "?" + rec.updateToken;
      if rec.content != "" then
        if rec.rtype == "A" || rec.rtype == "AAAA" then
          assert "&address=" == "&" + "address" + "=";
          Ok(endpoint + "&address=" + rec.content)
        else Err("unsupported record type: " + rec.rtype)
      else Ok(endpoint)
  }

  /** The three-way reading of a reply body, in the order the checks are made. */
  function Judge(body: string): (v: Verdict)
    ensures v == Acknowledged <==> Contains(body, "has not changed.") || Contains(body, "Updated")
    ensures v == Rejected <==> !Contains(body, "has not changed.") && !Contains(body, "Updated") && Contains(body, "ERROR")
  {
    if Contains(body, "has not changed.") || Contains(body, "Updated") then Acknowledged
    else if Contains(body, "ERROR") then Rejected
    else Unexpected
  }

  /** `CommitRecord`; `reply` is the GET of the update URL. */
  function CommitRecord(rec: Providers.DNSRecord, reply: Providers.HttpReply): (c: Commit)
    ensures Endpoint(rec).Err? ==> c == Commit(None, Error(Endpoint(rec).error), false)
    ensures Endpoint(rec).Ok? ==> c.sent == Some(Endpoint(rec).value)
    ensures c.sent.Some? && reply.TransportError? ==>
      c.status == Error("failed to update FreeDNS record: " + reply.message)
    ensures c.sent.Some? && reply.Reply? && reply.readError.ReadFailed? ==>
      c.status == Error("failed to read response from FreeDNS: " + reply.readError.message)
    ensures c.status.Nil? <==> c.sent.Some? && reply.Reply? && reply.readError.ReadOk? && Judge(reply.body) != Rejected
    ensures c.warned <==> c.sent.Some? && reply.Reply? && reply.readError.ReadOk? && Judge(reply.body) == Unexpected
    ensures c.sent.Some? && reply.Reply? && reply.readError.ReadOk? && Judge(reply.body) == Rejected ==>
      c.status == Error("failed to update FreeDNS record, response: " + reply.body)
  {
    match Endpoint(rec)
    case Err(e) => Commit(None, Error(e), false)
    case Ok(url) =>
      match reply
      case TransportError(e) => Commit(Some(url), Error("failed to update FreeDNS record: " + e), false)
      case Reply(_, ReadFailed(e)) => Commit(Some(url), Error("failed to read response from FreeDNS: " + e), false)
      case Reply(body, ReadOk) =>
        if Contains(body, "has not changed.") || Contains(body, "Updated") then Commit(Some(url), Nil, false)
        else if Contains(body, "ERROR") then
          Commit(Some(url), Error("failed to update FreeDNS record, response: " + body), false)
        else Commit(Some(url), Nil, true)
  }

  lemma HostHasNoQuery()
    ensures NoChar(Host, '?')
  {
    forall i | 0 <= i < |Host| ensures Host[i] != '?' {
      assert Host[i] in "https://freedns.afraid.org";
    }
  }

  lemma PathHasNoQuery()
    ensures NoChar(UpdatePath, '?')
  {
    forall i | 0 <= i < |UpdatePath| ensures UpdatePath[i] != '?' {
      assert UpdatePath[i] in "/dynamic/update.php";
    }
  }

  lemma BaseHasNoQuery()
    ensures NoChar(UpdateBase, '?')
  {
    HostHasNoQuery();
    PathHasNoQuery();
    NoCharConcat(Host, UpdatePath, '?');
  }

  /** A token with no separator reads back as a key with an empty value. */
  lemma ParseToken(token: string)
    requires NoChar(token, '&') && NoChar(token, '=')
    ensures Parse(token) == [Param(token, "")]
  {
    IndexOfAbsent(token, '&');
    IndexOfAbsent(token, '=');
    assert Split(token, '&') == [token];
  }

  lemma ParseTokenAndAddress(token: string, address: string)
    requires NoChar(token, '&') && NoChar(token, '=') && NoChar(address, '&')
    ensures Parse(token + "&" + Field(Param("address", address))) == [Param(token, ""), Param("address", address)]
  {
    var f := Field(Param("address", address));
    var q := token + "&" + f;
    FieldNoAmp(Param("address", address));
    assert q == token + ['&'] + f;
    IndexOfAfter(token, '&', f);
    assert q[..|token|] == token;
    assert q[|token| + 1..] == f;
    IndexOfAbsent(f, '&');
    assert Split(q, '&') == [token, f];
    IndexOfAbsent(token, '=');
    assert ParseField(token) == Param(token, "");
    ParseFieldOf(Param("address", address));
    assert [token, f][1..] == [f];
    assert ParseFields([f]) == [Param("address", address)];
    assert ParseFields([token, f]) == [ParseField(token)] + ParseFields([f]);
  }

  /** Reading the URL back gives the token as a lone key (with an empty
      value) and the address, when there is one, as the "address"
      parameter, provided the token has no '&' or '=' and the address no
      '&'. */
  lemma EndpointCarriesToken(rec: Providers.DNSRecord)
    requires Endpoint(rec).Ok?
    requires NoChar(rec.updateToken, '&') && NoChar(rec.updateToken, '=') && NoChar(rec.content, '&')
    ensures Decode(Endpoint(rec).value)
            == (UpdateBase, [Param(rec.updateToken, "")]
                            + (if rec.content == "" then [] else [Param("address", rec.content)]))
  {
    BaseHasNoQuery();
    if rec.content == "" {
      DecodeAt(UpdateBase, rec.updateToken);
      ParseToken(rec.updateToken);
    } else {
      var q := rec.updateToken + "&" + Field(Param("address", rec.content));
      assert Endpoint(rec).value == UpdateBase + "?" + q;
      DecodeAt(UpdateBase, q);
      ParseTokenAndAddress(rec.updateToken, rec.content);
      assert [Param(rec.updateToken, "")] + [Param("address", rec.content)]
             == [Param(rec.updateToken, ""), Param("address", rec.content)];
    }
  }

  /** A missing token stops the commit before anything is sent, whatever
      the record says. */
  lemma MissingTokenSendsNothing(rec: Providers.DNSRecord, reply: Providers.HttpReply)
    requires rec.updateToken == ""
    ensures CommitRecord(rec, reply) == Commit(None, Error(MissingToken), false)
  {
  }

  /** A body that acknowledges is a success even when it also says
      "ERROR": the acknowledgement is checked first. */
  lemma AcknowledgementWins(rest: string)
    ensures Judge("Updated" + rest + "ERROR") == Acknowledged
  {
    var body := "Updated" + rest + "ERROR";
    assert body[0..7] == "Updated";
    assert OccursAt(body, "Updated", 0);
  }
}
