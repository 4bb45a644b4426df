/** The external address resolver: a shuffled list of "what is my IP"
    services is tried in order until one answers with a valid address of
    the requested family. The HTTP exchange with each service, the random
    draws of the shuffle and `net.ParseIP` are inputs. */
module IpFetcher {
  import opened Common
  import opened Strings
  import Providers

  // ---------------------------------------------------------------------
  // Address family check

  /** What `net.ParseIP` reveals about a string: `None` when it does not
      parse, otherwise whether the address has a 4-byte form
      (`To4() != nil`). */
  datatype ParsedIP = ParsedIP(hasFourByteForm: bool)

  type Parser = string -> Option<ParsedIP>

  /** `isValidIP`: the string parses, and it has a 4-byte form exactly when
      IPv4 is asked for. */
  function IsValidIP(parse: Parser, ip: string, isIPv6: bool): (valid: bool)
  {
    match parse(ip)
    case None => false
    case Some(p) => if isIPv6 then !p.hasFourByteForm else p.hasFourByteForm
  }

  /** The family check is strict: a parsable address is valid for exactly
      one family, and an unparsable one for neither. */
  lemma FamiliesAreExclusive(parse: Parser, ip: string)
    ensures !(IsValidIP(parse, ip, false) && IsValidIP(parse, ip, true))
    ensures parse(ip).Some? <==> (IsValidIP(parse, ip, false) || IsValidIP(parse, ip, true))
    ensures IsValidIP(parse, ip, false) <==> parse(ip).Some? && parse(ip).value.hasFourByteForm
    ensures IsValidIP(parse, ip, true) <==> parse(ip).Some? && !parse(ip).value.hasFourByteForm
  {
  }

  // ---------------------------------------------------------------------
  // Service lists

  const IPv4Services: seq<string> := [
    "https://api.ipify.org?format=text",
    "https://ifconfig.co",
    "https://checkip.amazonaws.com",
    "https://myexternalip.com/raw"
  ]

  /** The IPv6 services as the program lists them; the second one lacks a
      URL scheme. */
  const IPv6Services: seq<string> := [
    "https://v6.ident.me",
    "ipv6.icanhazip.com",
    "https://api6.ipify.org"
  ]

  /** The IPv6 services with the missing scheme supplied. */
  const IPv6ServicesFixed: seq<string> := [
    "https://v6.ident.me",
    "https://ipv6.icanhazip.com",
    "https://api6.ipify.org"
  ]

  const IPv4Failure: string := "could not fetch a valid external IPv4 address from any service"
  const IPv6Failure: string := "could not fetch a valid external IPv6 address from any service"

  // ---------------------------------------------------------------------
  // Shuffle

  function Swap(s: seq<string>, i: nat, j: nat): (r: seq<string>)
    requires i < |s| && j < |s|
    ensures |r| == |s| && multiset(r) == multiset(s)
    ensures r[i] == s[j] && r[j] == s[i]
    ensures forall k :: 0 <= k < |s| && k != i && k != j ==> r[k] == s[k]
  {
    s[i := s[j]][j := s[i]]
  }

  /** The steps of `rand.Shuffle` from position `i` down to 1: position `i`
      is swapped with a position drawn from `0..i`. Each draw is the next
      random number of `draws` (0 once they run out), reduced modulo `i + 1`. */
  function ShuffleFrom(s: seq<string>, draws: seq<nat>, i: int): (r: seq<string>)
    requires i < |s|
    ensures |r| == |s| && multiset(r) == multiset(s)
    decreases i
  {
    if i <= 0 then s
    else
      var d := if |draws| > 0 then draws[0] else 0;
      var rest := if |draws| > 0 then draws[1..] else [];
      ShuffleFrom(Swap(s, i, d % (i + 1)), rest, i - 1)
  }

  /** `shuffleServices`: a permutation of the services chosen by the
      random draws. */
  function ShuffleServices(services: seq<string>, draws: seq<nat>): (r: seq<string>)
    ensures |r| == |services| && multiset(r) == multiset(services)
  {
    ShuffleFrom(services, draws, |services| - 1)
  }

  /** Every shuffled service is one of the listed services, and conversely. */
  lemma ShuffleKeepsServices(services: seq<string>, draws: seq<nat>)
    ensures forall k :: 0 <= k < |services| ==> ShuffleServices(services, draws)[k] in services
    ensures forall u :: u in services ==> u in ShuffleServices(services, draws)
  {
    var r := ShuffleServices(services, draws);
    forall k | 0 <= k < |r| ensures r[k] in services {
      assert r[k] in multiset(r);
    }
    forall u | u in services ensures u in r {
      assert u in multiset(services);
    }
  }

  // ---------------------------------------------------------------------
  // Fetching

  /** The outcome of `http.Get` for one service: a transport error, or a
      status code with the body as read (and the read error, if any). */
  datatype Answer =
    | GetFailed(message: string)
    | Answered(status: int, body: string, read: Providers.ReadError)

  const StatusOK: int := 200

  /** Go's HTTP client only speaks http and https; any other URL, including
      one with no scheme at all, fails before anything is sent. The test
      here is a case-sensitive prefix and does not reject an empty host,
      both of which Go's client does; the URLs that reach `Get` are the
      fixed service lists, all lower-case with a host, so neither
      difference shows. */
  predicate HasHttpScheme(url: string) {
    HasPrefix(url, "http://") || HasPrefix(url, "https://")
  }

  function Get(url: string, net: string -> Answer): (a: Answer)
    ensures HasHttpScheme(url) ==> a == net(url)
    ensures !HasHttpScheme(url) ==> a.GetFailed?
  {
    if HasHttpScheme(url) then net(url) else GetFailed("unsupported protocol scheme")
  }

  /** The service answered 200 with a fully read body whose trimmed text is
      a valid address of the family. */
  predicate Yields(parse: Parser, a: Answer, isIPv6: bool) {
    a.Answered? && a.status == StatusOK && a.read.ReadOk?
    && IsValidIP(parse, TrimSpace(a.body), isIPv6)
  }

  /** The service answered 200 but its body could not be read. */
  predicate Aborts(a: Answer) {
    a.Answered? && a.status == StatusOK && a.read.ReadFailed?
  }

  /** What one service's answer tells the loop. */
  datatype Reading =
    | Address(ip: string)
    | ReadAborted(message: string)
    | Passed

  /** The body of one iteration of the service loop. */
  function Read(parse: Parser, a: Answer, isIPv6: bool): (r: Reading)
    ensures r.Address? <==> Yields(parse, a, isIPv6)
    ensures r.ReadAborted? <==> Aborts(a)
    ensures r.Address? ==> r.ip == TrimSpace(a.body) && IsValidIP(parse, r.ip, isIPv6) && TrimSpace(r.ip) == r.ip
    ensures r.ReadAborted? ==> r.message == a.read.message
  {
    match a
    case GetFailed(_) => Passed
    case Answered(status, body, read) =>
      if status != StatusOK then Passed
      else
        match read
        case ReadFailed(e) => ReadAborted(e)
        case ReadOk =>
          var ip := TrimSpace(body);
          if IsValidIP(parse, ip, isIPv6) then
            TrimSpaceIdempotent(body);
            Address(ip)
          else Passed
  }

  /** The readings of a sequence of answers, one by one. */
  function Readings(parse: Parser, answers: seq<Answer>, isIPv6: bool): (rs: seq<Reading>)
    ensures |rs| == |answers|
    ensures forall k :: 0 <= k < |answers| ==> rs[k] == Read(parse, answers[k], isIPv6)
  {
    seq(|answers|, k requires 0 <= k < |answers| => Read(parse, answers[k], isIPv6))
  }

  /** The result of one resolution and how many services were asked. */
  datatype Fetch = Fetch(result: Result<string>, asked: nat)

  /** The loop of `GetExternalIP`/`GetExternalIPv6` over the readings of
      the services' answers, in the order they are asked, from the one at
      `from` on; `asked` counts the services asked from the start. */
  function FirstValidFrom(readings: seq<Reading>, failure: string, from: nat): (f: Fetch)
    requires from <= |readings|
    ensures from <= f.asked <= |readings|
    ensures forall k :: from <= k < f.asked - 1 ==> readings[k].Passed?
    ensures f.result.Ok? ==> f.asked > from && readings[f.asked - 1] == Address(f.result.value)
    ensures f.result.Err? ==>
      || (f.asked == |readings| && f.result.error == failure
          && forall k :: from <= k < |readings| ==> readings[k].Passed?)
      || (f.asked > from && readings[f.asked - 1] == ReadAborted(f.result.error))
    decreases |readings| - from
  {
    if from == |readings| then Fetch(Err(failure), from)
    else
      match readings[from]
      case ReadAborted(e) => Fetch(Err(e), from + 1)
      case Address(ip) => Fetch(Ok(ip), from + 1)
      case Passed => FirstValidFrom(readings, failure, from + 1)
  }

  /** The answers of the services, asked in the given order. */
  function Ask(services: seq<string>, net: string -> Answer): (answers: seq<Answer>)
    ensures |answers| == |services|
    ensures forall k :: 0 <= k < |services| ==> answers[k] == Get(services[k], net)
  {
    seq(|services|, k requires 0 <= k < |services| => Get(services[k], net))
  }

  /** The resolution over the answers of the services, in the order they
      were asked: the first usable answer wins. */
  function Resolve(parse: Parser, answers: seq<Answer>, isIPv6: bool, failure: string): (f: Fetch)
    ensures f.asked <= |answers|
    ensures f.result.Ok? ==>
      && f.asked > 0
      && Yields(parse, answers[f.asked - 1], isIPv6)
      && f.result.value == TrimSpace(answers[f.asked - 1].body)
      && IsValidIP(parse, f.result.value, isIPv6)
      && TrimSpace(f.result.value) == f.result.value
  {
    var readings := Readings(parse, answers, isIPv6);
    var f := FirstValidFrom(readings, failure, 0);
    if f.result.Ok? then
      assert readings[f.asked - 1] == Read(parse, answers[f.asked - 1], isIPv6);
      f
    else f
  }

  /** `GetExternalIP`: at most the four services are asked, each at most
      once; an address it returns is a trimmed, valid IPv4 address. */
  function GetExternalIP(parse: Parser, draws: seq<nat>, net: string -> Answer): (f: Fetch)
    ensures f.asked <= |IPv4Services|
    ensures f.result.Ok? ==> IsValidIP(parse, f.result.value, false) && TrimSpace(f.result.value) == f.result.value
  {
    Resolve(parse, Ask(ShuffleServices(IPv4Services, draws), net), false, IPv4Failure)
  }

  /** `GetExternalIPv6`, with the service list as written: an address it
      returns is a trimmed, valid IPv6 address. */
  function GetExternalIPv6(parse: Parser, draws: seq<nat>, net: string -> Answer): (f: Fetch)
    ensures f.asked <= |IPv6Services|
    ensures f.result.Ok? ==> IsValidIP(parse, f.result.value, true) && TrimSpace(f.result.value) == f.result.value
  {
    Resolve(parse, Ask(ShuffleServices(IPv6Services, draws), net), true, IPv6Failure)
  }

  /** `GetExternalIPv6` with every service reachable. */
  function GetExternalIPv6Fixed(parse: Parser, draws: seq<nat>, net: string -> Answer): (f: Fetch)
    ensures f.asked <= |IPv6ServicesFixed|
    ensures f.result.Ok? ==> IsValidIP(parse, f.result.value, true) && TrimSpace(f.result.value) == f.result.value
  {
    Resolve(parse, Ask(ShuffleServices(IPv6ServicesFixed, draws), net), true, IPv6Failure)
  }

  /** When no service can be reached the resolution fails with the
      family's message, after asking every service. */
  lemma AllUnreachableFails(parse: Parser, answers: seq<Answer>, isIPv6: bool, failure: string)
    requires forall k :: 0 <= k < |answers| ==> answers[k].GetFailed?
    ensures Resolve(parse, answers, isIPv6, failure) == Fetch(Err(failure), |answers|)
  {
    var readings := Readings(parse, answers, isIPv6);
    assert forall k :: 0 <= k < |readings| ==> readings[k] == Passed;
  }

  /** The address of the first service that yields one is the result, and
      the services up to it are all that were asked. */
  lemma FirstYieldWins(readings: seq<Reading>, failure: string, from: nat, k: nat)
    requires from <= k < |readings| && readings[k].Address?
    requires forall j :: from <= j < k ==> readings[j].Passed?
    ensures FirstValidFrom(readings, failure, from) == Fetch(Ok(readings[k].ip), k + 1)
  {
  }

  /** Every reading from `from` on is either a pass or the address `ip`. */
  predicate OnlyAddress(readings: seq<Reading>, from: nat, ip: string) {
    forall j :: from <= j < |readings| ==> readings[j] == Passed || readings[j] == Address(ip)
  }

  /** When every service that gives an address gives the same one, and
      some service (the one at `k`) does, that address is the result. */
  lemma SomeYieldWins(readings: seq<Reading>, failure: string, from: nat, k: nat, ip: string)
    requires from <= k < |readings| && readings[k] == Address(ip)
    requires OnlyAddress(readings, from, ip)
    ensures FirstValidFrom(readings, failure, from).result == Ok(ip)
  {
  }

  /** No service after the first that yields is asked: whatever the later
      ones would have answered, the result is the same. */
  lemma LaterAnswersIrrelevant(readings: seq<Reading>, failure: string, k: nat, later: seq<Reading>)
    requires k < |readings| && readings[k].Address?
    requires forall j :: 0 <= j < k ==> readings[j].Passed?
    ensures FirstValidFrom(readings[..k + 1] + later, failure, 0) == FirstValidFrom(readings, failure, 0)
  {
    var cut := readings[..k + 1] + later;
    assert forall j :: 0 <= j <= k ==> cut[j] == readings[j];
    FirstYieldWins(readings, failure, 0, k);
    FirstYieldWins(cut, failure, 0, k);
  }

  // ---------------------------------------------------------------------
  // The unreachable IPv6 service

  /** As written, "ipv6.icanhazip.com" is never reached: every request to
      it fails, whatever the network would answer. */
  lemma UnschemedServiceNeverAnswers(net: string -> Answer)
    ensures Get(IPv6Services[1], net).GetFailed?
    ensures !HasHttpScheme(IPv6Services[1])
  {
    assert IPv6Services[1][..7] != "http://" by {
      assert IPv6Services[1][0] == 'i';
    }
    assert IPv6Services[1][..8] != "https://" by {
      assert IPv6Services[1][0] == 'i';
    }
  }

  /** Every service of the fixed list reaches the network. */
  lemma FixedServicesAllReachable(net: string -> Answer)
    ensures forall k :: 0 <= k < |IPv6ServicesFixed| ==> Get(IPv6ServicesFixed[k], net) == net(IPv6ServicesFixed[k])
  {
    assert HasPrefix(IPv6ServicesFixed[0], "https://");
    assert HasPrefix(IPv6ServicesFixed[1], "https://");
    assert HasPrefix(IPv6ServicesFixed[2], "https://");
  }

  const IcanhazipAddress: string := "2001:db8::1"

  /** A network on which only the icanhazip service, under the URL the
      program lists, answers, with a valid address. */
  function OnlyIcanhazip(url: string): Answer {
    if url == "ipv6.icanhazip.com"
    then Answered(StatusOK, IcanhazipAddress, Providers.ReadOk)
    else GetFailed("connection refused")
  }

  function AnyAddressIsIPv6(s: string): Option<ParsedIP> {
    Some(ParsedIP(false))
  }

  /** With only icanhazip answering, the resolver as written fails for
      every shuffle. */
  lemma IcanhazipUnreachableAsWritten(draws: seq<nat>)
    ensures GetExternalIPv6(AnyAddressIsIPv6, draws, OnlyIcanhazip).result.Err?
  {
    var svc := ShuffleServices(IPv6Services, draws);
    ShuffleKeepsServices(IPv6Services, draws);
    OnlyIcanhazipRefusesTheList();
    var answers := Ask(svc, OnlyIcanhazip);
    forall k | 0 <= k < |answers| ensures answers[k].GetFailed? {
      assert svc[k] in IPv6Services;
    }
    AllUnreachableFails(AnyAddressIsIPv6, answers, true, IPv6Failure);
  }

  /** Under that network every request the listed IPv6 services receive
      fails. */
  lemma OnlyIcanhazipRefusesTheList()
    ensures forall u :: u in IPv6Services ==> Get(u, OnlyIcanhazip).GetFailed?
  {
    UnschemedServiceNeverAnswers(OnlyIcanhazip);
    assert IPv6Services[0] != "ipv6.icanhazip.com" by {
      assert IPv6Services[0][0] == 'h';
    }
    assert IPv6Services[2] != "ipv6.icanhazip.com" by {
      assert IPv6Services[2][0] == 'h';
    }
  }

  /** The same network with the icanhazip service under its schemed URL. */
  function OnlyIcanhazipFixed(url: string): Answer {
    if url == IPv6ServicesFixed[1]
    then Answered(StatusOK, IcanhazipAddress, Providers.ReadOk)
    else GetFailed("connection refused")
  }

  /** Under that network only the icanhazip service's answer reads as an
      address. */
  lemma OnlyIcanhazipFixedReads(u: string)
    ensures u == IPv6ServicesFixed[1] ==> Read(AnyAddressIsIPv6, OnlyIcanhazipFixed(u), true) == Address(IcanhazipAddress)
    ensures u != IPv6ServicesFixed[1] ==> Read(AnyAddressIsIPv6, OnlyIcanhazipFixed(u), true) == Passed
  {
    AddressIsTrimmed();
    if u == IPv6ServicesFixed[1] {
      assert OnlyIcanhazipFixed(u) == Answered(StatusOK, IcanhazipAddress, Providers.ReadOk);
      assert IsValidIP(AnyAddressIsIPv6, IcanhazipAddress, true);
    }
  }

  lemma AddressIsTrimmed()
    ensures TrimSpace(IcanhazipAddress) == IcanhazipAddress
  {
    var a := IcanhazipAddress;
    assert a[0] == '2' && a[|a| - 1] == '1';
    TrimSpaceFixesTrimmed(a);
  }

  /** The readings the resolver sees under that network with the fixed
      list, in the order the shuffle chose. */
  function FixedReadings(draws: seq<nat>): seq<Reading> {
    Readings(AnyAddressIsIPv6, Ask(ShuffleServices(IPv6ServicesFixed, draws), OnlyIcanhazipFixed), true)
  }

  /** Each of them is a pass or the icanhazip address. */
  lemma FixedReadingsOnlyIcanhazip(draws: seq<nat>)
    ensures OnlyAddress(FixedReadings(draws), 0, IcanhazipAddress)
  {
    var svc := ShuffleServices(IPv6ServicesFixed, draws);
    ShuffleKeepsServices(IPv6ServicesFixed, draws);
    FixedServicesAllReachable(OnlyIcanhazipFixed);
    var answers := Ask(svc, OnlyIcanhazipFixed);
    var readings := FixedReadings(draws);
    forall j | 0 <= j < |readings| ensures readings[j] == Passed || readings[j] == Address(IcanhazipAddress) {
      assert svc[j] in IPv6ServicesFixed;
      assert answers[j] == OnlyIcanhazipFixed(svc[j]);
      assert readings[j] == Read(AnyAddressIsIPv6, answers[j], true);
      OnlyIcanhazipFixedReads(svc[j]);
    }
  }

  /** Somewhere among them is the icanhazip address. */
  lemma FixedReadingsReachIcanhazip(draws: seq<nat>) returns (k: nat)
    ensures k < |FixedReadings(draws)| && FixedReadings(draws)[k] == Address(IcanhazipAddress)
  {
    var svc := ShuffleServices(IPv6ServicesFixed, draws);
    ShuffleKeepsServices(IPv6ServicesFixed, draws);
    FixedServicesAllReachable(OnlyIcanhazipFixed);
    var answers := Ask(svc, OnlyIcanhazipFixed);
    var readings := FixedReadings(draws);
    assert IPv6ServicesFixed[1] in svc;
    k :| 0 <= k < |svc| && svc[k] == IPv6ServicesFixed[1];
    assert answers[k] == OnlyIcanhazipFixed(svc[k]);
    assert readings[k] == Read(AnyAddressIsIPv6, answers[k], true);
    OnlyIcanhazipFixedReads(svc[k]);
  }

  /** With the fixed list the icanhazip service is reached, whatever place
      the shuffle gives it, and its address is the result. */
  lemma IcanhazipReachableWhenFixed(draws: seq<nat>)
    ensures GetExternalIPv6Fixed(AnyAddressIsIPv6, draws, OnlyIcanhazipFixed).result == Ok(IcanhazipAddress)
  {
    FixedReadingsOnlyIcanhazip(draws);
    var k := FixedReadingsReachIcanhazip(draws);
    SomeYieldWins(FixedReadings(draws), IPv6Failure, 0, k, IcanhazipAddress);
  }

  /** With the fixed list every service asked, in whatever order the
      shuffle chose, receives the request: the answers the resolver sees
      are exactly the network's answers. */
  lemma FixedListReachesNetwork(draws: seq<nat>, net: string -> Answer)
    ensures var svc := ShuffleServices(IPv6ServicesFixed, draws);
            forall k :: 0 <= k < |svc| ==> Ask(svc, net)[k] == net(svc[k])
  {
    var svc := ShuffleServices(IPv6ServicesFixed, draws);
    ShuffleKeepsServices(IPv6ServicesFixed, draws);
    FixedServicesAllReachable(net);
    forall k | 0 <= k < |svc| ensures Ask(svc, net)[k] == net(svc[k]) {
      assert svc[k] in IPv6ServicesFixed;
    }
  }
}
