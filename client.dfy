/**
 * The AMT client: the decision `post` takes on a response, the specification of
 * every operation as a function of the network's state, and the Client class
 * whose methods run the operations against a Net.
 */
module AmtClient {
  import opened Outcomes
  import opened Endpoint
  import opened Extract
  import opened Wsman
  import opened Network
  import opened Reachability

  /** CIM schema URIs: the namespaces responses are searched under. */
  const SchemaBase: string := "http://schemas.dmtf.org/wbem/wscim/1/cim-schema/2/"
  const CimAssociatedPowerManagementService: string := SchemaBase + "CIM_AssociatedPowerManagementService"
  const CimPowerManagementService: string := SchemaBase + "CIM_PowerManagementService"

  /** Default reachability budget of every request, in seconds. */
  const AwakenTimeoutSec: int := 16

  /** What `post` returns: 0, 1, or nothing at all (Python's None). */
  datatype PostValue = Zero | One | NoValue

  /** One request the client put on the wire, with the namespace `post` validated it against. */
  datatype Request = Request(payload: Payload, ns: Option<string>)

  /** Python truthiness of the optional namespace argument. */
  predicate Truthy(ns: Option<string>) {
    ns.Some? && ns.value != ""
  }

  /** The diagnostic pretty-printer re-parses the body; it fails on a body that is not XML. */
  function PrettyPrint(body: Body): (r: Result<()>)
    ensures r.Ok? <==> body.Xml?
  {
    if body.Xml? then Ok(()) else Err(NotXml)
  }

  /**
   * The decision `post` takes on a response: 1 for a status other than 200, 0 for a
   * 200 without a namespace to check, and for a 200 with one, 0 when the ReturnValue
   * under it is 0 and no value at all when it is any other integer.
   */
  function Decide(status: int, ns: Option<string>, body: Body): (r: Result<PostValue>)
    ensures r == Ok(One) <==> status != 200 && body.Xml?
    ensures status != 200 && body.Unparseable? ==> r == Err(NotXml)
    ensures status == 200 && !Truthy(ns) ==> r == Ok(Zero)
    ensures status == 200 && Truthy(ns) ==> (r == Ok(Zero) <==> ReturnValue(body, ns.value) == Ok(0))
    ensures status == 200 && Truthy(ns) ==>
      (r == Ok(NoValue) <==> ReturnValue(body, ns.value).Ok? && ReturnValue(body, ns.value).value != 0)
    ensures status == 200 && Truthy(ns) && ReturnValue(body, ns.value).Err? ==>
      r == Err(ReturnValue(body, ns.value).error)
  {
    if status == 200 then
      if Truthy(ns) then
        match ReturnValue(body, ns.value)
        case Err(e) => Err(e)
        case Ok(rv) =>
          if rv == 0 then Ok(Zero)
          else
            match PrettyPrint(body)
            case Err(e) => Err(e)
            case Ok(_) => Ok(NoValue)
      else Ok(Zero)
    else
      match PrettyPrint(body)
      case Err(e) => Err(e)
      case Ok(_) => Ok(One)
  }

  /** An outcome of a step against the network: result, new network state, whether a POST went out. */
  datatype Sent<T> = Sent(result: Result<T>, state: NetState, posted: bool)

  /** The reachability probe with the default budget, then exactly one POST if it succeeded. */
  function ExchangeRun(connects: nat -> Attempt, replies: (nat, Payload) -> Reply, s: NetState, payload: Payload): Sent<Reply>
  {
    var a := AwakenRun(connects, s.now, s.tries, s.now + AwakenTimeoutSec * 1000);
    if a.result.Err? then Sent(Err(a.result.error), NetState(a.now, a.tries, s.posts), false)
    else Sent(Ok(replies(s.posts, payload)), NetState(a.now, a.tries, s.posts + 1), true)
  }

  /** Specification of `post(payload, ns)`. */
  function PostRun(connects: nat -> Attempt, replies: (nat, Payload) -> Reply, s: NetState,
                   payload: Payload, ns: Option<string>): Sent<PostValue>
  {
    var x := ExchangeRun(connects, replies, s, payload);
    match x.result
    case Err(e) => Sent(Err(e), x.state, x.posted)
    case Ok(Broken) => Sent(Err(TransportError), x.state, x.posted)
    case Ok(Answered(status, body)) => Sent(Decide(status, ns, body), x.state, x.posted)
  }

  /** Specification of `power_status()`: the PowerState text, whatever the HTTP status. */
  function PowerStatusRun(connects: nat -> Attempt, replies: (nat, Payload) -> Reply, s: NetState,
                          uri: string): Sent<Option<string>>
  {
    var x := ExchangeRun(connects, replies, s, GetRequest(uri, CimAssociatedPowerManagementService));
    match x.result
    case Err(e) => Sent(Err(e), x.state, x.posted)
    case Ok(Broken) => Sent(Err(TransportError), x.state, x.posted)
    case Ok(Answered(_, body)) =>
      Sent(FindValue(body, CimAssociatedPowerManagementService, "PowerState"), x.state, x.posted)
  }

  /** Outcome of two posts in a row: result, new network state, number of requests that went out. */
  datatype Pair = Pair(result: Result<()>, state: NetState, sent: nat)

  /**
   * Specification of two unvalidated posts in a row, their return values ignored:
   * the second is made whenever the first returns, and an exception from either
   * ends the operation.
   */
  function TwoPostsRun(connects: nat -> Attempt, replies: (nat, Payload) -> Reply, s: NetState,
                       first: Payload, second: Payload): Pair
  {
    var x := PostRun(connects, replies, s, first, None);
    if x.result.Err? then Pair(Err(x.result.error), x.state, if x.posted then 1 else 0)
    else
      var y := PostRun(connects, replies, x.state, second, None);
      Pair(if y.result.Err? then Err(y.result.error) else Ok(()), y.state, if y.posted then 2 else 1)
  }

  /**
   * The RFB (VNC) password: the supplied one if it has exactly 8 characters,
   * otherwise the first (up to) 8 characters of the account password.
   */
  function RfbPassword(supplied: Option<string>, stored: string): (p: string)
    ensures supplied.Some? && |supplied.value| == 8 ==> p == supplied.value
    ensures !(supplied.Some? && |supplied.value| == 8) ==>
      |p| == (if |stored| < 8 then |stored| else 8) && p == stored[..|p|]
    ensures |p| == 8 <==> (supplied.Some? && |supplied.value| == 8) || |stored| >= 8
  {
    if supplied.None? || supplied.value == "" || |supplied.value| != 8 then
      stored[..if |stored| < 8 then |stored| else 8]
    else supplied.value
  }

  /** The attributes `__init__` gives a client object. */
  const InitAttributes: set<string> := {"uri", "username", "password"}

  /**
   * `_awaken_amt` as written: inside the loop it reads `self.address` and `self.port`,
   * which `__init__` never sets, so the first iteration raises AttributeError.
   */
  function AwakenAsWritten(attributes: set<string>, connects: nat -> Attempt, now: int, tries: nat, deadline: int): (r: Awakening)
    ensures now >= deadline ==> r.result == Err(AmtTimeout)
    ensures now < deadline && "address" !in attributes ==> r == Awakening(Err(MissingAttribute("address")), now, tries)
  {
    if now >= deadline then Awakening(Err(AmtTimeout), now, tries)
    else if "address" !in attributes then Awakening(Err(MissingAttribute("address")), now, tries)
    else if "port" !in attributes then Awakening(Err(MissingAttribute("port")), now, tries)
    else AwakenRun(connects, now, tries, deadline)
  }

  /** As written, every probe with a positive budget fails before any connect attempt. */
  lemma AwakenAsWrittenNeverConnects(connects: nat -> Attempt, now: int, tries: nat, timeoutSec: int)
    requires timeoutSec > 0
    ensures AwakenAsWritten(InitAttributes, connects, now, tries, now + timeoutSec * 1000) ==
            Awakening(Err(MissingAttribute("address")), now, tries)
  {
  }

  /** Every post first probes reachability (at least one connect) and then makes exactly one POST, or none. */
  lemma PostProbesThenPostsOnce(connects: nat -> Attempt, replies: (nat, Payload) -> Reply, s: NetState,
                                payload: Payload, ns: Option<string>)
    ensures var x := PostRun(connects, replies, s, payload, ns);
      var a := AwakenRun(connects, s.now, s.tries, s.now + AwakenTimeoutSec * 1000);
      && (x.posted <==> a.result.Ok?)
      && x.state == NetState(a.now, a.tries, if x.posted then s.posts + 1 else s.posts)
      && x.state.tries > s.tries
      && (!x.posted ==> x.result == Err(a.result.error) &&
                        (a.result.error == AmtTimeout || a.result.error.SocketError?))
  {
    AwakenOutcomes(connects, s.now, s.tries, s.now + AwakenTimeoutSec * 1000);
  }

  /**
   * A power change (power_on, power_off, power_cycle) returns 0 exactly when the
   * device answers 200 with ReturnValue 0 under the power-management namespace, 1
   * exactly when it answers another status with an XML body, and no value exactly
   * when it answers 200 with another integer ReturnValue.
   */
  lemma PowerChangeVerdicts(connects: nat -> Attempt, replies: (nat, Payload) -> Reply, s: NetState,
                            uri: string, token: string)
    ensures var p := PowerStateRequest(uri, token);
      var x := PostRun(connects, replies, s, p, Some(CimPowerManagementService));
      var awake := AwakenRun(connects, s.now, s.tries, s.now + AwakenTimeoutSec * 1000).result.Ok?;
      var reply := replies(s.posts, p);
      && (x.result == Ok(Zero) <==>
            awake && reply.Answered? && reply.status == 200 &&
            ReturnValue(reply.body, CimPowerManagementService) == Ok(0))
      && (x.result == Ok(One) <==> awake && reply.Answered? && reply.status != 200 && reply.body.Xml?)
      && (x.result == Ok(NoValue) <==>
            awake && reply.Answered? && reply.status == 200 &&
            ReturnValue(reply.body, CimPowerManagementService).Ok? &&
            ReturnValue(reply.body, CimPowerManagementService).value != 0)
  {
  }

  /** Without a namespace, post never parses a 200 response and never returns the no-value outcome. */
  lemma UnvalidatedPostVerdicts(connects: nat -> Attempt, replies: (nat, Payload) -> Reply, s: NetState,
                                payload: Payload)
    ensures var x := PostRun(connects, replies, s, payload, None);
      var reply := replies(s.posts, payload);
      && x.result != Ok(NoValue)
      && (x.posted && reply.Answered? && reply.status == 200 ==> x.result == Ok(Zero))
  {
  }

  /**
   * Two posts in a row: the second goes out whenever the first returns, whatever it
   * returned; the operation returns normally only if neither post raised.
   */
  lemma TwoPostsSecondFollowsFirst(connects: nat -> Attempt, replies: (nat, Payload) -> Reply,
                                                      s: NetState, first: Payload, second: Payload)
    ensures var t := TwoPostsRun(connects, replies, s, first, second);
      var x := PostRun(connects, replies, s, first, None);
      && (x.result.Ok? ==> t.sent >= 1 && (t.sent == 2 <==> PostRun(connects, replies, x.state, second, None).posted))
      && (x.result.Err? ==> t.result == Err(x.result.error) && t.sent <= 1)
      && (t.result.Ok? <==> x.result.Ok? && PostRun(connects, replies, x.state, second, None).result.Ok?)
      && t.state.posts == s.posts + t.sent
  {
  }

  /**
   * The first request of a two-step operation failing with status 500 does not stop
   * the second: both go out, and a 200 for the second makes the operation return.
   */
  lemma SecondRequestDespiteFirstFailure(connects: nat -> Attempt, replies: (nat, Payload) -> Reply,
                                         s: NetState, first: Payload, second: Payload, root: Element)
    requires AwakenRun(connects, s.now, s.tries, s.now + AwakenTimeoutSec * 1000).result.Ok?
    requires replies(s.posts, first) == Answered(500, Xml(root))
    requires var a := AwakenRun(connects, s.now, s.tries, s.now + AwakenTimeoutSec * 1000);
      AwakenRun(connects, a.now, a.tries, a.now + AwakenTimeoutSec * 1000).result.Ok?
    requires replies(s.posts + 1, second).Answered? && replies(s.posts + 1, second).status == 200
    ensures PostRun(connects, replies, s, first, None).result == Ok(One)
    ensures TwoPostsRun(connects, replies, s, first, second).sent == 2
    ensures TwoPostsRun(connects, replies, s, first, second).result == Ok(())
  {
  }

  /** power_status reads the same value whatever status code accompanies the body. */
  lemma PowerStatusIgnoresStatus(connects: nat -> Attempt, replies: (nat, Payload) -> Reply, s: NetState,
                                 uri: string, status: int, body: Body)
    requires replies(s.posts, GetRequest(uri, CimAssociatedPowerManagementService)) == Answered(status, body)
    requires AwakenRun(connects, s.now, s.tries, s.now + AwakenTimeoutSec * 1000).result.Ok?
    ensures PowerStatusRun(connects, replies, s, uri).result ==
            FindValue(body, CimAssociatedPowerManagementService, "PowerState")
  {
  }

  /** The RFB password in the documented cases. */
  lemma RfbPasswordExamples()
    ensures RfbPassword(None, "abcdefghij") == "abcdefgh"
    ensures RfbPassword(Some("abcd"), "abcdefghij") == "abcdefgh"
    ensures RfbPassword(Some(""), "secret") == "secret"
    ensures RfbPassword(Some("12345678"), "abcdefghij") == "12345678"
  {
  }

  class Client {
    const uri: string
    const username: string
    const password: string
    /** Host and port of the reachability probe (see AwakenAsWritten). */
    const address: string
    const port: nat
    /** Every request put on the wire, in order. */
    ghost var log: seq<Request>

    constructor Init(uri: string, address: string, port: nat, username: string, password: string)
      ensures this.uri == uri && this.address == address && this.port == port
      ensures this.username == username && this.password == password && log == []
    {
      this.uri := uri;
      this.address := address;
      this.port := port;
      this.username := username;
      this.password := password;
      log := [];
    }

    /** `Client(address, password, username='admin', protocol='http')`. */
    static method New(address: string, password: string, username: string := "admin", protocol: string := "http")
      returns (r: Result<Client>)
      ensures r.Ok? <==> protocol == "http" || protocol == "https"
      ensures r.Err? ==> r.error == UnknownProtocol
      ensures r.Ok? ==> fresh(r.value) && r.value.log == []
      ensures r.Ok? ==> r.value.uri == Uri(address, protocol).value && r.value.address == address
      ensures r.Ok? ==> r.value.port == PortMap[protocol]
      ensures r.Ok? ==> r.value.username == username && r.value.password == password
    {
      var port := PortOf(protocol);
      if port.Err? {
        return Err(port.error);
      }
      var uri := Uri(address, protocol);
      var c := new Client.Init(uri.value, address, port.value, username, password);
      return Ok(c);
    }

    /** `_awaken_amt(timeout)`, probing `host:port`. */
    method AwakenAmt(net: Net, host: string, port: nat, timeoutSec: int := AwakenTimeoutSec) returns (r: Result<()>)
      modifies net
      ensures Awakening(r, net.now, net.tries) ==
              AwakenRun(net.connects, old(net.now), old(net.tries), old(net.now) + timeoutSec * 1000)
      ensures net.posts == old(net.posts)
      ensures DialedOnly(old(net.dialed), net.dialed, host, port, timeoutSec)
    {
      var deadline := net.now + timeoutSec * 1000;
      ghost var start, tries0, dialed0 := net.now, net.tries, net.dialed;
      while net.now < deadline
        invariant AwakenRun(net.connects, net.now, net.tries, deadline) == AwakenRun(net.connects, start, tries0, deadline)
        invariant net.posts == old(net.posts)
        invariant DialedOnly(dialed0, net.dialed, host, port, timeoutSec)
        decreases deadline - net.now
      {
        var c := net.Connect(host, port, timeoutSec);
        match c
        case Connected =>
          return Ok(());
        case Failed(errno) =>
          if errno == ECONNREFUSED {
            net.Sleep(RetryMs);
          } else {
            return Err(SocketError(errno));
          }
      }
      return Err(AmtTimeout);
    }

    /** `post(payload, ns)`. */
    method Post(net: Net, payload: Payload, ns: Option<string> := None) returns (r: Result<PostValue>)
      modifies this, net
      ensures var x := PostRun(net.connects, net.replies, old(net.State()), payload, ns);
        r == x.result && net.State() == x.state &&
        log == old(log) + (if x.posted then [Request(payload, ns)] else [])
      ensures DialedOnly(old(net.dialed), net.dialed, address, port, AwakenTimeoutSec)
    {
      var awake := AwakenAmt(net, address, port);
      if awake.Err? {
        return Err(awake.error);
      }
      var reply := net.Post(uri, payload);
      log := log + [Request(payload, ns)];
      match reply
      case Broken =>
        r := Err(TransportError);
      case Answered(status, body) =>
        r := Decide(status, ns, body);
    }

    method PowerOn(net: Net) returns (r: Result<PostValue>)
      modifies this, net
      ensures var p := PowerStateRequest(uri, "on");
        var x := PostRun(net.connects, net.replies, old(net.State()), p, Some(CimPowerManagementService));
        r == x.result && net.State() == x.state &&
        log == old(log) + (if x.posted then [Request(p, Some(CimPowerManagementService))] else [])
      ensures DialedOnly(old(net.dialed), net.dialed, address, port, AwakenTimeoutSec)
    {
      r := Post(net, PowerStateRequest(uri, "on"), Some(CimPowerManagementService));
    }

    method PowerOff(net: Net) returns (r: Result<PostValue>)
      modifies this, net
      ensures var p := PowerStateRequest(uri, "off");
        var x := PostRun(net.connects, net.replies, old(net.State()), p, Some(CimPowerManagementService));
        r == x.result && net.State() == x.state &&
        log == old(log) + (if x.posted then [Request(p, Some(CimPowerManagementService))] else [])
      ensures DialedOnly(old(net.dialed), net.dialed, address, port, AwakenTimeoutSec)
    {
      r := Post(net, PowerStateRequest(uri, "off"), Some(CimPowerManagementService));
    }

    method PowerCycle(net: Net) returns (r: Result<PostValue>)
      modifies this, net
      ensures var p := PowerStateRequest(uri, "reboot");
        var x := PostRun(net.connects, net.replies, old(net.State()), p, Some(CimPowerManagementService));
        r == x.result && net.State() == x.state &&
        log == old(log) + (if x.posted then [Request(p, Some(CimPowerManagementService))] else [])
      ensures DialedOnly(old(net.dialed), net.dialed, address, port, AwakenTimeoutSec)
    {
      r := Post(net, PowerStateRequest(uri, "reboot"), Some(CimPowerManagementService));
    }

    /** `set_next_boot(boot_device)`: change the boot order, then enable the one-shot boot config. */
    method SetNextBoot(net: Net, device: string) returns (r: Result<()>)
      modifies this, net
      ensures var p1, p2 := ChangeBootOrderRequest(uri, device), EnableBootConfigRequest(uri);
        var t := TwoPostsRun(net.connects, net.replies, old(net.State()), p1, p2);
        r == t.result && net.State() == t.state &&
        log == old(log) + [Request(p1, None), Request(p2, None)][..t.sent]
      ensures DialedOnly(old(net.dialed), net.dialed, address, port, AwakenTimeoutSec)
    {
      var first := Post(net, ChangeBootOrderRequest(uri, device));
      if first.Err? {
        return Err(first.error);
      }
      var second := Post(net, EnableBootConfigRequest(uri));
      if second.Err? {
        return Err(second.error);
      }
      return Ok(());
    }

    /** `pxe_next_boot()`. */
    method PxeNextBoot(net: Net) returns (r: Result<()>)
      modifies this, net
      ensures var p1, p2 := ChangeBootOrderRequest(uri, "pxe"), EnableBootConfigRequest(uri);
        var t := TwoPostsRun(net.connects, net.replies, old(net.State()), p1, p2);
        r == t.result && net.State() == t.state &&
        log == old(log) + [Request(p1, None), Request(p2, None)][..t.sent]
      ensures DialedOnly(old(net.dialed), net.dialed, address, port, AwakenTimeoutSec)
    {
      r := SetNextBoot(net, "pxe");
    }

    /** `power_status()`: probe, POST the query, read PowerState regardless of the status code. */
    method PowerStatus(net: Net) returns (r: Result<Option<string>>)
      modifies this, net
      ensures var x := PowerStatusRun(net.connects, net.replies, old(net.State()), uri);
        r == x.result && net.State() == x.state &&
        log == old(log) + (if x.posted then [Request(GetRequest(uri, CimAssociatedPowerManagementService), None)] else [])
      ensures DialedOnly(old(net.dialed), net.dialed, address, port, AwakenTimeoutSec)
    {
      var payload := GetRequest(uri, CimAssociatedPowerManagementService);
      var awake := AwakenAmt(net, address, port);
      if awake.Err? {
        return Err(awake.error);
      }
      var reply := net.Post(uri, payload);
      log := log + [Request(payload, None)];
      match reply
      case Broken =>
        r := Err(TransportError);
      case Answered(_, body) =>
        r := FindValue(body, CimAssociatedPowerManagementService, "PowerState");
    }

    /** `enable_vnc(password)`: enable remote KVM with the RFB password, then KVM redirection. */
    method EnableVnc(net: Net, rfb: Option<string> := None) returns (r: Result<()>)
      modifies this, net
      ensures var p1, p2 := EnableRemoteKvm(uri, RfbPassword(rfb, password)), KvmRedirect(uri);
        var t := TwoPostsRun(net.connects, net.replies, old(net.State()), p1, p2);
        r == t.result && net.State() == t.state &&
        log == old(log) + [Request(p1, None), Request(p2, None)][..t.sent]
      ensures DialedOnly(old(net.dialed), net.dialed, address, port, AwakenTimeoutSec)
    {
      var chosen := RfbPassword(rfb, password);
      var first := Post(net, EnableRemoteKvm(uri, chosen));
      if first.Err? {
        return Err(first.error);
      }
      var second := Post(net, KvmRedirect(uri));
      if second.Err? {
        return Err(second.error);
      }
      return Ok(());
    }
  }
}
