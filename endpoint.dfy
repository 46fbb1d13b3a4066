/** The WS-Management endpoint of a client: protocol-to-port table and URI. */
module Endpoint {
  import opened Outcomes
  import opened Numerals

  /** Path of the WS-Management service on every AMT device. */
  const WsmanPath: string := "/wsman"

  /** The fixed AMT ports: plaintext HTTP and TLS. */
  const PortMap: map<string, nat> := map["http" := 16992, "https" := 16993]

  /** The port for a protocol name; any other name fails as the table lookup does. */
  function PortOf(protocol: string): (r: Result<nat>)
    ensures r.Ok? <==> protocol == "http" || protocol == "https"
    ensures r.Err? ==> r.error == UnknownProtocol
    ensures protocol == "http" ==> r == Ok(16992)
    ensures protocol == "https" ==> r == Ok(16993)
  {
    if protocol in PortMap then Ok(PortMap[protocol]) else Err(UnknownProtocol)
  }

  /** `protocol://address:port/wsman`, the port rendered in decimal. */
  function Uri(address: string, protocol: string): (r: Result<string>)
    ensures r.Ok? <==> protocol == "http" || protocol == "https"
    ensures r.Err? ==> r.error == UnknownProtocol
  {
    match PortOf(protocol)
    case Err(e) => Err(e)
    case Ok(port) => Ok(protocol + "://" + address + ":" + Decimal(port) + WsmanPath)
  }

  /** A plaintext client talks to port 16992, a TLS client to port 16993. */
  lemma KnownProtocolUris(address: string)
    ensures Uri(address, "http") == Ok("http://" + address + ":16992/wsman")
    ensures Uri(address, "https") == Ok("https://" + address + ":16993/wsman")
  {
    PortTexts();
    assert "http" + "://" + address + ":" + "16992" + WsmanPath == "http://" + address + ":16992/wsman";
    assert "https" + "://" + address + ":" + "16993" + WsmanPath == "https://" + address + ":16993/wsman";
  }

  /** The URI determines the protocol and the address it was built from. */
  lemma UriDeterminesEndpoint(a1: string, p1: string, a2: string, p2: string)
    requires Uri(a1, p1).Ok? && Uri(a1, p1) == Uri(a2, p2)
    ensures a1 == a2 && p1 == p2
  {
    PortTexts();
    var u := Uri(a1, p1).value;
    assert p1 == "http" ==> u[4] == ':';
    assert p1 == "https" ==> u[4] == 's';
    assert p2 == "http" ==> u[4] == ':';
    assert p2 == "https" ==> u[4] == 's';
    assert p1 == p2;
    var tail := ":" + Decimal(PortMap[p1]) + WsmanPath;
    assert u == (p1 + "://" + a1) + tail;
    assert u == (p1 + "://" + a2) + tail;
    assert |a1| == |a2|;
    var n := |p1| + 3;
    assert a1 == u[n..n + |a1|];
    assert a2 == u[n..n + |a2|];
  }
}
