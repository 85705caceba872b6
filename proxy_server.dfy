/**
  The proxy server description of the HTTP client (ProxyServer.java): the
  protocol enumeration with its labels, the ProxyServer object with its
  constructor overloads, accessors and in-place mutators, the conversion from a
  `java.net.Proxy` descriptor, and the `protocol://host:port` display form.
*/
module Client {
  import opened Wrappers
  import Seqs
  import Decimal

  /** A Java `int`. */
  type int32 = x: int | -0x8000_0000 <= x < 0x8000_0000

  // ---------------------------------------------------------------------------
  // Protocol
  // ---------------------------------------------------------------------------

  /** The protocols a proxy may speak, each with a fixed label. */
  datatype Protocol = HTTP | HTTPS | NTLM {

    /** The label returned by both `getProtocol()` and `toString()` of the enum. */
    function Label(): (r: string)
      ensures |r| > 0 && ':' !in r
    {
      match this
      case HTTP => "http"
      case HTTPS => "https"
      case NTLM => "NTLM"
    }
  }

  /** The protocol whose label is `name`, if any. */
  function ProtocolOf(name: string): Option<Protocol> {
    if name == "http" then Some(HTTP)
    else if name == "https" then Some(HTTPS)
    else if name == "NTLM" then Some(NTLM)
    else None
  }

  /** The labels identify the protocols: each label maps back to its protocol, and only labels do. */
  lemma LabelRoundTrip(p: Protocol, name: string)
    ensures ProtocolOf(p.Label()) == Some(p)
    ensures ProtocolOf(name) == Some(p) ==> name == p.Label()
  {
  }

  lemma LabelsAreDistinct(p: Protocol, q: Protocol)
    ensures p.Label() == q.Label() ==> p == q
  {
  }

  // ---------------------------------------------------------------------------
  // Display form: "<label>://<host>:<port>"
  // ---------------------------------------------------------------------------

  /** What the display form describes. */
  datatype Endpoint = Endpoint(protocol: Protocol, host: string, port: int32)

  /**
    Reads a display form back: the label runs up to the first ':', which must
    open "://"; the rest is read by `ParseHostPort`.
  */
  function ParseDisplay(s: string): Option<Endpoint> {
    var i := Seqs.IndexOf(s, ':');
    if i < 0 || i + 3 > |s| || s[i..i + 3] != "://" then None
    else match ProtocolOf(s[..i])
      case None => None
      case Some(p) => ParseHostPort(p, s[i + 3..])
  }

  /**
    Reads "<host>:<port>": the port is the decimal numeral after the last ':'
    and the host is everything before it (it may itself contain ':').
  */
  function ParseHostPort(p: Protocol, s: string): Option<Endpoint> {
    var j := Seqs.LastIndexOf(s, ':');
    if j < 0 then None
    else match Decimal.ParseInt(s[j + 1..])
      case None => None
      case Some(n) =>
        if -0x8000_0000 <= n < 0x8000_0000 then Some(Endpoint(p, s[..j], n)) else None
  }

  lemma HostPortRoundTrip(p: Protocol, host: string, port: int32)
    ensures ParseHostPort(p, host + ":" + Decimal.IntToDecimal(port)) == Some(Endpoint(p, host, port))
  {
    var digits := Decimal.IntToDecimal(port);
    var s := host + ":" + digits;
    assert s == host + [':'] + digits;
    Seqs.LastIndexOfBeforeSuffix(host, ':', digits);
    assert s[|host| + 1..] == digits;
    assert s[..|host|] == host;
  }

  lemma {:induction false} DisplayRoundTrip(p: Protocol, host: string, port: int32)
    ensures ParseDisplay(p.Label() + "://" + host + ":" + Decimal.IntToDecimal(port)) == Some(Endpoint(p, host, port))
  {
    var name, rest := p.Label(), host + ":" + Decimal.IntToDecimal(port);
    var s := name + "://" + rest;
    assert s == p.Label() + "://" + host + ":" + Decimal.IntToDecimal(port);
    assert s == name + [':'] + ("//" + rest);
    Seqs.IndexOfAfterPrefix(name, ':', "//" + rest);
    var i := |name|;
    assert s[i..i + 3] == "://";
    assert s[..i] == name;
    assert s[i + 3..] == rest;
    LabelRoundTrip(p, name);
    HostPortRoundTrip(p, host, port);
  }

  /** The text `toString()` gives for a proxy: `String.format("%s://%s:%d", protocol, host, port)`. */
  function Display(p: Protocol, host: string, port: int32): (r: string)
    ensures ParseDisplay(r) == Some(Endpoint(p, host, port))
  {
    DisplayRoundTrip(p, host, port);
    p.Label() + "://" + host + ":" + Decimal.IntToDecimal(port)
  }

  /** Distinct proxies never share a display form. */
  lemma DisplayInjective(a: Endpoint, b: Endpoint)
    ensures Display(a.protocol, a.host, a.port) == Display(b.protocol, b.host, b.port) ==> a == b
  {
  }

  // ---------------------------------------------------------------------------
  // List.remove(Object) on the non-proxy host list
  // ---------------------------------------------------------------------------

  /**
    `List.remove(Object)`: `s` without its first element equal to `x`; `s`
    itself when there is none. At most one element is removed.
  */
  function RemoveFirst<T(==)>(s: seq<T>, x: T): (r: seq<T>)
    ensures |s| - 1 <= |r| <= |s|
  {
    if s == [] then []
    else if s[0] == x then s[1..]
    else [s[0]] + RemoveFirst(s[1..], x)
  }

  /** Removal cuts out exactly the first occurrence and keeps the rest in order. */
  lemma {:induction false} RemoveFirstCutsFirstOccurrence<T>(s: seq<T>, x: T)
    ensures var i := Seqs.IndexOf(s, x);
            RemoveFirst(s, x) == if i < 0 then s else s[..i] + s[i + 1..]
  {
    if s != [] && s[0] != x {
      RemoveFirstCutsFirstOccurrence(s[1..], x);
      var i := Seqs.IndexOf(s[1..], x);
      if i >= 0 {
        assert s[..i + 1] == [s[0]] + s[1..][..i];
        assert s[i + 2..] == s[1..][i + 1..];
      }
    }
  }

  /** Removing an element that is absent changes nothing; otherwise the list is one shorter. */
  lemma {:induction false} RemoveFirstLength<T>(s: seq<T>, x: T)
    ensures x !in s ==> RemoveFirst(s, x) == s
    ensures x in s ==> |RemoveFirst(s, x)| == |s| - 1
  {
    RemoveFirstCutsFirstOccurrence(s, x);
    var i := Seqs.IndexOf(s, x);
    if x in s {
      var k :| 0 <= k < |s| && s[k] == x;
      assert i >= 0;
    }
  }

  /** Removal takes away one occurrence of `x` and nothing else. */
  lemma {:induction false} RemoveFirstMultiset<T>(s: seq<T>, x: T)
    ensures multiset(RemoveFirst(s, x)) == multiset(s) - multiset{x}
  {
    if s != [] {
      assert s == [s[0]] + s[1..];
      if s[0] != x {
        RemoveFirstMultiset(s[1..], x);
      }
    }
  }

  /** Appending then removing the same value: undone when it was absent, else the earlier copy goes. */
  lemma {:induction false} AddThenRemove<T>(s: seq<T>, x: T)
    ensures RemoveFirst(s + [x], x) == if x in s then RemoveFirst(s, x) + [x] else s
  {
    if s == [] {
      assert [] + [x] == [x];
    } else {
      assert (s + [x])[0] == s[0];
      assert (s + [x])[1..] == s[1..] + [x];
      if s[0] != x {
        AddThenRemove(s[1..], x);
        assert x in s <==> x in s[1..];
      }
    }
  }

  // ---------------------------------------------------------------------------
  // java.net.Proxy and the conversion from it
  // ---------------------------------------------------------------------------

  /** `java.net.Proxy.Type`. */
  datatype ProxyType = Direct | Http | Socks

  /**
    `java.net.SocketAddress`: an `InetSocketAddress` with its host name, the
    textual IP of its resolved address (None exactly when `isUnresolved()`)
    and its port; or any other kind of socket address.
  */
  datatype SocketAddress =
    | InetSocketAddress(hostName: string, hostAddress: Option<string>, port: int32)
    | OtherSocketAddress

  /** A `java.net.Proxy`: its type and its address. */
  datatype JavaProxy = JavaProxy(kind: ProxyType, address: SocketAddress)

  /** The two IllegalArgumentExceptions `fromProxy` throws. */
  datatype ConversionError = UnsupportedProxyType | UnsupportedAddressType

  /** What `fromProxy` decides: no proxy, an HTTP proxy at `host:port`, or an error. */
  datatype Conversion = NoProxy | ProxyAt(host: string, port: int32) | Rejected(error: ConversionError)

  /** The decision `fromProxy` takes; None stands for a null descriptor. */
  function ConvertProxy(proxy: Option<JavaProxy>): (r: Conversion)
    ensures r.NoProxy? <==> proxy.None? || proxy.value.kind.Direct?
    ensures r == Rejected(UnsupportedProxyType) <==> proxy.Some? && proxy.value.kind.Socks?
    ensures r == Rejected(UnsupportedAddressType) <==>
              proxy.Some? && proxy.value.kind.Http? && proxy.value.address.OtherSocketAddress?
    ensures r.ProxyAt? <==> proxy.Some? && proxy.value.kind.Http? && proxy.value.address.InetSocketAddress?
    ensures r.ProxyAt? ==> r.port == proxy.value.address.port
    ensures r.ProxyAt? && proxy.value.address.hostAddress.None? ==> r.host == proxy.value.address.hostName
    ensures r.ProxyAt? && proxy.value.address.hostAddress.Some? ==> r.host == proxy.value.address.hostAddress.value
  {
    if proxy.None? || proxy.value.kind == Direct then NoProxy
    else if proxy.value.kind != Http then Rejected(UnsupportedProxyType)
    else match proxy.value.address
      case OtherSocketAddress => Rejected(UnsupportedAddressType)
      case InetSocketAddress(hostName, hostAddress, port) =>
        match hostAddress
        case None => ProxyAt(hostName, port)
        case Some(ip) => ProxyAt(ip, port)
  }

  /** What the static `fromProxy` returns: null, a new ProxyServer, or a thrown error. */
  datatype FromProxyResult = NullServer | NewServer(server: ProxyServer) | Thrown(error: ConversionError)

  // ---------------------------------------------------------------------------
  // ProxyServer
  // ---------------------------------------------------------------------------

  class ProxyServer {
    const protocol: Protocol
    const host: string
    const principal: Option<string>
    const password: Option<string>
    var port: int32
    var encoding: string
    var ntlmDomain: Option<string>
    var nonProxyHosts: seq<string>

    /** The state of the mutable fields before any setter runs. */
    predicate HasInitialSettings()
      reads this
    {
      encoding == "UTF-8" && nonProxyHosts == [] && ntlmDomain == None
    }

    constructor (protocol: Protocol, host: string, port: int32, principal: Option<string>, password: Option<string>)
      ensures GetProtocol() == protocol && GetHost() == host && GetPort() == port
      ensures GetPrincipal() == principal && GetPassword() == password
      ensures HasInitialSettings()
    {
      this.protocol := protocol;
      this.host := host;
      this.port := port;
      this.principal := principal;
      this.password := password;
      this.encoding := "UTF-8";
      this.ntlmDomain := None;
      this.nonProxyHosts := [];
    }

    constructor HttpWithCredentials(host: string, port: int32, principal: Option<string>, password: Option<string>)
      ensures GetProtocol() == HTTP && GetHost() == host && GetPort() == port
      ensures GetPrincipal() == principal && GetPassword() == password
      ensures HasInitialSettings()
    {
      this.protocol := HTTP;
      this.host := host;
      this.port := port;
      this.principal := principal;
      this.password := password;
      this.encoding := "UTF-8";
      this.ntlmDomain := None;
      this.nonProxyHosts := [];
    }

    constructor WithoutCredentials(protocol: Protocol, host: string, port: int32)
      ensures GetProtocol() == protocol && GetHost() == host && GetPort() == port
      ensures GetPrincipal() == None && GetPassword() == None
      ensures HasInitialSettings()
    {
      this.protocol := protocol;
      this.host := host;
      this.port := port;
      this.principal := None;
      this.password := None;
      this.encoding := "UTF-8";
      this.ntlmDomain := None;
      this.nonProxyHosts := [];
    }

    constructor HttpWithoutCredentials(host: string, port: int32)
      ensures GetProtocol() == HTTP && GetHost() == host && GetPort() == port
      ensures GetPrincipal() == None && GetPassword() == None
      ensures HasInitialSettings()
    {
      this.protocol := HTTP;
      this.host := host;
      this.port := port;
      this.principal := None;
      this.password := None;
      this.encoding := "UTF-8";
      this.ntlmDomain := None;
      this.nonProxyHosts := [];
    }

    function GetProtocol(): (r: Protocol)
      ensures r == protocol
    {
      protocol
    }

    function GetProtocolAsString(): (r: string)
      ensures ProtocolOf(r) == Some(GetProtocol())
    {
      LabelRoundTrip(protocol, protocol.Label());
      protocol.Label()
    }

    function GetHost(): (r: string)
      ensures r == host
    {
      host
    }

    function GetPort(): (r: int32)
      reads this
      ensures r == port
    {
      port
    }

    function GetPrincipal(): (r: Option<string>)
      ensures r == principal
    {
      principal
    }

    function GetPassword(): (r: Option<string>)
      ensures r == password
    {
      password
    }

    function GetEncoding(): (r: string)
      reads this
      ensures r == encoding
    {
      encoding
    }

    function GetNtlmDomain(): (r: Option<string>)
      reads this
      ensures r == ntlmDomain
    {
      ntlmDomain
    }

    /** The non-proxy hosts, as a value: nothing the caller does to it reaches this object. */
    function GetNonProxyHosts(): (r: seq<string>)
      reads this
      ensures r == nonProxyHosts
    {
      nonProxyHosts
    }

    /** Converts a `java.net.Proxy`; only a direct or HTTP proxy at an Internet address is accepted. */
    static method FromProxy(proxy: Option<JavaProxy>) returns (r: FromProxyResult)
      ensures ConvertProxy(proxy).NoProxy? ==> r == NullServer
      ensures ConvertProxy(proxy).Rejected? ==> r == Thrown(ConvertProxy(proxy).error)
      ensures ConvertProxy(proxy).ProxyAt? ==>
                r.NewServer? && fresh(r.server) &&
                r.server.GetProtocol() == HTTP &&
                r.server.GetHost() == ConvertProxy(proxy).host &&
                r.server.GetPort() == ConvertProxy(proxy).port &&
                r.server.GetPrincipal() == None && r.server.GetPassword() == None &&
                r.server.HasInitialSettings()
    {
      var c := ConvertProxy(proxy);
      if c.NoProxy? {
        r := NullServer;
      } else if c.Rejected? {
        r := Thrown(c.error);
      } else {
        var server := new ProxyServer.HttpWithoutCredentials(c.host, c.port);
        r := NewServer(server);
      }
    }

    method SetEncoding(encoding: string) returns (self: ProxyServer)
      modifies this`encoding
      ensures GetEncoding() == encoding && self == this
    {
      this.encoding := encoding;
      self := this;
    }

    method SetNtlmDomain(ntlmDomain: Option<string>) returns (self: ProxyServer)
      modifies this`ntlmDomain
      ensures GetNtlmDomain() == ntlmDomain && self == this
    {
      this.ntlmDomain := ntlmDomain;
      self := this;
    }

    /** Appends `uri`, even when it is already listed. */
    method AddNonProxyHost(uri: string) returns (self: ProxyServer)
      modifies this`nonProxyHosts
      ensures GetNonProxyHosts() == old(GetNonProxyHosts()) + [uri] && self == this
    {
      nonProxyHosts := nonProxyHosts + [uri];
      self := this;
    }

    /** Removes the first entry equal to `uri`, if there is one. */
    method RemoveNonProxyHost(uri: string) returns (self: ProxyServer)
      modifies this`nonProxyHosts
      ensures GetNonProxyHosts() == RemoveFirst(old(GetNonProxyHosts()), uri) && self == this
      ensures uri !in old(GetNonProxyHosts()) ==> GetNonProxyHosts() == old(GetNonProxyHosts())
      ensures uri in old(GetNonProxyHosts()) ==>
                var i := Seqs.IndexOf(old(GetNonProxyHosts()), uri);
                GetNonProxyHosts() == old(GetNonProxyHosts())[..i] + old(GetNonProxyHosts())[i + 1..]
    {
      RemoveFirstCutsFirstOccurrence(nonProxyHosts, uri);
      RemoveFirstLength(nonProxyHosts, uri);
      nonProxyHosts := RemoveFirst(nonProxyHosts, uri);
      self := this;
    }

    /** `toString()`: a display form from which protocol, host and port can be read back. */
    function ToString(): (r: string)
      reads this
      ensures ParseDisplay(r) == Some(Endpoint(GetProtocol(), GetHost(), GetPort()))
    {
      Display(protocol, host, port)
    }
  }

  /** A client of the class: fluent calls, duplicate entries and removal of an absent entry. */
  method NonProxyHostsExample() {
    var proxy := new ProxyServer.WithoutCredentials(HTTPS, "proxy.example.com", 443);
    var same := proxy.AddNonProxyHost("a.com");
    assert same == proxy;
    same := proxy.AddNonProxyHost("a.com");
    same := proxy.RemoveNonProxyHost("a.com");
    assert proxy.GetNonProxyHosts() == ["a.com"];
    same := proxy.RemoveNonProxyHost("missing");
    assert proxy.GetNonProxyHosts() == ["a.com"];
    same := proxy.SetEncoding("ISO-8859-1");
    assert proxy.GetProtocol() == HTTPS && proxy.GetPort() == 443 && proxy.GetNonProxyHosts() == ["a.com"];
  }
}
