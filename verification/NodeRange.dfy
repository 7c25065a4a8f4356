/** The exact range of the URI parser, and why equal outbounds mean equal nodes. */
module NodeRange {
  import opened Wrappers
  import opened Text
  import opened NodeUri
  import Decimal
  import Base64

  // ---- what an accepted node looks like -------------------------------------

  const FLOWS := {"", "xtls-rprx-vision", "xtls-rprx-direct"}

  predicate AlpnOk(alpn: seq<string>) {
    alpn != [""] && forall p :: p in alpn ==> ',' !in p
  }

  predicate TlsOk(tls: Tls) {
    && AlpnOk(tls.alpn)
    && (tls.fingerprint == "" || tls.fingerprint in FINGERPRINTS)
    && (tls.reality.Some? ==> tls.reality.value.publicKey != "" && tls.fingerprint != "")
  }

  predicate TransportOk(transport: Transport) {
    transport.Ws? ==> ValidEscapes(transport.path)
  }

  predicate ProtocolOk(protocol: Protocol) {
    match protocol
    case Vless(uuid, flow) => uuid != "" && flow in FLOWS
    case Trojan(password) => password != ""
    case Hysteria2(password, _) => password != ""
    case Shadowsocks(name, _) => name in METHODS
  }

  predicate WellFormed(node: Node) {
    && node.server != ""
    && 1 <= node.port <= 65535
    && ProtocolOk(node.protocol)
    && (node.tls.Some? ==> TlsOk(node.tls.value))
    && (node.transport.Some? ==> TransportOk(node.transport.value))
    && (NeedsTls(node.protocol) ==> node.tls.Some? && node.tls.value.reality.None?)
    && (node.transport.Some? ==> AllowsTransport(node.protocol))
  }

  // ---- every accepted node is well formed ------------------------------------

  lemma ParsedProtocolOk(scheme: string, user: User, query: Query)
    requires scheme in SCHEMES && user.name != ""
    ensures var r := ParseProtocol(scheme, user, query); r.Ok? ==> ProtocolOk(r.value)
  {
  }

  lemma ParsedTlsOk(query: Query)
    ensures var r := ParseTls(query);
            && (r.Some? ==> TlsOk(r.value))
            && (Get(query, "security") == "tls" ==> r.Some? && r.value.reality.None?)
  {
    var alpn := Get(query, "alpn");
    if alpn != "" {
      JoinOfSplit(alpn, ',');
    }
  }

  lemma FinishedIsWellFormed(url: Url, port: int, protocol: Protocol, query: Query)
    requires url.host != "" && 1 <= port <= 65535 && ProtocolOk(protocol)
    ensures var r := Finish(url, port, protocol, query); r.Ok? ==> WellFormed(r.value)
  {
    ParsedTlsOk(WithTlsDefault(protocol, query));
  }

  lemma AcceptedIsWellFormed(uri: Uri)
    ensures Parse(uri).Ok? ==> WellFormed(Parse(uri).value)
  {
    if Parse(uri).Ok? {
      var url := uri.url;
      var query := url.query.value;
      ParsedProtocolOk(ToLower(url.scheme), url.user.value, query);
      var protocol := ParseProtocol(ToLower(url.scheme), url.user.value, query).value;
      FinishedIsWellFormed(url, Atoi(url.port).value, protocol, query);
    }
  }

  // ---- every well-formed node is accepted ------------------------------------

  /** The options of a printed URI; an empty text is as good as none. */
  datatype Options = Options(
    security: string, sni: string, alpn: string, insecure: string, fp: string, pbk: string, sid: string,
    kind: string, path: string, host: string, serviceName: string,
    flow: string, obfs: string, obfsPassword: string)

  function QueryOf(o: Options): Query {
    map[
      "security" := [o.security], "sni" := [o.sni], "alpn" := [o.alpn], "insecure" := [o.insecure], "fp" := [o.fp],
      "pbk" := [o.pbk], "sid" := [o.sid], "type" := [o.kind], "path" := [o.path], "host" := [o.host],
      "serviceName" := [o.serviceName], "flow" := [o.flow], "obfs" := [o.obfs], "obfs-password" := [o.obfsPassword]
    ]
  }

  function OptionsOf(node: Node): Options {
    var t := node.tls;
    var x := node.transport;
    Options(
      if t.None? then "none" else if t.value.reality.Some? then "reality" else "tls",
      if t.None? then "" else t.value.serverName,
      if t.None? then "" else Join(t.value.alpn, ','),
      if t.Some? && t.value.insecure then "1" else "",
      if t.None? then "" else t.value.fingerprint,
      if t.Some? && t.value.reality.Some? then t.value.reality.value.publicKey else "",
      if t.Some? && t.value.reality.Some? then t.value.reality.value.shortId else "",
      if x.None? then "" else if x.value.Ws? then "ws" else "grpc",
      if x.Some? && x.value.Ws? then x.value.path else "",
      if x.Some? && x.value.Ws? then x.value.host else "",
      if x.Some? && x.value.Grpc? then x.value.serviceName else "",
      if node.protocol.Vless? then node.protocol.flow else "",
      if node.protocol.Hysteria2? && node.protocol.obfs != "" then "salamander" else "",
      if node.protocol.Hysteria2? then node.protocol.obfs else "")
  }

  function SchemeOf(protocol: Protocol): (scheme: string)
    ensures scheme in SCHEMES && ToLower(scheme) == scheme
  {
    var scheme := match protocol
      case Vless(_, _) => "vless"
      case Trojan(_) => "trojan"
      case Hysteria2(_, _) => "hysteria2"
      case Shadowsocks(_, _) => "ss";
    LowerCaseStays(scheme);
    scheme
  }

  lemma LowerCaseStays(s: string)
    requires forall i :: 0 <= i < |s| ==> Lower(s[i]) == s[i]
    ensures ToLower(s) == s
  {
  }

  function UserOf(protocol: Protocol): User {
    match protocol
    case Vless(uuid, _) => User(uuid, None)
    case Trojan(password) => User(password, None)
    case Hysteria2(password, _) => User(password, None)
    case Shadowsocks(name, password) => User(name, Some(password))
  }

  function Print(node: Node, user: User): Url
    requires node.port >= 0
  {
    Url(SchemeOf(node.protocol), Some(user), node.server, Decimal.Print(node.port), Some(QueryOf(OptionsOf(node))), "")
  }

  lemma QueryReadsBack(o: Options)
    ensures var query := QueryOf(o);
            && Get(query, "security") == o.security && Get(query, "sni") == o.sni && Get(query, "alpn") == o.alpn
            && Get(query, "insecure") == o.insecure && Get(query, "allowInsecure") == "" && Get(query, "fp") == o.fp
            && Get(query, "pbk") == o.pbk && Get(query, "sid") == o.sid
  {
  }

  /** Stated over any query that reads like the options, so that its layout does not matter. */
  lemma TlsOfOptions(node: Node, query: Query)
    requires WellFormed(node)
    requires var o := OptionsOf(node);
             && Get(query, "security") == o.security && Get(query, "sni") == o.sni && Get(query, "alpn") == o.alpn
             && Get(query, "insecure") == o.insecure && Get(query, "allowInsecure") == "" && Get(query, "fp") == o.fp
             && Get(query, "pbk") == o.pbk && Get(query, "sid") == o.sid
    ensures ParseTls(query) == node.tls
  {
    if node.tls.Some? {
      AlpnReadsBack(node.tls.value.alpn);
      assert IsTrue("1") && !IsTrue("");
    }
  }

  lemma TlsReadsBack(node: Node)
    requires WellFormed(node)
    ensures ParseTls(QueryOf(OptionsOf(node))) == node.tls
  {
    QueryReadsBack(OptionsOf(node));
    TlsOfOptions(node, QueryOf(OptionsOf(node)));
  }

  lemma AlpnReadsBack(alpn: seq<string>)
    requires AlpnOk(alpn)
    ensures Alpn(Join(alpn, ',')) == alpn
  {
    if alpn != [] {
      SplitOfJoin(alpn, ',');
    }
  }

  lemma MethodsHaveNoColon(name: string)
    requires name in METHODS
    ensures ':' !in name && name != ""
  {
  }

  /** Credentials given in the clear. */
  lemma PlainCredentialsReadBack(name: string, password: string)
    requires name in METHODS
    ensures ParseShadowsocks(User(name, Some(password))) == Ok(Shadowsocks(name, password))
  {
    MethodsHaveNoColon(name);
    IndexOfFirst(name, ':', password);
    assert name + ":" + password == name + [':'] + password;
  }

  /** Credentials in any of the four base64 variants. */
  lemma EncodedCredentialsReadBack(name: string, password: string, v: Base64.Variant)
    requires name in METHODS && IsBytes(name + ":" + password)
    ensures var user := Base64.Encode(v, name + ":" + password);
            user != "" && ParseShadowsocks(User(user, None)) == Ok(Shadowsocks(name, password))
  {
    var plain := name + ":" + password;
    var user := Base64.Encode(v, plain);
    MethodsHaveNoColon(name);
    IndexOfFirst(name, ':', password);
    assert plain == name + [':'] + password;
    Base64.DecodeAnyOfEncode(v, plain);
    Base64.EncodeIsCode(v, plain);
    assert ':' !in user by {
      assert !Base64.IsCode(v, ':');
    }
    assert user != "";
  }

  lemma ProtocolReadsBack(node: Node, user: User)
    requires WellFormed(node)
    requires user == UserOf(node.protocol)
              || (node.protocol.Shadowsocks? && ParseShadowsocks(user) == Ok(node.protocol))
    ensures ParseProtocol(SchemeOf(node.protocol), user, QueryOf(OptionsOf(node))) == Ok(node.protocol)
  {
    if node.protocol.Shadowsocks? {
      PlainCredentialsReadBack(node.protocol.cipher, node.protocol.password);
    }
  }

  lemma TransportReadsBack(node: Node)
    requires WellFormed(node)
    ensures ParseTransport(QueryOf(OptionsOf(node))) == Ok(node.transport)
  {
  }

  lemma PortReadsBack(port: nat)
    ensures Atoi(Decimal.Print(port)) == Some(port)
  {
    Decimal.ValueOfPrint(port);
  }

  lemma GuardsPass(node: Node)
    requires WellFormed(node)
    ensures var query := QueryOf(OptionsOf(node));
            && Get(query, "security") in {"none", "tls", "reality"}
            && (Get(query, "security") == "reality" ==> Get(query, "pbk") != "")
            && (NeedsTls(node.protocol) ==> Get(query, "security") == "tls")
            && Get(query, "plugin") == "" && Get(query, "network") == ""
  {
  }

  lemma LayersReadBack(node: Node, url: Url)
    requires WellFormed(node) && url.host == node.server
    ensures Finish(url, node.port, node.protocol, QueryOf(OptionsOf(node))) == Ok(node)
  {
    GuardsPass(node);
    TlsReadsBack(node);
    TransportReadsBack(node);
  }

  /** The checks before the credentials, on a query only known by what it answers. */
  lemma HeaderPasses(url: Url, query: Query, port: int, protocol: Protocol)
    requires ToLower(url.scheme) in SCHEMES && url.host != "" && url.port != "" && url.query == Some(query)
    requires Get(query, "security") in {"none", "tls", "reality"}
    requires Get(query, "security") == "reality" ==> Get(query, "pbk") != ""
    requires Get(query, "plugin") == "" && Get(query, "network") == ""
    requires Atoi(url.port) == Some(port) && 1 <= port <= 65535
    requires url.user.Some? && url.user.value.name != ""
    requires ParseProtocol(ToLower(url.scheme), url.user.value, query) == Ok(protocol)
    ensures Parse(Parsed(url)) == Finish(url, port, protocol, query)
  {
  }

  lemma PrintedIsAccepted(node: Node, user: User)
    requires WellFormed(node) && user.name != ""
    requires user == UserOf(node.protocol)
              || (node.protocol.Shadowsocks? && ParseShadowsocks(user) == Ok(node.protocol))
    ensures Parse(Parsed(Print(node, user))) == Ok(node)
  {
    var url, query := Print(node, user), QueryOf(OptionsOf(node));
    GuardsPass(node);
    ProtocolReadsBack(node, user);
    PortReadsBack(node.port);
    HeaderPasses(url, query, node.port, node.protocol);
    LayersReadBack(node, url);
  }

  /** The parser accepts exactly the well-formed nodes. */
  lemma ExactRange(node: Node)
    ensures WellFormed(node) <==> exists uri :: Parse(uri) == Ok(node)
  {
    if WellFormed(node) {
      if node.protocol.Shadowsocks? {
        MethodsHaveNoColon(node.protocol.cipher);
      }
      PrintedIsAccepted(node, UserOf(node.protocol));
    }
    if uri :| Parse(uri) == Ok(node) {
      AcceptedIsWellFormed(uri);
    }
  }

  lemma EncodedUriReadsBack(node: Node, v: Base64.Variant)
    requires WellFormed(node) && node.protocol.Shadowsocks?
    requires IsBytes(node.protocol.cipher + ":" + node.protocol.password)
    ensures var user := User(Base64.Encode(v, node.protocol.cipher + ":" + node.protocol.password), None);
            Parse(Parsed(Print(node, user))) == Ok(node)
  {
    EncodedCredentialsReadBack(node.protocol.cipher, node.protocol.password, v);
    PrintedIsAccepted(node, User(Base64.Encode(v, node.protocol.cipher + ":" + node.protocol.password), None));
  }
}
