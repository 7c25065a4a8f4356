/**
 The node URI parser, shared in substance by the manager and the catalog client.
 It starts from the record `net/url` splits a URI into; user, password, host and
 query values are already percent-decoded there.
 */
module NodeUri {
  import opened Wrappers
  import opened Text
  import opened Json
  import Decimal
  import Base64

  // ---- input ----------------------------------------------------------------

  type Query = map<string, seq<string>>

  datatype User = User(name: string, password: Option<string>)

  /** `query` is None when the raw query does not parse. */
  datatype Url = Url(scheme: string, user: Option<User>, host: string, port: string, query: Option<Query>,
      fragment: string)

  datatype Uri = Malformed | Parsed(url: Url)

  function Get(query: Query, key: string): string {
    if key in query && query[key] != [] then query[key][0] else ""
  }

  // ---- output ---------------------------------------------------------------

  /** In these records an empty text stands for an absent member. */
  datatype Reality = Reality(publicKey: string, shortId: string)

  datatype Tls = Tls(serverName: string, alpn: seq<string>, insecure: bool, fingerprint: string,
      reality: Option<Reality>)

  datatype Transport = Ws(path: string, host: string) | Grpc(serviceName: string)

  datatype Protocol =
    | Vless(uuid: string, flow: string)
    | Trojan(password: string)
    | Hysteria2(password: string, obfs: string)
    | Shadowsocks(cipher: string, password: string)

  datatype Node = Node(server: string, port: int, protocol: Protocol, tls: Option<Tls>, transport: Option<Transport>)

  datatype ParseError =
    | InvalidUri
    | UnsupportedFormat
    | MissingServerOrPort
    | InvalidQuery
    | UnsupportedSecurity
    | RealityWithoutKey
    | UnsupportedOption
    | InvalidPort
    | MissingCredentials
    | BadObfuscation
    | InvalidCredentials
    | UnsupportedMethod
    | TlsRequired
    | InvalidPathEscape
    | UnsupportedTransport
    | TransportNotAllowed

  const SCHEMES := {"vless", "trojan", "hy2", "hysteria2", "ss"}
  const FINGERPRINTS := {"chrome", "firefox", "safari", "ios", "android", "edge"}
  const METHODS := {
    "aes-128-gcm", "aes-256-gcm", "chacha20-ietf-poly1305",
    "2022-blake3-aes-128-gcm", "2022-blake3-aes-256-gcm", "2022-blake3-chacha20-poly1305"
  }

  // ---- small readers --------------------------------------------------------

  function Lower(c: char): char {
    if 'A' <= c <= 'Z' then c - 'A' + 'a' else c
  }

  function ToLower(s: string): (r: string)
    ensures |r| == |s| && forall i :: 0 <= i < |s| ==> r[i] == Lower(s[i])
  {
    if s == "" then "" else ToLower(s[..|s| - 1]) + [Lower(s[|s| - 1])]
  }

  /** `strconv.Atoi`, apart from its overflow error: no caller here accepts such a number anyway. */
  function Atoi(s: string): Option<int> {
    if s != "" && Decimal.AllDigits(s) then Some(Decimal.Value(s))
    else if |s| > 1 && s[0] == '+' && Decimal.AllDigits(s[1..]) then Some(Decimal.Value(s[1..]))
    else if |s| > 1 && s[0] == '-' && Decimal.AllDigits(s[1..]) then (var n: int := Decimal.Value(s[1..]); Some(-n))
    else None
  }

  predicate IsHex(c: char) {
    '0' <= c <= '9' || 'a' <= c <= 'f' || 'A' <= c <= 'F'
  }

  /** What `url.PathUnescape` accepts. */
  predicate ValidEscapes(s: string) {
    forall i :: 0 <= i < |s| && s[i] == '%' ==> i + 2 < |s| && IsHex(s[i + 1]) && IsHex(s[i + 2])
  }

  predicate IsTrue(text: string) {
    text == "1" || ToLower(text) == "true"
  }

  // ---- the parser, typed ----------------------------------------------------

  /** Unknown browsers are ignored; reality always imitates one. */
  function Fingerprint(security: string, fp: string): string {
    if fp in FINGERPRINTS then fp else if security == "reality" then "chrome" else ""
  }

  function Alpn(text: string): seq<string> {
    if text == "" then [] else Split(text, ',')
  }

  function ParseReality(security: string, query: Query): Option<Reality> {
    if security == "reality" && Get(query, "pbk") != "" then Some(Reality(Get(query, "pbk"), Get(query, "sid")))
      else None
  }

  function ParseTls(query: Query): Option<Tls> {
    var security := Get(query, "security");
    if security != "tls" && security != "reality" then None else
    Some(Tls(
      Get(query, "sni"),
      Alpn(Get(query, "alpn")),
      IsTrue(Get(query, "insecure")) || IsTrue(Get(query, "allowInsecure")),
      Fingerprint(security, Get(query, "fp")),
      ParseReality(security, query)))
  }

  function ParseTransport(query: Query): Result<Option<Transport>, ParseError> {
    var kind := Get(query, "type");
    if kind == "ws" then
      if ValidEscapes(Get(query, "path")) then Ok(Some(Ws(Get(query, "path"), Get(query, "host"))))
        else Err(InvalidPathEscape)
    else if kind == "grpc" then Ok(Some(Grpc(Get(query, "serviceName"))))
    else if kind == "" || kind == "tcp" then Ok(None)
    else Err(UnsupportedTransport)
  }

  function Credentials(user: User): string {
    match user.password
    case None => user.name
    case Some(password) => user.name + ":" + password
  }

  function Flow(flow: string): string {
    if flow == "xtls-rprx-vision-udp443" then "xtls-rprx-vision"
    else if flow == "xtls-rprx-vision" || flow == "xtls-rprx-direct" then flow
    else ""
  }

  function ParseShadowsocks(user: User): Result<Protocol, ParseError> {
    var plain := Credentials(user);
    var decoded := if ':' in plain then Some(plain) else Base64.DecodeAny(plain);
    if decoded.None? then Err(InvalidCredentials) else
    var info := decoded.value;
    if ':' in info && info[..Index(info, ':')] in METHODS
    then Ok(Shadowsocks(info[..Index(info, ':')], info[Index(info, ':') + 1..]))
    else Err(UnsupportedMethod)
  }

  function ParseProtocol(scheme: string, user: User, query: Query): Result<Protocol, ParseError>
    requires scheme in SCHEMES
  {
    if scheme == "vless" then Ok(Vless(user.name, Flow(Get(query, "flow"))))
    else if scheme == "trojan" then Ok(Trojan(Credentials(user)))
    else if scheme == "ss" then ParseShadowsocks(user)
    else match ParseObfuscation(query)
      case Err(e) => Err(e)
      case Ok(password) => Ok(Hysteria2(Credentials(user), password))
  }

  /** The only obfuscation is salamander, and it needs a password. */
  function ParseObfuscation(query: Query): Result<string, ParseError> {
    var obfs, password := Get(query, "obfs"), Get(query, "obfs-password");
    if obfs == "" then Ok("")
    else if obfs == "salamander" && password != "" then Ok(password)
    else Err(BadObfuscation)
  }

  predicate NeedsTls(protocol: Protocol) {
    protocol.Trojan? || protocol.Hysteria2?
  }

  predicate AllowsTransport(protocol: Protocol) {
    protocol.Vless? || protocol.Trojan?
  }

  /** TLS is the default of the protocols that need it. */
  function WithTlsDefault(protocol: Protocol, query: Query): Query {
    if NeedsTls(protocol) && Get(query, "security") == "" then query["security" := ["tls"]] else query
  }

  function Finish(url: Url, port: int, protocol: Protocol, query: Query): Result<Node, ParseError> {
    var query' := WithTlsDefault(protocol, query);
    if NeedsTls(protocol) && Get(query', "security") != "tls" then Err(TlsRequired)
    else FinishLayered(url, port, protocol, query')
  }

  function FinishLayered(url: Url, port: int, protocol: Protocol, query: Query): Result<Node, ParseError> {
    match ParseTransport(query)
    case Err(e) => Err(e)
    case Ok(transport) =>
      if transport.Some? && !AllowsTransport(protocol) then Err(TransportNotAllowed)
      else Ok(Node(url.host, port, protocol, ParseTls(query), transport))
  }

  function Parse(uri: Uri): Result<Node, ParseError> {
    if uri.Malformed? then Err(InvalidUri) else
    var url := uri.url;
    var scheme := ToLower(url.scheme);
    if scheme !in SCHEMES then Err(UnsupportedFormat)
    else if url.host == "" || url.port == "" then Err(MissingServerOrPort)
    else if url.query.None? then Err(InvalidQuery)
    else
      var query := url.query.value;
      var security := Get(query, "security");
      var port := Atoi(url.port);
      if security !in {"", "none", "tls", "reality"} then Err(UnsupportedSecurity)
      else if security == "reality" && Get(query, "pbk") == "" then Err(RealityWithoutKey)
      else if Get(query, "plugin") != "" || Get(query, "network") != "" then Err(UnsupportedOption)
      else if port.None? || !(1 <= port.value <= 65535) then Err(InvalidPort)
      else if url.user.None? || url.user.value.name == "" then Err(MissingCredentials)
      else match ParseProtocol(scheme, url.user.value, query)
        case Err(e) => Err(e)
        case Ok(protocol) => Finish(url, port.value, protocol, query)
  }

  // ---- the sing-box outbound a node stands for ------------------------------

  function UtlsObject(fingerprint: string): Object {
    map["enabled" := Bool(true), "fingerprint" := Str(fingerprint)]
  }

  function RealityObject(reality: Reality): Object {
    map["enabled" := Bool(true), "public_key" := Str(reality.publicKey)] + Field("short_id", reality.shortId)
  }

  function AlpnField(alpn: seq<string>): Object {
    if alpn == [] then map[] else map["alpn" := Arr(Strings(alpn))]
  }

  function InsecureField(insecure: bool): Object {
    if insecure then map["insecure" := Bool(true)] else map[]
  }

  function UtlsField(fingerprint: string): Object {
    if fingerprint == "" then map[] else map["utls" := Obj(UtlsObject(fingerprint))]
  }

  function RealityField(reality: Option<Reality>): Object {
    if reality.None? then map[] else map["reality" := Obj(RealityObject(reality.value))]
  }

  function TlsObject(tls: Tls): Object {
    map["enabled" := Bool(true)]
    + Field("server_name", tls.serverName)
    + AlpnField(tls.alpn)
    + InsecureField(tls.insecure)
    + UtlsField(tls.fingerprint)
    + RealityField(tls.reality)
  }

  function TransportObject(transport: Transport): Object {
    match transport
    case Ws(path, host) =>
      map["type" := Str("ws")] + Field("path", path)
      + (if host == "" then map[] else map["headers" := Obj(map["Host" := Str(host)])])
    case Grpc(name) => map["type" := Str("grpc")] + Field("service_name", name)
  }

  function ObfsField(password: string): Object {
    if password == "" then map[] else map["obfs" := Obj(map["type" := Str("salamander"), "password" := Str(password)])]
  }

  function Kind(protocol: Protocol): Value {
    match protocol
    case Vless(_, _) => Str("vless")
    case Trojan(_) => Str("trojan")
    case Hysteria2(_, _) => Str("hysteria2")
    case Shadowsocks(_, _) => Str("shadowsocks")
  }

  function ProtocolObject(protocol: Protocol): (members: Object)
    ensures "type" in members && members["type"] == Kind(protocol)
    ensures "tag" !in members
  {
    match protocol
    case Vless(uuid, flow) => map["type" := Str("vless"), "uuid" := Str(uuid)] + Field("flow", flow)
    case Trojan(password) => map["type" := Str("trojan"), "password" := Str(password)]
    case Hysteria2(password, obfs) =>
      map["type" := Str("hysteria2"), "password" := Str(password)] + ObfsField(obfs)
    case Shadowsocks(name, password) =>
      map["type" := Str("shadowsocks"), "method" := Str(name), "password" := Str(password)]
  }

  function Nested(key: string, members: Option<Object>): Object {
    if members.None? then map[] else map[key := Obj(members.value)]
  }

  function TlsMembers(tls: Option<Tls>): Option<Object> {
    if tls.None? then None else Some(TlsObject(tls.value))
  }

  function TlsField(tls: Option<Tls>): Object {
    Nested("tls", TlsMembers(tls))
  }

  function TransportMembers(transport: Option<Transport>): Option<Object> {
    if transport.None? then None else Some(TransportObject(transport.value))
  }

  function TransportField(transport: Option<Transport>): Object {
    Nested("transport", TransportMembers(transport))
  }

  /** The outbound without its tag: what the manager fingerprints to recognise repeated nodes. */
  function Body(node: Node): (body: Object)
    ensures "tag" !in body
  {
    map["server" := Str(node.server), "server_port" := Num(node.port)]
    + ProtocolObject(node.protocol)
    + TlsField(node.tls)
    + TransportField(node.transport)
  }

  function Item(tag: string, node: Node): (item: Object)
    ensures item - {"tag"} == Body(node)
  {
    Body(node)["tag" := Str(tag)]
  }

  function ItemResult(tag: string, r: Result<Node, ParseError>): Result<Object, ParseError> {
    match r
    case Ok(node) => Ok(Item(tag, node))
    case Err(e) => Err(e)
  }
}
