/** What a node URI means and when it is accepted, read off its record without the parser. */
module NodeMeaning {
  import opened Wrappers
  import opened Text
  import opened NodeUri
  import Base64
  import Decimal
  import NameFacts

  // ---- relations between the record and its reading -----------------------------

  /** The query answers a key with its first value, and an absent key with nothing. */
  predicate Answers(query: Query, key: string, value: string) {
    if key in query && |query[key]| > 0 then query[key][0] == value else value == ""
  }

  /** A text is a lower-case word, letter case aside. */
  predicate Spells(text: string, word: string) {
    && |text| == |word|
    && forall i :: 0 <= i < |text| ==>
         text[i] == word[i] || ('A' <= text[i] <= 'Z' && word[i] as int == text[i] as int + 32)
  }

  predicate SaysTrue(text: string) {
    text == "1" || Spells(text, "true")
  }

  /** A decimal number in the range of ports, with or without a plus sign. */
  predicate SaysPort(text: string, port: int) {
    && 1 <= port <= 65535
    && (SaysNumber(text, port) || (text != "" && text[0] == '+' && SaysNumber(text[1..], port)))
  }

  predicate SaysNumber(digits: string, n: int) {
    digits != "" && Decimal.AllDigits(digits) && Decimal.Value(digits) == n
  }

  /** What precedes the host: a name, or a name and a password. */
  predicate SaysSecret(user: User, secret: string) {
    match user.password
    case None => secret == user.name
    case Some(password) => secret == user.name + ":" + password
  }

  // ---- the protocol ---------------------------------------------------------------

  predicate FlowMeans(given: string, flow: string) {
    if given == "xtls-rprx-vision" || given == "xtls-rprx-vision-udp443" then flow == "xtls-rprx-vision"
    else if given == "xtls-rprx-direct" then flow == "xtls-rprx-direct"
    else flow == ""
  }

  predicate ObfuscationMeans(query: Query, password: string) {
    if password == "" then Answers(query, "obfs", "")
    else Answers(query, "obfs", "salamander") && Answers(query, "obfs-password", password)
  }

  predicate IsCipher(name: string) {
    || name == "aes-128-gcm" || name == "aes-256-gcm" || name == "chacha20-ietf-poly1305"
    || name == "2022-blake3-aes-128-gcm" || name == "2022-blake3-aes-256-gcm"
    || name == "2022-blake3-chacha20-poly1305"
  }

  /** Cipher and password in the clear, or the same text in some base64 variant. */
  ghost predicate CipherMeans(user: User, cipher: string, password: string) {
    && IsCipher(cipher)
    && exists secret :: SaysSecret(user, secret) &&
         if ':' in secret then secret == cipher + ":" + password
         else exists v :: Base64.Decode(v, secret) == Some(cipher + ":" + password)
  }

  ghost predicate ProtocolMeans(scheme: string, user: User, query: Query, protocol: Protocol) {
    match protocol
    case Vless(uuid, flow) =>
      && Spells(scheme, "vless") && uuid == user.name
      && exists given :: Answers(query, "flow", given) && FlowMeans(given, flow)
    case Trojan(password) => Spells(scheme, "trojan") && SaysSecret(user, password)
    case Hysteria2(password, obfs) =>
      && (Spells(scheme, "hy2") || Spells(scheme, "hysteria2"))
      && SaysSecret(user, password) && ObfuscationMeans(query, obfs)
    case Shadowsocks(cipher, password) => Spells(scheme, "ss") && CipherMeans(user, cipher, password)
  }

  // ---- TLS and transport ------------------------------------------------------------

  /** TLS is what a trojan or hysteria2 node has when nothing is said. */
  predicate SecurityMeans(query: Query, protocol: Protocol, security: string) {
    if Answers(query, "security", "") && (protocol.Trojan? || protocol.Hysteria2?) then security == "tls"
    else Answers(query, "security", security)
  }

  predicate IsBrowser(name: string) {
    || name == "chrome" || name == "firefox" || name == "safari" || name == "ios" || name == "android"
    || name == "edge"
  }

  ghost predicate FingerprintMeans(query: Query, security: string, fingerprint: string) {
    exists given :: Answers(query, "fp", given) &&
      if IsBrowser(given) then fingerprint == given
      else if security == "reality" then fingerprint == "chrome"
      else fingerprint == ""
  }

  /** The protocols to negotiate, as they stand between the commas. */
  predicate AlpnMeans(query: Query, alpn: seq<string>) {
    if alpn == [] then Answers(query, "alpn", "")
    else alpn != [""] && Answers(query, "alpn", Join(alpn, ',')) && forall p :: p in alpn ==> ',' !in p
  }

  ghost predicate InsecureMeans(query: Query, insecure: bool) {
    insecure <==> exists given :: SaysTrue(given) && (Answers(query, "insecure", given)
                                                      || Answers(query, "allowInsecure", given))
  }

  predicate RealityMeans(query: Query, security: string, reality: Option<Reality>) {
    match reality
    case None => security == "tls"
    case Some(r) => security == "reality" && Answers(query, "pbk", r.publicKey) && Answers(query, "sid", r.shortId)
  }

  ghost predicate TlsMeans(query: Query, security: string, tls: Option<Tls>) {
    match tls
    case None => security == "" || security == "none"
    case Some(t) =>
      && Answers(query, "sni", t.serverName) && AlpnMeans(query, t.alpn) && InsecureMeans(query, t.insecure)
      && FingerprintMeans(query, security, t.fingerprint) && RealityMeans(query, security, t.reality)
  }

  predicate TransportMeans(query: Query, transport: Option<Transport>) {
    match transport
    case None => Answers(query, "type", "") || Answers(query, "type", "tcp")
    case Some(Ws(path, host)) =>
      Answers(query, "type", "ws") && Answers(query, "path", path) && Answers(query, "host", host)
    case Some(Grpc(name)) => Answers(query, "type", "grpc") && Answers(query, "serviceName", name)
  }

  /** The node is what the record says. */
  ghost predicate Means(url: Url, node: Node) {
    && node.server == url.host
    && SaysPort(url.port, node.port)
    && url.user.Some? && url.query.Some?
    && ProtocolMeans(url.scheme, url.user.value, url.query.value, node.protocol)
    && (exists security ::
          SecurityMeans(url.query.value, node.protocol, security) && TlsMeans(url.query.value, security, node.tls))
    && TransportMeans(url.query.value, node.transport)
  }

  // ---- acceptance ---------------------------------------------------------------------

  ghost predicate CredentialsGiven(scheme: string, user: User, query: Query) {
    && user.name != ""
    && (Spells(scheme, "ss") ==> exists cipher, password :: CipherMeans(user, cipher, password))
    && (Spells(scheme, "hy2") || Spells(scheme, "hysteria2") ==>
          Answers(query, "obfs", "") || (Answers(query, "obfs", "salamander") && !Answers(query, "obfs-password", "")))
  }

  predicate SecurityAllowed(scheme: string, query: Query) {
    || Answers(query, "security", "") || Answers(query, "security", "tls")
    || ((Spells(scheme, "vless") || Spells(scheme, "ss")) &&
        (Answers(query, "security", "none") || (Answers(query, "security", "reality") && !Answers(query, "pbk", ""))))
  }

  ghost predicate TransportAllowed(scheme: string, query: Query) {
    || Answers(query, "type", "") || Answers(query, "type", "tcp")
    || ((Spells(scheme, "vless") || Spells(scheme, "trojan")) &&
        (Answers(query, "type", "grpc") ||
         (Answers(query, "type", "ws") && exists path :: Answers(query, "path", path) && NameFacts.IsEscaped(path))))
  }

  /** The guards, on the record alone. */
  ghost predicate Acceptable(url: Url) {
    && (Spells(url.scheme, "vless") || Spells(url.scheme, "trojan") || Spells(url.scheme, "hy2")
        || Spells(url.scheme, "hysteria2") || Spells(url.scheme, "ss"))
    && url.host != ""
    && (exists port :: SaysPort(url.port, port))
    && url.user.Some? && url.query.Some?
    && Answers(url.query.value, "plugin", "") && Answers(url.query.value, "network", "")
    && CredentialsGiven(url.scheme, url.user.value, url.query.value)
    && SecurityAllowed(url.scheme, url.query.value)
    && TransportAllowed(url.scheme, url.query.value)
  }

  // ---- the readers of the parser --------------------------------------------------------

  predicate IsLowerCase(word: string) {
    forall i :: 0 <= i < |word| ==> !('A' <= word[i] <= 'Z')
  }

  lemma SpellsIsToLower(text: string, word: string)
    requires IsLowerCase(word)
    ensures Spells(text, word) <==> ToLower(text) == word
  {
    if ToLower(text) == word {
      forall i | 0 <= i < |text|
        ensures text[i] == word[i] || ('A' <= text[i] <= 'Z' && word[i] as int == text[i] as int + 32) {
        assert word[i] == Lower(text[i]);
      }
    }
    if Spells(text, word) {
      assert forall i :: 0 <= i < |text| ==> ToLower(text)[i] == Lower(text[i]) == word[i];
    }
  }

  lemma SaysTrueIsIsTrue(text: string)
    ensures SaysTrue(text) <==> IsTrue(text)
  {
    SpellsIsToLower(text, "true");
  }

  lemma SaysPortIsAtoi(text: string, port: int)
    requires 1 <= port <= 65535
    ensures SaysPort(text, port) <==> Atoi(text) == Some(port)
  {
  }

  lemma SaysSecretIsCredentials(user: User, secret: string)
    ensures SaysSecret(user, secret) <==> Credentials(user) == secret
  {
  }

  lemma SchemeIs(scheme: string)
    ensures Spells(scheme, "vless") <==> ToLower(scheme) == "vless"
    ensures Spells(scheme, "trojan") <==> ToLower(scheme) == "trojan"
    ensures Spells(scheme, "hy2") <==> ToLower(scheme) == "hy2"
    ensures Spells(scheme, "hysteria2") <==> ToLower(scheme) == "hysteria2"
    ensures Spells(scheme, "ss") <==> ToLower(scheme) == "ss"
  {
    SpellsIsToLower(scheme, "vless");
    SpellsIsToLower(scheme, "trojan");
    SpellsIsToLower(scheme, "hy2");
    SpellsIsToLower(scheme, "hysteria2");
    SpellsIsToLower(scheme, "ss");
  }

  lemma ObfuscationIs(query: Query, password: string)
    ensures ObfuscationMeans(query, password) <==> ParseObfuscation(query) == Ok(password)
    ensures ParseObfuscation(query).Ok? <==>
              || Answers(query, "obfs", "")
              || (Answers(query, "obfs", "salamander") && !Answers(query, "obfs-password", ""))
  {
  }

  lemma CipherHasNoColon(name: string)
    ensures IsCipher(name) <==> name in METHODS
    ensures IsCipher(name) ==> ':' !in name
  {
  }

  /** Cutting at the first colon undoes writing a cipher and a password with one between. */
  lemma CutIs(info: string, cipher: string, password: string)
    requires IsCipher(cipher)
    ensures info == cipher + ":" + password <==>
              ':' in info && info[..Index(info, ':')] == cipher && info[Index(info, ':') + 1..] == password
  {
    CipherHasNoColon(cipher);
    if info == cipher + ":" + password {
      IndexOfFirst(cipher, ':', password);
      assert info == cipher + [':'] + password;
    }
  }

  lemma DecodedIs(secret: string, info: string)
    ensures Base64.DecodeAny(secret) == Some(info) <==> exists v :: Base64.Decode(v, secret) == Some(info)
  {
    Base64.FirstOfAccepts(secret, 0);
    if v :| Base64.Decode(v, secret) == Some(info) {
      Base64.DecodeAnyIsAny(v, secret);
    }
  }

  lemma CipherIs(user: User, cipher: string, password: string)
    ensures CipherMeans(user, cipher, password) <==> ParseShadowsocks(user) == Ok(Shadowsocks(cipher, password))
  {
    var secret := Credentials(user);
    CipherHasNoColon(cipher);
    DecodedIs(secret, cipher + ":" + password);
    if IsCipher(cipher) {
      var info := if ':' in secret then Some(secret) else Base64.DecodeAny(secret);
      if info.Some? {
        CutIs(info.value, cipher, password);
      }
    }
  }

  lemma ProtocolIs(scheme: string, user: User, query: Query, protocol: Protocol)
    requires ToLower(scheme) in SCHEMES
    ensures ProtocolMeans(scheme, user, query, protocol) <==>
              ParseProtocol(ToLower(scheme), user, query) == Ok(protocol)
  {
    SchemeIs(scheme);
    match protocol
    case Vless(_, flow) => assert Answers(query, "flow", Get(query, "flow"));
    case Trojan(password) => SaysSecretIsCredentials(user, password);
    case Hysteria2(password, obfs) =>
      SaysSecretIsCredentials(user, password);
      ObfuscationIs(query, obfs);
    case Shadowsocks(cipher, password) => CipherIs(user, cipher, password);
  }

  lemma CredentialsAccepted(scheme: string, user: User, query: Query)
    requires ToLower(scheme) in SCHEMES
    ensures CredentialsGiven(scheme, user, query) <==>
              user.name != "" && ParseProtocol(ToLower(scheme), user, query).Ok?
  {
    SchemeIs(scheme);
    ObfuscationIs(query, "");
    if ParseShadowsocks(user).Ok? {
      var p := ParseShadowsocks(user).value;
      CipherIs(user, p.cipher, p.password);
    }
    forall cipher, password | CipherMeans(user, cipher, password) ensures ParseShadowsocks(user).Ok? {
      CipherIs(user, cipher, password);
    }
  }

  // ---- TLS ------------------------------------------------------------------------------

  lemma AlpnIs(query: Query, alpn: seq<string>)
    ensures AlpnMeans(query, alpn) <==> Alpn(Get(query, "alpn")) == alpn
  {
    var text := Get(query, "alpn");
    if text != "" {
      JoinOfSplit(text, ',');
    }
    if alpn != [] && alpn != [""] && text == Join(alpn, ',') && forall p :: p in alpn ==> ',' !in p {
      SplitOfJoin(alpn, ',');
      assert Split("", ',') == [""];
    }
  }

  lemma InsecureIs(query: Query, insecure: bool)
    ensures InsecureMeans(query, insecure) <==>
              insecure == (IsTrue(Get(query, "insecure")) || IsTrue(Get(query, "allowInsecure")))
  {
    SaysTrueIsIsTrue(Get(query, "insecure"));
    SaysTrueIsIsTrue(Get(query, "allowInsecure"));
    assert Answers(query, "insecure", Get(query, "insecure"));
    assert Answers(query, "allowInsecure", Get(query, "allowInsecure"));
  }

  lemma FingerprintIs(query: Query, security: string, fingerprint: string)
    ensures FingerprintMeans(query, security, fingerprint) <==> Fingerprint(security, Get(query, "fp")) == fingerprint
  {
    assert Answers(query, "fp", Get(query, "fp"));
  }

  lemma TlsIs(query: Query, tls: Option<Tls>)
    requires Get(query, "security") in {"", "none", "tls", "reality"}
    requires Get(query, "security") == "reality" ==> Get(query, "pbk") != ""
    ensures TlsMeans(query, Get(query, "security"), tls) <==> ParseTls(query) == tls
  {
    var security := Get(query, "security");
    if tls.Some? {
      AlpnIs(query, tls.value.alpn);
      InsecureIs(query, tls.value.insecure);
      FingerprintIs(query, security, tls.value.fingerprint);
    }
  }

  /** The same answers to every key but the security. */
  ghost predicate SameButSecurity(a: Query, b: Query) {
    forall key :: key != "security" ==> Get(a, key) == Get(b, key)
  }

  lemma DefaultIs(query: Query, protocol: Protocol)
    ensures var filled := WithTlsDefault(protocol, query);
            && SameButSecurity(query, filled)
            && forall security :: SecurityMeans(query, protocol, security) <==> Get(filled, "security") == security
  {
  }

  lemma SameAnswers(a: Query, b: Query, key: string)
    requires SameButSecurity(a, b) && key != "security"
    ensures forall value :: Answers(a, key, value) <==> Answers(b, key, value)
  {
    assert Get(a, key) == Get(b, key);
  }

  lemma TlsOfSame(a: Query, b: Query, security: string, tls: Option<Tls>)
    requires SameButSecurity(a, b)
    ensures TlsMeans(a, security, tls) <==> TlsMeans(b, security, tls)
  {
    SameAnswers(a, b, "sni");
    SameAnswers(a, b, "alpn");
    SameAnswers(a, b, "insecure");
    SameAnswers(a, b, "allowInsecure");
    SameAnswers(a, b, "fp");
    SameAnswers(a, b, "pbk");
    SameAnswers(a, b, "sid");
  }

  lemma TransportOfSame(a: Query, b: Query)
    requires SameButSecurity(a, b)
    ensures ParseTransport(a) == ParseTransport(b)
  {
  }

  lemma TransportIs(query: Query, transport: Option<Transport>)
    requires ParseTransport(query).Ok?
    ensures TransportMeans(query, transport) <==> ParseTransport(query) == Ok(transport)
  {
  }

  lemma TransportAccepted(scheme: string, protocol: Protocol, query: Query)
    requires ToLower(scheme) in SCHEMES
    requires AllowsTransport(protocol) <==> Spells(scheme, "vless") || Spells(scheme, "trojan")
    ensures TransportAllowed(scheme, query) <==>
              var r := ParseTransport(query); r.Ok? && (r.value.Some? ==> AllowsTransport(protocol))
  {
    assert Answers(query, "path", Get(query, "path"));
    NameFacts.ValidMeansEscaped(Get(query, "path"));
  }

  lemma KindIs(scheme: string, user: User, query: Query, protocol: Protocol)
    requires ToLower(scheme) in SCHEMES && ParseProtocol(ToLower(scheme), user, query) == Ok(protocol)
    ensures AllowsTransport(protocol) <==> Spells(scheme, "vless") || Spells(scheme, "trojan")
    ensures NeedsTls(protocol) <==> !(Spells(scheme, "vless") || Spells(scheme, "ss"))
  {
    SchemeIs(scheme);
  }

  lemma FinishIs(url: Url, node: Node, query: Query)
    requires ToLower(url.scheme) in SCHEMES && url.user.Some? && url.query == Some(query)
    requires ParseProtocol(ToLower(url.scheme), url.user.value, query) == Ok(node.protocol)
    requires Get(query, "security") in {"", "none", "tls", "reality"}
    requires Get(query, "security") == "reality" ==> Get(query, "pbk") != ""
    ensures Finish(url, node.port, node.protocol, query) == Ok(node) <==>
              && SecurityAllowed(url.scheme, query) && TransportAllowed(url.scheme, query)
              && node.server == url.host
              && (exists security ::
                    SecurityMeans(query, node.protocol, security) && TlsMeans(query, security, node.tls))
              && TransportMeans(query, node.transport)
  {
    var filled := WithTlsDefault(node.protocol, query);
    DefaultIs(query, node.protocol);
    KindIs(url.scheme, url.user.value, query, node.protocol);
    TransportOfSame(query, filled);
    TransportAccepted(url.scheme, node.protocol, query);
    TlsIs(filled, node.tls);
    TlsOfSame(query, filled, Get(filled, "security"), node.tls);
    if ParseTransport(query).Ok? {
      TransportIs(query, node.transport);
    }
  }

  // ---- the theorem ------------------------------------------------------------------------

  /** The checks of the parser that come before the credentials. */
  predicate HeaderOk(url: Url) {
    && ToLower(url.scheme) in SCHEMES
    && url.host != "" && url.port != "" && url.query.Some?
    && var query := url.query.value;
       && Get(query, "security") in {"", "none", "tls", "reality"}
       && (Get(query, "security") == "reality" ==> Get(query, "pbk") != "")
       && Get(query, "plugin") == "" && Get(query, "network") == ""
       && Atoi(url.port).Some? && 1 <= Atoi(url.port).value <= 65535
       && url.user.Some? && url.user.value.name != ""
  }

  lemma ParseIs(url: Url)
    ensures HeaderOk(url) ==>
              var query := url.query.value;
              var protocol := ParseProtocol(ToLower(url.scheme), url.user.value, query);
              Parse(Parsed(url)) ==
                if protocol.Ok? then Finish(url, Atoi(url.port).value, protocol.value, query) else Err(protocol.error)
    ensures !HeaderOk(url) ==> Parse(Parsed(url)).Err?
  {
  }

  lemma HeaderIs(url: Url)
    ensures Acceptable(url) ==> HeaderOk(url)
  {
    SchemeIs(url.scheme);
    if port :| SaysPort(url.port, port) {
      SaysPortIsAtoi(url.port, port);
    }
  }

  lemma PortGiven(url: Url)
    requires HeaderOk(url)
    ensures forall port :: SaysPort(url.port, port) <==> port == Atoi(url.port).value
  {
    SaysPortIsAtoi(url.port, Atoi(url.port).value);
    forall port | SaysPort(url.port, port) ensures port == Atoi(url.port).value {
      SaysPortIsAtoi(url.port, port);
    }
  }

  lemma AcceptableAfterHeader(url: Url)
    requires HeaderOk(url)
    ensures Acceptable(url) <==>
              && CredentialsGiven(url.scheme, url.user.value, url.query.value)
              && SecurityAllowed(url.scheme, url.query.value)
              && TransportAllowed(url.scheme, url.query.value)
  {
    SchemeIs(url.scheme);
    PortGiven(url);
    assert SaysPort(url.port, Atoi(url.port).value);
  }

  lemma MeansAfterHeader(url: Url, node: Node)
    requires HeaderOk(url) && CredentialsGiven(url.scheme, url.user.value, url.query.value)
    requires ProtocolMeans(url.scheme, url.user.value, url.query.value, node.protocol)
    requires node.port == Atoi(url.port).value
    ensures Finish(url, node.port, node.protocol, url.query.value) == Ok(node) <==> Acceptable(url) && Means(url, node)
  {
    AcceptableAfterHeader(url);
    PortGiven(url);
    ProtocolIs(url.scheme, url.user.value, url.query.value, node.protocol);
    FinishIs(url, node, url.query.value);
  }

  lemma FinishKeeps(url: Url, port: int, protocol: Protocol, query: Query)
    ensures var r := Finish(url, port, protocol, query);
            r.Ok? ==> r.value.port == port && r.value.protocol == protocol
  {
  }

  /** The parser accepts exactly the acceptable records, and reads exactly what they mean. */
  lemma ParseMeans(url: Url, node: Node)
    ensures Parse(Parsed(url)) == Ok(node) <==> Acceptable(url) && Means(url, node)
  {
    HeaderIs(url);
    ParseIs(url);
    if HeaderOk(url) {
      var user, query := url.user.value, url.query.value;
      var port, protocol := Atoi(url.port).value, ParseProtocol(ToLower(url.scheme), user, query);
      PortGiven(url);
      CredentialsAccepted(url.scheme, user, query);
      ProtocolIs(url.scheme, user, query, node.protocol);
      if protocol.Ok? {
        FinishKeeps(url, port, protocol.value, query);
        if node.port == port && node.protocol == protocol.value {
          MeansAfterHeader(url, node);
        }
      }
    }
  }

  lemma FinishedIsAccepted(url: Url, query: Query, port: int, protocol: Protocol)
    requires ToLower(url.scheme) in SCHEMES && url.user.Some? && url.query == Some(query)
    requires ParseProtocol(ToLower(url.scheme), url.user.value, query) == Ok(protocol)
    requires Get(query, "security") in {"", "none", "tls", "reality"}
    requires Get(query, "security") == "reality" ==> Get(query, "pbk") != ""
    ensures Finish(url, port, protocol, query).Ok? <==>
              SecurityAllowed(url.scheme, query) && TransportAllowed(url.scheme, query)
  {
    DefaultIs(query, protocol);
    KindIs(url.scheme, url.user.value, query, protocol);
    TransportOfSame(query, WithTlsDefault(protocol, query));
    TransportAccepted(url.scheme, protocol, query);
  }

  lemma ParseAccepts(url: Url)
    ensures Parse(Parsed(url)).Ok? <==> Acceptable(url)
  {
    HeaderIs(url);
    ParseIs(url);
    if HeaderOk(url) {
      var user, query := url.user.value, url.query.value;
      AcceptableAfterHeader(url);
      CredentialsAccepted(url.scheme, user, query);
      var protocol := ParseProtocol(ToLower(url.scheme), user, query);
      if protocol.Ok? {
        FinishedIsAccepted(url, query, Atoi(url.port).value, protocol.value);
      }
    }
  }

  // ---- the reasons given ------------------------------------------------------------------

  /** What each error says about the record. */
  ghost predicate Faulty(url: Url, e: ParseError) {
    match e
    case InvalidUri => false
    case UnsupportedFormat =>
      !(Spells(url.scheme, "vless") || Spells(url.scheme, "trojan") || Spells(url.scheme, "hy2")
        || Spells(url.scheme, "hysteria2") || Spells(url.scheme, "ss"))
    case MissingServerOrPort => url.host == "" || url.port == ""
    case InvalidQuery => url.query.None?
    case InvalidPort => forall port :: !SaysPort(url.port, port)
    case MissingCredentials => url.user.None? || url.user.value.name == ""
    case InvalidCredentials =>
      && Spells(url.scheme, "ss") && url.user.Some?
      && exists secret :: SaysSecret(url.user.value, secret) && ':' !in secret
                          && forall v :: Base64.Decode(v, secret).None?
    case UnsupportedMethod =>
      && Spells(url.scheme, "ss") && url.user.Some?
      && forall cipher, password :: !CipherMeans(url.user.value, cipher, password)
    case _ => url.query.Some? && FaultyOptions(url.scheme, url.query.value, e)
  }

  ghost predicate FaultyOptions(scheme: string, query: Query, e: ParseError) {
    match e
    case UnsupportedSecurity => forall s :: s in {"", "none", "tls", "reality"} ==> !Answers(query, "security", s)
    case RealityWithoutKey => Answers(query, "security", "reality") && Answers(query, "pbk", "")
    case UnsupportedOption => !(Answers(query, "plugin", "") && Answers(query, "network", ""))
    case BadObfuscation =>
      && (Spells(scheme, "hy2") || Spells(scheme, "hysteria2")) && !Answers(query, "obfs", "")
      && (Answers(query, "obfs", "salamander") ==> Answers(query, "obfs-password", ""))
    case TlsRequired =>
      && !(Spells(scheme, "vless") || Spells(scheme, "ss"))
      && !Answers(query, "security", "") && !Answers(query, "security", "tls")
    case InvalidPathEscape =>
      Answers(query, "type", "ws") && forall path :: Answers(query, "path", path) ==> !NameFacts.IsEscaped(path)
    case UnsupportedTransport => forall kind :: kind in {"", "tcp", "ws", "grpc"} ==> !Answers(query, "type", kind)
    case TransportNotAllowed =>
      && !(Spells(scheme, "vless") || Spells(scheme, "trojan"))
      && (Answers(query, "type", "ws") || Answers(query, "type", "grpc"))
    case _ => false
  }

  lemma HeaderError(url: Url, e: ParseError)
    requires !HeaderOk(url) && Parse(Parsed(url)) == Err(e)
    ensures Faulty(url, e)
  {
    SchemeIs(url.scheme);
    forall port | SaysPort(url.port, port) ensures Atoi(url.port) == Some(port) {
      SaysPortIsAtoi(url.port, port);
    }
  }

  lemma ProtocolError(url: Url, e: ParseError)
    requires HeaderOk(url)
    requires ParseProtocol(ToLower(url.scheme), url.user.value, url.query.value) == Err(e)
    ensures Faulty(url, e)
  {
    var user, secret := url.user.value, Credentials(url.user.value);
    SchemeIs(url.scheme);
    ObfuscationIs(url.query.value, "");
    Base64.FirstOfAccepts(secret, 0);
    forall v | ':' !in secret && e == InvalidCredentials ensures Base64.Decode(v, secret).None? {
      if Base64.Decode(v, secret).Some? {
        Base64.DecodeAnyIsAny(v, secret);
      }
    }
    assert SaysSecret(user, secret);
    forall cipher, password ensures CipherMeans(user, cipher, password) ==> ParseShadowsocks(user).Ok? {
      CipherIs(user, cipher, password);
    }
  }

  lemma TransportError(scheme: string, query: Query, e: ParseError)
    requires ParseTransport(query) == Err(e)
    ensures FaultyOptions(scheme, query, e) && (e.InvalidPathEscape? || e.UnsupportedTransport?)
  {
    NameFacts.ValidMeansEscaped(Get(query, "path"));
  }

  lemma LayerError(url: Url, port: int, protocol: Protocol, e: ParseError)
    requires HeaderOk(url)
    requires ParseProtocol(ToLower(url.scheme), url.user.value, url.query.value) == Ok(protocol)
    requires Finish(url, port, protocol, url.query.value) == Err(e)
    ensures Faulty(url, e)
  {
    var query := url.query.value;
    DefaultIs(query, protocol);
    KindIs(url.scheme, url.user.value, query, protocol);
    TransportOfSame(query, WithTlsDefault(protocol, query));
    if ParseTransport(query).Err? {
      TransportError(url.scheme, query, ParseTransport(query).error);
    }
  }

  /** A refused record has the fault that is named. */
  lemma ErrorIsTrue(url: Url, e: ParseError)
    requires Parse(Parsed(url)) == Err(e)
    ensures Faulty(url, e)
  {
    ParseIs(url);
    if !HeaderOk(url) {
      HeaderError(url, e);
    } else {
      var protocol := ParseProtocol(ToLower(url.scheme), url.user.value, url.query.value);
      if protocol.Err? {
        ProtocolError(url, e);
      } else {
        LayerError(url, Atoi(url.port).value, protocol.value, e);
      }
    }
  }
}
