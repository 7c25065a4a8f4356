/** The parser as the program runs it: string-keyed objects filled member by member. */
module NodeParser {
  import opened Wrappers
  import opened Text
  import opened Json
  import opened NodeUri
  import Base64

  method QueryBool(query: Query, names: seq<string>) returns (found: bool)
    ensures found <==> exists i :: 0 <= i < |names| && IsTrue(Get(query, names[i]))
  {
    for i := 0 to |names|
      invariant forall j :: 0 <= j < i ==> !IsTrue(Get(query, names[j]))
    {
      if Get(query, names[i]) == "1" || ToLower(Get(query, names[i])) == "true" {
        return true;
      }
    }
    return false;
  }

  method TlsFrom(query: Query) returns (r: Option<Object>)
    ensures r == TlsMembers(ParseTls(query))
  {
    var security := Get(query, "security");
    if security != "tls" && security != "reality" {
      return None;
    }
    var result: Object := map["enabled" := Bool(true)];
    result := AddNames(result, query);
    var insecure := Insecure(query);
    ghost var withNames := result;
    if insecure {
      result := result["insecure" := Bool(true)];
      UpdateIsUnion(withNames, "insecure", Bool(true));
    } else {
      assert withNames + map[] == withNames;
    }
    result := AddIdentity(result, query, security);
    return Some(result);
  }

  method AddNames(base: Object, query: Query) returns (result: Object)
    ensures result == base + Field("server_name", Get(query, "sni")) + AlpnField(Alpn(Get(query, "alpn")))
  {
    result := base;
    var sni := Get(query, "sni");
    if sni != "" {
      result := result["server_name" := Str(sni)];
    }
    assert result == base + Field("server_name", sni);
    var alpn := Get(query, "alpn");
    if alpn != "" {
      result := result["alpn" := Arr(Strings(Split(alpn, ',')))];
    }
  }

  method AddIdentity(base: Object, query: Query, security: string) returns (result: Object)
    ensures result == base + UtlsField(Fingerprint(security, Get(query, "fp")))
              + RealityField(ParseReality(security, query))
  {
    result := base;
    var fingerprint := FingerprintFrom(security, Get(query, "fp"));
    if fingerprint != "" {
      result := result["utls" := Obj(UtlsObject(fingerprint))];
    }
    ghost var withUtls := result;
    assert withUtls == base + UtlsField(fingerprint);
    if security == "reality" && Get(query, "pbk") != "" {
      var members := RealityFrom(query);
      result := result["reality" := Obj(members)];
    }
    assert result == withUtls + RealityField(ParseReality(security, query));
  }

  method Insecure(query: Query) returns (insecure: bool)
    ensures insecure <==> IsTrue(Get(query, "insecure")) || IsTrue(Get(query, "allowInsecure"))
  {
    var names := ["insecure", "allowInsecure"];
    insecure := QueryBool(query, names);
    assert names[0] == "insecure" && names[1] == "allowInsecure";
  }

  method FingerprintFrom(security: string, fp: string) returns (fingerprint: string)
    ensures fingerprint == Fingerprint(security, fp)
  {
    fingerprint := fp;
    if fingerprint !in FINGERPRINTS {
      fingerprint := "";
    }
    if fingerprint != "" || security == "reality" {
      if fingerprint == "" {
        fingerprint := "chrome";
      }
    }
  }

  method RealityFrom(query: Query) returns (reality: Object)
    ensures reality == RealityObject(Reality(Get(query, "pbk"), Get(query, "sid")))
  {
    reality := map["enabled" := Bool(true), "public_key" := Str(Get(query, "pbk"))];
    if Get(query, "sid") != "" {
      reality := reality["short_id" := Str(Get(query, "sid"))];
    }
  }

  method TransportFrom(query: Query) returns (r: Result<Option<Object>, ParseError>)
    ensures r == match ParseTransport(query)
                 case Err(e) => Err(e)
                 case Ok(None) => Ok(None)
                 case Ok(Some(transport)) => Ok(Some(TransportObject(transport)))
  {
    var kind := Get(query, "type");
    if kind == "ws" {
      var path := Get(query, "path");
      if '%' in path && !ValidEscapes(path) {
        return Err(InvalidPathEscape);
      }
      var transport: Object := map["type" := Str("ws")];
      if path != "" {
        transport := transport["path" := Str(path)];
      }
      var host := Get(query, "host");
      if host != "" {
        transport := transport["headers" := Obj(map["Host" := Str(host)])];
      }
      assert transport == TransportObject(Ws(path, host));
      return Ok(Some(transport));
    } else if kind == "grpc" {
      var transport: Object := map["type" := Str("grpc")];
      var name := Get(query, "serviceName");
      if name != "" {
        transport := transport["service_name" := Str(name)];
      }
      assert transport == TransportObject(Grpc(name));
      return Ok(Some(transport));
    } else if kind == "" || kind == "tcp" {
      return Ok(None);
    } else {
      return Err(UnsupportedTransport);
    }
  }

  // ---- the members each protocol adds to the item ----------------------------

  method AddVless(item: Object, user: User, query: Query) returns (result: Object)
    ensures result == item + ProtocolObject(Vless(user.name, Flow(Get(query, "flow"))))
  {
    result := item["type" := Str("vless")]["uuid" := Str(user.name)];
    var flow := Get(query, "flow");
    if flow == "xtls-rprx-vision-udp443" {
      flow := "xtls-rprx-vision";
    }
    if flow == "xtls-rprx-vision" || flow == "xtls-rprx-direct" {
      result := result["flow" := Str(flow)];
    }
  }

  method AddPassword(item: Object, kind: string, user: User) returns (result: Object)
    ensures result == item + map["type" := Str(kind), "password" := Str(Credentials(user))]
  {
    result := item["type" := Str(kind)]["password" := Str(user.name)];
    if user.password.Some? {
      result := result["password" := Str(user.name + ":" + user.password.value)];
    }
  }

  method AddObfuscation(item: Object, query: Query) returns (r: Result<Object, ParseError>)
    ensures r == match ParseObfuscation(query)
                 case Err(e) => Err(e)
                 case Ok(password) => Ok(item + ObfsField(password))
  {
    var obfs, password := Get(query, "obfs"), Get(query, "obfs-password");
    if obfs != "" && (obfs != "salamander" || password == "") {
      return Err(BadObfuscation);
    }
    var result := item;
    if obfs == "salamander" && password != "" {
      result := result["obfs" := Obj(map["type" := Str("salamander"), "password" := Str(password)])];
      assert result == item + ObfsField(password);
    } else {
      assert result == item + ObfsField("");
    }
    return Ok(result);
  }

  method AddShadowsocks(item: Object, user: User) returns (r: Result<Object, ParseError>)
    ensures r == match ParseShadowsocks(user)
                 case Err(e) => Err(e)
                 case Ok(protocol) => Ok(item + ProtocolObject(protocol))
  {
    var credentials := ShadowsocksCredentials(user);
    if credentials.Err? {
      return Err(credentials.error);
    }
    var (name, password) := credentials.value;
    var result := item["type" := Str("shadowsocks")]["method" := Str(name)]["password" := Str(password)];
    assert result == item + ProtocolObject(Shadowsocks(name, password));
    return Ok(result);
  }

  method AddProtocol(item: Object, scheme: string, user: User, query: Query) returns (r: Result<Object, ParseError>)
    requires scheme in SCHEMES
    ensures r == match ParseProtocol(scheme, user, query)
                 case Err(e) => Err(e)
                 case Ok(protocol) => Ok(item + ProtocolObject(protocol))
  {
    if scheme == "vless" {
      var result := AddVless(item, user, query);
      return Ok(result);
    } else if scheme == "trojan" {
      var result := AddPassword(item, "trojan", user);
      return Ok(result);
    } else if scheme == "ss" {
      r := AddShadowsocks(item, user);
    } else {
      var result := AddPassword(item, "hysteria2", user);
      r := AddObfuscation(result, query);
      ghost var obfs := ParseObfuscation(query);
      if obfs.Ok? {
        var members: Object := map["type" := Str("hysteria2"), "password" := Str(Credentials(user))];
        assert item + (members + ObfsField(obfs.value)) == result + ObfsField(obfs.value);
      }
    }
  }

  method ShadowsocksCredentials(user: User) returns (r: Result<(string, string), ParseError>)
    ensures match ParseShadowsocks(user)
            case Err(e) => r == Err(e)
            case Ok(protocol) => protocol.Shadowsocks? && r == Ok((protocol.cipher, protocol.password))
  {
    var info := user.name;
    if user.password.Some? {
      info := user.name + ":" + user.password.value;
    }
    if ':' !in info {
      var decoded := Base64.DecodeBase64(info);
      if decoded.None? {
        return Err(InvalidCredentials);
      }
      info := decoded.value;
    }
    if ':' !in info || info[..Index(info, ':')] !in METHODS {
      return Err(UnsupportedMethod);
    }
    var cut := Index(info, ':');
    return Ok((info[..cut], info[cut + 1..]));
  }

  /** TLS where the protocol needs it, by default or refused. */
  method RequireTls(item: Object, query: Query, ghost protocol: Protocol) returns (r: Result<Query, ParseError>)
    requires "type" in item && item["type"] == Kind(protocol)
    ensures var layered := WithTlsDefault(protocol, query);
            r == if NeedsTls(protocol) && Get(layered, "security") != "tls" then Err(TlsRequired) else Ok(layered)
  {
    var layered := query;
    if item["type"] == Str("trojan") || item["type"] == Str("hysteria2") {
      if Get(layered, "security") == "" {
        layered := layered["security" := ["tls"]];
      }
      if Get(layered, "security") != "tls" {
        return Err(TlsRequired);
      }
    }
    return Ok(layered);
  }

  method AddTransport(item: Object, query: Query, ghost protocol: Protocol) returns (r: Result<Object, ParseError>)
    requires "type" in item && item["type"] == Kind(protocol)
    ensures r == match ParseTransport(query)
                 case Err(e) => Err(e)
                 case Ok(transport) =>
                   if transport.Some? && !AllowsTransport(protocol) then Err(TransportNotAllowed)
                   else Ok(item + TransportField(transport))
  {
    var transport := TransportFrom(query);
    if transport.Err? {
      return Err(transport.error);
    }
    if transport.value.None? {
      assert item == item + TransportField(None);
      return Ok(item);
    }
    if item["type"] == Str("hysteria2") || item["type"] == Str("shadowsocks") {
      return Err(TransportNotAllowed);
    }
    ghost var typed := ParseTransport(query).value;
    assert item["transport" := Obj(transport.value.value)] == item + TransportField(typed);
    return Ok(item["transport" := Obj(transport.value.value)]);
  }

  /** Adding a nested object leaves the kind of the item alone. */
  method AddNested(core: Object, key: string, members: Option<Object>) returns (item: Object)
    ensures item == core + Nested(key, members)
    ensures "type" in core && key != "type" ==> "type" in item && item["type"] == core["type"]
  {
    item := core;
    if members.Some? {
      item := item[key := Obj(members.value)];
    }
  }

  method AddLayers(core: Object, query: Query, ghost url: Url, ghost port: int, ghost protocol: Protocol)
    returns (r: Result<Object, ParseError>)
    requires "type" in core && core["type"] == Kind(protocol)
    ensures match Finish(url, port, protocol, query)
            case Err(e) => r == Err(e)
            case Ok(node) => r == Ok(core + TlsField(node.tls) + TransportField(node.transport))
  {
    var layered := RequireTls(core, query, protocol);
    if layered.Err? {
      return Err(layered.error);
    }
    var tls := TlsFrom(layered.value);
    assert |"tls"| != |"type"|;
    var item := AddNested(core, "tls", tls);
    r := AddTransport(item, layered.value, protocol);
  }

  method ParseURI(uri: Uri, tag: string) returns (r: Result<Object, ParseError>)
    ensures r == ItemResult(tag, Parse(uri))
  {
    if uri.Malformed? {
      return Err(InvalidUri);
    }
    var url := uri.url;
    var scheme := ToLower(url.scheme);
    if scheme !in SCHEMES {
      return Err(UnsupportedFormat);
    }
    if url.host == "" || url.port == "" {
      return Err(MissingServerOrPort);
    }
    if url.query.None? {
      return Err(InvalidQuery);
    }
    var query := url.query.value;
    var security := Get(query, "security");
    if security != "" && security != "none" && security != "tls" && security != "reality" {
      return Err(UnsupportedSecurity);
    }
    if security == "reality" && Get(query, "pbk") == "" {
      return Err(RealityWithoutKey);
    }
    if Get(query, "plugin") != "" || Get(query, "network") != "" {
      return Err(UnsupportedOption);
    }
    var port := Atoi(url.port);
    if port.None? || port.value < 1 || port.value > 65535 {
      return Err(InvalidPort);
    }
    if url.user.None? || url.user.value.name == "" {
      return Err(MissingCredentials);
    }
    var item: Object := map["tag" := Str(tag), "server" := Str(url.host), "server_port" := Num(port.value)];
    var filled := AddProtocol(item, scheme, url.user.value, query);
    if filled.Err? {
      return Err(filled.error);
    }
    item := filled.value;
    ghost var protocol := ParseProtocol(scheme, url.user.value, query).value;
    r := AddLayers(filled.value, query, url, port.value, protocol);
    ghost var finished := Finish(url, port.value, protocol, query);
    if finished.Ok? {
      TagOnTop(tag, finished.value);
    }
  }

  lemma TagOnTop(tag: string, node: Node)
    ensures map["tag" := Str(tag), "server" := Str(node.server), "server_port" := Num(node.port)]
            + ProtocolObject(node.protocol) + TlsField(node.tls) + TransportField(node.transport) == Item(tag, node)
  {
  }
}
