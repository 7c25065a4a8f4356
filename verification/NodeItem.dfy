/** The sing-box outbound of a node, member by member. */
module NodeItem {
  import opened Wrappers
  import opened Json
  import opened NodeUri

  /** The object with the members that are there. */
  function Members(members: map<string, Option<Value>>): Object {
    map key | key in members && members[key].Some? :: members[key].value
  }

  function Text(s: string): Option<Value> {
    if s == "" then None else Some(Str(s))
  }

  function TlsShown(t: Tls): Object {
    Members(map[
      "enabled" := Some(Bool(true)),
      "server_name" := Text(t.serverName),
      "alpn" := if t.alpn == [] then None else Some(Arr(Strings(t.alpn))),
      "insecure" := if t.insecure then Some(Bool(true)) else None,
      "utls" := if t.fingerprint == "" then None
        else Some(Obj(map["enabled" := Bool(true), "fingerprint" := Str(t.fingerprint)])),
      "reality" := if t.reality.None? then None
        else Some(Obj(Members(map[
          "enabled" := Some(Bool(true)),
          "public_key" := Some(Str(t.reality.value.publicKey)),
          "short_id" := Text(t.reality.value.shortId)
        ])))
    ])
  }

  function TransportShown(x: Transport): Object {
    match x
    case Ws(path, host) => Members(map[
      "type" := Some(Str("ws")),
      "path" := Text(path),
      "headers" := if host == "" then None else Some(Obj(map["Host" := Str(host)]))
    ])
    case Grpc(name) => Members(map["type" := Some(Str("grpc")), "service_name" := Text(name)])
  }

  function ProtocolShown(protocol: Protocol): Object {
    match protocol
    case Vless(uuid, flow) => Members(map[
      "type" := Some(Str("vless")), "uuid" := Some(Str(uuid)), "flow" := Text(flow)
    ])
    case Trojan(password) => map["type" := Str("trojan"), "password" := Str(password)]
    case Hysteria2(password, obfs) => Members(map[
      "type" := Some(Str("hysteria2")),
      "password" := Some(Str(password)),
      "obfs" := if obfs == "" then None else Some(Obj(map["type" := Str("salamander"), "password" := Str(obfs)]))
    ])
    case Shadowsocks(cipher, password) =>
      map["type" := Str("shadowsocks"), "method" := Str(cipher), "password" := Str(password)]
  }

  function TlsValue(tls: Option<Tls>): Option<Value> {
    if tls.None? then None else Some(Obj(TlsShown(tls.value)))
  }

  function TransportValue(x: Option<Transport>): Option<Value> {
    if x.None? then None else Some(Obj(TransportShown(x.value)))
  }

  function FrameShown(tag: string, node: Node): Object {
    Members(map[
      "tag" := Some(Str(tag)),
      "server" := Some(Str(node.server)),
      "server_port" := Some(Num(node.port)),
      "tls" := TlsValue(node.tls),
      "transport" := TransportValue(node.transport)
    ])
  }

  lemma RealityIsShown(r: Reality)
    ensures RealityObject(r) == Members(map[
      "enabled" := Some(Bool(true)), "public_key" := Some(Str(r.publicKey)), "short_id" := Text(r.shortId)
    ])
  {
  }

  function One(key: string, value: Option<Value>): Object {
    if value.None? then map[] else map[key := value.value]
  }

  lemma MembersGrow(m: map<string, Option<Value>>, key: string, value: Option<Value>)
    requires key !in m
    ensures Members(m[key := value]) == Members(m) + One(key, value)
  {
  }

  lemma MembersAre(a: string, x: Value, b: string, y: Option<Value>, c: string, z: Option<Value>)
    requires a != b && a != c && b != c
    ensures Members(map[a := Some(x), b := y, c := z]) == map[a := x] + One(b, y) + One(c, z)
  {
  }

  lemma TlsIsShown(t: Tls)
    ensures TlsObject(t) == TlsShown(t)
  {
    var name := Text(t.serverName);
    var alpn := if t.alpn == [] then None else Some(Arr(Strings(t.alpn)));
    var insecure := if t.insecure then Some(Bool(true)) else None;
    var utls := if t.fingerprint == "" then None
      else Some(Obj(map["enabled" := Bool(true), "fingerprint" := Str(t.fingerprint)]));
    var reality := if t.reality.None? then None else Some(Obj(RealityObject(t.reality.value)));
    if t.reality.Some? {
      RealityIsShown(t.reality.value);
    }
    var m := map["enabled" := Some(Bool(true)), "server_name" := name, "alpn" := alpn];
    MembersAre("enabled", Bool(true), "server_name", name, "alpn", alpn);
    MembersGrow(m, "insecure", insecure);
    MembersGrow(m["insecure" := insecure], "utls", utls);
    MembersGrow(m["insecure" := insecure]["utls" := utls], "reality", reality);
  }

  lemma TransportIsShown(x: Transport)
    ensures TransportObject(x) == TransportShown(x)
  {
  }

  lemma ProtocolIsShown(protocol: Protocol)
    ensures ProtocolObject(protocol) == ProtocolShown(protocol)
  {
  }

  lemma Swap(a: Object, b: Object)
    requires a.Keys !! b.Keys
    ensures a + b == b + a
  {
  }

  lemma Associate(a: Object, b: Object, c: Object)
    ensures a + b + c == a + (b + c)
  {
  }

  lemma ProtocolComesLast(head: Object, protocol: Object, tls: Object, transport: Object, tag: Object)
    requires protocol.Keys !! (tls + transport + tag).Keys
    ensures head + protocol + tls + transport + tag == head + (tls + transport + tag) + protocol
  {
    Associate(head + protocol, tls, transport);
    Associate(head + protocol, tls + transport, tag);
    Associate(head, protocol, tls + transport + tag);
    Swap(protocol, tls + transport + tag);
    Associate(head, tls + transport + tag, protocol);
  }

  lemma NameComesFirst(name: Object, head: Object, t: Object, x: Object)
    requires name.Keys !! (head + t + x).Keys
    ensures head + (t + x + name) == name + head + t + x
  {
    Associate(head, t, x);
    Associate(head, t + x, name);
    Swap(name, head + t + x);
    Associate(name, head, t);
    Associate(name, head + t, x);
  }

  lemma HeadMembers(tag: Value, server: Value, port: Value)
    ensures Members(map["tag" := Some(tag), "server" := Some(server), "server_port" := Some(port)])
            == map["tag" := tag] + map["server" := server, "server_port" := port]
  {
    MembersAre("tag", tag, "server", Some(server), "server_port", Some(port));
    Associate(map["tag" := tag], map["server" := server], map["server_port" := port]);
  }

  lemma TagComesFirst(tag: Value, server: Value, port: Value, tls: Option<Value>, transport: Option<Value>)
    ensures map["server" := server, "server_port" := port]
            + (One("tls", tls) + One("transport", transport) + map["tag" := tag])
            == Members(map["tag" := Some(tag), "server" := Some(server), "server_port" := Some(port),
                 "tls" := tls, "transport" := transport])
  {
    var m := map["tag" := Some(tag), "server" := Some(server), "server_port" := Some(port)];
    HeadMembers(tag, server, port);
    MembersGrow(m, "tls", tls);
    MembersGrow(m["tls" := tls], "transport", transport);
    NameComesFirst(map["tag" := tag], map["server" := server, "server_port" := port],
      One("tls", tls), One("transport", transport));
  }

  lemma LayersAreShown(node: Node)
    ensures TlsField(node.tls) == One("tls", TlsValue(node.tls))
    ensures TransportField(node.transport) == One("transport", TransportValue(node.transport))
  {
    if node.tls.Some? {
      TlsIsShown(node.tls.value);
    }
    if node.transport.Some? {
      TransportIsShown(node.transport.value);
    }
  }

  lemma BodyIs(node: Node)
    ensures Body(node) == map["server" := Str(node.server), "server_port" := Num(node.port)]
                          + ProtocolObject(node.protocol)
                          + One("tls", TlsValue(node.tls)) + One("transport", TransportValue(node.transport))
  {
    LayersAreShown(node);
  }

  lemma ProtocolIsApart(protocol: Protocol)
    ensures "tag" !in ProtocolObject(protocol) && "tls" !in ProtocolObject(protocol)
            && "transport" !in ProtocolObject(protocol)
  {
  }

  /** An outbound has the members of its node and its protocol, and no other. */
  lemma ItemIsShown(tag: string, node: Node)
    ensures Item(tag, node) == FrameShown(tag, node) + ProtocolShown(node.protocol)
  {
    var tls, transport := One("tls", TlsValue(node.tls)), One("transport", TransportValue(node.transport));
    BodyIs(node);
    UpdateIsUnion(Body(node), "tag", Str(tag));
    ProtocolIsApart(node.protocol);
    ProtocolComesLast(map["server" := Str(node.server), "server_port" := Num(node.port)],
      ProtocolObject(node.protocol), tls, transport, map["tag" := Str(tag)]);
    TagComesFirst(Str(tag), Str(node.server), Num(node.port), TlsValue(node.tls), TransportValue(node.transport));
    ProtocolIsShown(node.protocol);
  }
}
