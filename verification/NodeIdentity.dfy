/**
 Two nodes with equal outbounds are equal nodes, so recognising repeated nodes by
 the JSON of the outbound without its tag merges nothing that differs.
 */
module NodeIdentity {
  import opened Wrappers
  import opened Json
  import opened NodeUri

  function TextAt(members: Object, key: string): string {
    if key in members && members[key].Str? then members[key].text else ""
  }

  lemma TransportRecovered(x: Transport)
    ensures var o := TransportObject(x);
            && "type" in o && o["type"] == (if x.Ws? then Str("ws") else Str("grpc"))
            && (x.Ws? ==> TextAt(o, "path") == x.path)
            && (x.Ws? ==>
                  x.host == if "headers" in o && o["headers"].Obj? then TextAt(o["headers"].fields, "Host") else "")
            && (x.Grpc? ==> TextAt(o, "service_name") == x.serviceName)
  {
  }

  lemma RealityRecovered(r: Reality)
    ensures var o := RealityObject(r);
            TextAt(o, "public_key") == r.publicKey && TextAt(o, "short_id") == r.shortId
  {
  }

  lemma TlsNameRecovered(t: Tls)
    ensures TextAt(TlsObject(t), "server_name") == t.serverName
  {
  }

  lemma TlsBasicsRecovered(t: Tls)
    ensures var o := TlsObject(t);
            && (t.alpn == [] <==> "alpn" !in o) && (t.alpn != [] ==> o["alpn"] == Arr(Strings(t.alpn)))
            && (t.insecure <==> "insecure" in o)
  {
  }

  lemma TlsExtrasRecovered(t: Tls)
    ensures var o := TlsObject(t);
            && (t.fingerprint == "" <==> "utls" !in o)
              && (t.fingerprint != "" ==> o["utls"] == Obj(UtlsObject(t.fingerprint)))
            && (t.reality.None? <==> "reality" !in o)
              && (t.reality.Some? ==> o["reality"] == Obj(RealityObject(t.reality.value)))
  {
  }

  lemma TlsIsInjective(a: Tls, b: Tls)
    requires TlsObject(a) == TlsObject(b)
    ensures a == b
  {
    TlsNameRecovered(a);
    TlsNameRecovered(b);
    TlsBasicsRecovered(a);
    TlsBasicsRecovered(b);
    TlsExtrasRecovered(a);
    TlsExtrasRecovered(b);
    if a.alpn != [] {
      StringsIsInjective(a.alpn, b.alpn);
    }
    if a.fingerprint != "" {
      assert UtlsObject(a.fingerprint)["fingerprint"] == UtlsObject(b.fingerprint)["fingerprint"];
    }
    if a.reality.Some? {
      RealityRecovered(a.reality.value);
      RealityRecovered(b.reality.value);
    }
  }

  lemma TransportIsInjective(a: Transport, b: Transport)
    requires TransportObject(a) == TransportObject(b)
    ensures a == b
  {
    TransportRecovered(a);
    TransportRecovered(b);
  }

  /** The members of the core that only the protocol decides. */
  lemma ProtocolRecovered(p: Protocol, o: Object)
    requires o == ProtocolObject(p)
    ensures o["type"] == Kind(p)
    ensures p.Vless? ==> TextAt(o, "uuid") == p.uuid && TextAt(o, "flow") == p.flow
    ensures !p.Vless? ==> TextAt(o, "password") == p.password
    ensures p.Hysteria2? ==>
              p.obfs == if "obfs" in o && o["obfs"].Obj? then TextAt(o["obfs"].fields, "password") else ""
    ensures p.Shadowsocks? ==> TextAt(o, "method") == p.cipher
  {
  }

  lemma KindsDiffer(p: Protocol, q: Protocol)
    requires Kind(p) == Kind(q)
    ensures p.Vless? == q.Vless? && p.Trojan? == q.Trojan? && p.Hysteria2? == q.Hysteria2?
              && p.Shadowsocks? == q.Shadowsocks?
  {
  }

  lemma ProtocolIsInjective(p: Protocol, q: Protocol)
    requires ProtocolObject(p) == ProtocolObject(q)
    ensures p == q
  {
    KindsDiffer(p, q);
    ProtocolRecovered(p, ProtocolObject(p));
    ProtocolRecovered(q, ProtocolObject(q));
  }

  const LAYERS: set<string> := {"server", "server_port", "tls", "transport"}

  lemma LayersRecovered(server: Value, port: Value, core: Object, tls: Option<Object>, transport: Option<Object>)
    requires core.Keys !! LAYERS
    ensures var o := map["server" := server, "server_port" := port] + core + Nested("tls", tls)
              + Nested("transport", transport);
            && "server" in o && o["server"] == server
            && "server_port" in o && o["server_port"] == port
            && (tls == if "tls" in o && o["tls"].Obj? then Some(o["tls"].fields) else None)
            && (transport == if "transport" in o && o["transport"].Obj? then Some(o["transport"].fields) else None)
            && o - LAYERS == core
  {
  }

  lemma BodyRecovered(m: Node, n: Node)
    requires Body(m) == Body(n)
    ensures m.server == n.server && m.port == n.port && ProtocolObject(m.protocol) == ProtocolObject(n.protocol)
    ensures TlsMembers(m.tls) == TlsMembers(n.tls) && TransportMembers(m.transport) == TransportMembers(n.transport)
  {
    ProtocolHasNoLayers(m.protocol);
    ProtocolHasNoLayers(n.protocol);
    LayersRecovered(Str(m.server), Num(m.port), ProtocolObject(m.protocol), TlsMembers(m.tls),
      TransportMembers(m.transport));
    LayersRecovered(Str(n.server), Num(n.port), ProtocolObject(n.protocol), TlsMembers(n.tls),
      TransportMembers(n.transport));
  }

  lemma ProtocolHasNoLayers(p: Protocol)
    ensures ProtocolObject(p).Keys !! LAYERS
  {
  }

  lemma BodyIsInjective(m: Node, n: Node)
    ensures Body(m) == Body(n) <==> m == n
  {
    if Body(m) == Body(n) {
      BodyRecovered(m, n);
      ProtocolIsInjective(m.protocol, n.protocol);
      if m.tls.Some? {
        TlsIsInjective(m.tls.value, n.tls.value);
      }
      if m.transport.Some? {
        TransportIsInjective(m.transport.value, n.transport.value);
      }
    }
  }
}
