/** Laws of listener reconciliation: the generator and the differ agree, different service ports
    never meet on one listener, and a listener finds its service port back. */
module ListenerLaws {
  import opened Wrappers
  import opened Apis
  import opened Sequences
  import opened CloudModel
  import opened AnnotationParsers
  import opened ServiceConfig
  import opened Listeners
  import opened Backends

  // ---------- Generator and differ ----------

  /** Two listeners that differ at most in certificates beside those asked for, and in what the differ ignores. */
  predicate SameListener(s: ListenerSpec, asked: ListenerSpec) {
    && s.port == asked.port && s.protocol == asked.protocol && s.balanceMode == asked.balanceMode
    && s.checkMethod == asked.checkMethod && s.checkOption == asked.checkOption
    && s.timeout == asked.timeout && s.scene == asked.scene
    && s.forwardfor == asked.forwardfor && s.option == asked.option
    && forall x | x in asked.certificates :: x in s.certificates
  }

  /** The differ keeps a listener for a port exactly when it is, in what it compares, the
      listener the generator would make. */
  lemma MatchIsAgreement(s: ListenerSpec, a: Attrs, p: ServicePort)
    requires Generable(a, p)
    ensures SpecMatches(s, a, p) <==> SameListener(s, SpecFor(a, s.lb, s.name, p))
  {
  }

  /** The listeners made for some ports, once their backends are on the node ports, leave the
      differ nothing to delete and nothing to add. */
  lemma GeneratedNeedNothing(ls: seq<Listener>, a: Attrs, lb: string, name: string, ports: seq<ServicePort>)
    requires AllGenerable(a, ports) && |ls| == |ports|
    requires forall i | 0 <= i < |ls| ::
             ls[i].spec == SpecFor(a, lb, name, ports[i]) && FirstPort(ls[i]) == ports[i].nodePort
    ensures Unserved(ports, ls, a) == [] && Stale(ls, ports, a) == [] && Kept(ls, ports, a) == ls
  {
    forall i | 0 <= i < |ls| ensures Matches(ls[i], a, ports[i]) {
      MatchIsAgreement(ls[i].spec, a, ports[i]);
    }
    PickNone(ports, NotServedBy(ls, a));
    PickNone(ls, NotWantedFor(ports, a));
    PickAll(ls, WantedFor(ports, a));
  }

  // ---------- Transports ----------

  /** The protocol annotation, if any, stays on the transport of the service port. */
  predicate TransportKept(a: Attrs, p: ServicePort) {
    p.protocol != SCTP && Transport(ProtocolFor(a, p)) == p.protocol
  }

  ghost predicate DistinctPorts(ports: seq<ServicePort>) {
    forall i, j | 0 <= i < j < |ports| :: ports[i].port != ports[j].port || ports[i].protocol != ports[j].protocol
  }

  /** What the reconciler relies on in the ports of a Service. */
  ghost predicate PortsOK(a: Attrs, ports: seq<ServicePort>) {
    DistinctPorts(ports) && forall i | 0 <= i < |ports| :: TransportKept(a, ports[i])
  }

  /** Listeners for different service ports never take each other's place. */
  lemma DifferentPortsApart(s: ListenerSpec, t: ListenerSpec, a: Attrs, p: ServicePort, q: ServicePort)
    requires TransportKept(a, p) && TransportKept(a, q)
    requires s.port == p.port && s.protocol == ProtocolFor(a, p)
    requires t.port == q.port && t.protocol == ProtocolFor(a, q)
    ensures Clash(s, t) <==> s.lb == t.lb && p.port == q.port && p.protocol == q.protocol
  {
  }

  /** Among the protocols the generator uses, a service port carries those of its transport. */
  lemma CarriesTransport(protocol: string, p: Protocol)
    requires protocol in ["http", "https", "tcp", "udp"]
    ensures Carries(protocol, p) <==> Transport(protocol) == p
  {
    LowerLiterals();
  }

  lemma {:induction false} PortFoundCarried(protocol: string, port: int, ports: seq<ServicePort>)
    ensures var found := PortFound(protocol, port, ports);
            found.Some? ==> found.value in ports && found.value.port == port && Carries(protocol, found.value.protocol)
  {
    if ports != [] { PortFoundCarried(protocol, port, ports[1..]); }
  }

  lemma {:induction false} PortFoundFirst(protocol: string, ports: seq<ServicePort>, i: nat)
    requires DistinctPorts(ports) && i < |ports|
    requires protocol in ["http", "https", "tcp", "udp"]
    ensures PortFound(protocol, ports[i].port, ports) == Some(ports[i]) <==> Transport(protocol) == ports[i].protocol
  {
    CarriesTransport(protocol, ports[0].protocol);
    if i == 0 {
      PortFoundCarried(protocol, ports[0].port, ports[1..]);
    } else {
      CarriesTransport(protocol, ports[i].protocol);
      PortFoundFirst(protocol, ports[1..], i - 1);
    }
  }

  lemma ProtocolValues(a: Attrs, p: ServicePort)
    requires p.protocol != SCTP
    ensures ProtocolFor(a, p) in ["http", "https", "tcp", "udp"]
  {
  }

  /** A listener made for a service port finds its way back to that port, and so to its node port,
      exactly when the protocol annotation keeps the transport. */
  lemma NodePortFoundIff(a: Attrs, lb: string, name: string, ports: seq<ServicePort>, i: nat)
    requires DistinctPorts(ports) && i < |ports| && ports[i].protocol != SCTP
    ensures var s := SpecFor(a, lb, name, ports[i]);
            PortFound(s.protocol, s.port, ports) == Some(ports[i]) <==> TransportKept(a, ports[i])
  {
    ProtocolValues(a, ports[i]);
    PortFoundFirst(ProtocolFor(a, ports[i]), ports, i);
  }

  /** When the annotation moves a UDP port to TCP, no node port is found for its listener. */
  lemma MovedTransportHasNoNodePort(a: Attrs, p: ServicePort)
    requires p.protocol == UDP && p.port in a.protocols && a.protocols[p.port] == "tcp"
    ensures Generable(a, p) && NodePortFor(Listener(0, SpecFor(a, "", "", p), []), [p]) == None
  {
    LowerLiterals();
    assert PortFound("tcp", p.port, [p]) == PortFound("tcp", p.port, []);
  }

  // ---------- Selections ----------

  /** Of the listeners that serve a port on one load balancer there is one, by port and transport. */
  lemma ServersMeet(l: Listener, m: Listener, a: Attrs, p: ServicePort)
    requires SpecMatches(l.spec, a, p) && SpecMatches(m.spec, a, p) && l.spec.lb == m.spec.lb
    ensures Clash(l.spec, m.spec)
  {
  }

  /** A listener serves one port: matching two service ports makes them equal in port and protocol. */
  lemma ServesOnePort(l: Listener, a: Attrs, p: ServicePort, q: ServicePort)
    requires TransportKept(a, p) && TransportKept(a, q)
    requires SpecMatches(l.spec, a, p) && SpecMatches(l.spec, a, q)
    ensures p.port == q.port && p.protocol == q.protocol
  {
  }

  // ---------- Validation ----------

  /** A configuration that was accepted leaves no parser anything to complain about, and all
      listeners made from it have a timeout and a scene the cloud knows. */
  lemma ValidatedConfig(qc: CloudConfig, svc: Service, lb: string, p: ServicePort)
    requires Parses(svc)
    ensures AttrsParse(ConfigOf(qc, svc).listener)
    ensures var s := SpecFor(AttrsOf(ConfigOf(qc, svc).listener), lb, ConfigOf(qc, svc).listenerName, p);
            LISTENER_TIMEOUT_MIN <= s.timeout <= LISTENER_TIMEOUT_MAX && s.scene in LISTENER_SCENES
  {
  }
}
