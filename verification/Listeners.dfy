/** Listener reconciliation (pkg/qingcloud/loadbalancer_utils.go): what a service port asks of a
    listener, generating such listeners, and telling which of the present ones to keep. */
module Listeners {
  import opened Wrappers
  import opened Apis
  import opened Sequences
  import opened CloudModel
  import opened AnnotationParsers
  import opened ServiceConfig

  const DEFAULT_CHECK_OPTION := "10|5|2|5"
  const DEFAULT_BALANCE_MODE := "roundrobin"
  const DEFAULT_TIMEOUT := 50
  const DEFAULT_SCENE := 0
  const DEFAULT_FORWARDFOR := 0
  const DEFAULT_LISTENER_OPTION := 0

  // ---------- Parsing the annotations of a configuration ----------

  datatype HealthCheck = HealthCheck(method_: Option<string>, option: Option<string>)

  /** A missing annotation reads as no entries. */
  function TextData(value: Option<string>): Option<map<int, string>> {
    if value.None? then Some(map[]) else LsnData(value.value)
  }

  function NumberData(value: Option<string>): Option<map<int, int>> {
    if value.None? then Some(map[]) else IntData(value.value)
  }

  /** Entries of an annotation whose parse error is ignored. */
  function Entries<T>(parsed: Option<map<int, T>>): map<int, T> {
    if parsed.Some? then parsed.value else map[]
  }

  /** The error of the health check annotations is that of the last one present. */
  predicate ChecksParse(c: ListenerAttrs) {
    if c.checkOption.Some? then TextData(c.checkOption).Some? else TextData(c.checkMethod).Some?
  }

  /** The listener annotations, read: per attribute the values by port. */
  datatype Attrs = Attrs(
    methods: map<int, string>,
    options: map<int, string>,
    modes: map<int, string>,
    certificates: map<int, string>,
    protocols: map<int, string>,
    timeouts: map<int, int>,
    scenes: map<int, int>,
    forwardfors: map<int, int>,
    listenerOptions: map<int, int>)

  /** What the reconciler reads out of the annotations when it ignores parse errors. */
  function AttrsOf(c: ListenerAttrs): Attrs {
    Attrs(
      methods := if ChecksParse(c) then Entries(TextData(c.checkMethod)) else map[],
      options := if ChecksParse(c) then Entries(TextData(c.checkOption)) else map[],
      modes := Entries(TextData(c.balanceMode)),
      certificates := Entries(TextData(c.certificate)),
      protocols := Entries(TextData(c.protocol)),
      timeouts := Entries(NumberData(c.timeout)),
      scenes := Entries(NumberData(c.scene)),
      forwardfors := Entries(NumberData(c.forwardfor)),
      listenerOptions := Entries(NumberData(c.listenerOption)))
  }

  function At<T>(m: map<int, T>, port: int): Option<T> {
    if port in m then Some(m[port]) else None
  }

  /** The health check configured for a port, in whole or in part. */
  function CheckFor(a: Attrs, port: int): HealthCheck {
    HealthCheck(At(a.methods, port), At(a.options, port))
  }

  /** `parseBalanceMode` and its like. */
  method ParseText(value: Option<string>) returns (r: Option<map<int, string>>)
    ensures r == TextData(value)
  {
    if value.None? { return Some(map[]); }
    r := ParseLsnAnnotaionData(value.value);
  }

  /** `parseTimeout` and its like. */
  method ParseNumber(value: Option<string>) returns (r: Option<map<int, int>>)
    ensures r == NumberData(value)
  {
    if value.None? { return Some(map[]); }
    r := ParseAnnotationIntoIntIntMap(value.value);
  }

  function CheckAt(checks: map<int, HealthCheck>, port: int): HealthCheck {
    if port in checks then checks[port] else HealthCheck(None, None)
  }

  /** Merges the two health check annotations, port by port. */
  method ParseHeathyCheck(c: ListenerAttrs) returns (ok: bool, checks: map<int, HealthCheck>)
    ensures ok == ChecksParse(c)
    ensures forall port :: CheckAt(checks, port) == CheckFor(AttrsOf(c), port)
  {
    checks := map[];
    var methods := ParseText(c.checkMethod);
    var options := ParseText(c.checkOption);
    ok := if c.checkOption.Some? then options.Some? else methods.Some?;
    if !ok { return; }
    var ms, os := Entries(methods), Entries(options);
    var methodPorts := Enumerate(ms.Keys);
    for i := 0 to |methodPorts|
      invariant forall port :: CheckAt(checks, port)
                               == HealthCheck(if port in methodPorts[..i]
                                              && port in ms then Some(ms[port]) else None, None)
    {
      var port := methodPorts[i];
      assert port in methodPorts;
      assert methodPorts[..i + 1] == methodPorts[..i] + [port];
      checks := checks[port := HealthCheck(Some(ms[port]), None)];
    }
    assert methodPorts[..|methodPorts|] == methodPorts;
    var optionPorts := Enumerate(os.Keys);
    for i := 0 to |optionPorts|
      invariant forall port :: CheckAt(checks, port)
                               == HealthCheck(At(ms, port), if port in optionPorts[..i]
                                              && port in os then Some(os[port]) else None)
    {
      var port := optionPorts[i];
      assert port in optionPorts;
      assert optionPorts[..i + 1] == optionPorts[..i] + [port];
      if port in checks {
        checks := checks[port := checks[port].(option := Some(os[port]))];
      } else {
        checks := checks[port := HealthCheck(None, Some(os[port]))];
      }
    }
    assert optionPorts[..|optionPorts|] == optionPorts;
  }

  // ---------- Looking up one port ----------

  function GetHealthyCheck(check: HealthCheck, protocol: string): (string, string) {
    (if check.method_.Some? then check.method_.value else protocol,
     if check.option.Some? then check.option.value else DEFAULT_CHECK_OPTION)
  }

  function GetBalanceMode(modes: map<int, string>, port: int): string {
    if port in modes && modes[port] != "" then modes[port] else DEFAULT_BALANCE_MODE
  }

  function GetCertificate(certs: map<int, string>, port: int): Option<string> {
    if port in certs && certs[port] != "" then Some(certs[port]) else None
  }

  function GetProtocol(protocols: map<int, string>, port: int): Option<string> {
    var p := if port in protocols then protocols[port] else "";
    if p == "https" || p == "HTTPS" then Some("https")
    else if p == "http" || p == "HTTP" then Some("http")
    else if p == "tcp" || p == "TCP" then Some("tcp")
    else if p == "udp" || p == "UDP" then Some("udp")
    else None
  }

  function GetNumber(numbers: map<int, int>, port: int, default: int): int {
    if port in numbers then numbers[port] else default
  }

  // ---------- What a port asks for ----------

  function ProtocolFor(a: Attrs, p: ServicePort): string {
    var annotated := GetProtocol(a.protocols, p.port);
    if annotated.Some? then annotated.value else p.protocol.Lower()
  }

  /** The listener the generator makes for a port. */
  function SpecFor(a: Attrs, lb: string, name: string, p: ServicePort): ListenerSpec {
    var check := GetHealthyCheck(CheckFor(a, p.port), p.protocol.Lower());
    var protocol := ProtocolFor(a, p);
    var certificate := GetCertificate(a.certificates, p.port);
    ListenerSpec(
      lb := lb,
      name := name,
      port := p.port,
      protocol := protocol,
      backendProtocol := if protocol == "http" || protocol == "https" then "http" else p.protocol.Lower(),
      balanceMode := GetBalanceMode(a.modes, p.port),
      checkMethod := check.0,
      checkOption := check.1,
      certificates := if protocol == "https" && certificate.Some? then [certificate.value] else [],
      timeout := GetNumber(a.timeouts, p.port, DEFAULT_TIMEOUT),
      scene := GetNumber(a.scenes, p.port, DEFAULT_SCENE),
      forwardfor := GetNumber(a.forwardfors, p.port, DEFAULT_FORWARDFOR),
      option := GetNumber(a.listenerOptions, p.port, DEFAULT_LISTENER_OPTION))
  }

  /** The transport is one the load balancer knows, and https comes with a certificate. */
  predicate Generable(a: Attrs, p: ServicePort) {
    && p.protocol != SCTP
    && (ProtocolFor(a, p) == "https" ==> GetCertificate(a.certificates, p.port).Some?)
  }

  predicate AllGenerable(a: Attrs, ports: seq<ServicePort>) {
    ports != [] && forall i | 0 <= i < |ports| :: Generable(a, ports[i])
  }

  predicate AttrsParse(c: ListenerAttrs) {
    && ChecksParse(c)
    && TextData(c.balanceMode).Some? && TextData(c.certificate).Some? && TextData(c.protocol).Some?
    && NumberData(c.timeout).Some? && NumberData(c.scene).Some?
    && NumberData(c.forwardfor).Some? && NumberData(c.listenerOption).Some?
  }

  // ---------- What counts as serving a port ----------

  predicate EqualCertificate(certificates: seq<string>, wanted: Option<string>) {
    if wanted.None? then certificates == [] else wanted.value in certificates
  }

  predicate EqualProtocol(s: ListenerSpec, a: Attrs, p: ServicePort) {
    && s.protocol == ProtocolFor(a, p)
    && (s.protocol == "https" ==> EqualCertificate(s.certificates, GetCertificate(a.certificates, p.port)))
  }

  predicate SpecMatches(s: ListenerSpec, a: Attrs, p: ServicePort) {
    && s.port == p.port
    && s.balanceMode == GetBalanceMode(a.modes, p.port)
    && GetHealthyCheck(CheckFor(a, p.port), p.protocol.Lower()) == (s.checkMethod, s.checkOption)
    && EqualProtocol(s, a, p)
    && s.timeout == GetNumber(a.timeouts, p.port, DEFAULT_TIMEOUT)
    && s.scene == GetNumber(a.scenes, p.port, DEFAULT_SCENE)
    && s.forwardfor == GetNumber(a.forwardfors, p.port, DEFAULT_FORWARDFOR)
    && s.option == GetNumber(a.listenerOptions, p.port, DEFAULT_LISTENER_OPTION)
  }

  // ---------- The same, told from the annotation texts ----------

  /** The port is annotated https, or so in capitals. */
  ghost predicate SaysHttps(c: ListenerAttrs, port: int) {
    Said(c.protocol, port) == Some("https") || Said(c.protocol, port) == Some("HTTPS")
  }

  ghost predicate SaysHttp(c: ListenerAttrs, port: int) {
    Said(c.protocol, port) == Some("http") || Said(c.protocol, port) == Some("HTTP")
  }

  ghost predicate SaysTcp(c: ListenerAttrs, port: int) {
    Said(c.protocol, port) == Some("tcp") || Said(c.protocol, port) == Some("TCP")
  }

  ghost predicate SaysUdp(c: ListenerAttrs, port: int) {
    Said(c.protocol, port) == Some("udp") || Said(c.protocol, port) == Some("UDP")
  }

  /** The text is the protocol of the service port in small letters. */
  ghost predicate ServiceProtocol(text: string, p: ServicePort) {
    && (p.protocol.TCP? ==> text == "tcp") && (p.protocol.UDP? ==> text == "udp")
    && (p.protocol.SCTP? ==> text == "sctp")
  }

  /** One of four annotated protocols counts; anything else leaves that of the service port. */
  ghost predicate ProtocolSuits(protocol: string, c: ListenerAttrs, p: ServicePort) {
    && (SaysHttps(c, p.port) ==> protocol == "https") && (SaysHttp(c, p.port) ==> protocol == "http")
    && (SaysTcp(c, p.port) ==> protocol == "tcp") && (SaysUdp(c, p.port) ==> protocol == "udp")
    && (!SaysHttps(c, p.port) && !SaysHttp(c, p.port) && !SaysTcp(c, p.port) && !SaysUdp(c, p.port) ==>
         ServiceProtocol(protocol, p))
  }

  /** The text said for a port, unless that is empty. */
  ghost predicate SaysText(text: Option<string>, port: int, value: string) {
    Said(text, port) == Some(value) && value != ""
  }

  /** What a health check says counts, unless the option annotation cannot be read. */
  ghost predicate ChecksLost(c: ListenerAttrs) {
    c.checkOption.Some? && LsnData(c.checkOption.value).None?
  }

  ghost predicate ChecksSuit(s: ListenerSpec, c: ListenerAttrs, p: ServicePort) {
    && (if Said(c.checkMethod, p.port).Some? && !ChecksLost(c) then Said(c.checkMethod, p.port) == Some(s.checkMethod)
        else ServiceProtocol(s.checkMethod, p))
    && s.checkOption == if Said(c.checkOption, p.port).Some? then Said(c.checkOption, p.port).value else "10|5|2|5"
  }

  /** The balance mode said for a port, else round robin. */
  ghost predicate ModeSuits(mode: string, c: ListenerAttrs, port: int) {
    SaysText(c.balanceMode, port, mode) || (mode == "roundrobin" && forall x :: !SaysText(c.balanceMode, port, x))
  }

  /** The number said for a port, else the one given. */
  ghost predicate NumberSuits(number: int, text: Option<string>, port: int, otherwise: int) {
    number == if SaidNumber(text, port).Some? then SaidNumber(text, port).value else otherwise
  }

  ghost predicate SettingsSuit(s: ListenerSpec, c: ListenerAttrs, p: ServicePort) {
    && s.port == p.port && ProtocolSuits(s.protocol, c, p) && ChecksSuit(s, c, p)
    && ModeSuits(s.balanceMode, c, p.port)
    && NumberSuits(s.timeout, c.timeout, p.port, 50) && NumberSuits(s.scene, c.scene, p.port, 0)
    && NumberSuits(s.forwardfor, c.forwardfor, p.port, 0) && NumberSuits(s.option, c.listenerOption, p.port, 0)
  }

  /** The listener is one for this port: an https listener has the port's certificate, perhaps among others. */
  ghost predicate Suits(s: ListenerSpec, c: ListenerAttrs, p: ServicePort) {
    && SettingsSuit(s, c, p)
    && (s.protocol == "https" ==>
         && (forall cert | SaysText(c.certificate, p.port, cert) :: cert in s.certificates)
         && ((forall cert :: !SaysText(c.certificate, p.port, cert)) ==> s.certificates == []))
  }

  /** The listener is one as made for this port: https goes with exactly the port's certificate, http and https with
      http to the backends. */
  ghost predicate MadeFor(s: ListenerSpec, c: ListenerAttrs, p: ServicePort) {
    && SettingsSuit(s, c, p)
    && (if s.protocol == "https" then |s.certificates| == 1 && SaysText(c.certificate, p.port, s.certificates[0])
        else s.certificates == [])
    && (if s.protocol == "https" || s.protocol == "http" then s.backendProtocol == "http"
        else ServiceProtocol(s.backendProtocol, p))
  }

  /** A listener can be made for the port: it is TCP or UDP, and there is a certificate if it is annotated https. */
  ghost predicate CanBeMade(c: ListenerAttrs, p: ServicePort) {
    !p.protocol.SCTP? && (SaysHttps(c, p.port) ==> exists cert :: SaysText(c.certificate, p.port, cert))
  }

  lemma SaidIsAt(c: ListenerAttrs, port: int)
    ensures Said(c.protocol, port) == At(AttrsOf(c).protocols, port)
    ensures Said(c.balanceMode, port) == At(AttrsOf(c).modes, port)
    ensures Said(c.certificate, port) == At(AttrsOf(c).certificates, port)
    ensures SaidNumber(c.timeout, port) == At(AttrsOf(c).timeouts, port)
    ensures SaidNumber(c.scene, port) == At(AttrsOf(c).scenes, port)
    ensures SaidNumber(c.forwardfor, port) == At(AttrsOf(c).forwardfors, port)
    ensures SaidNumber(c.listenerOption, port) == At(AttrsOf(c).listenerOptions, port)
  {
  }

  lemma ProtocolsDiffer()
    ensures "https" != "http" && "https" != "HTTPS" && "https" != "HTTP" && "https" != "tcp" && "https" != "TCP"
    ensures "https" != "udp" && "https" != "UDP" && "HTTPS" != "http" && "HTTPS" != "HTTP" && "HTTPS" != "tcp"
    ensures "HTTPS" != "TCP" && "HTTPS" != "udp" && "HTTPS" != "UDP" && "http" != "HTTP" && "http" != "tcp"
    ensures "http" != "TCP" && "http" != "udp" && "http" != "UDP" && "HTTP" != "tcp" && "HTTP" != "TCP"
    ensures "HTTP" != "udp" && "HTTP" != "UDP" && "tcp" != "TCP" && "tcp" != "udp" && "tcp" != "UDP"
    ensures "TCP" != "udp" && "TCP" != "UDP" && "udp" != "UDP"
  {
    assert "https"[0] == 'h' && "HTTPS"[0] == 'H' && "http"[0] == 'h' && "HTTP"[0] == 'H';
    assert "tcp"[0] == 't' && "TCP"[0] == 'T' && "udp"[0] == 'u' && "UDP"[0] == 'U';
  }

  /** What is made of an annotated protocol. */
  lemma GetProtocolSays(protocols: map<int, string>, port: int)
    ensures var said := At(protocols, port);
            var r := GetProtocol(protocols, port);
            && (r == Some("https") <==> said == Some("https") || said == Some("HTTPS"))
            && (r == Some("http") <==> said == Some("http") || said == Some("HTTP"))
            && (r == Some("tcp") <==> said == Some("tcp") || said == Some("TCP"))
            && (r == Some("udp") <==> said == Some("udp") || said == Some("UDP"))
            && (r == None || r == Some("https") || r == Some("http") || r == Some("tcp") || r == Some("udp"))
  {
    ProtocolsDiffer();
    assert |""| == 0;
  }

  lemma ProtocolSuitsIff(protocol: string, c: ListenerAttrs, p: ServicePort)
    ensures protocol == ProtocolFor(AttrsOf(c), p) <==> ProtocolSuits(protocol, c, p)
  {
    SaidIsAt(c, p.port);
    GetProtocolSays(AttrsOf(c).protocols, p.port);
    ProtocolsDiffer();
  }

  lemma ModeSuitsIff(mode: string, c: ListenerAttrs, port: int)
    ensures mode == GetBalanceMode(AttrsOf(c).modes, port) <==> ModeSuits(mode, c, port)
  {
    SaidIsAt(c, port);
    assert forall x :: SaysText(c.balanceMode, port, x) <==> At(AttrsOf(c).modes, port) == Some(x) && x != "";
  }

  lemma ChecksSuitIff(s: ListenerSpec, c: ListenerAttrs, p: ServicePort)
    ensures ChecksSuit(s, c, p) <==>
            GetHealthyCheck(CheckFor(AttrsOf(c), p.port), p.protocol.Lower()) == (s.checkMethod, s.checkOption)
  {
    assert At(AttrsOf(c).options, p.port) == Said(c.checkOption, p.port);
    assert At(AttrsOf(c).methods, p.port) == if ChecksLost(c) then None else Said(c.checkMethod, p.port);
  }

  lemma SettingsSuitIff(s: ListenerSpec, c: ListenerAttrs, p: ServicePort)
    ensures SettingsSuit(s, c, p) <==>
            var a := AttrsOf(c);
            && s.port == p.port && s.protocol == ProtocolFor(a, p)
            && GetHealthyCheck(CheckFor(a, p.port), p.protocol.Lower()) == (s.checkMethod, s.checkOption)
            && s.balanceMode == GetBalanceMode(a.modes, p.port)
            && s.timeout == GetNumber(a.timeouts, p.port, DEFAULT_TIMEOUT)
            && s.scene == GetNumber(a.scenes, p.port, DEFAULT_SCENE)
            && s.forwardfor == GetNumber(a.forwardfors, p.port, DEFAULT_FORWARDFOR)
            && s.option == GetNumber(a.listenerOptions, p.port, DEFAULT_LISTENER_OPTION)
  {
    ProtocolSuitsIff(s.protocol, c, p);
    ModeSuitsIff(s.balanceMode, c, p.port);
    ChecksSuitIff(s, c, p);
    SaidIsAt(c, p.port);
  }

  lemma CertificateSaid(c: ListenerAttrs, port: int)
    ensures forall cert :: SaysText(c.certificate, port, cert) <==>
            GetCertificate(AttrsOf(c).certificates, port) == Some(cert)
  {
  }

  /** What the differ takes for a port's listener is told by the annotation texts alone. */
  lemma SuitsIff(s: ListenerSpec, c: ListenerAttrs, p: ServicePort)
    ensures SpecMatches(s, AttrsOf(c), p) <==> Suits(s, c, p)
  {
    SettingsSuitIff(s, c, p);
    CertificateSaid(c, p.port);
  }

  /** And so is what can be made, and what is made. */
  lemma CanBeMadeIff(c: ListenerAttrs, p: ServicePort)
    ensures Generable(AttrsOf(c), p) <==> CanBeMade(c, p)
  {
    ProtocolSuitsIff(ProtocolFor(AttrsOf(c), p), c, p);
    CertificateSaid(c, p.port);
    if GetCertificate(AttrsOf(c).certificates, p.port).Some? {
      assert SaysText(c.certificate, p.port, GetCertificate(AttrsOf(c).certificates, p.port).value);
    }
  }

  lemma MadeForIff(s: ListenerSpec, c: ListenerAttrs, p: ServicePort)
    requires Generable(AttrsOf(c), p)
    ensures s == SpecFor(AttrsOf(c), s.lb, s.name, p) <==> MadeFor(s, c, p)
  {
    SettingsSuitIff(s, c, p);
    CertificateSaid(c, p.port);
  }

  /** The port of a listener's first backend; 0 when it has none. */
  function FirstPort(l: Listener): int {
    if l.backends == [] then 0 else l.backends[0].port
  }

  predicate Matches(l: Listener, a: Attrs, p: ServicePort) {
    FirstPort(l) == p.nodePort && SpecMatches(l.spec, a, p)
  }

  predicate Served(p: ServicePort, ls: seq<Listener>, a: Attrs) {
    exists i | 0 <= i < |ls| :: Matches(ls[i], a, p)
  }

  predicate Wanted(l: Listener, ports: seq<ServicePort>, a: Attrs) {
    exists i | 0 <= i < |ports| :: Matches(l, a, ports[i])
  }

  function NotServedBy(ls: seq<Listener>, a: Attrs): ServicePort -> bool {
    (p: ServicePort) => !Served(p, ls, a)
  }

  function WantedFor(ports: seq<ServicePort>, a: Attrs): Listener -> bool {
    (l: Listener) => Wanted(l, ports, a)
  }

  function NotWantedFor(ports: seq<ServicePort>, a: Attrs): Listener -> bool {
    (l: Listener) => !Wanted(l, ports, a)
  }

  /** The ports no listener serves, in their order. */
  function Unserved(ports: seq<ServicePort>, ls: seq<Listener>, a: Attrs): seq<ServicePort> {
    Pick(ports, NotServedBy(ls, a))
  }

  function Stale(ls: seq<Listener>, ports: seq<ServicePort>, a: Attrs): seq<Listener> {
    Pick(ls, NotWantedFor(ports, a))
  }

  function Kept(ls: seq<Listener>, ports: seq<ServicePort>, a: Attrs): seq<Listener> {
    Pick(ls, WantedFor(ports, a))
  }

  function ListenerIds(ls: seq<Listener>): (r: seq<nat>)
    ensures |r| == |ls|
    ensures forall i | 0 <= i < |r| :: r[i] == ls[i].id
  {
    seq(|ls|, i requires 0 <= i < |ls| => ls[i].id)
  }

  lemma ListenerIdsSnoc(ls: seq<Listener>, l: Listener)
    ensures ListenerIds(ls + [l]) == ListenerIds(ls) + [l.id]
  {
  }

  // ---------- The differ ----------

  /** The annotations parsed once, before the ports are compared. */
  datatype Parsed = Parsed(checks: map<int, HealthCheck>, attrs: Attrs)

  ghost predicate ParsedFrom(v: Parsed, a: Attrs) {
    && (forall port :: CheckAt(v.checks, port) == CheckFor(a, port))
    && v.attrs == a.(methods := v.attrs.methods, options := v.attrs.options)
  }

  /** The comparison of one listener with one port, as the differ makes it. */
  predicate Compare(s: ListenerSpec, nodePort: int, v: Parsed, p: ServicePort) {
    && s.port == p.port
    && nodePort == p.nodePort
    && s.balanceMode == GetBalanceMode(v.attrs.modes, p.port)
    && GetHealthyCheck(CheckAt(v.checks, p.port), p.protocol.Lower()) == (s.checkMethod, s.checkOption)
    && EqualProtocol(s, v.attrs, p)
    && s.timeout == GetNumber(v.attrs.timeouts, p.port, DEFAULT_TIMEOUT)
    && s.scene == GetNumber(v.attrs.scenes, p.port, DEFAULT_SCENE)
    && s.forwardfor == GetNumber(v.attrs.forwardfors, p.port, DEFAULT_FORWARDFOR)
    && s.option == GetNumber(v.attrs.listenerOptions, p.port, DEFAULT_LISTENER_OPTION)
  }

  method ParseForDiff(c: ListenerAttrs) returns (v: Parsed)
    ensures ParsedFrom(v, AttrsOf(c))
  {
    var _, checks := ParseHeathyCheck(c);
    var modes := ParseText(c.balanceMode);
    var certs := ParseText(c.certificate);
    var protocols := ParseText(c.protocol);
    var timeouts := ParseNumber(c.timeout);
    var scenes := ParseNumber(c.scene);
    var forwardfors := ParseNumber(c.forwardfor);
    var options := ParseNumber(c.listenerOption);
    v := Parsed(checks, Attrs(map[], map[], Entries(modes), Entries(certs), Entries(protocols), Entries(timeouts),
                              Entries(scenes), Entries(forwardfors), Entries(options)));
  }

  /** The node port each listener forwards to, read off its first backend. */
  method NodePorts(listeners: seq<Listener>) returns (nodePorts: map<nat, int>)
    requires DistinctListeners(listeners)
    ensures forall i | 0 <= i < |listeners| :: NodePortAt(nodePorts, listeners[i].id) == FirstPort(listeners[i])
  {
    nodePorts := map[];
    for i := 0 to |listeners|
      invariant forall j | 0 <= j < i :: NodePortAt(nodePorts, listeners[j].id) == FirstPort(listeners[j])
      invariant forall j | i <= j < |listeners| :: listeners[j].id !in nodePorts
    {
      if |listeners[i].backends| > 0 {
        nodePorts := nodePorts[listeners[i].id := listeners[i].backends[0].port];
      }
    }
  }

  /** Go's lookup of a missing key gives 0. */
  function NodePortAt(nodePorts: map<nat, int>, id: nat): int {
    if id in nodePorts then nodePorts[id] else 0
  }

  method CompareListener(listener: Listener, nodePort: int, v: Parsed, ghost a: Attrs, p: ServicePort)
    returns (same: bool)
    requires ParsedFrom(v, a) && nodePort == FirstPort(listener)
    ensures same == Matches(listener, a, p)
  {
    same := Compare(listener.spec, nodePort, v, p);
  }

  method FindServer(listeners: seq<Listener>, nodePorts: map<nat, int>, v: Parsed, ghost a: Attrs, p: ServicePort)
    returns (found: bool)
    requires ParsedFrom(v, a)
    requires forall i | 0 <= i < |listeners| :: NodePortAt(nodePorts, listeners[i].id) == FirstPort(listeners[i])
    ensures found == Served(p, listeners, a)
  {
    found := false;
    for i := 0 to |listeners|
      invariant found == exists j | 0 <= j < i :: Matches(listeners[j], a, p)
    {
      found := CompareListener(listeners[i], NodePortAt(nodePorts, listeners[i].id), v, a, p);
      if found { return; }
    }
  }

  method FindPort(listener: Listener, nodePort: int, v: Parsed, ghost a: Attrs, ports: seq<ServicePort>)
    returns (found: bool)
    requires ParsedFrom(v, a) && nodePort == FirstPort(listener)
    ensures found == Wanted(listener, ports, a)
  {
    for i := 0 to |ports|
      invariant forall j | 0 <= j < i :: !Matches(listener, a, ports[j])
    {
      var same := CompareListener(listener, nodePort, v, a, ports[i]);
      if same { return true; }
    }
    return false;
  }

  method UnservedPorts(listeners: seq<Listener>, nodePorts: map<nat, int>, v: Parsed, ghost a: Attrs,
                       ports: seq<ServicePort>)
    returns (toAdd: seq<ServicePort>)
    requires ParsedFrom(v, a)
    requires forall i | 0 <= i < |listeners| :: NodePortAt(nodePorts, listeners[i].id) == FirstPort(listeners[i])
    ensures toAdd == Unserved(ports, listeners, a)
  {
    toAdd := [];
    ghost var keep := NotServedBy(listeners, a);
    for i := 0 to |ports|
      invariant toAdd == Pick(ports[..i], keep)
    {
      var served := FindServer(listeners, nodePorts, v, a, ports[i]);
      PickStep(ports, i, keep);
      if !served { toAdd := toAdd + [ports[i]]; }
    }
    assert ports[..|ports|] == ports;
  }

  lemma SplitStep(ls: seq<Listener>, i: nat, ports: seq<ServicePort>, a: Attrs)
    requires i < |ls|
    ensures Kept(ls[..i + 1], ports, a) ==
            Kept(ls[..i], ports, a) + if Wanted(ls[i], ports, a) then [ls[i]] else []
    ensures Stale(ls[..i + 1], ports, a) ==
            Stale(ls[..i], ports, a) + if Wanted(ls[i], ports, a) then [] else [ls[i]]
  {
    PickStep(ls, i, WantedFor(ports, a));
    PickStep(ls, i, NotWantedFor(ports, a));
  }

  method SplitListeners(listeners: seq<Listener>, nodePorts: map<nat, int>, v: Parsed, ghost a: Attrs,
                        ports: seq<ServicePort>)
    returns (toDelete: seq<nat>, toKeep: seq<Listener>)
    requires ParsedFrom(v, a)
    requires forall i | 0 <= i < |listeners| :: NodePortAt(nodePorts, listeners[i].id) == FirstPort(listeners[i])
    ensures toDelete == ListenerIds(Stale(listeners, ports, a))
    ensures toKeep == Kept(listeners, ports, a)
  {
    toDelete, toKeep := [], [];
    ghost var stale := Stale(listeners[..0], ports, a);
    for i := 0 to |listeners|
      invariant stale == Stale(listeners[..i], ports, a) && toDelete == ListenerIds(stale)
      invariant toKeep == Kept(listeners[..i], ports, a)
    {
      var wanted := FindPort(listeners[i], NodePortAt(nodePorts, listeners[i].id), v, a, ports);
      SplitStep(listeners, i, ports, a);
      if wanted {
        toKeep := toKeep + [listeners[i]];
      } else {
        ListenerIdsSnoc(stale, listeners[i]);
        toDelete := toDelete + [listeners[i].id];
        stale := stale + [listeners[i]];
      }
    }
    assert listeners[..|listeners|] == listeners;
  }

  /** The listener stands for the port: it suits it, and its first backend is on the node port. */
  ghost predicate StandsFor(l: Listener, c: ListenerAttrs, p: ServicePort) {
    Suits(l.spec, c, p) && p.nodePort == if l.backends == [] then 0 else l.backends[0].port
  }

  ghost predicate StandsForSome(l: Listener, c: ListenerAttrs, ports: seq<ServicePort>) {
    exists i | 0 <= i < |ports| :: StandsFor(l, c, ports[i])
  }

  ghost predicate SomeStandsFor(ls: seq<Listener>, c: ListenerAttrs, p: ServicePort) {
    exists i | 0 <= i < |ls| :: StandsFor(ls[i], c, p)
  }

  /** The differ keeps the listeners that stand for a port, deletes the others, and adds the ports that none
      stands for. */
  ghost predicate Divided(ls: seq<Listener>, c: ListenerAttrs, ports: seq<ServicePort>, toDelete: seq<nat>,
                          toAdd: seq<ServicePort>, toKeep: seq<Listener>) {
    && (forall l :: l in toKeep <==> l in ls && StandsForSome(l, c, ports))
    && (forall i | 0 <= i < |ls| :: ls[i].id in toDelete <==> !StandsForSome(ls[i], c, ports))
    && (forall p :: p in toAdd <==> p in ports && !SomeStandsFor(ls, c, p))
  }

  lemma StandsForIff(l: Listener, c: ListenerAttrs, p: ServicePort)
    ensures Matches(l, AttrsOf(c), p) <==> StandsFor(l, c, p)
  {
    SuitsIff(l.spec, c, p);
  }

  lemma StandsForSomeIff(l: Listener, c: ListenerAttrs, ports: seq<ServicePort>)
    ensures Wanted(l, ports, AttrsOf(c)) <==> StandsForSome(l, c, ports)
  {
    forall i | 0 <= i < |ports| ensures Matches(l, AttrsOf(c), ports[i]) <==> StandsFor(l, c, ports[i]) {
      StandsForIff(l, c, ports[i]);
    }
  }

  lemma SomeStandsForIff(ls: seq<Listener>, c: ListenerAttrs, p: ServicePort)
    ensures Served(p, ls, AttrsOf(c)) <==> SomeStandsFor(ls, c, p)
  {
    forall i | 0 <= i < |ls| ensures Matches(ls[i], AttrsOf(c), p) <==> StandsFor(ls[i], c, p) {
      StandsForIff(ls[i], c, p);
    }
  }

  lemma DividedAsSaid(ls: seq<Listener>, c: ListenerAttrs, ports: seq<ServicePort>)
    requires DistinctListeners(ls)
    ensures Divided(ls, c, ports, ListenerIds(Stale(ls, ports, AttrsOf(c))), Unserved(ports, ls, AttrsOf(c)),
                    Kept(ls, ports, AttrsOf(c)))
  {
    var a := AttrsOf(c);
    PickMembers(ls, WantedFor(ports, a));
    PickMembers(ls, NotWantedFor(ports, a));
    PickMembers(ports, NotServedBy(ls, a));
    forall l ensures Wanted(l, ports, a) <==> StandsForSome(l, c, ports) { StandsForSomeIff(l, c, ports); }
    forall p ensures Served(p, ls, a) <==> SomeStandsFor(ls, c, p) { SomeStandsForIff(ls, c, p); }
    forall i | 0 <= i < |ls|
      ensures ls[i].id in ListenerIds(Stale(ls, ports, a)) <==> !StandsForSome(ls[i], c, ports)
    {
      DeletedIff(ls, ports, a, i);
    }
  }

  /** Since listeners have different ids, an id is deleted only for its own listener. */
  lemma DeletedIff(ls: seq<Listener>, ports: seq<ServicePort>, a: Attrs, i: nat)
    requires DistinctListeners(ls) && i < |ls|
    ensures ls[i].id in ListenerIds(Stale(ls, ports, a)) <==> !Wanted(ls[i], ports, a)
  {
    var stale := Stale(ls, ports, a);
    PickMembers(ls, NotWantedFor(ports, a));
    if ls[i].id in ListenerIds(stale) {
      var j :| 0 <= j < |stale| && ListenerIds(stale)[j] == ls[i].id;
      assert stale[j] in stale && stale[j] in ls;
      var x :| 0 <= x < |ls| && ls[x] == stale[j];
      assert x == i;
    }
    if !Wanted(ls[i], ports, a) {
      assert ls[i] in ls && ls[i] in stale;
      var j :| 0 <= j < |stale| && stale[j] == ls[i];
      assert ListenerIds(stale)[j] == ls[i].id;
    }
  }

  method DiffListeners(listeners: seq<Listener>, c: ListenerAttrs, ports: seq<ServicePort>)
    returns (toDelete: seq<nat>, toAdd: seq<ServicePort>, toKeep: seq<Listener>)
    requires DistinctListeners(listeners)
    ensures toAdd == Unserved(ports, listeners, AttrsOf(c))
    ensures toDelete == ListenerIds(Stale(listeners, ports, AttrsOf(c)))
    ensures toKeep == Kept(listeners, ports, AttrsOf(c))
    ensures Divided(listeners, c, ports, toDelete, toAdd, toKeep)
  {
    DividedAsSaid(listeners, c, ports);
    var nodePorts := NodePorts(listeners);
    var v := ParseForDiff(c);
    ghost var a := AttrsOf(c);
    toAdd := UnservedPorts(listeners, nodePorts, v, a, ports);
    toDelete, toKeep := SplitListeners(listeners, nodePorts, v, a, ports);
  }

  // ---------- The generator ----------

  /** One listener per port, each as made for it. */
  method GenerateSpecs(c: ListenerAttrs, lb: string, name: string, ports: seq<ServicePort>)
    returns (r: Result<seq<ListenerSpec>>)
    ensures r.Ok? <==> AttrsParse(c) && AllGenerable(AttrsOf(c), ports)
    ensures r.Ok? ==>
              && |r.value| == |ports|
              && forall i | 0 <= i < |ports| :: r.value[i] == SpecFor(AttrsOf(c), lb, name, ports[i])
  {
    var ok, checks := ParseHeathyCheck(c);
    if !ok { return Err(Failed); }
    var modes := ParseText(c.balanceMode);
    if modes.None? { return Err(Failed); }
    var certs := ParseText(c.certificate);
    if certs.None? { return Err(Failed); }
    var protocols := ParseText(c.protocol);
    if protocols.None? { return Err(Failed); }
    var timeouts := ParseNumber(c.timeout);
    if timeouts.None? { return Err(Failed); }
    var scenes := ParseNumber(c.scene);
    if scenes.None? { return Err(Failed); }
    var forwardfors := ParseNumber(c.forwardfor);
    if forwardfors.None? { return Err(Failed); }
    var options := ParseNumber(c.listenerOption);
    if options.None? { return Err(Failed); }
    var result: seq<ListenerSpec> := [];
    for i := 0 to |ports|
      invariant |result| == i
      invariant forall j | 0 <= j < i ::
                Generable(AttrsOf(c), ports[j]) && result[j] == SpecFor(AttrsOf(c), lb, name, ports[j])
    {
      var p := ports[i];
      if p.protocol == SCTP { return Err(Failed); }
      var protocol := p.protocol.Lower();
      var certificates: seq<string> := [];
      var check := GetHealthyCheck(CheckAt(checks, p.port), p.protocol.Lower());
      var listenerProtocol := GetProtocol(protocols.value, p.port);
      var cert := GetCertificate(certs.value, p.port);
      if listenerProtocol.None? {
        listenerProtocol := Some(protocol);
      } else if listenerProtocol.value == "https" {
        protocol := "http";
        if cert.None? { return Err(Failed); }
        certificates := certificates + [cert.value];
      } else if listenerProtocol.value == "http" {
        protocol := "http";
      }
      var spec := ListenerSpec(lb, name, p.port, listenerProtocol.value, protocol,
                               GetBalanceMode(modes.value, p.port), check.0, check.1, certificates,
                               GetNumber(timeouts.value, p.port, DEFAULT_TIMEOUT),
                               GetNumber(scenes.value, p.port, DEFAULT_SCENE),
                               GetNumber(forwardfors.value, p.port, DEFAULT_FORWARDFOR),
                               GetNumber(options.value, p.port, DEFAULT_LISTENER_OPTION));
      result := result + [spec];
    }
    return if result == [] then Err(Failed) else Ok(result);
  }

  lemma AllGenerableIff(c: ListenerAttrs, ports: seq<ServicePort>)
    ensures AllGenerable(AttrsOf(c), ports) <==> ports != [] && forall i | 0 <= i < |ports| :: CanBeMade(c, ports[i])
  {
    forall i | 0 <= i < |ports| ensures Generable(AttrsOf(c), ports[i]) <==> CanBeMade(c, ports[i]) {
      CanBeMadeIff(c, ports[i]);
    }
  }

  lemma AllMadeFor(c: ListenerAttrs, lb: string, name: string, ports: seq<ServicePort>)
    requires AllGenerable(AttrsOf(c), ports)
    ensures forall i | 0 <= i < |ports| :: MadeFor(SpecFor(AttrsOf(c), lb, name, ports[i]), c, ports[i])
  {
    forall i | 0 <= i < |ports| ensures MadeFor(SpecFor(AttrsOf(c), lb, name, ports[i]), c, ports[i]) {
      MadeForIff(SpecFor(AttrsOf(c), lb, name, ports[i]), c, ports[i]);
    }
  }

  /** Makes a listener for every port, or fails when one cannot be made or an annotation cannot be read. */
  method GenerateLoadBalancerListeners(c: ListenerAttrs, lb: string, name: string, ports: seq<ServicePort>)
    returns (r: Result<seq<ListenerSpec>>)
    ensures r.Ok? <==> AttrsParse(c) && AllGenerable(AttrsOf(c), ports)
    ensures r.Ok? <==> AttrsParse(c) && ports != [] && forall i | 0 <= i < |ports| :: CanBeMade(c, ports[i])
    ensures r.Ok? ==>
              && |r.value| == |ports|
              && forall i | 0 <= i < |ports| :: r.value[i] == SpecFor(AttrsOf(c), lb, name, ports[i])
    ensures r.Ok? ==>
              forall i | 0 <= i < |ports| ::
                r.value[i].lb == lb && r.value[i].name == name && MadeFor(r.value[i], c, ports[i])
  {
    AllGenerableIff(c, ports);
    r := GenerateSpecs(c, lb, name, ports);
    if r.Ok? { AllMadeFor(c, lb, name, ports); }
  }
}
