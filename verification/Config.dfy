/** The configuration read from a Service's annotations (pkg/qingcloud/annotations.go). */
module ServiceConfig {
  import opened Wrappers
  import opened GoStrings
  import opened Apis
  import opened Naming
  import opened AnnotationParsers

  const NETWORK_PUBLIC := "public"
  const NETWORK_INTERNAL := "internal"
  const USE_AVAILABLE_OR_ALLOCATE_ONE := "auto"
  const USE_AVAILABLE_ONLY := "use-available"
  const ALLOCATE_ONLY := "allocate"
  const REUSE_EXISTING_LB := "reuse-lb"
  const EXCLUSIVE := "exclusive"
  const SHARED := "reuse"

  /** The controller's own configuration file, as far as it reaches a load balancer's configuration. */
  datatype CloudConfig = CloudConfig(clusterID: string, defaultVxNetForLB: string)

  datatype EipConfig = EipConfig(ids: Option<seq<string>>, source: Option<string>, replace: bool)

  /** The listener annotations, still as text. */
  datatype ListenerAttrs = ListenerAttrs(
    checkMethod: Option<string>,
    checkOption: Option<string>,
    balanceMode: Option<string>,
    certificate: Option<string>,
    protocol: Option<string>,
    timeout: Option<string>,
    scene: Option<string>,
    forwardfor: Option<string>,
    listenerOption: Option<string>)

  datatype Config = Config(
    eip: EipConfig,
    vxNetID: Option<string>,
    lbType: Option<int>,
    nodeCount: Option<int>,
    internalIP: Option<string>,
    listener: ListenerAttrs,
    backendLabel: string,
    backendCountConfig: string,
    backendCountResult: int,
    networkType: string,
    policy: string,
    reuseLBID: string,
    lbName: string,
    listenerName: string)

  const NO_EIP := EipConfig(None, None, false)
  const NO_ATTRS := ListenerAttrs(None, None, None, None, None, None, None, None, None)

  /** `*LoadBalancerConfig`: the record a run fills in and passes to every step, which may write to it. */
  class LoadBalancerConfig {
    var fields: Config

    /** All fields at Go's zero values. */
    constructor ()
      ensures fields == Config(NO_EIP, None, None, None, None, NO_ATTRS, "", "", 0, "", "", "", "", "")
    {
      fields := Config(NO_EIP, None, None, None, None, NO_ATTRS, "", "", 0, "", "", "", "", "");
    }
  }

  // ---------- What the annotations ask for ----------

  /** Go's map lookup: the zero value for a missing key. */
  function Get(a: map<Annotation, string>, key: Annotation): string {
    if key in a then a[key] else ""
  }

  function Lookup(a: map<Annotation, string>, key: Annotation): Option<string> {
    if key in a then Some(a[key]) else None
  }

  function LookupInt(a: map<Annotation, string>, key: Annotation): Option<int> {
    if key in a then Atoi(a[key]) else None
  }

  predicate EipSourceValue(s: string) {
    s == ALLOCATE_ONLY || s == USE_AVAILABLE_ONLY || s == USE_AVAILABLE_OR_ALLOCATE_ONE
  }

  predicate TextAnnotationsOK(a: map<Annotation, string>) {
    && (CHECK_METHOD in a ==> LsnData(a[CHECK_METHOD]).Some?)
    && (CHECK_OPTION in a ==> LsnData(a[CHECK_OPTION]).Some?)
    && (BALANCE_MODE in a ==> LsnData(a[BALANCE_MODE]).Some?)
    && (CERTIFICATE in a ==> LsnData(a[CERTIFICATE]).Some?)
    && (PROTOCOL in a ==> LsnData(a[PROTOCOL]).Some?)
  }

  predicate ListenerAnnotationsOK(a: map<Annotation, string>) {
    && TextAnnotationsOK(a)
    && (TIMEOUT in a ==> TimeoutsOK(a[TIMEOUT]))
    && (SCENE in a ==> ScenesOK(a[SCENE]))
    && (FORWARDFOR in a ==> IntData(a[FORWARDFOR]).Some?)
    && (LISTENER_OPTION in a ==> IntData(a[LISTENER_OPTION]).Some?)
  }

  predicate NumbersOK(a: map<Annotation, string>) {
    && (BACKEND_COUNT in a ==> Atoi(a[BACKEND_COUNT]).Some?)
    && (LB_TYPE in a ==> Atoi(a[LB_TYPE]).Some?)
    && (LB_NODES in a ==> Atoi(a[LB_NODES]).Some?)
  }

  /** When a service's annotations make a configuration. */
  predicate Parses(svc: Service) {
    var a := svc.annotations;
    && a != map[]
    && ListenerAnnotationsOK(a)
    && NumbersOK(a)
    && (Get(a, LB_POLICY) == REUSE_EXISTING_LB ==> Get(a, LB_ID) != "")
  }

  function EipConfigOf(a: map<Annotation, string>): EipConfig {
    var manual := Get(a, EIP_IDS) != "";
    EipConfig(
      ids := if manual then Some(Split(Get(a, EIP_IDS), ',')) else None,
      source := if !manual && EipSourceValue(Get(a, EIP_SOURCE)) then Some(Get(a, EIP_SOURCE)) else None,
      replace := Get(a, EIP_REPLACE) == "true")
  }

  function ListenerAttrsOf(a: map<Annotation, string>): ListenerAttrs {
    ListenerAttrs(
      checkMethod := Lookup(a, CHECK_METHOD),
      checkOption := Lookup(a, CHECK_OPTION),
      balanceMode := Lookup(a, BALANCE_MODE),
      certificate := Lookup(a, CERTIFICATE),
      protocol := Lookup(a, PROTOCOL),
      timeout := Lookup(a, TIMEOUT),
      scene := Lookup(a, SCENE),
      forwardfor := Lookup(a, FORWARDFOR),
      listenerOption := Lookup(a, LISTENER_OPTION))
  }

  /** The configuration of a service, field by field. */
  function ConfigOf(qc: CloudConfig, svc: Service): Config {
    var a := svc.annotations;
    var internal := Get(a, NETWORK_TYPE) == NETWORK_INTERNAL;
    var strategy := Get(a, LB_POLICY);
    Config(
      eip := EipConfigOf(a),
      vxNetID := if VXNET_ID in a then Some(a[VXNET_ID])
                 else if internal && qc.defaultVxNetForLB != "" then Some(qc.defaultVxNetForLB) else None,
      lbType := LookupInt(a, LB_TYPE),
      nodeCount := LookupInt(a, LB_NODES),
      internalIP := Lookup(a, INTERNAL_IP),
      listener := ListenerAttrsOf(a),
      backendLabel := Get(a, BACKEND_LABEL),
      backendCountConfig := Get(a, BACKEND_COUNT),
      backendCountResult := 0,
      networkType := if internal then NETWORK_INTERNAL else NETWORK_PUBLIC,
      policy := if strategy == REUSE_EXISTING_LB then REUSE_EXISTING_LB
                else if strategy == SHARED then "" else EXCLUSIVE,
      reuseLBID := Get(a, LB_ID),
      lbName := if strategy == REUSE_EXISTING_LB || strategy == SHARED then "" else LBName(qc.clusterID, svc),
      listenerName := ListenerName(svc.ns, svc.name))
  }

  // ---------- The same, told from the texts ----------

  /** The value is the text of the annotation, if that is there. */
  ghost predicate TextOf(a: map<Annotation, string>, key: Annotation, value: Option<string>) {
    (key in a ==> value == Some(a[key])) && (key !in a ==> value == None)
  }

  ghost predicate NumberOf(a: map<Annotation, string>, key: Annotation, value: Option<int>) {
    (key in a ==> value == Atoi(a[key])) && (key !in a ==> value == None)
  }

  /** The annotation is there with this text. */
  ghost predicate Annotated(a: map<Annotation, string>, key: Annotation, text: string) {
    key in a && a[key] == text
  }

  /** The annotation is there, and not empty. */
  ghost predicate Given(a: map<Annotation, string>, key: Annotation) {
    key in a && a[key] != ""
  }

  /** The ids are the comma-separated parts of their annotation; only without one an automatic mode counts, and of
      these there are three. Replacing has to be asked for by "true". */
  ghost predicate EipAsAnnotated(a: map<Annotation, string>, eip: EipConfig) {
    && (eip.ids.Some? <==> Given(a, EIP_IDS))
    && (eip.ids.Some? ==>
         eip.ids.value != [] && Join(eip.ids.value, ',') == a[EIP_IDS] && forall e | e in eip.ids.value :: ',' !in e)
    && (eip.source.Some? <==>
         !Given(a, EIP_IDS) && (Annotated(a, EIP_SOURCE, "auto") || Annotated(a, EIP_SOURCE, "use-available")
                                || Annotated(a, EIP_SOURCE, "allocate")))
    && (eip.source.Some? ==> eip.source.value == a[EIP_SOURCE])
    && (eip.replace <==> Annotated(a, EIP_REPLACE, "true"))
  }

  ghost predicate ListenerAsAnnotated(a: map<Annotation, string>, c: ListenerAttrs) {
    && TextOf(a, CHECK_METHOD, c.checkMethod) && TextOf(a, CHECK_OPTION, c.checkOption)
    && TextOf(a, BALANCE_MODE, c.balanceMode) && TextOf(a, CERTIFICATE, c.certificate)
    && TextOf(a, PROTOCOL, c.protocol) && TextOf(a, TIMEOUT, c.timeout) && TextOf(a, SCENE, c.scene)
    && TextOf(a, FORWARDFOR, c.forwardfor) && TextOf(a, LISTENER_OPTION, c.listenerOption)
  }

  /** An internal load balancer that names no network is put on the default one, if there is one. */
  ghost predicate NetworkAsAnnotated(qc: CloudConfig, a: map<Annotation, string>, c: Config) {
    && TextOf(a, INTERNAL_IP, c.internalIP)
    && c.networkType == (if Annotated(a, NETWORK_TYPE, "internal") then "internal" else "public")
    && (VXNET_ID in a ==> c.vxNetID == Some(a[VXNET_ID]))
    && (VXNET_ID !in a ==>
         c.vxNetID == if Annotated(a, NETWORK_TYPE, "internal") && qc.defaultVxNetForLB != ""
                      then Some(qc.defaultVxNetForLB) else None)
  }

  ghost predicate BackendsAsAnnotated(a: map<Annotation, string>, c: Config) {
    && (BACKEND_LABEL in a ==> c.backendLabel == a[BACKEND_LABEL]) && (BACKEND_LABEL !in a ==> c.backendLabel == "")
    && (BACKEND_COUNT in a ==> c.backendCountConfig == a[BACKEND_COUNT])
    && (BACKEND_COUNT !in a ==> c.backendCountConfig == "") && c.backendCountResult == 0
  }

  /** Only a load balancer of the service's own has a name, made up of the cluster, the service and the first part of
      its uid. */
  /** The name of a load balancer of the service's own: cluster, namespace, name and the uid up to its first dash. */
  ghost predicate NameOfOwn(qc: CloudConfig, svc: Service, name: string) {
    exists first | '-' !in first && (first == svc.uid || first + "-" <= svc.uid) ::
      name == "k8s_lb_" + qc.clusterID + "_" + svc.ns + "_" + svc.name + "_" + first
  }

  ghost predicate NamesAsAnnotated(qc: CloudConfig, svc: Service, c: Config) {
    var a := svc.annotations;
    && (LB_ID in a ==> c.reuseLBID == a[LB_ID]) && (LB_ID !in a ==> c.reuseLBID == "")
    && c.listenerName == "listener_" + svc.ns + "_" + svc.name + "_"
    && (Annotated(a, LB_POLICY, "reuse-lb") ==> c.policy == "reuse-lb" && c.lbName == "")
    && (Annotated(a, LB_POLICY, "reuse") ==> c.policy == "" && c.lbName == "")
    && (!Annotated(a, LB_POLICY, "reuse-lb") && !Annotated(a, LB_POLICY, "reuse") ==>
         c.policy == "exclusive" && NameOfOwn(qc, svc, c.lbName))
  }

  /** The configuration is what the annotations say. */
  ghost predicate AsAnnotated(qc: CloudConfig, svc: Service, c: Config) {
    var a := svc.annotations;
    && EipAsAnnotated(a, c.eip) && ListenerAsAnnotated(a, c.listener) && NetworkAsAnnotated(qc, a, c)
    && BackendsAsAnnotated(a, c) && NumberOf(a, LB_TYPE, c.lbType) && NumberOf(a, LB_NODES, c.nodeCount)
    && NamesAsAnnotated(qc, svc, c)
  }

  lemma EipAsAnnotatedIff(a: map<Annotation, string>, eip: EipConfig)
    ensures eip == EipConfigOf(a) <==> EipAsAnnotated(a, eip)
  {
    if Given(a, EIP_IDS) {
      JoinSplit(a[EIP_IDS], ',');
      if eip.ids.Some? && eip.ids.value != [] && forall e | e in eip.ids.value :: ',' !in e {
        SplitJoin(eip.ids.value, ',');
      }
    }
  }

  lemma NameOfOwnIff(qc: CloudConfig, svc: Service, name: string)
    ensures NameOfOwn(qc, svc, name) <==> name == LBName(qc.clusterID, svc)
  {
    FirstUIDIff(svc.uid, GetFirstUID(svc.uid));
    forall first | '-' !in first && (first == svc.uid || first + "-" <= svc.uid) ensures first == GetFirstUID(svc.uid) {
      FirstUIDIff(svc.uid, first);
    }
  }

  lemma NamesAsAnnotatedIff(qc: CloudConfig, svc: Service, c: Config)
    ensures var d := ConfigOf(qc, svc);
            NamesAsAnnotated(qc, svc, c) <==>
              c.policy == d.policy && c.reuseLBID == d.reuseLBID && c.lbName == d.lbName
              && c.listenerName == d.listenerName
  {
    NameOfOwnIff(qc, svc, c.lbName);
  }

  /** The texts leave no choice. */
  lemma AsAnnotatedIff(qc: CloudConfig, svc: Service, c: Config)
    ensures c == ConfigOf(qc, svc) <==> AsAnnotated(qc, svc, c)
  {
    EipAsAnnotatedIff(svc.annotations, c.eip);
    NamesAsAnnotatedIff(qc, svc, c);
  }

  /** No part of the text is an error: of a list of values empty parts are skipped. */
  ghost predicate ValuesReadable(text: string) {
    forall i | 0 <= i < |Split(text, ',')| :: Split(text, ',')[i] == "" || NamesPort(Split(text, ',')[i])
  }

  ghost predicate NumbersReadable(text: string) {
    forall i | 0 <= i < |Split(text, ',')| :: NamesPortAndNumber(Split(text, ',')[i])
  }

  /** The listener annotations can all be read, and timeouts and scenes are ones the cloud knows. */
  ghost predicate ListenersReadable(a: map<Annotation, string>) {
    && (CHECK_METHOD in a ==> ValuesReadable(a[CHECK_METHOD]))
    && (CHECK_OPTION in a ==> ValuesReadable(a[CHECK_OPTION]))
    && (BALANCE_MODE in a ==> ValuesReadable(a[BALANCE_MODE]))
    && (CERTIFICATE in a ==> ValuesReadable(a[CERTIFICATE])) && (PROTOCOL in a ==> ValuesReadable(a[PROTOCOL]))
    && (TIMEOUT in a ==>
         NumbersReadable(a[TIMEOUT])
         && forall port | SaidNumber(Some(a[TIMEOUT]), port).Some? ::
              10 <= SaidNumber(Some(a[TIMEOUT]), port).value <= 86400)
    && (SCENE in a ==>
         NumbersReadable(a[SCENE])
         && forall port | SaidNumber(Some(a[SCENE]), port).Some? ::
            SaidNumber(Some(a[SCENE]), port).value in {0, 1, 11})
    && (FORWARDFOR in a ==> NumbersReadable(a[FORWARDFOR]))
    && (LISTENER_OPTION in a ==> NumbersReadable(a[LISTENER_OPTION]))
  }

  lemma ReadableIff(text: string)
    ensures LsnData(text).Some? <==> ValuesReadable(text)
    ensures IntData(text).Some? <==> NumbersReadable(text)
  {
    LsnErrorIff(Split(text, ','), map[]);
    IntErrorIff(Split(text, ','), map[]);
  }

  lemma ListenersReadableIff(a: map<Annotation, string>)
    ensures ListenerAnnotationsOK(a) <==> ListenersReadable(a)
  {
    forall key | key in a
      ensures LsnData(a[key]).Some? <==> ValuesReadable(a[key])
      ensures IntData(a[key]).Some? <==> NumbersReadable(a[key])
    {
      ReadableIff(a[key]);
    }
    if TIMEOUT in a { TimesIff(a[TIMEOUT]); }
    if SCENE in a { ScenesIff(a[SCENE]); }
  }

  lemma TimesIff(text: string)
    requires IntData(text).Some? <==> NumbersReadable(text)
    ensures TimeoutsOK(text) <==>
            NumbersReadable(text) && forall port | SaidNumber(Some(text), port).Some? ::
              10 <= SaidNumber(Some(text), port).value <= 86400
  {
    if NumbersReadable(text) {
      var m := IntData(text).value;
      forall k ensures k in m <==> SaidNumber(Some(text), k).Some? {}
      assert forall k | k in m :: SaidNumber(Some(text), k) == Some(m[k]);
    }
  }

  lemma ScenesIff(text: string)
    requires IntData(text).Some? <==> NumbersReadable(text)
    ensures ScenesOK(text) <==>
            NumbersReadable(text) && forall port | SaidNumber(Some(text), port).Some? ::
              SaidNumber(Some(text), port).value in {0, 1, 11}
  {
    if NumbersReadable(text) {
      var m := IntData(text).value;
      forall k ensures k in m <==> SaidNumber(Some(text), k).Some? {}
      assert forall k | k in m :: SaidNumber(Some(text), k) == Some(m[k]);
    }
  }

  /** What annotations are accepted: there are some, all of the listeners can be read, the numbers are numbers, and a
      load balancer to reuse is named. */
  lemma AcceptedIff(svc: Service)
    ensures var a := svc.annotations;
            Parses(svc) <==>
              && (exists key :: key in a) && ListenersReadable(a)
              && (BACKEND_COUNT in a ==> Atoi(a[BACKEND_COUNT]).Some?) && (LB_TYPE in a ==> Atoi(a[LB_TYPE]).Some?)
              && (LB_NODES in a ==> Atoi(a[LB_NODES]).Some?)
              && (Annotated(a, LB_POLICY, "reuse-lb") ==> Given(a, LB_ID))
  {
    var a := svc.annotations;
    ListenersReadableIff(a);
    if a != map[] {
      assert a.Keys != {};
      var key :| key in a.Keys;
      assert key in a;
    }
  }

  // ---------- The parser ----------

  method ParseEipAnnotations(a: map<Annotation, string>, config: LoadBalancerConfig)
    requires config.fields.eip == NO_EIP
    modifies config
    ensures config.fields == old(config.fields).(eip := EipConfigOf(a))
    ensures EipAsAnnotated(a, config.fields.eip)
  {
    EipAsAnnotatedIff(a, EipConfigOf(a));
    if EIP_IDS in a && a[EIP_IDS] != "" {
      config.fields := config.fields.(eip := config.fields.eip.(ids := Some(Split(a[EIP_IDS], ','))));
    } else {
      var source := Get(a, EIP_SOURCE);
      config.fields := config.fields.(eip := config.fields.eip.(source := Some(source)));
      if source != ALLOCATE_ONLY && source != USE_AVAILABLE_ONLY && source != USE_AVAILABLE_OR_ALLOCATE_ONE {
        config.fields := config.fields.(eip := config.fields.eip.(source := None));
      }
    }
    if EIP_REPLACE in a {
      config.fields := config.fields.(eip := config.fields.eip.(replace := a[EIP_REPLACE] == "true"));
    }
  }

  /** `validListenerStringConfig` on an annotation that may be missing. */
  method ValidListenerStringConfig(value: Option<string>) returns (ok: bool)
    ensures ok <==> (value.Some? ==> LsnData(value.value).Some?)
  {
    if value.None? { return true; }
    var parsed := ParseLsnAnnotaionData(value.value);
    return parsed.Some?;
  }

  method ValidListenerIntConfig(value: Option<string>) returns (ok: bool)
    ensures ok <==> (value.Some? ==> IntData(value.value).Some?)
  {
    if value.None? { return true; }
    var parsed := ParseAnnotationIntoIntIntMap(value.value);
    return parsed.Some?;
  }

  method ParseTextAnnotations(a: map<Annotation, string>) returns (ok: bool, attrs: ListenerAttrs)
    ensures ok <==> TextAnnotationsOK(a)
    ensures ok ==> attrs == NO_ATTRS.(checkMethod := Lookup(a, CHECK_METHOD), checkOption := Lookup(a, CHECK_OPTION),
                              balanceMode := Lookup(a, BALANCE_MODE), certificate := Lookup(a, CERTIFICATE),
                              protocol := Lookup(a, PROTOCOL))
  {
    attrs := NO_ATTRS;
    ok := ValidListenerStringConfig(Lookup(a, CHECK_METHOD));
    if !ok { return; }
    attrs := attrs.(checkMethod := Lookup(a, CHECK_METHOD));
    ok := ValidListenerStringConfig(Lookup(a, CHECK_OPTION));
    if !ok { return; }
    attrs := attrs.(checkOption := Lookup(a, CHECK_OPTION));
    ok := ValidListenerStringConfig(Lookup(a, BALANCE_MODE));
    if !ok { return; }
    attrs := attrs.(balanceMode := Lookup(a, BALANCE_MODE));
    ok := ValidListenerStringConfig(Lookup(a, CERTIFICATE));
    if !ok { return; }
    attrs := attrs.(certificate := Lookup(a, CERTIFICATE));
    ok := ValidListenerStringConfig(Lookup(a, PROTOCOL));
    if !ok { return; }
    attrs := attrs.(protocol := Lookup(a, PROTOCOL));
  }

  method ParseListenerAnnotations(a: map<Annotation, string>, config: LoadBalancerConfig) returns (ok: bool)
    modifies config
    ensures ok <==> ListenerAnnotationsOK(a)
    ensures ok ==> config.fields == old(config.fields).(listener := ListenerAttrsOf(a))
  {
    var attrs;
    ok, attrs := ParseTextAnnotations(a);
    if !ok { return; }
    if TIMEOUT in a {
      ok := ValidListenerTimeout(a[TIMEOUT]);
      if !ok { return; }
      attrs := attrs.(timeout := Some(a[TIMEOUT]));
    }
    if SCENE in a {
      ok := ValidListenerScene(a[SCENE]);
      if !ok { return; }
      attrs := attrs.(scene := Some(a[SCENE]));
    }
    ok := ValidListenerIntConfig(Lookup(a, FORWARDFOR));
    if !ok { return; }
    attrs := attrs.(forwardfor := Lookup(a, FORWARDFOR));
    ok := ValidListenerIntConfig(Lookup(a, LISTENER_OPTION));
    if !ok { return; }
    attrs := attrs.(listenerOption := Lookup(a, LISTENER_OPTION));
    config.fields := config.fields.(listener := attrs);
  }

  method ParseNetworkAnnotations(qc: CloudConfig, a: map<Annotation, string>, config: LoadBalancerConfig)
    modifies config
    ensures config.fields == old(config.fields).(
              vxNetID := if VXNET_ID in a then Some(a[VXNET_ID])
                         else if Get(a, NETWORK_TYPE) == NETWORK_INTERNAL && qc.defaultVxNetForLB != ""
                         then Some(qc.defaultVxNetForLB) else None,
              internalIP := Lookup(a, INTERNAL_IP),
              networkType := if Get(a, NETWORK_TYPE) == NETWORK_INTERNAL then NETWORK_INTERNAL else NETWORK_PUBLIC)
  {
    config.fields := config.fields.(vxNetID := Lookup(a, VXNET_ID));
    config.fields := config.fields.(internalIP := Lookup(a, INTERNAL_IP));
    if Get(a, NETWORK_TYPE) == NETWORK_INTERNAL {
      config.fields := config.fields.(networkType := NETWORK_INTERNAL);
      if config.fields.vxNetID == None && qc.defaultVxNetForLB != "" {
        config.fields := config.fields.(vxNetID := Some(qc.defaultVxNetForLB));
      }
    } else {
      config.fields := config.fields.(networkType := NETWORK_PUBLIC);
    }
  }

  /** The numeric annotations outside the listeners. */
  method ParseNumbers(a: map<Annotation, string>, config: LoadBalancerConfig) returns (ok: bool)
    requires config.fields.lbType == None && config.fields.nodeCount == None && config.fields.backendCountConfig == ""
    modifies config
    ensures ok <==> NumbersOK(a)
    ensures ok ==>
              config.fields == old(config.fields).(
                lbType := LookupInt(a, LB_TYPE), nodeCount := LookupInt(a, LB_NODES),
                backendCountConfig := Get(a, BACKEND_COUNT))
  {
    if BACKEND_COUNT in a {
      if Atoi(a[BACKEND_COUNT]).None? { return false; }
      config.fields := config.fields.(backendCountConfig := a[BACKEND_COUNT]);
    }
    if LB_TYPE in a {
      if Atoi(a[LB_TYPE]).None? { return false; }
      config.fields := config.fields.(lbType := Atoi(a[LB_TYPE]));
    }
    if LB_NODES in a {
      if Atoi(a[LB_NODES]).None? { return false; }
      config.fields := config.fields.(nodeCount := Atoi(a[LB_NODES]));
    }
    return true;
  }

  /** Which load balancer is asked for: one to reuse, by its id, or one of the service's own. */
  method ParsePolicy(qc: CloudConfig, svc: Service, config: LoadBalancerConfig) returns (ok: bool)
    requires config.fields.policy == "" && config.fields.lbName == ""
    modifies config
    ensures ok <==> (Get(svc.annotations, LB_POLICY) == REUSE_EXISTING_LB ==> Get(svc.annotations, LB_ID) != "")
    ensures ok ==> config.fields == old(config.fields).(reuseLBID := ConfigOf(qc, svc).reuseLBID,
                                                        policy := ConfigOf(qc, svc).policy,
                                                        lbName := ConfigOf(qc, svc).lbName)
  {
    config.fields := config.fields.(reuseLBID := Get(svc.annotations, LB_ID));
    var strategy := Get(svc.annotations, LB_POLICY);
    if strategy == REUSE_EXISTING_LB {
      config.fields := config.fields.(policy := REUSE_EXISTING_LB);
      return config.fields.reuseLBID != "";
    } else if strategy == SHARED {
      // The source asks here whether the policy is already "reuse"; it never is, so nothing is set.
    } else {
      config.fields := config.fields.(lbName := LBName(qc.clusterID, svc), policy := EXCLUSIVE);
    }
    return true;
  }

  /** Fills the record in. */
  method FillConfig(qc: CloudConfig, svc: Service) returns (r: Result<LoadBalancerConfig>)
    ensures r.Ok? <==> Parses(svc)
    ensures r.Ok? ==> fresh(r.value) && r.value.fields == ConfigOf(qc, svc)
    ensures r.Err? ==> r.error == Failed
  {
    var a := svc.annotations;
    if a == map[] { return Err(Failed); }
    var config := new LoadBalancerConfig();
    ParseEipAnnotations(a, config);
    ParseNetworkAnnotations(qc, a, config);
    var ok := ParseListenerAnnotations(a, config);
    if !ok { return Err(Failed); }
    config.fields := config.fields.(backendLabel := Get(a, BACKEND_LABEL));
    ok := ParseNumbers(a, config);
    if !ok { return Err(Failed); }
    ok := ParsePolicy(qc, svc, config);
    if !ok { return Err(Failed); }
    config.fields := config.fields.(listenerName := ListenerName(svc.ns, svc.name));
    return Ok(config);
  }

  /** The configuration of a service, if its annotations make one. */
  method ParseServiceLBConfig(qc: CloudConfig, svc: Service) returns (r: Result<LoadBalancerConfig>)
    ensures r.Ok? <==> Parses(svc)
    ensures r.Ok? ==> fresh(r.value) && r.value.fields == ConfigOf(qc, svc)
    ensures r.Ok? ==> AsAnnotated(qc, svc, r.value.fields)
    ensures r.Err? ==> r.error == Failed
  {
    r := FillConfig(qc, svc);
    if r.Ok? { AsAnnotatedIff(qc, svc, r.value.fields); }
  }
}
