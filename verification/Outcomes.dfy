/** What runs lead to, told from the annotations of the service, the nodes and the endpoints alone. */
module Outcomes {
  import opened Wrappers
  import opened GoStrings
  import opened Apis
  import opened Sequences
  import opened Random
  import opened CloudModel
  import opened ServiceConfig
  import opened Listeners
  import opened Backends
  import opened BackendLaws
  import opened NodeFilter
  import opened Discipline
  import opened Eips
  import opened ListenerRuns
  import opened SyncRuns
  import opened EnsureRuns
  import opened Provider

  // ---------- Backends ----------

  /** The text of an annotation; without one it is empty. */
  ghost function TextAt(a: map<Annotation, string>, key: Annotation): string {
    if key in a then a[key] else ""
  }

  /** The name is the id of the j-th node, and that is a good one. */
  ghost predicate OnNode(name: string, nodes: seq<Node>, good: set<nat>, j: nat) {
    j < |nodes| && j in good && Identifies(name, nodes[j])
  }

  ghost predicate OnSomeNode(name: string, nodes: seq<Node>, good: set<nat>) {
    exists j :: OnNode(name, nodes, good, j)
  }

  ghost predicate HasBackend(backends: seq<Backend>, n: Node) {
    exists i | 0 <= i < |backends| :: Identifies(backends[i].name, n)
  }

  /** Different backends, each on one of the good nodes. */
  ghost predicate OnGood(backends: seq<Backend>, nodes: seq<Node>, good: set<nat>) {
    && (forall i, j | 0 <= i < j < |backends| :: backends[i].name != backends[j].name)
    && forall i | 0 <= i < |backends| :: OnSomeNode(backends[i].name, nodes, good)
  }

  /** One on every good node, and no other. */
  ghost predicate OnAllGood(backends: seq<Backend>, nodes: seq<Node>, good: set<nat>) {
    OnGood(backends, nodes, good) && forall j | j in good && j < |nodes| :: HasBackend(backends, nodes[j])
  }

  /** So many of the nodes, 0 standing for all of them. */
  ghost predicate OnSoMany(backends: seq<Backend>, nodes: seq<Node>, count: int) {
    if count == 0 then OnAllGood(backends, nodes, Below(|nodes|))
    else |backends| == count && OnGood(backends, nodes, Below(|nodes|))
  }

  /** The nodes with a pod, and those with the labels. */
  ghost function PodNodes(nodes: seq<Node>, ep: Endpoints): set<nat> {
    set j: nat | j < |nodes| && HasPod(ep, nodes[j])
  }

  ghost function LabelNodes(nodes: seq<Node>, labels: string): set<nat> {
    set j: nat | j < |nodes| && Bears(nodes[j], labels)
  }

  /** The backends of a listener are where the service asks for them: under Local on all nodes with a pod; else on all
      nodes with the labels asked for, if there are any; else on all nodes or, under Cluster, as many as asked for. */
  ghost predicate WellPlaced(backends: seq<Backend>, q: Request) {
    var a := q.svc.annotations;
    if q.svc.policy.Local? then
      q.endpoints.Some? && OnAllGood(backends, q.nodes, PodNodes(q.nodes, q.endpoints.value))
    else if Given(a, BACKEND_LABEL) && SomeBears(q.nodes, a[BACKEND_LABEL]) then
      OnAllGood(backends, q.nodes, LabelNodes(q.nodes, a[BACKEND_LABEL]))
    else if !q.svc.policy.Cluster? then OnSoMany(backends, q.nodes, 0)
    else forall count: int | CountAsAsked(q.nodes, TextAt(a, BACKEND_LABEL), TextAt(a, BACKEND_COUNT), count) ::
           OnSoMany(backends, q.nodes, count)
  }

  /** `picked` are the good nodes. */
  ghost predicate Picked(picked: seq<Node>, nodes: seq<Node>, good: set<nat>, idx: seq<nat>) {
    && |picked| == |idx| && (forall k | 0 <= k < |idx| :: idx[k] < |nodes| && picked[k] == nodes[idx[k]])
    && forall j | j < |nodes| :: j in good <==> j in idx
  }

  lemma IsNodeIff(name: string, picked: seq<Node>, nodes: seq<Node>, good: set<nat>, idx: seq<nat>)
    requires Picked(picked, nodes, good, idx)
    ensures IsNode(name, picked) <==> OnSomeNode(name, nodes, good)
  {
    if IsNode(name, picked) {
      var i :| 0 <= i < |picked| && InstanceID(picked[i]) == name;
      IdentifiesIff(name, picked[i]);
      assert idx[i] in idx && OnNode(name, nodes, good, idx[i]);
    }
    if OnSomeNode(name, nodes, good) {
      var j: nat :| OnNode(name, nodes, good, j);
      assert j in idx;
      var k :| 0 <= k < |idx| && idx[k] == j;
      IdentifiesIff(name, picked[k]);
    }
  }

  lemma HasNameIff(backends: seq<Backend>, n: Node)
    ensures HasName(backends, InstanceID(n)) <==> HasBackend(backends, n)
  {
    forall i | 0 <= i < |backends| ensures backends[i].name == InstanceID(n) <==> Identifies(backends[i].name, n) {
      IdentifiesIff(backends[i].name, n);
    }
  }

  lemma OnGoodIff(backends: seq<Backend>, picked: seq<Node>, nodes: seq<Node>, good: set<nat>, idx: seq<nat>)
    requires Picked(picked, nodes, good, idx)
    ensures OnGood(backends, nodes, good) <==>
            DistinctNames(backends) && forall i | 0 <= i < |backends| :: IsNode(backends[i].name, picked)
  {
    forall i | 0 <= i < |backends|
      ensures IsNode(backends[i].name, picked) <==> OnSomeNode(backends[i].name, nodes, good)
    {
      IsNodeIff(backends[i].name, picked, nodes, good, idx);
    }
  }

  lemma AllHaveIff(backends: seq<Backend>, picked: seq<Node>, nodes: seq<Node>, good: set<nat>, idx: seq<nat>)
    requires Picked(picked, nodes, good, idx)
    ensures (forall k | 0 <= k < |picked| :: HasName(backends, InstanceID(picked[k]))) <==>
            (forall j | j in good && j < |nodes| :: HasBackend(backends, nodes[j]))
  {
    forall k | 0 <= k < |picked| ensures HasName(backends, InstanceID(picked[k])) <==> HasBackend(backends, picked[k]) {
      HasNameIff(backends, picked[k]);
    }
    if forall j | j in good && j < |nodes| :: HasBackend(backends, nodes[j]) {
      forall k | 0 <= k < |picked| ensures HasBackend(backends, picked[k]) { assert idx[k] in idx && idx[k] in good; }
    }
    if forall k | 0 <= k < |picked| :: HasName(backends, InstanceID(picked[k])) {
      forall j | j in good && j < |nodes| ensures HasBackend(backends, nodes[j]) {
        assert j in idx;
        var k :| 0 <= k < |idx| && idx[k] == j;
        assert HasName(backends, InstanceID(picked[k]));
      }
    }
  }

  /** Without a limit, to fit the nodes picked is to be on all good ones; with one, on so many of them. */
  lemma FitsPicked(backends: seq<Backend>, picked: seq<Node>, nodes: seq<Node>, good: set<nat>, idx: seq<nat>)
    requires Picked(picked, nodes, good, idx)
    ensures Fits(backends, picked, None) <==> OnAllGood(backends, nodes, good)
    ensures forall n: nat :: Fits(backends, picked, Some(n)) <==> |backends| == n && OnGood(backends, nodes, good)
  {
    OnGoodIff(backends, picked, nodes, good, idx);
    AllHaveIff(backends, picked, nodes, good, idx);
  }

  lemma FitsSelected(backends: seq<Backend>, picked: seq<Node>, nodes: seq<Node>, keep: Node -> bool, good: set<nat>)
    requires Selected(picked, nodes, keep)
    requires forall j: nat | j < |nodes| :: j in good <==> keep(nodes[j])
    ensures Fits(backends, picked, None) <==> OnAllGood(backends, nodes, good)
  {
    var idx :| SelectedAt(picked, nodes, keep, idx);
    FitsPicked(backends, picked, nodes, good, idx);
  }

  lemma FitsSoMany(backends: seq<Backend>, nodes: seq<Node>, count: nat)
    ensures Fits(backends, nodes, if count == 0 then None else Some(count)) <==> OnSoMany(backends, nodes, count)
  {
    var idx: seq<nat> := seq(|nodes|, i => i);
    forall j: nat | j < |nodes| ensures j in idx { assert idx[j] == j; }
    FitsPicked(backends, nodes, nodes, Below(|nodes|), idx);
  }

  /** There is one number of nodes that is asked for. */
  lemma CountUnique(nodes: seq<Node>, labels: string, asked: string, count: int, other: int)
    requires CountAsAsked(nodes, labels, asked, count) && CountAsAsked(nodes, labels, asked, other)
    ensures count == other
  {
  }

  lemma ClusterPlaced(backends: seq<Backend>, q: Request, conf: Config)
    requires Choosable(q, conf) && BackendsAsAnnotated(q.svc.annotations, conf) && q.svc.policy.Cluster?
    requires !(conf.backendLabel != "" && SomeBears(q.nodes, conf.backendLabel))
    ensures Fits(backends, Workers(q, conf), WorkerLimit(q, conf)) <==> WellPlaced(backends, q)
  {
    var a := q.svc.annotations;
    var count := CountFor(q.svc.policy, q.nodes, q.endpoints, conf);
    ChosenIsAsked(q.svc.policy, q.nodes, q.endpoints, conf);
    CountIsAvailable(q.svc.policy, q.nodes, q.endpoints, conf);
    FitsSoMany(backends, q.nodes, count);
    forall other: int | CountAsAsked(q.nodes, TextAt(a, BACKEND_LABEL), TextAt(a, BACKEND_COUNT), other)
      ensures other == count
    {
      CountUnique(q.nodes, TextAt(a, BACKEND_LABEL), TextAt(a, BACKEND_COUNT), count, other);
    }
  }

  /** What a run takes for the right backends is told by annotations, nodes and endpoints alone. */
  lemma WellPlacedIff(backends: seq<Backend>, q: Request, conf: Config)
    requires Choosable(q, conf) && BackendsAsAnnotated(q.svc.annotations, conf)
    ensures Fits(backends, Workers(q, conf), WorkerLimit(q, conf)) <==> WellPlaced(backends, q)
  {
    ChosenIsAsked(q.svc.policy, q.nodes, q.endpoints, conf);
    if q.svc.policy.Local? {
      FitsSelected(backends, Workers(q, conf), q.nodes, (n: Node) => HasPod(q.endpoints.value, n),
                   PodNodes(q.nodes, q.endpoints.value));
    } else if conf.backendLabel != "" && SomeBears(q.nodes, conf.backendLabel) {
      FitsSelected(backends, Workers(q, conf), q.nodes, (n: Node) => Bears(n, conf.backendLabel),
                   LabelNodes(q.nodes, conf.backendLabel));
    } else if q.svc.policy.Cluster? {
      ClusterPlaced(backends, q, conf);
    } else {
      FitsSoMany(backends, q.nodes, 0);
    }
  }

  // ---------- Listeners ----------

  /** The listener serves the port: it suits it, and its backends are where the service asks for them, on the node
      port. */
  ghost predicate ServesPort(l: Listener, c: ListenerAttrs, p: ServicePort, q: Request) {
    Suits(l.spec, c, p) && WellPlaced(l.backends, q)
      && forall i | 0 <= i < |l.backends| :: l.backends[i].port == p.nodePort
  }

  ghost predicate ServesSome(l: Listener, c: ListenerAttrs, q: Request) {
    exists i | 0 <= i < |q.svc.ports| :: ServesPort(l, c, q.svc.ports[i], q)
  }

  ghost predicate ServedBySome(s: State, id: string, prefix: string, c: ListenerAttrs, p: ServicePort, q: Request) {
    exists k :: OwnOn(s, k, id, prefix) && ServesPort(s.listeners[k], c, p, q)
  }

  /** On load balancer `id` the service has a listener for every port, and no other. */
  ghost predicate Delivered(s: State, id: string, prefix: string, c: ListenerAttrs, q: Request) {
    && (forall i | 0 <= i < |q.svc.ports| :: ServedBySome(s, id, prefix, c, q.svc.ports[i], q))
    && (forall k | OwnOn(s, k, id, prefix) :: ServesSome(s.listeners[k], c, q))
  }

  lemma ServesPortIff(l: Listener, conf: Config, p: ServicePort, q: Request)
    requires Choosable(q, conf) && BackendsAsAnnotated(q.svc.annotations, conf)
    ensures FitFor(l, AttrsOf(conf.listener), p, Workers(q, conf), WorkerLimit(q, conf)) <==>
            ServesPort(l, conf.listener, p, q)
  {
    SuitsIff(l.spec, conf.listener, p);
    WellPlacedIff(l.backends, q, conf);
  }

  lemma ServesSomeIff(l: Listener, conf: Config, q: Request)
    requires Choosable(q, conf) && BackendsAsAnnotated(q.svc.annotations, conf)
    ensures ListenerWanted(l, AttrsOf(conf.listener), q.svc.ports, Workers(q, conf), WorkerLimit(q, conf)) <==>
            ServesSome(l, conf.listener, q)
  {
    forall i | 0 <= i < |q.svc.ports|
      ensures FitFor(l, AttrsOf(conf.listener), q.svc.ports[i], Workers(q, conf), WorkerLimit(q, conf)) <==>
              ServesPort(l, conf.listener, q.svc.ports[i], q)
    {
      ServesPortIff(l, conf, q.svc.ports[i], q);
    }
  }

  lemma ServedBySomeIff(s: State, id: string, conf: Config, p: ServicePort, q: Request)
    requires Choosable(q, conf) && BackendsAsAnnotated(q.svc.annotations, conf)
    ensures PortServed(s, id, conf.listenerName, AttrsOf(conf.listener), p, Workers(q, conf), WorkerLimit(q, conf)) <==>
            ServedBySome(s, id, conf.listenerName, conf.listener, p, q)
  {
    forall k | OwnOn(s, k, id, conf.listenerName)
      ensures FitFor(s.listeners[k], AttrsOf(conf.listener), p, Workers(q, conf), WorkerLimit(q, conf)) <==>
              ServesPort(s.listeners[k], conf.listener, p, q)
    {
      ServesPortIff(s.listeners[k], conf, p, q);
    }
  }

  /** Being converged is told by annotations, ports, nodes and endpoints alone. */
  lemma DeliveredIff(s: State, id: string, q: Request, conf: Config)
    requires Choosable(q, conf) && BackendsAsAnnotated(q.svc.annotations, conf)
    ensures Serves(s, id, conf, q.svc.ports, Workers(q, conf), WorkerLimit(q, conf)) <==>
            Delivered(s, id, conf.listenerName, conf.listener, q)
  {
    forall i | 0 <= i < |q.svc.ports|
      ensures PortServed(s, id, conf.listenerName, AttrsOf(conf.listener), q.svc.ports[i], Workers(q, conf),
                         WorkerLimit(q, conf)) <==>
              ServedBySome(s, id, conf.listenerName, conf.listener, q.svc.ports[i], q)
    {
      ServedBySomeIff(s, id, conf, q.svc.ports[i], q);
    }
    forall k | OwnOn(s, k, id, conf.listenerName)
      ensures ListenerWanted(s.listeners[k], AttrsOf(conf.listener), q.svc.ports, Workers(q, conf),
                             WorkerLimit(q, conf)) <==>
              ServesSome(s.listeners[k], conf.listener, q)
    {
      ServesSomeIff(s.listeners[k], conf, q);
    }
  }

  // ---------- EIPs ----------

  /** From the EIPs a load balancer had to those it is to have: with ids annotated exactly these, or also those it had
      unless they are to be replaced; in an automatic mode those it had, or one; else those it had, but none if it is
      internal. */
  ghost predicate EipsAsAsked(a: map<Annotation, string>, was: set<string>, now: set<string>) {
    if Given(a, EIP_IDS) then
      forall e :: e in now <==> e in Split(a[EIP_IDS], ',') || (!Annotated(a, EIP_REPLACE, "true") && e in was)
    else if Annotated(a, EIP_SOURCE, "auto") || Annotated(a, EIP_SOURCE, "use-available")
            || Annotated(a, EIP_SOURCE, "allocate") then
      if was == {} then |now| == 1 else now == was
    else if Annotated(a, NETWORK_TYPE, "internal") then now == {}
    else now == was
  }

  lemma EipsAsAskedIff(a: map<Annotation, string>, conf: Config, was: set<string>, now: set<string>)
    requires EipAsAnnotated(a, conf.eip)
    requires conf.networkType == if Annotated(a, NETWORK_TYPE, "internal") then "internal" else "public"
    ensures EipGoal(conf, was, now) <==> EipsAsAsked(a, was, now)
  {
    if conf.eip.ids.Some? { SplitJoin(conf.eip.ids.value, ','); }
  }

  // ---------- Runs ----------

  /** What a successful ensure run has made of load balancer `id`. */
  ghost predicate EnsuredAsAnnotated(qc: CloudConfig, s: State, t: State, id: string, q: Request, c: ListenerAttrs) {
    var a := q.svc.annotations;
    && id in t.lbs && Delivered(t, id, "listener_" + q.svc.ns + "_" + q.svc.name + "_", c, q)
    && (!Given(a, LB_ID) ==> t.lbs[id].listed && NameOfOwn(qc, q.svc, t.lbs[id].name))
    && (LB_NODES in a ==> Some(t.lbs[id].nodeCount) == Atoi(a[LB_NODES]))
    && (INTERNAL_IP in a ==> a[INTERNAL_IP] in t.lbs[id].privateIPs)
    && (if id !in s.lbs then EipsAsAsked(a, {}, t.lbs[id].eips)
        else if Given(a, LB_ID) then id == a[LB_ID] && t.lbs[id].eips == s.lbs[id].eips
        else EipsAsAsked(a, s.lbs[id].eips, t.lbs[id].eips))
  }

  /** A successful ensure run has brought about what the annotations ask for, whatever there was before. */
  lemma EnsureAsAnnotated(qc: CloudConfig, q: Request, was: View, now: View, r: Result<seq<string>>, id: string,
                          ids: set<string>)
    requires Parses(q.svc) && EnsureRun(was, now, r, id, q, ConfigOf(qc, q.svc), ids) && r.Ok?
    requires Manageable(was.st, ConfigOf(qc, q.svc), q.svc.ports)
    ensures ListenerAsAnnotated(q.svc.annotations, ConfigOf(qc, q.svc).listener)
    ensures EnsuredAsAnnotated(qc, was.st, now.st, id, q, ConfigOf(qc, q.svc).listener)
  {
    var c := ConfigOf(qc, q.svc);
    AsAnnotatedIff(qc, q.svc, c);
    EnsuredIsAsAnnotated(qc, q, was.st, now.st, id, c);
  }

  lemma EnsuredIsAsAnnotated(qc: CloudConfig, q: Request, s: State, t: State, id: string, c: Config)
    requires Parses(q.svc) && AsAnnotated(qc, q.svc, c)
    requires Ensured(s, t, id, q, c) && Manageable(s, c, q.svc.ports)
    ensures EnsuredAsAnnotated(qc, s, t, id, q, c.listener)
  {
    assert Fulfilled(t, id, q, c);
    DeliveredIff(t, id, q, c);
    if id in s.lbs {
      var x :| Names(c, s, x);
      assert Names(c, s, id);
    }
    var had := if id in s.lbs then s.lbs[id].eips else {};
    EipsAsAskedIff(q.svc.annotations, c, had, t.lbs[id].eips);
  }

  /** The service may have an EIP allocated: in mode allocate, or in mode auto while none is on offer. */
  ghost predicate AllocationAsked(a: map<Annotation, string>, s: State) {
    !Given(a, EIP_IDS) && (Annotated(a, EIP_SOURCE, "allocate")
                           || (Annotated(a, EIP_SOURCE, "auto") && forall e :: !Offered(s, e)))
  }

  /** Whatever becomes of a run, an EIP is allocated at most once, and only where the annotations ask for it. */
  lemma AllocatesAsAnnotated(qc: CloudConfig, q: Request, was: View, now: View, r: Result<seq<string>>, id: string,
                             ids: set<string>)
    requires Parses(q.svc) && EnsureRun(was, now, r, id, q, ConfigOf(qc, q.svc), ids)
    ensures Allocations(now.log, |was.log|, AllocationAsked(q.svc.annotations, was.st))
  {
    var c := ConfigOf(qc, q.svc);
    AsAnnotatedIff(qc, q.svc, c);
    assert EipAsAnnotated(q.svc.annotations, c.eip);
    assert Allocations(now.log, |was.log|, MayAllocate(c, was.st));
  }

  /** Behind every listener of the service the backends are where it asks for them. */
  ghost predicate AllWellPlaced(s: State, id: string, prefix: string, q: Request) {
    forall k | OwnOn(s, k, id, prefix) :: WellPlaced(s.listeners[k].backends, q)
  }

  /** And so has a successful update for the backends. */
  lemma UpdateAsAnnotated(qc: CloudConfig, q: Request, was: View, now: View, id: string, ids: set<string>)
    requires Parses(q.svc) && UpdateDone(was, now, true, id, q, ConfigOf(qc, q.svc), ids)
    requires OwnSmall(was.st, id, "listener_" + q.svc.ns + "_" + q.svc.name + "_")
    ensures AllWellPlaced(now.st, id, "listener_" + q.svc.ns + "_" + q.svc.name + "_", q)
  {
    var c := ConfigOf(qc, q.svc);
    AsAnnotatedIff(qc, q.svc, c);
    ConfigSound(qc, q.svc);
    FollowingIff(now.st, id, q, c);
  }

  lemma FollowingIff(s: State, id: string, q: Request, conf: Config)
    requires Choosable(q, conf) && BackendsAsAnnotated(q.svc.annotations, conf)
    ensures Following(s, id, q, conf) <==> AllWellPlaced(s, id, conf.listenerName, q)
  {
    forall k | OwnOn(s, k, id, conf.listenerName)
      ensures Fits(s.listeners[k].backends, Workers(q, conf), WorkerLimit(q, conf)) <==>
              WellPlaced(s.listeners[k].backends, q)
    {
      WellPlacedIff(s.listeners[k].backends, q, conf);
    }
  }

  /** Under Local every backend is on a node with a pod, and every such node has one. */
  lemma LocalServesPods(backends: seq<Backend>, q: Request)
    requires WellPlaced(backends, q) && q.svc.policy.Local?
    ensures q.endpoints.Some?
    ensures forall i | 0 <= i < |backends| :: OnPodNode(backends[i].name, q.nodes, q.endpoints.value)
    ensures forall n | n in q.nodes && HasPod(q.endpoints.value, n) :: HasBackend(backends, n)
  {
    var good := PodNodes(q.nodes, q.endpoints.value);
    forall i | 0 <= i < |backends| ensures OnPodNode(backends[i].name, q.nodes, q.endpoints.value) {
      assert OnSomeNode(backends[i].name, q.nodes, good);
      var j: nat :| OnNode(backends[i].name, q.nodes, good, j);
      assert q.nodes[j] in q.nodes;
    }
    forall n | n in q.nodes && HasPod(q.endpoints.value, n) ensures HasBackend(backends, n) {
      var j: nat :| j < |q.nodes| && q.nodes[j] == n;
      assert j in good;
    }
  }

  ghost predicate OnPodNode(name: string, nodes: seq<Node>, ep: Endpoints) {
    exists n | n in nodes :: HasPod(ep, n) && Identifies(name, n)
  }

  /** Under Cluster, without a label annotation, a number that is annotated and can be had is the number of backends. */
  lemma ClusterServesSoMany(backends: seq<Backend>, q: Request, count: int)
    requires WellPlaced(backends, q) && q.svc.policy.Cluster? && !Given(q.svc.annotations, BACKEND_LABEL)
    requires BACKEND_COUNT in q.svc.annotations && Atoi(q.svc.annotations[BACKEND_COUNT]) == Some(count)
    requires 0 < count <= |q.nodes|
    ensures |backends| == count
  {
    var a := q.svc.annotations;
    assert CountAsAsked(q.nodes, TextAt(a, BACKEND_LABEL), TextAt(a, BACKEND_COUNT), count);
  }
}
