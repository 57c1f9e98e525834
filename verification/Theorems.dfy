/** What the runs mean together: repeated, one after the other, and for those who share the cloud. */
module Theorems {
  import opened Wrappers
  import opened Apis
  import opened Sequences
  import opened Naming
  import opened CloudModel
  import opened Random
  import opened ServiceConfig
  import opened Listeners
  import opened ListenerLaws
  import opened Backends
  import opened BackendLaws
  import opened Discipline
  import opened Eips
  import opened BackendRuns
  import opened ListenerRuns
  import opened SyncRuns
  import opened Balancers
  import opened EnsureRuns
  import opened UpdateRuns
  import opened DeleteRuns
  import opened Provider

  // ---------- EIPs ----------

  /** Over any history of runs, in any order and with any failures, an EIP that the controller did not
      allocate itself stays in the pool. */
  lemma {:induction false} UserEipsKept(origin: State, log: seq<Step>, now: State, scopes: seq<Scope>, ids: set<string>,
                                        e: string, i: nat)
    requires Chained(origin, log, now) && |scopes| == |log| && i < |log|
    requires forall j | 0 <= j < |log| :: Disciplined(scopes[j], ids, log[j])
    requires e in origin.eips && origin.eips[e].name != ALLOCATED_EIP_NAME
    ensures e in log[i].after.eips && log[i].after.eips[e] == origin.eips[e]
  {
    assert StepOK(log, i);
    if i > 0 { UserEipsKept(origin, log, now, scopes, ids, e, i - 1); }
    EipStays(scopes[i], ids, log[i], e);
  }

  lemma EipStays(sc: Scope, ids: set<string>, step: Step, e: string)
    requires Disciplined(sc, ids, step) && Outcome(step.before, step.call, false, step.after)
    requires e in step.before.eips && step.before.eips[e].name != ALLOCATED_EIP_NAME
    ensures e in step.after.eips && step.after.eips[e] == step.before.eips[e]
  {
  }

  /** The EIPs of a load balancer that is reused are left alone at every step, and it is never deleted. */
  lemma ReusedKeepsEips(conf: Config, ids: set<string>, origin: State, log0: seq<Step>, s: State, log: seq<Step>,
                        now: State, id: string)
    requires log0 <= log && Chained(origin, log0, s) && Chained(origin, log, now)
    requires AllDisciplined(ScopeOfConfig(conf), ids, log, |log0|) && conf.reuseLBID != "" && id in s.lbs
    ensures SameEips(log, |log0|, id, s.lbs[id].eips)
    ensures id in now.lbs && now.lbs[id].eips == s.lbs[id].eips
  {
    RunKeepsEips(ScopeOfConfig(conf), ids, origin, log0, s, log, now, id);
  }

  // ---------- Again ----------

  ghost predicate Pairs(s: State, lb: string, prefix: string, a: Attrs, ports: seq<ServicePort>, nodes: seq<Node>,
                        limit: Option<nat>, k: nat, i: nat) {
    OwnOn(s, k, lb, prefix) && i < |ports| && FitFor(s.listeners[k], a, ports[i], nodes, limit)
  }

  lemma PairsUnique(s: State, lb: string, prefix: string, a: Attrs, ports: seq<ServicePort>, nodes: seq<Node>,
                    limit: Option<nat>, k: nat, m: nat, i: nat, j: nat)
    requires s.Valid() && PortsOK(a, ports) && Converged(s, lb, prefix, a, ports, nodes, limit)
    requires Pairs(s, lb, prefix, a, ports, nodes, limit, k, i) && Pairs(s, lb, prefix, a, ports, nodes, limit, m, j)
    ensures k == m <==> i == j
  {
    ConvergedIsBijection(s, lb, prefix, a, ports, nodes, limit, k, m, i, j);
  }

  /** The pairing as a finite relation. */
  ghost function Pairing(s: State, lb: string, prefix: string, a: Attrs, ports: seq<ServicePort>, nodes: seq<Node>,
                         limit: Option<nat>): set<(nat, nat)> {
    set k: nat, i: nat | k in OwnSet(s, lb, prefix) && 0 <= i < |ports|
      && Pairs(s, lb, prefix, a, ports, nodes, limit, k, i) :: (k, i)
  }

  lemma PairListed(s: State, lb: string, prefix: string, a: Attrs, ports: seq<ServicePort>, nodes: seq<Node>,
                   limit: Option<nat>, k: nat, i: nat)
    requires Pairs(s, lb, prefix, a, ports, nodes, limit, k, i)
    ensures k in OwnSet(s, lb, prefix) && i in Below(|ports|)
            && (k, i) in Pairing(s, lb, prefix, a, ports, nodes, limit)
  {
  }

  lemma PortOfListener(s: State, lb: string, prefix: string, a: Attrs, ports: seq<ServicePort>, nodes: seq<Node>,
                       limit: Option<nat>, k: nat)
    returns (i: nat)
    requires Converged(s, lb, prefix, a, ports, nodes, limit) && k in OwnSet(s, lb, prefix)
    ensures i in Below(|ports|) && (k, i) in Pairing(s, lb, prefix, a, ports, nodes, limit)
  {
    assert OwnOn(s, k, lb, prefix) && ListenerWanted(s.listeners[k], a, ports, nodes, limit);
    var j :| 0 <= j < |ports| && FitFor(s.listeners[k], a, ports[j], nodes, limit);
    i := j;
    PairListed(s, lb, prefix, a, ports, nodes, limit, k, i);
  }

  lemma ListenerOfPort(s: State, lb: string, prefix: string, a: Attrs, ports: seq<ServicePort>, nodes: seq<Node>,
                       limit: Option<nat>, i: nat)
    returns (k: nat)
    requires Converged(s, lb, prefix, a, ports, nodes, limit) && i in Below(|ports|)
    ensures k in OwnSet(s, lb, prefix) && (k, i) in Pairing(s, lb, prefix, a, ports, nodes, limit)
  {
    assert PortServed(s, lb, prefix, a, ports[i], nodes, limit);
    k :| OwnOn(s, k, lb, prefix) && FitFor(s.listeners[k], a, ports[i], nodes, limit);
    PairListed(s, lb, prefix, a, ports, nodes, limit, k, i);
  }

  /** Converged, the service has exactly one listener per port. */
  lemma OneListenerPerPort(s: State, lb: string, prefix: string, a: Attrs, ports: seq<ServicePort>, nodes: seq<Node>,
                           limit: Option<nat>)
    requires s.Valid() && PortsOK(a, ports) && Converged(s, lb, prefix, a, ports, nodes, limit)
    ensures |OwnSet(s, lb, prefix)| == |ports|
  {
    var own, all := OwnSet(s, lb, prefix), Below(|ports|);
    var pairing := Pairing(s, lb, prefix, a, ports, nodes, limit);
    forall k | k in own ensures exists i :: i in all && (k, i) in pairing {
      var i := PortOfListener(s, lb, prefix, a, ports, nodes, limit, k);
    }
    forall i | i in all ensures exists k :: k in own && (k, i) in pairing {
      var k := ListenerOfPort(s, lb, prefix, a, ports, nodes, limit, i);
    }
    forall k, m, i, j | (k, i) in pairing && (m, j) in pairing ensures k == m <==> i == j {
      PairsUnique(s, lb, prefix, a, ports, nodes, limit, k, m, i, j);
    }
    BijectionCount(own, all, pairing);
  }

  /** The load balancer of a successful run is the one the next run finds exactly when no id is given, or that
      of a load balancer there is by now: one that was there before, or the one just made. */
  lemma FoundAgainIff(s: State, t: State, id: string, q: Request, conf: Config)
    requires Ensured(s, t, id, q, conf)
    ensures Names(conf, t, id) <==> Refindable(conf, t)
    ensures Refindable(conf, s) ==> Refindable(conf, t)
    ensures !Refindable(conf, s) ==> id !in s.lbs && t.lbs.Keys == s.lbs.Keys + {id}
  {
    if conf.reuseLBID in s.lbs && conf.reuseLBID != "" { assert Names(conf, s, conf.reuseLBID); }
  }

  /** A successful run leaves the service at rest, and as manageable as it was. */
  lemma EnsuredIsAtRest(s: State, t: State, id: string, q: Request, conf: Config)
    requires t.Valid() && Ensured(s, t, id, q, conf) && Manageable(s, conf, q.svc.ports) && Refindable(conf, t)
    ensures Names(conf, t, id) && Manageable(t, conf, q.svc.ports)
    ensures Workers(q, conf) != [] ==> AtRest(t, q, conf)
  {
    FoundAgainIff(s, t, id, q, conf);
    assert Fulfilled(t, id, q, conf);
    OneListenerPerPort(t, id, conf.listenerName, AttrsOf(conf.listener), q.svc.ports, Workers(q, conf),
                       WorkerLimit(q, conf));
  }

  /** Idempotence: after a successful run a second one for the same request issues no call at all,
      whatever was drawn at random. */
  lemma EnsureTwice(was: View, mid: View, now: View, first: Result<seq<string>>, second: Result<seq<string>>,
                    id: string, other: string, q: Request, conf: Config, ids: set<string>)
    requires EnsureRun(was, mid, first, id, q, conf, ids) && EnsureRun(mid, now, second, other, q, conf, ids)
    requires first.Ok? && Refindable(conf, was.st) && Manageable(was.st, conf, q.svc.ports)
    requires Choosable(q, conf) && Workers(q, conf) != []
    ensures Quiet(mid, now, second.Ok?)
  {
    FoundAgainIff(was.st, mid.st, id, q, conf);
    EnsuredIsAtRest(was.st, mid.st, id, q, conf);
  }

  /** Idempotence fails under policy exclusive with an id that nobody has: unless the cloud happens to give that
      id to the load balancer just made, the next successful run makes another one. */
  lemma EnsureAnother(was: View, mid: View, now: View, first: Result<seq<string>>, second: Result<seq<string>>,
                      id: string, other: string, q: Request, conf: Config, ids: set<string>)
    requires EnsureRun(was, mid, first, id, q, conf, ids) && EnsureRun(mid, now, second, other, q, conf, ids)
    requires first.Ok? && second.Ok? && !Refindable(conf, was.st) && id != conf.reuseLBID
    ensures id != other && id !in was.st.lbs && other !in was.st.lbs
    ensures now.st.lbs.Keys == was.st.lbs.Keys + {id, other}
  {
    AnotherMade(was.st, mid.st, now.st, id, other, q, conf);
  }

  lemma AnotherMade(s: State, t: State, u: State, id: string, other: string, q: Request, conf: Config)
    requires Ensured(s, t, id, q, conf) && Ensured(t, u, other, q, conf)
    requires !Refindable(conf, s) && id != conf.reuseLBID
    ensures id != other && id !in s.lbs && other !in s.lbs && u.lbs.Keys == s.lbs.Keys + {id, other}
  {
  }

  // ---------- After failures ----------

  /** What a request asks of the cloud beforehand so that nothing but faults can keep it from being fulfilled. */
  ghost predicate Attainable(s: State, q: Request, conf: Config) {
    && Manageable(s, conf, q.svc.ports) && Refindable(conf, s) && Doable(s, q, conf) && Addressable(s, conf)
  }

  /** A run leaves it so, whatever became of the run; and only a fault makes it fail. */
  lemma AttainableStays(was: View, now: View, r: Result<seq<string>>, id: string, q: Request, conf: Config,
                        ids: set<string>)
    requires EnsureRun(was, now, r, id, q, conf, ids) && Attainable(was.st, q, conf)
    ensures Attainable(now.st, q, conf)
    ensures r.Err? ==> now.faults > was.faults
    ensures r.Ok? ==> Names(conf, now.st, id) && Fulfilled(now.st, id, q, conf)
  {
    if r.Ok? { FoundAgainIff(was.st, now.st, id, q, conf); }
  }

  /** Convergence after a failure: however the first run ended and whatever it left half done, a second one that
      meets no fault fulfils the request. */
  lemma EnsureAfterFailure(was: View, mid: View, now: View, first: Result<seq<string>>, second: Result<seq<string>>,
                           id: string, other: string, q: Request, conf: Config, ids: set<string>)
    requires EnsureRun(was, mid, first, id, q, conf, ids) && EnsureRun(mid, now, second, other, q, conf, ids)
    requires Attainable(was.st, q, conf) && now.faults == mid.faults
    ensures second.Ok? && Names(conf, now.st, other) && Fulfilled(now.st, other, q, conf)
  {
    AttainableStays(was, mid, first, id, q, conf, ids);
    AttainableStays(mid, now, second, other, q, conf, ids);
  }

  /** One run of the service after the other, from view to view. */
  ghost predicate Attempts(views: seq<View>, answers: seq<Result<seq<string>>>, lbs: seq<string>, q: Request,
                           conf: Config, ids: set<string>) {
    && |views| == |answers| + 1 && |lbs| == |answers|
    && forall i | 0 <= i < |answers| :: EnsureRun(views[i], views[i + 1], answers[i], lbs[i], q, conf, ids)
  }

  /** Trying again and again: the request stays attainable, every attempt that fails met a fault, and one that succeeds
      fulfils it. */
  lemma {:induction false} EnsureUntilDone(views: seq<View>, answers: seq<Result<seq<string>>>, lbs: seq<string>,
                                           q: Request, conf: Config, ids: set<string>, n: nat)
    requires Attempts(views, answers, lbs, q, conf, ids) && n <= |answers|
    requires Attainable(views[0].st, q, conf)
    ensures Attainable(views[n].st, q, conf)
    ensures (forall i | 0 <= i < n :: answers[i].Err?) ==> views[n].faults >= views[0].faults + n
    ensures n > 0 && answers[n - 1].Ok? ==>
              Names(conf, views[n].st, lbs[n - 1]) && Fulfilled(views[n].st, lbs[n - 1], q, conf)
  {
    if n > 0 {
      EnsureUntilDone(views, answers, lbs, q, conf, ids, n - 1);
      assert EnsureRun(views[n - 1], views[n - 1 + 1], answers[n - 1], lbs[n - 1], q, conf, ids);
      AttainableStays(views[n - 1], views[n], answers[n - 1], lbs[n - 1], q, conf, ids);
    }
  }

  // ---------- What stays pending ----------

  /** A listener for port p, served from one node. */
  ghost function ExampleListener(conf: Config, p: ServicePort, n: Node): Listener {
    Listener(0, SpecFor(AttrsOf(conf.listener), conf.reuseLBID, conf.listenerName, p),
             [Backend(BackendID(0, 1), InstanceID(n), p.nodePort, InstanceID(n))])
  }

  /** A cloud with that listener and one load balancer, on which a change is pending. */
  ghost function PendingExample(conf: Config, p: ServicePort, n: Node): State {
    State(map[conf.reuseLBID := LB("", 2, [], {}, true, true)], map[0 := ExampleListener(conf, p, n)], map[], 2)
  }

  lemma ExampleFits(conf: Config, p: ServicePort, n: Node)
    requires Generable(AttrsOf(conf.listener), p)
    ensures FitFor(ExampleListener(conf, p, n), AttrsOf(conf.listener), p, [n], None)
  {
    var l := ExampleListener(conf, p, n);
    MatchIsAgreement(l.spec, AttrsOf(conf.listener), p);
    assert InstanceID([n][0]) == InstanceID(n) && l.backends[0].name == InstanceID(n);
    assert IsNode(InstanceID(n), [n]) && HasName(l.backends, InstanceID(n));
  }

  lemma ExampleServes(conf: Config, p: ServicePort, n: Node)
    requires Generable(AttrsOf(conf.listener), p)
    ensures Serves(PendingExample(conf, p, n), conf.reuseLBID, conf, [p], [n], None)
  {
    var s, a := PendingExample(conf, p, n), AttrsOf(conf.listener);
    ExampleFits(conf, p, n);
    assert OwnOn(s, 0, conf.reuseLBID, conf.listenerName) && FitFor(s.listeners[0], a, [p][0], [n], None);
    assert PortServed(s, conf.reuseLBID, conf.listenerName, a, [p][0], [n], None);
    forall k | OwnOn(s, k, conf.reuseLBID, conf.listenerName)
      ensures ListenerWanted(s.listeners[k], a, [p], [n], None)
    {
      assert k == 0;
    }
  }

  lemma ExampleInv(conf: Config, p: ServicePort, n: Node)
    ensures Inv(PendingExample(conf, p, n), conf.listenerName, {InstanceID(n)})
    ensures |OwnSet(PendingExample(conf, p, n), conf.reuseLBID, conf.listenerName)| <= 1
  {
    var s := PendingExample(conf, p, n);
    assert s.ListenerValid(0);
    var own := OwnSet(s, conf.reuseLBID, conf.listenerName);
    if own != {} { assert own == {0}; }
  }

  /** In the example every run ends where it began. */
  lemma ExampleAtRest(q: Request, conf: Config, p: ServicePort, n: Node)
    requires conf.reuseLBID != "" && conf.nodeCount == None && conf.internalIP == None && q.svc.ports == [p]
    requires PortsOK(AttrsOf(conf.listener), [p]) && Generable(AttrsOf(conf.listener), p)
    requires Choosable(q, conf) && Workers(q, conf) == [n] && WorkerLimit(q, conf) == None
    ensures var s := PendingExample(conf, p, n);
            Names(conf, s, conf.reuseLBID) && Manageable(s, conf, [p]) && AtRest(s, q, conf)
  {
    var s := PendingExample(conf, p, n);
    ExampleServes(conf, p, n);
    ExampleInv(conf, p, n);
    assert Names(conf, s, conf.reuseLBID) && Fulfilled(s, conf.reuseLBID, q, conf);
  }

  lemma ExampleReady(conf: Config, p: ServicePort, n: Node)
    requires conf.reuseLBID != ""
    ensures var s := PendingExample(conf, p, n);
            && Ready(s, ScopeOfConfig(conf), {InstanceID(n)}, [n])
            && conf.reuseLBID in s.lbs && s.lbs[conf.reuseLBID].pending
  {
    ExampleInv(conf, p, n);
  }

  lemma ExampleRequest(qc: CloudConfig, p: ServicePort, n: Node) returns (q: Request)
    requires p.protocol == TCP
    ensures Parses(q.svc) && q.svc.ports == [p] && q.nodes == [n]
    ensures var c := ConfigOf(qc, q.svc);
            && c.reuseLBID == "lb" && c.nodeCount == None && c.internalIP == None
            && PortsOK(AttrsOf(c.listener), [p]) && Generable(AttrsOf(c.listener), p)
            && Choosable(q, c) && Workers(q, c) == [n] && WorkerLimit(q, c) == None
  {
    var annotations := map[LB_POLICY := REUSE_EXISTING_LB, LB_ID := "lb"];
    q := Request(Service("ns", "web", "uid", annotations, true, Unset, [p]), [n], None);
    var a := AttrsOf(ConfigOf(qc, q.svc).listener);
    LowerLiterals();
    assert LB_POLICY in annotations && a.protocols == map[];
    assert ProtocolFor(a, [p][0]) == "tcp" && TransportKept(a, [p][0]);
  }

  /** A change that an earlier run left pending can stay so, however often a run succeeds: here is a request and
      a cloud from which every run, whatever the network does, ends where it began. */
  lemma PendingCanStay(qc: CloudConfig) returns (q: Request, s: State, ids: set<string>)
    ensures var c := ConfigOf(qc, q.svc);
            && Parses(q.svc) && Ready(s, ScopeOfConfig(c), ids, q.nodes) && Manageable(s, c, q.svc.ports)
            && Choosable(q, c) && Workers(q, c) != [] && Names(c, s, c.reuseLBID) && s.lbs[c.reuseLBID].pending
            && forall was: View, now: View, r, id |
                 was.st == s && EnsureRun(was, now, r, id, q, c, ids) :: now.st == s && now.log == was.log
  {
    var p, n := ServicePort(80, TCP, 30080), Node("i", None, map[]);
    q := ExampleRequest(qc, p, n);
    var c := ConfigOf(qc, q.svc);
    s, ids := PendingExample(c, p, n), {InstanceID(n)};
    ExampleReady(c, p, n);
    ExampleAtRest(q, c, p, n);
    RestStays(s, q, c, ids);
  }

  /** Every run that finds the service at rest leaves the cloud as it is. */
  lemma RestStays(s: State, q: Request, conf: Config, ids: set<string>)
    requires AtRest(s, q, conf) && Manageable(s, conf, q.svc.ports)
    ensures forall was: View, now: View, r, id |
              was.st == s && EnsureRun(was, now, r, id, q, conf, ids) :: now.st == s && now.log == was.log
  {
  }

  // ---------- Ensure and update ----------

  /** After a successful run an update has nothing to do, and nothing in its way. */
  lemma EnsuredFollows(s: State, t: State, id: string, q: Request, conf: Config)
    requires t.Valid() && Ensured(s, t, id, q, conf) && Manageable(s, conf, q.svc.ports) && Refindable(conf, t)
    ensures forall x | Names(conf, t, x) :: Following(t, x, q, conf)
    ensures Updatable(t, q, conf)
  {
    FoundAgainIff(s, t, id, q, conf);
    ConvergedListens(t, id, conf.listenerName, AttrsOf(conf.listener), q.svc.ports, Workers(q, conf),
                     WorkerLimit(q, conf));
    ListeningKnowsPorts(t, id, conf.listenerName, AttrsOf(conf.listener), q.svc.ports);
  }

  /** Right after a successful ensure run, an update run for the same request issues no call and, without
      faults, succeeds. */
  lemma EnsureThenUpdate(was: View, mid: View, now: View, first: Result<seq<string>>, ok: bool, id: string,
                         other: string, q: Request, conf: Config, ids: set<string>)
    requires EnsureRun(was, mid, first, id, q, conf, ids) && UpdateDone(mid, now, ok, other, q, conf, ids)
    requires first.Ok? && Refindable(conf, was.st) && Manageable(was.st, conf, q.svc.ports) && mid.st.Valid()
    ensures Quiet(mid, now, ok)
  {
    FoundAgainIff(was.st, mid.st, id, q, conf);
    EnsuredFollows(was.st, mid.st, id, q, conf);
  }

  /** Two listeners that serve the same port have backends on the same nodes; under a limit on as many of them. */
  lemma SamePortSameNodes(a: Attrs, p: ServicePort, ports: seq<ServicePort>, nodes: seq<Node>, limit: Option<nat>,
                          l: Listener, m: Listener)
    requires PortsOK(a, ports) && p in ports && SpecMatches(l.spec, a, p) && SpecMatches(m.spec, a, p)
    requires ListenerWanted(l, a, ports, nodes, limit) && ListenerWanted(m, a, ports, nodes, limit)
    ensures limit.None? ==> forall name :: HasName(l.backends, name) <==> HasName(m.backends, name)
    ensures limit.Some? ==> |l.backends| == |m.backends| == limit.value
    ensures forall x | 0 <= x < |l.backends| :: IsNode(l.backends[x].name, nodes) && l.backends[x].port == p.nodePort
    ensures forall x | 0 <= x < |m.backends| :: IsNode(m.backends[x].name, nodes) && m.backends[x].port == p.nodePort
  {
  }

  /** From a state whose listeners match the ports, an ensure run and an update run agree: they work on the same
      load balancer, and each port ends up with the same nodes behind it, or under a limit with as many. */
  lemma UpdateAgreesWithEnsure(s: State, t: State, u: State, id: string, other: string, q: Request, conf: Config,
                               i: nat, k: nat, m: nat)
    requires Ensured(s, t, id, q, conf) && Updated(s, u, other, q, conf) && Manageable(s, conf, q.svc.ports)
    requires Listening(s, other, conf.listenerName, AttrsOf(conf.listener), q.svc.ports) && i < |q.svc.ports|
    requires OwnOn(t, k, id, conf.listenerName)
             && SpecMatches(t.listeners[k].spec, AttrsOf(conf.listener), q.svc.ports[i])
    requires OwnOn(u, m, other, conf.listenerName)
             && SpecMatches(u.listeners[m].spec, AttrsOf(conf.listener), q.svc.ports[i])
    ensures id == other
    ensures WorkerLimit(q, conf).None? ==>
              forall name :: HasName(t.listeners[k].backends, name) <==> HasName(u.listeners[m].backends, name)
    ensures WorkerLimit(q, conf).Some? ==>
              |t.listeners[k].backends| == |u.listeners[m].backends| == WorkerLimit(q, conf).value
    ensures forall x | 0 <= x < |t.listeners[k].backends| :: IsNode(t.listeners[k].backends[x].name, Workers(q, conf))
    ensures forall x | 0 <= x < |u.listeners[m].backends| :: IsNode(u.listeners[m].backends[x].name, Workers(q, conf))
  {
    var a, nodes, limit := AttrsOf(conf.listener), Workers(q, conf), WorkerLimit(q, conf);
    assert ListenerWanted(t.listeners[k], a, q.svc.ports, nodes, limit);
    assert ListenerWanted(u.listeners[m], a, q.svc.ports, nodes, limit);
    SamePortSameNodes(a, q.svc.ports[i], q.svc.ports, nodes, limit, t.listeners[k], u.listeners[m]);
  }

  // ---------- Deletion ----------

  /** What a successful deletion leaves is clean. */
  lemma DeletedIsClean(s: State, t: State, id: string, conf: Config)
    requires Deleted(s, t, id, conf) && Unambiguous(s, conf)
    ensures Clean(t, conf)
  {
    forall x | Names(conf, t, x) ensures SharedWith(conf, t, x) && NoOwn(t, x, conf.listenerName) {
      assert Names(conf, s, x) && x == id;
      if conf.reuseLBID == "" {
        var k :| k in s.listeners && s.listeners[k].spec.lb == id && !Own(s.listeners[k], conf.listenerName);
        assert !OwnOn(s, k, id, conf.listenerName);
      }
    }
  }

  /** Deleting is idempotent: after a successful deletion a second one issues no call. */
  lemma DeleteTwice(was: View, mid: View, now: View, first: bool, second: bool, id: Option<string>,
                    other: Option<string>, conf: Config, ids: set<string>)
    requires DeletionRun(was, mid, first, id, conf, ids) && DeletionRun(mid, now, second, other, conf, ids)
    requires first && Unambiguous(was.st, conf)
    ensures Quiet(mid, now, second)
  {
    if id.Some? { DeletedIsClean(was.st, mid.st, id.value, conf); }
  }

  /** However a first deletion ended, a second one that meets no fault leaves nothing to delete. */
  lemma DeleteAfterFailure(was: View, mid: View, now: View, first: bool, second: bool, id: Option<string>,
                           other: Option<string>, conf: Config, ids: set<string>)
    requires DeletionRun(was, mid, first, id, conf, ids) && DeletionRun(mid, now, second, other, conf, ids)
    requires Unambiguous(was.st, conf) && now.faults == mid.faults
    ensures second && Clean(now.st, conf)
  {
    FewerStaysUnambiguous(was.st, mid.st, conf);
    if other.Some? { DeletedIsClean(mid.st, now.st, other.value, conf); }
  }

  lemma FewerStaysUnambiguous(s: State, t: State, conf: Config)
    requires Unambiguous(s, conf) && Fewer(s, t)
    ensures Unambiguous(t, conf)
  {
    forall id, other | Names(conf, t, id) && Names(conf, t, other) ensures id == other {
      assert Names(conf, s, id) && Names(conf, s, other);
    }
  }

  // ---------- Ensure, then delete ----------

  lemma RemovedIsForeign(sc: Scope, s: State, t: State, u: State, id: string)
    requires Untouched(sc, s, t) && OwnRemoved(t, u, id, sc.prefix) && id in s.lbs && id in t.lbs
    requires t.lbs[id].eips == s.lbs[id].eips
    ensures ForeignSame(s, u, id, sc.prefix)
  {
  }

  /** Under reuse-lb both kinds of runs look for the load balancer by the id in the annotation. */
  lemma ReuseTargets(qc: CloudConfig, svc: Service)
    requires Parses(svc) && ConfigOf(qc, svc).policy == REUSE_EXISTING_LB
    ensures DeletionConfig(qc, svc).reuseLBID == ConfigOf(qc, svc).reuseLBID != ""
    ensures forall s: State, id :: Names(DeletionConfig(qc, svc), s, id) <==> Names(ConfigOf(qc, svc), s, id)
  {
  }

  /** Round trip on a reused load balancer: after ensure and delete it has exactly the listeners it had
      that are not the service's, and the EIPs it had. */
  lemma EnsureThenDelete(qc: CloudConfig, q: Request, was: View, mid: View, now: View, first: Result<seq<string>>,
                         ok: bool, made: string, target: Option<string>, ids: set<string>, origin: State)
    requires Chained(origin, was.log, was.st) && Chained(origin, mid.log, mid.st)
    requires Inv(was.st, ListenerName(q.svc.ns, q.svc.name), ids)
    requires Parses(q.svc) && ConfigOf(qc, q.svc).policy == REUSE_EXISTING_LB
    requires ConfigOf(qc, q.svc).reuseLBID in was.st.lbs
    requires EnsureRun(was, mid, first, made, q, ConfigOf(qc, q.svc), ids) && first.Ok?
    requires DeletionRun(mid, now, ok, target, DeletionConfig(qc, q.svc), ids) && ok
    ensures ForeignSame(was.st, now.st, ConfigOf(qc, q.svc).reuseLBID, ListenerName(q.svc.ns, q.svc.name))
    ensures Clean(now.st, DeletionConfig(qc, q.svc))
  {
    var c, d := ConfigOf(qc, q.svc), DeletionConfig(qc, q.svc);
    ReuseTargets(qc, q.svc);
    ConfigSound(qc, q.svc);
    RunUntouched(ScopeOfConfig(c), ids, origin, was.log, was.st, mid.log, mid.st);
    ReusedKeepsEips(c, ids, origin, was.log, was.st, mid.log, mid.st, c.reuseLBID);
    assert Names(d, mid.st, c.reuseLBID);
    assert target == Some(c.reuseLBID);
    RemovedIsForeign(ScopeOfConfig(c), was.st, mid.st, now.st, c.reuseLBID);
    DeletedIsClean(mid.st, now.st, c.reuseLBID, d);
  }

  // ---------- Make, then delete ----------

  /** The load balancers and listeners are as they were; no EIP has come to stay, and of those there were none has
      gone or changed but EIPs that this controller had allocated. */
  ghost predicate Restored(s: State, u: State) {
    && (forall x :: x in u.lbs <==> x in s.lbs) && (forall x | x in s.lbs :: u.lbs[x] == s.lbs[x])
    && (forall k :: k in u.listeners <==> k in s.listeners)
    && (forall k | k in s.listeners :: u.listeners[k] == s.listeners[k])
    && (forall e | e in u.eips :: e in s.eips && u.eips[e] == s.eips[e])
    && (forall e | e in s.eips && s.eips[e].name != ALLOCATED_EIP_NAME :: e in u.eips)
  }

  /** On a load balancer just made there is nobody but the service, and the rest is as it was. */
  lemma MadeAlone(sc: Scope, s: State, t: State, id: string)
    requires s.Valid() && Untouched(sc, s, t) && id !in s.lbs && t.lbs.Keys == s.lbs.Keys + {id}
    requires sc.reuseID == "" && forall x | x in s.lbs :: s.lbs[x].name != sc.lbName
    ensures OnlyOwn(t, id, sc.prefix)
    ensures forall x | x in s.lbs :: t.lbs[x] == s.lbs[x]
    ensures forall k | k in s.listeners ::
              k in t.listeners && t.listeners[k] == s.listeners[k] && s.listeners[k].spec.lb != id
  {
    forall k | k in s.listeners
      ensures k in t.listeners && t.listeners[k] == s.listeners[k] && s.listeners[k].spec.lb != id
    {
      assert s.ListenerValid(k) && !Mine(sc, s, k);
    }
  }

  /** The EIPs the run allocated were on the load balancer, and went with it. */
  lemma PoolRestored(s: State, t: State, u: State, id: string)
    requires PoolKept(s, t) && NewHeld(s, t, id) && id in t.lbs && AllocatedReleased(t, u, id)
    ensures forall e | e in u.eips :: e in s.eips && u.eips[e] == s.eips[e]
    ensures forall e | e in s.eips && s.eips[e].name != ALLOCATED_EIP_NAME :: e in u.eips
  {
  }

  /** Making a load balancer and deleting it again leaves the cloud as it was. */
  lemma GoneIsRestored(sc: Scope, s: State, t: State, u: State, id: string)
    requires s.Valid() && t.Valid() && Untouched(sc, s, t) && id !in s.lbs && t.lbs.Keys == s.lbs.Keys + {id}
    requires sc.reuseID == "" && forall x | x in s.lbs :: s.lbs[x].name != sc.lbName
    requires PoolKept(s, t) && NewHeld(s, t, id)
    requires BalancerGone(t, u, id) && AllocatedReleased(t, u, id)
    ensures Restored(s, u)
  {
    MadeAlone(sc, s, t, id);
    PoolRestored(s, t, u, id);
    forall k | k in u.listeners ensures k in s.listeners { assert t.ListenerValid(k); }
  }

  /** A deletion right after the load balancer was made is about that one. */
  lemma MadeIsTarget(qc: CloudConfig, q: Request, s: State, t: State, id: string)
    requires Parses(q.svc) && ConfigOf(qc, q.svc).policy == EXCLUSIVE && ConfigOf(qc, q.svc).reuseLBID == ""
    requires forall x | x in s.lbs :: s.lbs[x].name != ConfigOf(qc, q.svc).lbName
    requires Ensured(s, t, id, q, ConfigOf(qc, q.svc))
    ensures id !in s.lbs && t.lbs.Keys == s.lbs.Keys + {id} && NewHeld(s, t, id)
    ensures forall x :: Names(DeletionConfig(qc, q.svc), t, x) <==> Names(ConfigOf(qc, q.svc), t, x)
    ensures Names(DeletionConfig(qc, q.svc), t, id)
  {
    ConfigSound(qc, q.svc);
    assert forall x :: !Names(ConfigOf(qc, q.svc), s, x);
  }

  /** It takes it away. */
  lemma MadeThenDeleted(qc: CloudConfig, q: Request, s: State, t: State, u: State, id: string, target: Option<string>)
    requires Parses(q.svc) && ConfigOf(qc, q.svc).policy == EXCLUSIVE && ConfigOf(qc, q.svc).reuseLBID == ""
    requires forall x | x in s.lbs :: s.lbs[x].name != ConfigOf(qc, q.svc).lbName
    requires s.Valid() && t.Valid() && Untouched(ScopeOfConfig(ConfigOf(qc, q.svc)), s, t) && PoolKept(s, t)
    requires Ensured(s, t, id, q, ConfigOf(qc, q.svc))
    requires if target.Some? then Deleted(t, u, target.value, DeletionConfig(qc, q.svc))
             else forall x :: !Names(DeletionConfig(qc, q.svc), t, x)
    ensures Restored(s, u)
  {
    var sc := ScopeOfConfig(ConfigOf(qc, q.svc));
    MadeIsTarget(qc, q, s, t, id);
    MadeAlone(sc, s, t, id);
    assert target == Some(id);
    GoneIsRestored(sc, s, t, u, id);
  }

  /** Round trip on a load balancer of the service's own, where none bore its name before: after ensure and delete
      the cloud is as it was. No load balancer, no listener and no EIP is left behind. */
  lemma MakeThenDelete(qc: CloudConfig, q: Request, was: View, mid: View, now: View, first: Result<seq<string>>,
                       ok: bool, made: string, target: Option<string>, ids: set<string>, origin: State)
    requires Chained(origin, was.log, was.st) && Chained(origin, mid.log, mid.st)
    requires Inv(was.st, ListenerName(q.svc.ns, q.svc.name), ids)
    requires Parses(q.svc) && ConfigOf(qc, q.svc).policy == EXCLUSIVE && ConfigOf(qc, q.svc).reuseLBID == ""
    requires forall x | x in was.st.lbs :: was.st.lbs[x].name != ConfigOf(qc, q.svc).lbName
    requires EnsureRun(was, mid, first, made, q, ConfigOf(qc, q.svc), ids) && first.Ok?
    requires DeletionRun(mid, now, ok, target, DeletionConfig(qc, q.svc), ids) && ok
    ensures Restored(was.st, now.st)
  {
    ConfigSound(qc, q.svc);
    RunUntouched(ScopeOfConfig(ConfigOf(qc, q.svc)), ids, origin, was.log, was.st, mid.log, mid.st);
    MadeThenDeleted(qc, q, was.st, mid.st, now.st, made, target);
  }

  // ---------- Targets ----------

  /** Policy reuse-lb with an id, or exclusive without one. */
  predicate Straight(conf: Config) {
    conf.policy == REUSE_EXISTING_LB || (conf.policy == EXCLUSIVE && conf.reuseLBID == "")
  }

  /** The load balancer a deletion looks for is, in every state of the cloud, the one an ensure run looks
      for exactly when the policy is reuse-lb, or exclusive and no id is given. */
  lemma SameTargetIff(qc: CloudConfig, svc: Service)
    requires Parses(svc)
    ensures (forall s: State, id :: Names(DeletionConfig(qc, svc), s, id) <==> Names(ConfigOf(qc, svc), s, id)) <==>
            Straight(ConfigOf(qc, svc))
  {
    var c, d := ConfigOf(qc, svc), DeletionConfig(qc, svc);
    ConfigSound(qc, svc);
    if c.policy == REUSE_EXISTING_LB {
      ReuseTargets(qc, svc);
    } else if !Straight(c) {
      var id := c.reuseLBID;
      var name := if id == "" then d.lbName else "";
      var s := State(map[id := LB(name, 0, [], {}, false, true)], map[], map[], 0);
      assert d.lbName[0] == 'k';
      assert Names(d, s, id) != Names(c, s, id);
    }
  }
}
