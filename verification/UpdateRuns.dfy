/** `updateLoadBalancer` (pkg/qingcloud/qingcloud.go) on the load balancer it found: only the
    backends of the listeners that are there follow the nodes. */
module UpdateRuns {
  import opened Wrappers
  import opened Apis
  import opened CloudModel
  import opened Random
  import opened ServiceConfig
  import opened Listeners
  import opened ListenerLaws
  import opened Backends
  import opened BackendLaws
  import opened Discipline
  import opened BackendRuns
  import opened ListenerRuns
  import opened SyncLaws
  import opened SyncRuns
  import opened Balancers
  import opened EnsureRuns

  // ---------- What an update is for ----------

  /** No listener comes or goes or is changed, but for its backends. */
  ghost predicate SpecsKept(s: State, t: State) {
    && t.listeners.Keys == s.listeners.Keys
    && (forall k | k in s.listeners :: t.listeners[k] == s.listeners[k].(backends := t.listeners[k].backends))
  }

  /** Behind every listener of the service are the right nodes. */
  ghost predicate AllFollow(s: State, lb: string, prefix: string, nodes: seq<Node>, limit: Option<nat>) {
    forall k | OwnOn(s, k, lb, prefix) :: Fits(s.listeners[k].backends, nodes, limit)
  }

  /** A listener for port p, wherever its backends are. */
  ghost predicate ListensFor(l: Listener, a: Attrs, p: ServicePort) {
    SpecMatches(l.spec, a, p) && forall i | 0 <= i < |l.backends| :: l.backends[i].port == p.nodePort
  }

  ghost predicate PortHeard(s: State, lb: string, prefix: string, a: Attrs, p: ServicePort) {
    exists k :: OwnOn(s, k, lb, prefix) && ListensFor(s.listeners[k], a, p)
  }

  ghost predicate ListenerHears(l: Listener, a: Attrs, ports: seq<ServicePort>) {
    exists i | 0 <= i < |ports| :: ListensFor(l, a, ports[i])
  }

  /** The listeners match the service ports, whatever nodes are behind them. */
  ghost predicate Listening(s: State, lb: string, prefix: string, a: Attrs, ports: seq<ServicePort>) {
    && (forall i | 0 <= i < |ports| :: PortHeard(s, lb, prefix, a, ports[i]))
    && (forall k | OwnOn(s, k, lb, prefix) :: ListenerHears(s.listeners[k], a, ports))
  }

  lemma ListensKnowsPort(l: Listener, a: Attrs, ports: seq<ServicePort>, i: nat)
    requires PortsOK(a, ports) && i < |ports| && ListensFor(l, a, ports[i])
    ensures NodePortFor(l, ports) == Some(ports[i].nodePort)
  {
    assert TransportKept(a, ports[i]);
    NodePortFoundIff(a, "", "", ports, i);
  }

  // ---------- What a round over all listeners achieves ----------

  lemma DoneFollows(s: State, t: State, sc: Scope, lb: string, ls: seq<Listener>, ports: seq<ServicePort>,
                    nodes: seq<Node>, limit: Option<nat>)
    requires AllOwn(s, lb, sc.prefix, ls) && OnlyBackends(s, t, IdSet(ls), lb)
    requires AllDone(t, ls, nodes, limit, ports)
    ensures AllFollow(t, lb, sc.prefix, nodes, limit)
  {
    forall k | OwnOn(t, k, lb, sc.prefix) ensures Fits(t.listeners[k].backends, nodes, limit) {
      assert OwnOn(s, k, lb, sc.prefix) && Present(ls, k);
      var i :| 0 <= i < |ls| && ls[i].id == k;
      assert RoundDone(t, ls[i], nodes, limit, ports);
    }
  }

  /** A listener that listened for a port serves it once its round is done. */
  lemma ListensThenFits(s: State, t: State, sc: Scope, lb: string, a: Attrs, ls: seq<Listener>, ports: seq<ServicePort>,
                        nodes: seq<Node>, limit: Option<nat>, k: nat, i: nat)
    requires Current(s, sc, ls, lb) && AllOwn(s, lb, sc.prefix, ls) && OnlyBackends(s, t, IdSet(ls), lb)
    requires AllDone(t, ls, nodes, limit, ports) && PortsOK(a, ports) && i < |ports|
    requires OwnOn(s, k, lb, sc.prefix) && ListensFor(s.listeners[k], a, ports[i])
    ensures OwnOn(t, k, lb, sc.prefix) && FitFor(t.listeners[k], a, ports[i], nodes, limit)
  {
    assert Present(ls, k);
    var x :| 0 <= x < |ls| && ls[x].id == k;
    assert RoundDone(t, ls[x], nodes, limit, ports);
    ListensKnowsPort(ls[x], a, ports, i);
  }

  lemma ListeningConverges(s: State, t: State, sc: Scope, lb: string, a: Attrs, ls: seq<Listener>,
                           ports: seq<ServicePort>, nodes: seq<Node>, limit: Option<nat>)
    requires Current(s, sc, ls, lb) && AllOwn(s, lb, sc.prefix, ls) && OnlyBackends(s, t, IdSet(ls), lb)
    requires AllDone(t, ls, nodes, limit, ports) && PortsOK(a, ports)
    requires Listening(s, lb, sc.prefix, a, ports)
    ensures Converged(t, lb, sc.prefix, a, ports, nodes, limit)
  {
    forall i | 0 <= i < |ports| ensures PortServed(t, lb, sc.prefix, a, ports[i], nodes, limit) {
      assert PortHeard(s, lb, sc.prefix, a, ports[i]);
      var k :| OwnOn(s, k, lb, sc.prefix) && ListensFor(s.listeners[k], a, ports[i]);
      ListensThenFits(s, t, sc, lb, a, ls, ports, nodes, limit, k, i);
    }
    forall k | OwnOn(t, k, lb, sc.prefix) ensures ListenerWanted(t.listeners[k], a, ports, nodes, limit) {
      assert OwnOn(s, k, lb, sc.prefix);
      assert ListenerHears(s.listeners[k], a, ports);
      var i :| 0 <= i < |ports| && ListensFor(s.listeners[k], a, ports[i]);
      ListensThenFits(s, t, sc, lb, a, ls, ports, nodes, limit, k, i);
    }
  }

  /** What serves also listens. */
  lemma ConvergedListens(s: State, lb: string, prefix: string, a: Attrs, ports: seq<ServicePort>, nodes: seq<Node>,
                         limit: Option<nat>)
    requires Converged(s, lb, prefix, a, ports, nodes, limit)
    ensures Listening(s, lb, prefix, a, ports) && AllFollow(s, lb, prefix, nodes, limit)
  {
    forall i | 0 <= i < |ports| ensures PortHeard(s, lb, prefix, a, ports[i]) {
      assert PortServed(s, lb, prefix, a, ports[i], nodes, limit);
      var k :| OwnOn(s, k, lb, prefix) && FitFor(s.listeners[k], a, ports[i], nodes, limit);
      assert ListensFor(s.listeners[k], a, ports[i]);
    }
    forall k | OwnOn(s, k, lb, prefix)
      ensures ListenerHears(s.listeners[k], a, ports) && Fits(s.listeners[k].backends, nodes, limit)
    {
      assert ListenerWanted(s.listeners[k], a, ports, nodes, limit);
      var i :| 0 <= i < |ports| && FitFor(s.listeners[k], a, ports[i], nodes, limit);
      assert ListensFor(s.listeners[k], a, ports[i]);
    }
  }

  lemma FollowersFit(s: State, sc: Scope, lb: string, ls: seq<Listener>, nodes: seq<Node>, limit: Option<nat>)
    requires Current(s, sc, ls, lb) && AllFollow(s, lb, sc.prefix, nodes, limit)
    ensures AllFit(ls, nodes, limit)
  {
  }

  // ---------- The run ----------

  /** From `from` on only backends were changed, and changes applied. */
  ghost predicate UpdateCalls(log: seq<Step>, from: nat) {
    forall j | from <= j < |log| :: log[j].call.CreateBackends? || log[j].call.DeleteBackends? || log[j].call.UpdateLB?
  }

  lemma BackendsThenApplied(log: seq<Step>, step: Step, from: nat)
    requires BackendCalls(log, from) && step.call.UpdateLB?
    ensures UpdateCalls(log, from) && UpdateCalls(log + [step], from)
  {
  }

  lemma OnlyBackendsKept(s: State, t: State, u: State, ks: set<nat>, lb: string)
    requires OnlyBackends(s, t, ks, lb)
    ensures SpecsKept(s, t) && LBKept(s, t, lb)
    ensures OnlyPending(t, u, lb) ==> SpecsKept(s, u) && LBKept(s, u, lb)
  {
  }

  /** What a round over the listeners `ls`, all own ones being among them, has made of s. */
  ghost predicate Followed(s: State, t: State, sc: Scope, lb: string, a: Attrs, ls: seq<Listener>,
                           ports: seq<ServicePort>, nodes: seq<Node>, limit: Option<nat>) {
    AllOwn(s, lb, sc.prefix, ls) ==>
      && AllFollow(t, lb, sc.prefix, nodes, limit)
      && (PortsOK(a, ports) && Listening(s, lb, sc.prefix, a, ports) ==>
          Converged(t, lb, sc.prefix, a, ports, nodes, limit))
  }

  lemma DoneIsFollowed(s: State, t: State, sc: Scope, lb: string, a: Attrs, ls: seq<Listener>, ports: seq<ServicePort>,
                       nodes: seq<Node>, limit: Option<nat>)
    requires Current(s, sc, ls, lb) && OnlyBackends(s, t, IdSet(ls), lb)
    requires AllDone(t, ls, nodes, limit, ports)
    ensures Followed(s, t, sc, lb, a, ls, ports, nodes, limit)
  {
    if AllOwn(s, lb, sc.prefix, ls) {
      DoneFollows(s, t, sc, lb, ls, ports, nodes, limit);
      if PortsOK(a, ports) && Listening(s, lb, sc.prefix, a, ports) {
        ListeningConverges(s, t, sc, lb, a, ls, ports, nodes, limit);
      }
    }
  }

  lemma FollowedByListeners(s: State, t: State, u: State, sc: Scope, lb: string, a: Attrs, ls: seq<Listener>,
                            ports: seq<ServicePort>, nodes: seq<Node>, limit: Option<nat>)
    requires Followed(s, t, sc, lb, a, ls, ports, nodes, limit) && u.listeners == t.listeners
    ensures Followed(s, u, sc, lb, a, ls, ports, nodes, limit)
  {
  }

  /** A listener behind which there are backends in the end had a node port: that of the backends it had, or
      that of a service port. */
  lemma DoneKnowsPorts(t: State, ls: seq<Listener>, nodes: seq<Node>, limit: Option<nat>, ports: seq<ServicePort>)
    requires AllDone(t, ls, nodes, limit, ports) && nodes != [] && limit != Some(0)
    ensures PortsKnown(ls, ports)
  {
    forall i | 0 <= i < |ls| ensures NodePortFor(ls[i], ports).Some? {
      assert RoundDone(t, ls[i], nodes, limit, ports);
      var after := t.listeners[ls[i].id].backends;
      if limit.None? { assert HasName(after, InstanceID(nodes[0])); }
      assert after != [] && Some(after[0].port) == NodePortFor(ls[i], ports);
    }
  }

  /** What making the listeners `ls` follow the nodes has led to. */
  ghost predicate FollowRun(was: View, now: View, ok: bool, lb: string, a: Attrs, ls: seq<Listener>,
                            ports: seq<ServicePort>, nodes: seq<Node>, limit: Option<nat>, sc: Scope,
                            ids: set<string>) {
    var s, t := was.st, now.st;
    && Went(was, now, sc, ids) && UpdateCalls(now.log, |was.log|) && SpecsKept(s, t) && LBKept(s, t, lb) && lb in s.lbs
    && (ok ==> Followed(s, t, sc, lb, a, ls, ports, nodes, limit) && (!t.lbs[lb].pending || t == s))
    && (AllFollow(s, lb, sc.prefix, nodes, limit) ==> ok && now == was)
    && (!ok && PortsKnown(ls, ports) ==> now.faults > was.faults)
    && (ok && nodes != [] && limit != Some(0) ==> PortsKnown(ls, ports))
  }

  /** The loop alone: broken off, or without any change. */
  lemma RoundsAlone(was: View, now: View, ok: bool, modified: bool, lb: string, a: Attrs, ls: seq<Listener>,
                    ports: seq<ServicePort>, nodes: seq<Node>, limit: Option<nat>, sc: Scope, ids: set<string>)
    requires Current(was.st, sc, ls, lb) && lb in was.st.lbs && (ok ==> !modified)
    requires AllRounds(was, now, ok, modified, ls, lb, nodes, limit, ports, sc, ids)
    ensures FollowRun(was, now, ok, lb, a, ls, ports, nodes, limit, sc, ids)
  {
    OnlyBackendsKept(was.st, now.st, now.st, IdSet(ls), lb);
    BackendsThenApplied(now.log, Step(UpdateLB(lb), now.st, now.st), |was.log|);
    if ok {
      DoneIsFollowed(was.st, now.st, sc, lb, a, ls, ports, nodes, limit);
      if nodes != [] && limit != Some(0) { DoneKnowsPorts(now.st, ls, nodes, limit, ports); }
    }
    if AllFollow(was.st, lb, sc.prefix, nodes, limit) { FollowersFit(was.st, sc, lb, ls, nodes, limit); }
  }

  /** The loop, and its changes applied. */
  lemma RoundsThenApplied(was: View, mid: View, now: View, ok: bool, lb: string, a: Attrs, ls: seq<Listener>,
                          ports: seq<ServicePort>, nodes: seq<Node>, limit: Option<nat>, sc: Scope, ids: set<string>)
    requires Current(was.st, sc, ls, lb) && lb in was.st.lbs
    requires AllRounds(was, mid, true, true, ls, lb, nodes, limit, ports, sc, ids)
    requires ChangesApplied(mid, now, ok, lb, sc, ids)
    ensures FollowRun(was, now, ok, lb, a, ls, ports, nodes, limit, sc, ids)
  {
    WentOn(was, mid, now, sc, ids);
    OnlyBackendsKept(was.st, mid.st, now.st, IdSet(ls), lb);
    BackendsThenApplied(mid.log, Step(UpdateLB(lb), mid.st, now.st), |was.log|);
    DoneIsFollowed(was.st, mid.st, sc, lb, a, ls, ports, nodes, limit);
    FollowedByListeners(was.st, mid.st, now.st, sc, lb, a, ls, ports, nodes, limit);
    if nodes != [] && limit != Some(0) { DoneKnowsPorts(mid.st, ls, nodes, limit, ports); }
    if AllFollow(was.st, lb, sc.prefix, nodes, limit) { FollowersFit(was.st, sc, lb, ls, nodes, limit); }
  }

  /** The loop over the listeners, and applying its changes. */
  method FollowNodes(client: Cloud, reader: Reader, lb: string, listeners: seq<Listener>, ports: seq<ServicePort>,
                     nodes: seq<Node>, count: int, policy: TrafficPolicy, ghost a: Attrs, ghost limit: Option<nat>,
                     ghost sc: Scope, ghost ids: set<string>)
    returns (ok: bool)
    requires client.Valid() && Ready(client.st, sc, ids, nodes) && reader.Fair()
    requires 0 <= count && limit == LimitOf(policy, count) && (limit.Some? ==> count <= |nodes|)
    requires InScope(sc, client.st, lb) && Current(client.st, sc, listeners, lb)
    modifies client, reader
    ensures client.Valid()
    ensures FollowRun(old(client.Now()), client.Now(), ok, lb, a, listeners, ports, nodes, limit, sc, ids)
  {
    ghost var was := client.Now();
    var modified;
    ok, modified := ReconcileAll(client, reader, listeners, nodes, count, policy, ports, lb, limit, sc, ids);
    ghost var mid := client.Now();
    if !ok || !modified {
      RoundsAlone(was, mid, ok, modified, lb, a, listeners, ports, nodes, limit, sc, ids);
      return;
    }
    ok := ApplyChanges(client, lb, sc, ids);
    RoundsThenApplied(was, mid, client.Now(), ok, lb, a, listeners, ports, nodes, limit, sc, ids);
  }

  /** Every own listener has a node port: that of the backends it has, or that of a service port. */
  ghost predicate OwnPortsKnown(s: State, lb: string, prefix: string, ports: seq<ServicePort>) {
    forall k | OwnOn(s, k, lb, prefix) :: NodePortFor(s.listeners[k], ports).Some?
  }

  lemma ListeningKnowsPorts(s: State, lb: string, prefix: string, a: Attrs, ports: seq<ServicePort>)
    requires PortsOK(a, ports) && Listening(s, lb, prefix, a, ports)
    ensures OwnPortsKnown(s, lb, prefix, ports)
  {
    forall k | OwnOn(s, k, lb, prefix) ensures NodePortFor(s.listeners[k], ports).Some? {
      assert ListenerHears(s.listeners[k], a, ports);
      var i :| 0 <= i < |ports| && ListensFor(s.listeners[k], a, ports[i]);
      ListensKnowsPort(s.listeners[k], a, ports, i);
    }
  }

  lemma OwnPortsOfThese(s: State, sc: Scope, lb: string, ls: seq<Listener>, ports: seq<ServicePort>)
    requires Current(s, sc, ls, lb)
    ensures OwnPortsKnown(s, lb, sc.prefix, ports) ==> PortsKnown(ls, ports)
    ensures AllOwn(s, lb, sc.prefix, ls) && PortsKnown(ls, ports) ==> OwnPortsKnown(s, lb, sc.prefix, ports)
  {
    if AllOwn(s, lb, sc.prefix, ls) && PortsKnown(ls, ports) {
      forall k | OwnOn(s, k, lb, sc.prefix) ensures NodePortFor(s.listeners[k], ports).Some? {
        assert Present(ls, k);
        var i :| 0 <= i < |ls| && ls[i].id == k;
      }
    }
  }

  /** What an update run on load balancer `lb` has led to. */
  ghost predicate UpdateRun(was: View, now: View, ok: bool, lb: string, conf: Config, ports: seq<ServicePort>,
                            nodes: seq<Node>, limit: Option<nat>, ids: set<string>) {
    var s, t, a, prefix := was.st, now.st, AttrsOf(conf.listener), conf.listenerName;
    && Went(was, now, ScopeOfConfig(conf), ids) && UpdateCalls(now.log, |was.log|)
    && SpecsKept(s, t) && LBKept(s, t, lb) && lb in s.lbs
    && (ok ==> !t.lbs[lb].pending || t == s)
    && (ok && OwnSmall(s, lb, prefix) ==>
         && AllFollow(t, lb, prefix, nodes, limit)
         && (PortsOK(a, ports) && Listening(s, lb, prefix, a, ports) ==>
              Converged(t, lb, prefix, a, ports, nodes, limit)))
    && (AllFollow(s, lb, prefix, nodes, limit) ==> Quiet(was, now, ok))
    && (!ok && OwnPortsKnown(s, lb, prefix, ports) ==> now.faults > was.faults)
    && (ok && OwnSmall(s, lb, prefix) && nodes != [] && limit != Some(0) ==> OwnPortsKnown(s, lb, prefix, ports))
  }

  /** Having fetched the own listeners, the run makes them follow. */
  lemma FetchedThenFollowed(was: View, mid: View, now: View, ok: bool, lb: string, list: seq<nat>, ls: seq<Listener>,
                            conf: Config, ports: seq<ServicePort>, nodes: seq<Node>, limit: Option<nat>,
                            ids: set<string>)
    requires mid == was.(faults := mid.faults) && was.faults <= mid.faults
    requires Current(was.st, ScopeOfConfig(conf), ls, lb)
    requires OwnSmall(was.st, lb, conf.listenerName) ==> AllOwn(was.st, lb, conf.listenerName, ls)
    requires FollowRun(mid, now, ok, lb, AttrsOf(conf.listener), ls, ports, nodes, limit, ScopeOfConfig(conf), ids)
    ensures UpdateRun(was, now, ok, lb, conf, ports, nodes, limit, ids)
  {
    OwnPortsOfThese(was.st, ScopeOfConfig(conf), lb, ls, ports);
  }

  /** The run on the load balancer that was found; without listeners of its own there is nothing to do. */
  method UpdateFound(client: Cloud, reader: Reader, conf: Config, lb: string, present: seq<Listener>,
                     ports: seq<ServicePort>, nodes: seq<Node>, policy: TrafficPolicy, ghost limit: Option<nat>,
                     ghost ids: set<string>)
    returns (ok: bool)
    requires client.Valid() && Ready(client.st, ScopeOfConfig(conf), ids, nodes) && reader.Fair()
    requires limit == LimitOf(policy, conf.backendCountResult) && Countable(conf, nodes, limit)
    requires InScope(ScopeOfConfig(conf), client.st, lb) && ListsListeners(client.st, lb, present)
    modifies client, reader
    ensures client.Valid()
    ensures UpdateRun(old(client.Now()), client.Now(), ok, lb, conf, ports, nodes, limit, ids)
  {
    ghost var sc, was, a := ScopeOfConfig(conf), client.Now(), AttrsOf(conf.listener);
    var listenerIDs := FilterListeners(present, conf.listenerName);
    FilterFindsOwn(was.st, lb, sc.prefix, present);
    if |listenerIDs| <= 0 {
      NobodyFollows(was.st, sc, lb, a, ports, nodes, limit);
      return true;
    }
    var listeners := client.GetListeners(listenerIDs);
    if listeners.Err? { return false; }
    ghost var mid := client.Now();
    FetchedCurrent(was.st, sc, lb, listenerIDs, listeners.value);
    ok := FollowNodes(client, reader, lb, listeners.value, ports, nodes, conf.backendCountResult, policy, a, limit, sc,
                      ids);
    FetchedThenFollowed(was, mid, client.Now(), ok, lb, listenerIDs, listeners.value, conf, ports, nodes, limit, ids);
  }

  /** Where the service has no listener, none is behind the nodes, and a service with ports is not heard. */
  lemma NobodyFollows(s: State, sc: Scope, lb: string, a: Attrs, ports: seq<ServicePort>, nodes: seq<Node>,
                      limit: Option<nat>)
    requires forall k :: !OwnOn(s, k, lb, sc.prefix)
    ensures AllFollow(s, lb, sc.prefix, nodes, limit)
    ensures Listening(s, lb, sc.prefix, a, ports) ==> Converged(s, lb, sc.prefix, a, ports, nodes, limit)
  {
  }
}
