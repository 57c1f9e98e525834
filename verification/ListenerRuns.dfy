/** Creating listeners with their backends, and bringing all listeners of a service in line with
    its ports (pkg/qingcloud/qingcloud.go). */
module ListenerRuns {
  import opened Wrappers
  import opened GoStrings
  import opened Apis
  import opened Sequences
  import opened CloudModel
  import opened Random
  import opened ServiceConfig
  import opened Listeners
  import opened ListenerLaws
  import opened Backends
  import opened Discipline
  import opened BackendRuns

  // ---------- What is wanted ----------

  /** Listener l serves port p as the configuration asks, on the node port and on the right nodes. */
  ghost predicate FitFor(l: Listener, a: Attrs, p: ServicePort, nodes: seq<Node>, limit: Option<nat>) {
    SpecMatches(l.spec, a, p) && Round(l.backends, nodes, limit, Some(p.nodePort))
  }

  ghost predicate OwnOn(s: State, k: nat, lb: string, prefix: string) {
    k in s.listeners && s.listeners[k].spec.lb == lb && Own(s.listeners[k], prefix)
  }

  ghost predicate PortServed(s: State, lb: string, prefix: string, a: Attrs, p: ServicePort, nodes: seq<Node>,
                             limit: Option<nat>) {
    exists k :: OwnOn(s, k, lb, prefix) && FitFor(s.listeners[k], a, p, nodes, limit)
  }

  ghost predicate ListenerWanted(l: Listener, a: Attrs, ports: seq<ServicePort>, nodes: seq<Node>, limit: Option<nat>) {
    exists i | 0 <= i < |ports| :: FitFor(l, a, ports[i], nodes, limit)
  }

  /** The service's listeners on the load balancer serve its ports, all of them and nothing else. */
  ghost predicate Converged(s: State, lb: string, prefix: string, a: Attrs, ports: seq<ServicePort>, nodes: seq<Node>,
                            limit: Option<nat>) {
    && (forall i | 0 <= i < |ports| :: PortServed(s, lb, prefix, a, ports[i], nodes, limit))
    && (forall k | OwnOn(s, k, lb, prefix) :: ListenerWanted(s.listeners[k], a, ports, nodes, limit))
  }

  /** Converged listeners and service ports are in bijection. */
  lemma ConvergedIsBijection(s: State, lb: string, prefix: string, a: Attrs, ports: seq<ServicePort>,
                             nodes: seq<Node>, limit: Option<nat>, k: nat, m: nat, i: nat, j: nat)
    requires s.Valid() && PortsOK(a, ports) && Converged(s, lb, prefix, a, ports, nodes, limit)
    requires OwnOn(s, k, lb, prefix) && OwnOn(s, m, lb, prefix) && i < |ports| && j < |ports|
    requires FitFor(s.listeners[k], a, ports[i], nodes, limit) && FitFor(s.listeners[m], a, ports[j], nodes, limit)
    ensures k == m <==> i == j
  {
    if i == j {
      ServersMeet(s.listeners[k], s.listeners[m], a, ports[i]);
    }
    if k == m {
      ServesOnePort(s.listeners[k], a, ports[i], ports[j]);
    }
  }

  // ---------- Creating ----------

  function SpecsFor(a: Attrs, lb: string, name: string, ports: seq<ServicePort>): (r: seq<ListenerSpec>)
    ensures |r| == |ports| && forall i | 0 <= i < |r| :: r[i] == SpecFor(a, lb, name, ports[i])
  {
    seq(|ports|, i requires 0 <= i < |ports| => SpecFor(a, lb, name, ports[i]))
  }

  /** The listeners there were are as they were, new ones are on `lb` and have one of the specs. */
  ghost predicate OnlyAdded(s: State, t: State, lb: string, specs: seq<ListenerSpec>) {
    && (forall k | k in s.listeners :: k in t.listeners && t.listeners[k] == s.listeners[k])
    && (forall k | k in t.listeners && k !in s.listeners ::
        t.listeners[k].spec.lb == lb && t.listeners[k].spec in specs)
    && PendingOnly(s, t, lb) && t.eips == s.eips
  }

  /** Every new listener fits its port, and every port has one. */
  ghost predicate AllMade(s: State, t: State, lb: string, name: string, a: Attrs, ports: seq<ServicePort>,
                          nodes: seq<Node>, limit: Option<nat>) {
    && (forall i | 0 <= i < |ports| :: NewlyServed(s, t, lb, name, a, ports[i], nodes, limit))
    && (forall k | k in t.listeners && k !in s.listeners :: ListenerWanted(t.listeners[k], a, ports, nodes, limit))
  }

  ghost predicate NewlyServed(s: State, t: State, lb: string, name: string, a: Attrs, p: ServicePort,
                              nodes: seq<Node>, limit: Option<nat>) {
    exists k :: k in t.listeners && k !in s.listeners && t.listeners[k].spec.lb == lb
      && t.listeners[k].spec.name == name
                && FitFor(t.listeners[k], a, p, nodes, limit)
  }

  /** Listener k stands in t with this spec, still without backends. */
  ghost predicate CreatedAt(t: State, k: nat, spec: ListenerSpec) {
    k in t.listeners && t.listeners[k] == Listener(k, spec, [])
  }

  /** In t the listeners created with these specs stand beside those of s. */
  ghost predicate Created(s: State, t: State, specs: seq<ListenerSpec>) {
    && (forall k :: k in t.listeners && k !in s.listeners <==> s.next <= k < s.next + |specs|)
    && (forall i | 0 <= i < |specs| :: CreatedAt(t, s.next + i, specs[i]))
  }

  ghost predicate NewlyMade(s: State, specs: seq<ListenerSpec>, l: Listener) {
    && l.id !in s.listeners && s.next <= l.id < s.next + |specs|
    && l == Listener(l.id, specs[l.id - s.next], [])
  }

  /** The creation took effect, and `created` is what was read back of it: ready to be given backends. */
  ghost predicate Submitted(s: State, t: State, sc: Scope, lb: string, specs: seq<ListenerSpec>,
                            created: seq<Listener>) {
    && Created(s, t, specs) && Fetched(t, IdRange(s.next, |specs|), created)
    && Current(t, sc, created, lb) && forall i | 0 <= i < |created| :: NewlyMade(s, specs, created[i])
  }

  lemma ListenersAdded(s: State, t: State, lb: string, specs: seq<ListenerSpec>)
    requires forall k :: k in t.listeners <==> k in s.listeners || s.next <= k < s.next + |specs|
    requires forall k | k in s.listeners :: k < s.next && t.listeners[k] == s.listeners[k]
    requires forall k | s.next <= k < s.next + |specs| :: t.listeners[k] == Listener(k, specs[k - s.next], [])
    requires t.lbs == Touch(s.lbs, {lb}) && t.eips == s.eips && forall i | 0 <= i < |specs| :: specs[i].lb == lb
    ensures OnlyAdded(s, t, lb, specs) && Created(s, t, specs)
  {
  }

  lemma CreateListenersEffect(s: State, lb: string, specs: seq<ListenerSpec>)
    requires s.Valid() && Accepts(s, CreateListeners(lb, specs))
    ensures var t := Apply(s, CreateListeners(lb, specs));
            OnlyAdded(s, t, lb, specs) && Created(s, t, specs)
  {
    IdsBelow(s);
    ListenersPut(s, Apply(s, CreateListeners(lb, specs)), lb, specs, NewListeners(s.next, specs));
  }

  lemma IdsBelow(s: State)
    requires s.Valid()
    ensures forall k | k in s.listeners :: k < s.next
  {
    forall k | k in s.listeners ensures k < s.next { assert s.ListenerValid(k); }
  }

  /** New ids are above all present ones, so nothing that was there is overwritten. */
  lemma ListenersPut(s: State, t: State, lb: string, specs: seq<ListenerSpec>, added: map<nat, Listener>)
    requires forall k | k in s.listeners :: k < s.next
    requires forall i | 0 <= i < |specs| :: specs[i].lb == lb
    requires forall k :: k in added <==> s.next <= k < s.next + |specs|
    requires forall k | k in added :: added[k] == Listener(k, specs[k - s.next], [])
    requires t.listeners == s.listeners + added && t.lbs == Touch(s.lbs, {lb}) && t.eips == s.eips
    ensures OnlyAdded(s, t, lb, specs) && Created(s, t, specs)
  {
    ListenersAdded(s, t, lb, specs);
  }

  /** What was read back after the creation is ready to be given backends. */
  lemma CreatedCurrent(s: State, t: State, sc: Scope, lb: string, specs: seq<ListenerSpec>, created: seq<Listener>)
    requires OnlyAdded(s, t, lb, specs) && Created(s, t, specs)
    requires Fetched(t, IdRange(s.next, |specs|), created) && InScope(sc, s, lb)
    requires forall i | 0 <= i < |specs| :: specs[i].lb == lb && HasPrefix(specs[i].name, sc.prefix)
    ensures Submitted(s, t, sc, lb, specs, created)
  {
    var range := IdRange(s.next, |specs|);
    forall i | 0 <= i < |created|
      ensures NewlyMade(s, specs, created[i]) && Mine(sc, t, created[i].id) && created[i].spec.lb == lb
    {
      assert created[i].id in range;
      var j :| 0 <= j < |range| && range[j] == created[i].id;
      assert CreatedAt(t, s.next + j, specs[j]);
      assert created[i].id in t.listeners && created[i].id !in s.listeners;
    }
  }

  /** What a request for listeners leads to, whether or not it succeeds. */
  lemma SubmitStep(sc: Scope, ids: set<string>, step: Step, lb: string, specs: seq<ListenerSpec>, ok: bool)
    requires step.call == CreateListeners(lb, specs) && Outcome(step.before, step.call, ok, step.after)
    requires sc.makes && Inv(step.before, sc.prefix, ids) && InScope(sc, step.before, lb)
    requires forall i | 0 <= i < |specs| :: HasPrefix(specs[i].name, sc.prefix)
    ensures Disciplined(sc, ids, step) && Inv(step.after, sc.prefix, ids)
    ensures OnlyAdded(step.before, step.after, lb, specs)
    ensures ok ==> Created(step.before, step.after, specs)
  {
    StepKeepsInv(sc, ids, step);
    if Accepts(step.before, step.call) { CreateListenersEffect(step.before, lb, specs); }
  }

  /** What one request for listeners has led to. */
  ghost predicate Requested(was: View, now: View, r: Result<seq<Listener>>, lb: string, specs: seq<ListenerSpec>,
                            sc: Scope, ids: set<string>) {
    && Went(was, now, sc, ids) && now.log == was.log + [Step(CreateListeners(lb, specs), was.st, now.st)]
    && OnlyAdded(was.st, now.st, lb, specs)
    && (r.Ok? ==> Submitted(was.st, now.st, sc, lb, specs, r.value))
    && (r.Err? ==> now.faults > was.faults || !Accepts(was.st, CreateListeners(lb, specs)))
  }

  /** The creation of listeners, with what can be said of the cloud whether it succeeds or not. */
  method SubmitListeners(client: Cloud, specs: seq<ListenerSpec>, lb: string, ghost sc: Scope, ghost ids: set<string>)
    returns (r: Result<seq<Listener>>)
    requires client.Valid() && Inv(client.st, sc.prefix, ids) && sc.makes && InScope(sc, client.st, lb) && specs != []
    requires forall i | 0 <= i < |specs| :: specs[i].lb == lb && HasPrefix(specs[i].name, sc.prefix)
    modifies client
    ensures client.Valid() && Requested(old(client.Now()), client.Now(), r, lb, specs, sc, ids)
  {
    ghost var s := client.st;
    r := client.CreateListener(specs);
    SubmitStep(sc, ids, Step(CreateListeners(lb, specs), s, client.st), lb, specs, r.Ok?);
    if r.Ok? {
      CreatedCurrent(s, client.st, sc, lb, specs, r.value);
    }
  }

  /** What giving i created listeners their backends has led to. */
  ghost predicate FilledSoFar(was: View, now: View, ls: seq<Listener>, i: nat, lb: string, nodes: seq<Node>,
                              limit: Option<nat>, ports: seq<ServicePort>, sc: Scope, ids: set<string>)
    requires i <= |ls|
  {
    && Went(was, now, sc, ids) && AdditionCalls(now.log, |was.log|)
    && Progress(was.st, now.st, sc, ls, i, lb, nodes, limit, ports)
  }

  /** What giving all of them their backends has led to. */
  ghost predicate AllAdded(was: View, now: View, ok: bool, ls: seq<Listener>, lb: string, nodes: seq<Node>,
                           limit: Option<nat>, ports: seq<ServicePort>, sc: Scope, ids: set<string>) {
    && Went(was, now, sc, ids) && AdditionCalls(now.log, |was.log|)
    && OnlyBackends(was.st, now.st, IdSet(ls), lb)
    && (ok ==> AllDone(now.st, ls, nodes, limit, ports))
    && (!ok ==> now.faults > was.faults || !PortsKnown(ls, ports))
  }

  lemma FilledStep(was: View, mid: View, now: View, ok: bool, none: bool, ls: seq<Listener>, i: nat, lb: string,
                   nodes: seq<Node>, limit: Option<nat>, ports: seq<ServicePort>, sc: Scope, ids: set<string>)
    requires i < |ls| && DistinctListeners(ls) && FilledSoFar(was, mid, ls, i, lb, nodes, limit, ports, sc, ids)
    requires SomeAdded(mid, now, ok, ls[i], none, nodes, limit, ports, sc, ids)
    requires ls[i].spec.lb == lb && mid.st.listeners[ls[i].id] == ls[i]
    ensures ok ==> FilledSoFar(was, now, ls, i + 1, lb, nodes, limit, ports, sc, ids)
    ensures !ok ==> AllAdded(was, now, ok, ls, lb, nodes, limit, ports, sc, ids)
  {
    WentOn(was, mid, now, sc, ids);
    JoinAdditionCalls(mid.log, now.log, |was.log|);
    ProgressStep(was.st, mid.st, now.st, sc, ls, i, lb, nodes, limit, ports);
    assert PortsKnown(ls, ports) ==> NodePortFor(ls[i], ports).Some?;
  }

  lemma JoinAdditionCalls(log1: seq<Step>, log2: seq<Step>, from: nat)
    requires log1 <= log2 && AdditionCalls(log1, from) && AdditionCalls(log2, |log1|)
    ensures AdditionCalls(log2, from)
  {
  }

  /** Gives the i-th of the created listeners its backends. */
  method FillNext(client: Cloud, ls: seq<Listener>, i: nat, picked: seq<Node>, ports: seq<ServicePort>,
                  ghost was: View, ghost nodes: seq<Node>, ghost limit: Option<nat>,
                  ghost lb: string, ghost sc: Scope, ghost ids: set<string>)
    returns (ok: bool)
    requires client.Valid() && Ready(client.st, sc, ids, nodes)
    requires i < |ls| && DistinctListeners(ls) && ls[i].backends == []
    requires DiffSpec([], nodes, limit, [], picked)
    requires FilledSoFar(was, client.Now(), ls, i, lb, nodes, limit, ports, sc, ids)
    modifies client
    ensures client.Valid()
    ensures ok ==> FilledSoFar(was, client.Now(), ls, i + 1, lb, nodes, limit, ports, sc, ids)
    ensures !ok ==> AllAdded(was, client.Now(), ok, ls, lb, nodes, limit, ports, sc, ids)
  {
    ghost var mid := client.Now();
    ProgressNow(was.st, mid.st, sc, ls, i, lb, nodes, limit, ports);
    assert Without([], []) == [];
    var listener := new LoadBalancerListener(ls[i]);
    var requests := GenerateLoadBalancerBackends(picked, listener, ports);
    ok := AddSome(client, ls[i], ls[i].id, requests, [], picked, ports, nodes, limit, sc, ids);
    FilledStep(was, mid, client.Now(), ok, picked == [], ls, i, lb, nodes, limit, ports, sc, ids);
  }

  method FillAll(client: Cloud, ls: seq<Listener>, picked: seq<Node>, ports: seq<ServicePort>,
                 ghost nodes: seq<Node>, ghost limit: Option<nat>,
                 ghost lb: string, ghost sc: Scope, ghost ids: set<string>)
    returns (ok: bool)
    requires client.Valid() && Ready(client.st, sc, ids, nodes)
    requires Current(client.st, sc, ls, lb) && forall i | 0 <= i < |ls| :: ls[i].backends == []
    requires DiffSpec([], nodes, limit, [], picked)
    modifies client
    ensures client.Valid() && AllAdded(old(client.Now()), client.Now(), ok, ls, lb, nodes, limit, ports, sc, ids)
  {
    ok := true;
    ghost var was := client.Now();
    ProgressStarts(was.st, sc, ls, lb, nodes, limit, ports);
    for i := 0 to |ls|
      invariant client.Valid() && FilledSoFar(was, client.Now(), ls, i, lb, nodes, limit, ports, sc, ids)
    {
      ok := FillNext(client, ls, i, picked, ports, was, nodes, limit, lb, sc, ids);
      if !ok { return; }
    }
    ProgressEnds(was.st, client.st, sc, ls, lb, nodes, limit, ports);
  }

  // ---------- What the filled listeners are ----------

  ghost predicate FilledAt(u: State, k: nat, a: Attrs, lb: string, name: string, p: ServicePort, nodes: seq<Node>,
                           limit: Option<nat>) {
    k in u.listeners && u.listeners[k].spec == SpecFor(a, lb, name, p) && FitFor(u.listeners[k], a, p, nodes, limit)
  }

  /** A filled listener fits the port it was made for. */
  lemma FilledFits(s: State, l: Listener, a: Attrs, lb: string, name: string, ports: seq<ServicePort>, i: nat,
                   nodes: seq<Node>, limit: Option<nat>)
    requires PortsOK(a, ports) && AllGenerable(a, ports) && i < |ports|
    requires l.backends == [] && l.spec == SpecFor(a, lb, name, ports[i])
    requires RoundDone(s, l, nodes, limit, ports) && s.listeners[l.id].spec == l.spec
    ensures FitFor(s.listeners[l.id], a, ports[i], nodes, limit)
  {
    NodePortFoundIff(a, lb, name, ports, i);
    MatchIsAgreement(l.spec, a, ports[i]);
  }

  lemma FilledOne(s: State, t: State, u: State, a: Attrs, lb: string, name: string, ports: seq<ServicePort>,
                  created: seq<Listener>, nodes: seq<Node>, limit: Option<nat>, i: nat)
    requires PortsOK(a, ports) && AllGenerable(a, ports) && |ports| <= PAGE_LIMIT && i < |ports|
    requires Fetched(t, IdRange(s.next, |ports|), created)
    requires CreatedAt(t, s.next + i, SpecFor(a, lb, name, ports[i]))
    requires OnlyBackends(t, u, IdSet(created), lb)
    requires AllDone(u, created, nodes, limit, ports)
    ensures FilledAt(u, s.next + i, a, lb, name, ports[i], nodes, limit)
  {
    var k := s.next + i;
    assert IdRange(s.next, |ports|)[i] == k;
    assert Present(created, k);
    var j :| 0 <= j < |created| && created[j].id == k;
    assert created[j] == Listener(k, SpecFor(a, lb, name, ports[i]), []);
    assert RoundDone(u, created[j], nodes, limit, ports) && u.listeners[k].spec == created[j].spec;
    FilledFits(u, created[j], a, lb, name, ports, i, nodes, limit);
  }

  /** With all created listeners read back and filled, every port has its listener. */
  lemma AllFilled(s: State, t: State, u: State, a: Attrs, lb: string, name: string, ports: seq<ServicePort>,
                  created: seq<Listener>, nodes: seq<Node>, limit: Option<nat>)
    requires PortsOK(a, ports) && AllGenerable(a, ports) && |ports| <= PAGE_LIMIT
    requires Created(s, t, SpecsFor(a, lb, name, ports))
    requires Fetched(t, IdRange(s.next, |ports|), created)
    requires OnlyBackends(t, u, IdSet(created), lb)
    requires AllDone(u, created, nodes, limit, ports)
    ensures AllMade(s, u, lb, name, a, ports, nodes, limit)
  {
    var specs := SpecsFor(a, lb, name, ports);
    forall i | 0 <= i < |ports| ensures FilledAt(u, s.next + i, a, lb, name, ports[i], nodes, limit) {
      assert CreatedAt(t, s.next + i, specs[i]);
      FilledOne(s, t, u, a, lb, name, ports, created, nodes, limit, i);
    }
    assert u.listeners.Keys == t.listeners.Keys;
    forall i | 0 <= i < |ports| ensures NewlyServed(s, u, lb, name, a, ports[i], nodes, limit) {
      assert FilledAt(u, s.next + i, a, lb, name, ports[i], nodes, limit);
      assert s.next + i in t.listeners && s.next + i !in s.listeners;
    }
    forall k | k in u.listeners && k !in s.listeners ensures ListenerWanted(u.listeners[k], a, ports, nodes, limit) {
      assert k in t.listeners;
      assert FilledAt(u, s.next + (k - s.next), a, lb, name, ports[k - s.next], nodes, limit);
    }
  }

  lemma CreatedPortsKnown(s: State, created: seq<Listener>, a: Attrs, lb: string, name: string, ports: seq<ServicePort>)
    requires PortsOK(a, ports) && AllGenerable(a, ports)
    requires forall i | 0 <= i < |created| :: NewlyMade(s, SpecsFor(a, lb, name, ports), created[i])
    ensures PortsKnown(created, ports)
  {
    forall i | 0 <= i < |created| ensures NodePortFor(created[i], ports).Some? {
      var j := created[i].id - s.next;
      assert NewlyMade(s, SpecsFor(a, lb, name, ports), created[i]);
      assert created[i].spec == SpecFor(a, lb, name, ports[j]);
      NodePortFoundIff(a, lb, name, ports, j);
    }
  }

  lemma AddedThenFilled(s: State, t: State, u: State, lb: string, specs: seq<ListenerSpec>, created: seq<Listener>)
    requires OnlyAdded(s, t, lb, specs) && OnlyBackends(t, u, IdSet(created), lb)
    requires forall i | 0 <= i < |created| :: created[i].id !in s.listeners
    ensures OnlyAdded(s, u, lb, specs)
  {
  }

  /** A choice of as many nodes as there are leaves none out. */
  lemma FullPickTakesAll(nodes: seq<Node>, picked: seq<Node>)
    requires DiffSpec([], nodes, Some(|nodes|), [], picked)
    ensures forall n | n in nodes :: n in picked
  {
    PickAll(nodes, NotBehind([]));
    if nodes != [] {
      var idx :| Sample(picked, nodes, idx);
      SampleAll(picked, nodes, idx);
    }
  }

  /** The nodes for new listeners: all, or a random choice of as many as are wanted. */
  method PickNodes(reader: Reader, nodes: seq<Node>, count: int, policy: TrafficPolicy) returns (picked: seq<Node>)
    requires reader.Fair() && 0 <= count && (LimitOf(policy, count).Some? ==> count <= |nodes|)
    modifies reader
    ensures DiffSpec([], nodes, LimitOf(policy, count), [], picked)
    ensures if policy == Cluster && count > 0 then |picked| == count && exists idx :: Sample(picked, nodes, idx)
            else picked == nodes
  {
    PickAll(nodes, NotBehind([]));
    picked := nodes;
    if policy == Cluster && count != 0 {
      ghost var idx;
      picked, idx := GetRandomItems(reader, nodes, count);
    }
  }

  /** From s listeners were created; what giving them their backends has led to. */
  ghost predicate CreatedFilled(s: State, was: View, now: View, ok: bool, a: Attrs, lb: string, name: string,
                                ports: seq<ServicePort>, nodes: seq<Node>, limit: Option<nat>, sc: Scope,
                                ids: set<string>) {
    && Went(was, now, sc, ids) && OnlyAdded(s, now.st, lb, SpecsFor(a, lb, name, ports))
    && AdditionCalls(now.log, |was.log|)
    && (ok && |ports| <= PAGE_LIMIT && PortsOK(a, ports) ==> AllMade(s, now.st, lb, name, a, ports, nodes, limit))
    && (!ok && PortsOK(a, ports) ==> now.faults > was.faults)
  }

  /** Gives the created listeners their backends. */
  method FillCreated(client: Cloud, reader: Reader, created: seq<Listener>, ghost a: Attrs, lb: string,
                     ghost name: string, ports: seq<ServicePort>, nodes: seq<Node>, count: int, policy: TrafficPolicy,
                     ghost limit: Option<nat>, ghost s: State, ghost sc: Scope, ghost ids: set<string>)
    returns (ok: bool)
    requires client.Valid() && Ready(client.st, sc, ids, nodes) && reader.Fair()
    requires limit == LimitOf(policy, count) && 0 <= count && (limit.Some? ==> count <= |nodes|)
    requires AllGenerable(a, ports)
    requires Submitted(s, client.st, sc, lb, SpecsFor(a, lb, name, ports), created)
    requires OnlyAdded(s, client.st, lb, SpecsFor(a, lb, name, ports))
    modifies client, reader
    ensures client.Valid()
    ensures CreatedFilled(s, old(client.Now()), client.Now(), ok, a, lb, name, ports, nodes, limit, sc, ids)
  {
    ghost var t := client.st;
    if PortsOK(a, ports) { CreatedPortsKnown(s, created, a, lb, name, ports); }
    var picked := PickNodes(reader, nodes, count, policy);
    ok := FillAll(client, created, picked, ports, nodes, limit, lb, sc, ids);
    AddedThenFilled(s, t, client.st, lb, SpecsFor(a, lb, name, ports), created);
    if ok && |ports| <= PAGE_LIMIT && PortsOK(a, ports) {
      AllFilled(s, t, client.st, a, lb, name, ports, created, nodes, limit);
    }
  }

  predicate CanGenerate(c: ListenerAttrs, ports: seq<ServicePort>) {
    AttrsParse(c) && AllGenerable(AttrsOf(c), ports)
  }

  /** From `from` on listeners were asked for at most in one call, and that on state s. */
  ghost predicate OneCreation(log: seq<Step>, from: nat, s: State, lb: string, specs: seq<ListenerSpec>) {
    forall j | from <= j < |log| ::
      log[j].call.CreateBackends? || (log[j].call == CreateListeners(lb, specs) && log[j].before == s)
  }

  /** The listener has this name, and is as made for one of the ports. */
  ghost predicate MadeForSome(s: ListenerSpec, c: ListenerAttrs, name: string, ports: seq<ServicePort>) {
    s.name == name && exists i | 0 <= i < |ports| :: MadeFor(s, c, ports[i])
  }

  /** All listeners asked for from `from` on are such ones. */
  ghost predicate AsksOnly(log: seq<Step>, from: nat, c: ListenerAttrs, name: string, ports: seq<ServicePort>) {
    forall j, i | from <= j < |log| && log[j].call.CreateListeners? && 0 <= i < |log[j].call.specs| ::
      MadeForSome(log[j].call.specs[i], c, name, ports)
  }

  /** No listeners are asked for. */
  ghost predicate AsksNone(log: seq<Step>, from: nat) {
    forall j | from <= j < |log| :: !log[j].call.CreateListeners?
  }

  lemma JoinAsks(log1: seq<Step>, log2: seq<Step>, from: nat, c: ListenerAttrs, name: string, ports: seq<ServicePort>)
    requires log1 <= log2 && AsksOnly(log1, from, c, name, ports)
    requires AsksOnly(log2, |log1|, c, name, ports) || AsksNone(log2, |log1|)
    ensures AsksOnly(log2, from, c, name, ports)
  {
    forall j, i | from <= j < |log2| && log2[j].call.CreateListeners? && 0 <= i < |log2[j].call.specs|
      ensures MadeForSome(log2[j].call.specs[i], c, name, ports)
    {
      if j < |log1| { assert log1[j] == log2[j]; }
    }
  }

  /** What was asked for the sake of some ports was asked for the sake of more. */
  lemma AsksForMore(log: seq<Step>, from: nat, c: ListenerAttrs, name: string, some: seq<ServicePort>,
                    ports: seq<ServicePort>)
    requires AsksOnly(log, from, c, name, some) && forall p | p in some :: p in ports
    ensures AsksOnly(log, from, c, name, ports)
  {
    forall j, i | from <= j < |log| && log[j].call.CreateListeners? && 0 <= i < |log[j].call.specs|
      ensures MadeForSome(log[j].call.specs[i], c, name, ports)
    {
      var s := log[j].call.specs[i];
      assert MadeForSome(s, c, name, some);
      var m :| 0 <= m < |some| && MadeFor(s, c, some[m]);
      assert some[m] in some && some[m] in ports;
      var x :| 0 <= x < |ports| && ports[x] == some[m];
    }
  }

  lemma OneCreationAsks(log: seq<Step>, from: nat, s: State, c: ListenerAttrs, lb: string, name: string,
                        ports: seq<ServicePort>)
    requires AllGenerable(AttrsOf(c), ports)
    requires OneCreation(log, from, s, lb, SpecsFor(AttrsOf(c), lb, name, ports))
    ensures AsksOnly(log, from, c, name, ports)
  {
    AllMadeFor(c, lb, name, ports);
    var specs := SpecsFor(AttrsOf(c), lb, name, ports);
    forall i | 0 <= i < |specs| ensures MadeForSome(specs[i], c, name, ports) {
      assert specs[i] == SpecFor(AttrsOf(c), lb, name, ports[i]) && MadeFor(specs[i], c, ports[i]);
    }
  }

  /** What creating the listeners for the ports, with their backends, has led to. */
  ghost predicate ListenersCreated(was: View, now: View, ok: bool, c: ListenerAttrs, lb: string, name: string,
                                   ports: seq<ServicePort>, nodes: seq<Node>, limit: Option<nat>, sc: Scope,
                                   ids: set<string>) {
    var s, t, a, specs := was.st, now.st, AttrsOf(c), SpecsFor(AttrsOf(c), lb, name, ports);
    && Went(was, now, sc, ids) && OnlyAdded(s, t, lb, specs) && OneCreation(now.log, |was.log|, s, lb, specs)
    && AsksOnly(now.log, |was.log|, c, name, ports)
    && (ok ==> CanGenerate(c, ports))
    && (ok && |ports| <= PAGE_LIMIT && PortsOK(a, ports) ==> AllMade(s, t, lb, name, a, ports, nodes, limit))
    && (!CanGenerate(c, ports) ==> now == was)
    && (!ok && PortsOK(a, ports) && CanGenerate(c, ports) ==>
         now.faults > was.faults || !Accepts(s, CreateListeners(lb, specs)))
  }

  lemma RequestedThenFilled(was: View, mid: View, now: View, r: Result<seq<Listener>>, ok: bool, c: ListenerAttrs,
                            lb: string, name: string, ports: seq<ServicePort>, nodes: seq<Node>, limit: Option<nat>,
                            sc: Scope, ids: set<string>)
    requires CanGenerate(c, ports) && Requested(was, mid, r, lb, SpecsFor(AttrsOf(c), lb, name, ports), sc, ids)
    requires if r.Ok? then CreatedFilled(was.st, mid, now, ok, AttrsOf(c), lb, name, ports, nodes, limit, sc, ids)
             else now == mid && !ok
    ensures ListenersCreated(was, now, ok, c, lb, name, ports, nodes, limit, sc, ids)
  {
    if r.Ok? { WentOn(was, mid, now, sc, ids); }
    forall j | |was.log| <= j < |now.log|
      ensures now.log[j].call.CreateBackends?
              || (now.log[j].call == CreateListeners(lb, SpecsFor(AttrsOf(c), lb, name, ports))
                  && now.log[j].before == was.st)
    {
      if j == |was.log| { assert now.log[j] == mid.log[j]; }
    }
    OneCreationAsks(now.log, |was.log|, was.st, c, lb, name, ports);
  }

  /** One request for all listeners, then one request per listener for its backends. */
  method CreateListenersAndBackends(client: Cloud, reader: Reader, c: ListenerAttrs, lb: string, name: string,
                                    ports: seq<ServicePort>, nodes: seq<Node>, count: int, policy: TrafficPolicy,
                                    ghost limit: Option<nat>, ghost sc: Scope, ghost ids: set<string>)
    returns (ok: bool)
    requires client.Valid() && Ready(client.st, sc, ids, nodes) && reader.Fair()
    requires limit == LimitOf(policy, count) && 0 <= count && (limit.Some? ==> count <= |nodes|)
    requires sc.makes && InScope(sc, client.st, lb) && HasPrefix(name, sc.prefix)
    modifies client, reader
    ensures client.Valid()
    ensures ListenersCreated(old(client.Now()), client.Now(), ok, c, lb, name, ports, nodes, limit, sc, ids)
  {
    ghost var was := client.Now();
    var specs := GenerateLoadBalancerListeners(c, lb, name, ports);
    if specs.Err? { return false; }
    assert specs.value == SpecsFor(AttrsOf(c), lb, name, ports);
    var created := SubmitListeners(client, specs.value, lb, sc, ids);
    ghost var mid := client.Now();
    ok := false;
    if created.Ok? {
      ok := FillCreated(client, reader, created.value, AttrsOf(c), lb, name, ports, nodes, count, policy, limit,
                        was.st, sc, ids);
    }
    RequestedThenFilled(was, mid, client.Now(), created, ok, c, lb, name, ports, nodes, limit, sc, ids);
  }
}
