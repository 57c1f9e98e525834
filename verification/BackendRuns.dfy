/** Carrying backend reconciliation out on the cloud, one listener after the other
    (pkg/qingcloud/qingcloud.go, the loops over listeners). */
module BackendRuns {
  import opened Wrappers
  import opened Apis
  import opened Sequences
  import opened CloudModel
  import opened Random
  import opened Backends
  import opened BackendLaws
  import opened Discipline

  // ---------- What changes ----------

  /** Of the load balancers, at most `lb` has changed, and it only by having a change pending. */
  ghost predicate PendingOnly(s: State, t: State, lb: string) {
    && t.lbs.Keys == s.lbs.Keys
    && (forall id | id in s.lbs :: t.lbs[id] == s.lbs[id] || (id == lb && t.lbs[id] == s.lbs[id].(pending := true)))
  }

  /** Only the backends of the listeners `ks`, all on load balancer `lb`, have changed. */
  ghost predicate OnlyBackends(s: State, t: State, ks: set<nat>, lb: string) {
    && t.listeners.Keys == s.listeners.Keys
    && (forall m | m in s.listeners && m !in ks :: t.listeners[m] == s.listeners[m])
    && (forall m | m in s.listeners :: t.listeners[m] == s.listeners[m].(backends := t.listeners[m].backends))
    && PendingOnly(s, t, lb) && t.eips == s.eips
  }

  /** From `from` on only backends were created and deleted. */
  ghost predicate BackendCalls(log: seq<Step>, from: nat) {
    forall j | from <= j < |log| :: log[j].call.CreateBackends? || log[j].call.DeleteBackends?
  }

  ghost predicate AdditionCalls(log: seq<Step>, from: nat) {
    forall j | from <= j < |log| :: log[j].call.CreateBackends?
  }

  lemma OnlyBackendsTransitive(s: State, t: State, u: State, ks: set<nat>, ms: set<nat>, lb: string)
    requires OnlyBackends(s, t, ks, lb) && OnlyBackends(t, u, ms, lb)
    ensures OnlyBackends(s, u, ks + ms, lb)
  {
  }

  lemma DeleteEffect(s: State, k: nat, list: seq<BackendID>)
    requires s.Valid() && k in s.listeners && forall b | b in list :: b.listener == k
    ensures var t := Apply(s, DeleteBackends(list));
            && OnlyBackends(s, t, {k}, s.listeners[k].spec.lb) && t.next == s.next
            && t.listeners[k].backends == Without(s.listeners[k].backends, list)
  {
    var t := Apply(s, DeleteBackends(list));
    forall m | m in s.listeners && m != k ensures t.listeners[m] == s.listeners[m] {
      assert s.ListenerValid(m);
      PickAll(s.listeners[m].backends, NotIn(list));
    }
  }

  lemma CreateEffect(s: State, k: nat, requests: seq<BackendRequest>)
    requires k in s.listeners && forall q | q in requests :: q.port.Some?
    ensures var t := Apply(s, CreateBackends(k, requests));
            && OnlyBackends(s, t, {k}, s.listeners[k].spec.lb)
            && t.listeners[k].backends == s.listeners[k].backends + NewBackends(k, s.next, requests)
  {
  }

  /** The ids of a selection of backends are ids of the listener they belong to. */
  lemma IdsOfListener(backends: seq<Backend>, keep: Backend -> bool, k: nat)
    requires forall i | 0 <= i < |backends| :: backends[i].id.listener == k
    ensures forall b | b in Ids(Pick(backends, keep)) :: b.listener == k
  {
  }

  lemma SampledFrom(picked: seq<BackendID>, items: seq<BackendID>, n: int)
    requires IsSample(picked, items, n)
    ensures forall x | x in picked :: x in items
  {
  }

  /** The ids to delete are ids of the listener's backends. */
  lemma DeletedAreItsOwn(s: State, k: nat, nodes: seq<Node>, limit: Option<nat>, toDelete: seq<BackendID>,
                         toAdd: seq<Node>)
    requires s.Valid() && k in s.listeners
    requires DiffSpec(s.listeners[k].backends, nodes, limit, toDelete, toAdd)
    ensures forall b | b in toDelete :: b.listener == k
  {
    assert s.ListenerValid(k);
    var backends := s.listeners[k].backends;
    var gone, left := Ids(Gone(backends, nodes)), Ids(Left(backends, nodes));
    IdsOfListener(backends, OffNodes(nodes), k);
    IdsOfListener(backends, OnNodes(nodes), k);
    if limit.Some? && |left| > limit.value {
      SampledFrom(toDelete[|gone|..], left, |left| - limit.value);
      assert toDelete == toDelete[..|gone|] + toDelete[|gone|..];
    }
  }

  // ---------- One listener ----------

  /** What the two calls of one round make of the backends. */
  ghost predicate Round(after: seq<Backend>, nodes: seq<Node>, limit: Option<nat>, port: Option<int>) {
    && Fits(after, nodes, limit)
    && (forall i | 0 <= i < |after| :: Some(after[i].port) == port)
  }

  /** A well kept listener has one port, and new backends get that one. */
  lemma OnePort(l: Listener, ports: seq<ServicePort>, ids: set<string>)
    requires WellKept(l.backends, ids)
    ensures forall i | 0 <= i < |l.backends| :: NodePortFor(l, ports) == Some(l.backends[i].port)
  {
  }

  /** Adding what the differ says to what it leaves keeps the backends well. */
  lemma RoundKept(l: Listener, ids: set<string>, nodes: seq<Node>, limit: Option<nat>,
                  toDelete: seq<BackendID>, toAdd: seq<Node>, first: nat, ports: seq<ServicePort>, port: int)
    requires DistinctIds(l.backends) && WellKept(l.backends, ids)
    requires Known(ids, l.backends, nodes) && DistinctNodes(nodes)
    requires DiffSpec(l.backends, nodes, limit, toDelete, toAdd)
    requires NodePortFor(l, ports) == Some(port)
    ensures var after := After(l.backends, toDelete, toAdd, l.id, first, port);
            WellKept(after, ids) && Round(after, nodes, limit, Some(port))
  {
    var kept := Without(l.backends, toDelete);
    var after := After(l.backends, toDelete, toAdd, l.id, first, port);
    DiffReaches(ids, l.backends, nodes, limit, toDelete, toAdd, l.id, first, port);
    WellKeptWithout(l.backends, toDelete, ids);
    PickMembers(l.backends, NotIn(toDelete));
    OnePort(l, ports, ids);
    forall i | 0 <= i < |after| ensures after[i].name in ids && after[i].port == port {
      if i < |kept| {
        assert kept[i] in kept && kept[i] in l.backends;
        var j :| 0 <= j < |l.backends| && l.backends[j] == kept[i];
        assert NodePortFor(l, ports) == Some(l.backends[j].port);
      } else {
        assert IsNode(after[i].name, nodes);
        var j :| 0 <= j < |nodes| && InstanceID(nodes[j]) == after[i].name;
      }
    }
  }

  lemma RequestsSome(nodes: seq<Node>, k: nat, port: Option<int>)
    ensures (forall q | q in Requests(nodes, k, port) :: q.port.Some?) <==> nodes == [] || port.Some?
  {
    if nodes != [] { assert Requests(nodes, k, port)[0] in Requests(nodes, k, port); }
  }

  /** What a round needs of the cloud and of its inputs. */
  ghost predicate Ready(s: State, sc: Scope, ids: set<string>, nodes: seq<Node>) {
    && Inv(s, sc.prefix, ids) && Separate(ids) && DistinctNodes(nodes)
    && forall i | 0 <= i < |nodes| :: InstanceID(nodes[i]) in ids
  }

  /** Nothing but the backends of listener `k` was worked on. */
  ghost predicate Worked(was: View, now: View, k: nat, sc: Scope, ids: set<string>) {
    && Went(was, now, sc, ids) && BackendCalls(now.log, |was.log|)
    && k in was.st.listeners && OnlyBackends(was.st, now.st, {k}, was.st.listeners[k].spec.lb)
  }

  /** The one call that deletes backends of listener `k`, whatever became of it. */
  lemma DeleteStep(sc: Scope, ids: set<string>, step: Step, k: nat, list: seq<BackendID>, ok: bool)
    requires step.call == DeleteBackends(list) && Outcome(step.before, step.call, ok, step.after)
    requires Inv(step.before, sc.prefix, ids) && k in step.before.listeners && Mine(sc, step.before, k)
    requires forall b | b in list :: b.listener == k
    ensures Disciplined(sc, ids, step) && Inv(step.after, sc.prefix, ids)
    ensures OnlyBackends(step.before, step.after, {k}, step.before.listeners[k].spec.lb)
    ensures ok ==> step.after.listeners[k].backends == Without(step.before.listeners[k].backends, list)
  {
    StepKeepsInv(sc, ids, step);
    DeleteEffect(step.before, k, list);
  }

  /** What deleting some backends of listener `k` has led to. */
  ghost predicate SomeDeleted(was: View, now: View, ok: bool, k: nat, toDelete: seq<BackendID>, sc: Scope,
                              ids: set<string>) {
    && Worked(was, now, k, sc, ids)
    && (ok ==> now.st.listeners[k].backends == Without(was.st.listeners[k].backends, toDelete))
    && (!ok ==> now.faults > was.faults)
    && (toDelete == [] ==> ok && now == was)
  }

  lemma NoneDeleted(was: View, k: nat, sc: Scope, ids: set<string>)
    requires Inv(was.st, sc.prefix, ids) && k in was.st.listeners
    ensures SomeDeleted(was, was, true, k, [], sc, ids)
  {
    PickAll(was.st.listeners[k].backends, NotIn([]));
  }

  method DeleteSome(client: Cloud, k: nat, toDelete: seq<BackendID>, ghost sc: Scope, ghost ids: set<string>)
    returns (ok: bool)
    requires client.Valid() && Inv(client.st, sc.prefix, ids)
    requires k in client.st.listeners && Mine(sc, client.st, k) && forall b | b in toDelete :: b.listener == k
    modifies client
    ensures client.Valid() && SomeDeleted(old(client.Now()), client.Now(), ok, k, toDelete, sc, ids)
  {
    ghost var s := client.st;
    if |toDelete| == 0 {
      NoneDeleted(client.Now(), k, sc, ids);
      return true;
    }
    ok := client.Invoke(DeleteBackends(toDelete));
    DeleteStep(sc, ids, Step(DeleteBackends(toDelete), s, client.st), k, toDelete, ok);
  }

  /** The one call that asks for backends of listener `k`, whatever became of it. */
  lemma CreateStep(sc: Scope, ids: set<string>, step: Step, k: nat, requests: seq<BackendRequest>, ok: bool)
    requires step.call == CreateBackends(k, requests) && Outcome(step.before, step.call, ok, step.after)
    requires Inv(step.before, sc.prefix, ids) && k in step.before.listeners && Mine(sc, step.before, k)
    requires forall q | q in requests :: q.resource == q.name
    requires (forall q | q in requests :: q.port.Some?)
             ==> WellKept(step.before.listeners[k].backends + NewBackends(k, step.before.next, requests), ids)
    ensures Disciplined(sc, ids, step) && Inv(step.after, sc.prefix, ids)
    ensures OnlyBackends(step.before, step.after, {k}, step.before.listeners[k].spec.lb)
    ensures ok ==>
              && (forall q | q in requests :: q.port.Some?)
              && step.after.listeners[k].backends ==
                 step.before.listeners[k].backends + NewBackends(k, step.before.next, requests)
  {
    StepKeepsInv(sc, ids, step);
    if forall q | q in requests :: q.port.Some? { CreateEffect(step.before, k, requests); }
  }

  /** What asking for backends of listener `k` has led to. */
  ghost predicate SomeCreated(was: View, now: View, ok: bool, k: nat, requests: seq<BackendRequest>, sc: Scope,
                              ids: set<string>) {
    && Worked(was, now, k, sc, ids) && AdditionCalls(now.log, |was.log|)
    && (ok ==>
         && (forall q | q in requests :: q.port.Some?)
         && now.st.listeners[k].backends == was.st.listeners[k].backends + NewBackends(k, was.st.next, requests))
    && (!ok ==> now.faults > was.faults || !(forall q | q in requests :: q.port.Some?))
    && (requests == [] ==> ok && now == was)
  }

  method CreateSome(client: Cloud, k: nat, requests: seq<BackendRequest>, ghost sc: Scope, ghost ids: set<string>)
    returns (ok: bool)
    requires client.Valid() && Inv(client.st, sc.prefix, ids)
    requires k in client.st.listeners && Mine(sc, client.st, k)
    requires forall i | 0 <= i < |requests| :: requests[i].listener == k && requests[i].resource == requests[i].name
    requires (forall q | q in requests :: q.port.Some?)
             ==> WellKept(client.st.listeners[k].backends + NewBackends(k, client.st.next, requests), ids)
    modifies client
    ensures client.Valid() && SomeCreated(old(client.Now()), client.Now(), ok, k, requests, sc, ids)
  {
    ghost var s := client.st;
    ok := client.CreateBackends(requests);
    if requests != [] { CreateStep(sc, ids, Step(Call.CreateBackends(k, requests), s, client.st), k, requests, ok); }
  }

  /** A round without additions, whether or not a port for them is known. */
  lemma RoundWithoutAdding(l: Listener, ids: set<string>, nodes: seq<Node>, limit: Option<nat>,
                           toDelete: seq<BackendID>, ports: seq<ServicePort>)
    requires DistinctIds(l.backends) && WellKept(l.backends, ids)
    requires Known(ids, l.backends, nodes) && DistinctNodes(nodes)
    requires DiffSpec(l.backends, nodes, limit, toDelete, [])
    ensures Round(Without(l.backends, toDelete), nodes, limit, NodePortFor(l, ports))
  {
    var kept := Without(l.backends, toDelete);
    DiffReaches(ids, l.backends, nodes, limit, toDelete, [], l.id, 0, 0);
    assert After(l.backends, toDelete, [], l.id, 0, 0) == kept;
    PickMembers(l.backends, NotIn(toDelete));
    OnePort(l, ports, ids);
    forall i | 0 <= i < |kept| ensures Some(kept[i].port) == NodePortFor(l, ports) {
      assert kept[i] in kept && kept[i] in l.backends;
      var j :| 0 <= j < |l.backends| && l.backends[j] == kept[i];
    }
  }

  /** On listener l the right nodes, all on its node port, are behind it. */
  ghost predicate RoundDone(s: State, l: Listener, nodes: seq<Node>, limit: Option<nat>, ports: seq<ServicePort>) {
    l.id in s.listeners && Round(s.listeners[l.id].backends, nodes, limit, NodePortFor(l, ports))
  }

  /** What a round for listener l has led to. */
  ghost predicate RoundRun(was: View, now: View, ok: bool, l: Listener, none: bool, nodes: seq<Node>,
                           limit: Option<nat>, ports: seq<ServicePort>, sc: Scope, ids: set<string>) {
    && Worked(was, now, l.id, sc, ids)
    && (ok ==> RoundDone(now.st, l, nodes, limit, ports))
    && (!ok ==> now.faults > was.faults || NodePortFor(l, ports) == None)
    && (none ==> ok && now == was)
  }

  /** The same of its additions alone. */
  ghost predicate SomeAdded(was: View, now: View, ok: bool, l: Listener, none: bool, nodes: seq<Node>,
                            limit: Option<nat>, ports: seq<ServicePort>, sc: Scope, ids: set<string>) {
    RoundRun(was, now, ok, l, none, nodes, limit, ports, sc, ids) && AdditionCalls(now.log, |was.log|)
  }

  /** What a round asks for, given a node port, is all it takes and keeps the listener well. */
  lemma AdditionsFit(l: Listener, ids: set<string>, nodes: seq<Node>, limit: Option<nat>, toDelete: seq<BackendID>,
                     toAdd: seq<Node>, first: nat, ports: seq<ServicePort>)
    requires DistinctIds(l.backends) && WellKept(l.backends, ids)
    requires Known(ids, l.backends, nodes) && DistinctNodes(nodes)
    requires DiffSpec(l.backends, nodes, limit, toDelete, toAdd)
    ensures var requests := Requests(toAdd, l.id, NodePortFor(l, ports));
            if forall q | q in requests :: q.port.Some? then
              var after := Without(l.backends, toDelete) + NewBackends(l.id, first, requests);
              WellKept(after, ids) && Round(after, nodes, limit, NodePortFor(l, ports))
            else NodePortFor(l, ports) == None
  {
    RequestsSome(toAdd, l.id, NodePortFor(l, ports));
    if toAdd == [] {
      RoundWithoutAdding(l, ids, nodes, limit, toDelete, ports);
      WellKeptWithout(l.backends, toDelete, ids);
      var requests := Requests(toAdd, l.id, NodePortFor(l, ports));
      assert Without(l.backends, toDelete) + NewBackends(l.id, first, requests) == Without(l.backends, toDelete);
    } else if NodePortFor(l, ports).Some? {
      RoundKept(l, ids, nodes, limit, toDelete, toAdd, first, ports, NodePortFor(l, ports).value);
    }
  }

  /** The second call of a round, on the listener as the first call left it. */
  method AddSome(client: Cloud, ghost l: Listener, k: nat, requests: seq<BackendRequest>,
                 ghost toDelete: seq<BackendID>, ghost toAdd: seq<Node>, ghost ports: seq<ServicePort>,
                 ghost nodes: seq<Node>, ghost limit: Option<nat>, ghost sc: Scope, ghost ids: set<string>)
    returns (ok: bool)
    requires client.Valid() && Ready(client.st, sc, ids, nodes)
    requires k == l.id && k in client.st.listeners && Mine(sc, client.st, k)
    requires DistinctIds(l.backends) && WellKept(l.backends, ids)
    requires client.st.listeners[k].backends == Without(l.backends, toDelete)
    requires DiffSpec(l.backends, nodes, limit, toDelete, toAdd)
    requires requests == Requests(toAdd, k, NodePortFor(l, ports))
    modifies client
    ensures client.Valid()
    ensures SomeAdded(old(client.Now()), client.Now(), ok, l, toAdd == [], nodes, limit, ports, sc, ids)
  {
    AdditionsFit(l, ids, nodes, limit, toDelete, toAdd, client.st.next, ports);
    ok := CreateSome(client, k, requests, sc, ids);
  }

  lemma DeletedThenAdded(was: View, mid: View, now: View, ok: bool, l: Listener, toDelete: seq<BackendID>,
                         toAdd: seq<Node>, nodes: seq<Node>, limit: Option<nat>, ports: seq<ServicePort>, sc: Scope,
                         ids: set<string>)
    requires SomeDeleted(was, mid, true, l.id, toDelete, sc, ids) && was.st.listeners[l.id] == l
    requires SomeAdded(mid, now, ok, l, toAdd == [], nodes, limit, ports, sc, ids)
    ensures RoundRun(was, now, ok, l, toDelete == [] && toAdd == [], nodes, limit, ports, sc, ids)
  {
    WentOn(was, mid, now, sc, ids);
    OnlyBackendsTransitive(was.st, mid.st, now.st, {l.id}, {l.id}, l.spec.lb);
    JoinBackendCalls(mid.log, now.log, |was.log|);
  }

  lemma JoinBackendCalls(log1: seq<Step>, log2: seq<Step>, from: nat)
    requires log1 <= log2 && BackendCalls(log1, from) && BackendCalls(log2, |log1|)
    ensures BackendCalls(log2, from)
  {
  }

  /** Carries out what the differ answered for one listener: deletes first, then adds. */
  method RunRound(client: Cloud, listener: LoadBalancerListener, toDelete: seq<BackendID>, toAdd: seq<Node>,
                  ports: seq<ServicePort>, ghost nodes: seq<Node>, ghost limit: Option<nat>, ghost sc: Scope,
                  ghost ids: set<string>)
    returns (ok: bool)
    requires client.Valid() && Ready(client.st, sc, ids, nodes)
    requires listener.id in client.st.listeners && client.st.listeners[listener.id] == listener.Value()
    requires Mine(sc, client.st, listener.id)
    requires DiffSpec(listener.backends, nodes, limit, toDelete, toAdd)
    modifies client, listener
    ensures client.Valid()
    ensures RoundRun(old(client.Now()), client.Now(), ok, old(listener.Value()), toDelete == [] && toAdd == [],
                     nodes, limit, ports, sc, ids)
  {
    ghost var l, was := listener.Value(), client.Now();
    assert was.st.ListenerValid(l.id);
    DeletedAreItsOwn(was.st, l.id, nodes, limit, toDelete, toAdd);
    ok := DeleteSome(client, listener.id, toDelete, sc, ids);
    if !ok { return; }
    ghost var mid := client.Now();
    var requests: seq<BackendRequest> := [];
    if |toAdd| > 0 {
      requests := GenerateLoadBalancerBackends(toAdd, listener, ports);
    }
    ok := AddSome(client, l, listener.id, requests, toDelete, toAdd, ports, nodes, limit, sc, ids);
    DeletedThenAdded(was, mid, client.Now(), ok, l, toDelete, toAdd, nodes, limit, ports, sc, ids);
  }

  /** Brings the backends of one listener in line with the nodes. */
  method ReconcileBackends(client: Cloud, reader: Reader, listener: LoadBalancerListener, nodes: seq<Node>, count: int,
                           policy: TrafficPolicy, ports: seq<ServicePort>, ghost limit: Option<nat>, ghost sc: Scope,
                           ghost ids: set<string>)
    returns (ok: bool, modified: bool)
    requires client.Valid() && Ready(client.st, sc, ids, nodes) && reader.Fair()
    requires limit == LimitOf(policy, count) && 0 <= count && (limit.Some? ==> count <= |nodes|)
    requires listener.id in client.st.listeners && client.st.listeners[listener.id] == listener.Value()
    requires Mine(sc, client.st, listener.id)
    modifies client, reader, listener
    ensures client.Valid()
    ensures RoundRun(old(client.Now()), client.Now(), ok, old(listener.Value()), !modified, nodes, limit, ports, sc,
                     ids)
    ensures Fits(listener.backends, nodes, limit) ==> !modified
  {
    assert client.st.ListenerValid(listener.id) && WellKept(client.st.listeners[listener.id].backends, ids);
    KnownOneNodeEach(ids, listener.backends, nodes);
    var toDelete, toAdd := DiffBackend(reader, listener, nodes, count, policy);
    NothingToDoIffFits(ids, listener.backends, nodes, limit, toDelete, toAdd);
    ok := RunRound(client, listener, toDelete, toAdd, ports, nodes, limit, sc, ids);
    modified := |toDelete| > 0 || |toAdd| > 0;
  }

  // ---------- All listeners of a service ----------

  /** The listeners `ls` are, as read, in the cloud: different ones of the service on load balancer `lb`. */
  ghost predicate Current(s: State, sc: Scope, ls: seq<Listener>, lb: string) {
    && DistinctListeners(ls)
    && forall i | 0 <= i < |ls| ::
         ls[i].id in s.listeners && s.listeners[ls[i].id] == ls[i] && ls[i].spec.lb == lb && Mine(sc, s, ls[i].id)
  }

  ghost predicate AllDone(s: State, ls: seq<Listener>, nodes: seq<Node>, limit: Option<nat>, ports: seq<ServicePort>) {
    forall i | 0 <= i < |ls| :: RoundDone(s, ls[i], nodes, limit, ports)
  }

  ghost function IdSet(ls: seq<Listener>): set<nat> {
    set i | 0 <= i < |ls| :: ls[i].id
  }

  lemma IdSetStep(ls: seq<Listener>, i: nat)
    requires i < |ls|
    ensures IdSet(ls[..i + 1]) == IdSet(ls[..i]) + {ls[i].id}
  {
  }

  /** A round on one listener keeps the others as they were read, and those done stay done. */
  lemma RestStaysCurrent(s: State, t: State, sc: Scope, ls: seq<Listener>, lb: string, i: nat)
    requires i < |ls| && Current(s, sc, ls[i..], lb) && OnlyBackends(s, t, {ls[i].id}, lb)
    ensures Current(t, sc, ls[i + 1..], lb)
  {
  }

  lemma DoneStaysDone(s: State, t: State, ls: seq<Listener>, lb: string, i: nat,
                      nodes: seq<Node>, limit: Option<nat>, ports: seq<ServicePort>)
    requires i < |ls| && DistinctListeners(ls) && OnlyBackends(s, t, {ls[i].id}, lb)
    requires forall j | 0 <= j < i :: RoundDone(s, ls[j], nodes, limit, ports)
    ensures forall j | 0 <= j < i :: RoundDone(t, ls[j], nodes, limit, ports)
  {
  }

  lemma IdSetPrefix(ls: seq<Listener>, i: nat)
    requires i <= |ls|
    ensures IdSet(ls[..i]) <= IdSet(ls)
  {
  }

  /** How far the loop has come after i listeners. */
  ghost predicate Progress(s0: State, s: State, sc: Scope, ls: seq<Listener>, i: nat, lb: string,
                           nodes: seq<Node>, limit: Option<nat>, ports: seq<ServicePort>)
    requires i <= |ls|
  {
    && OnlyBackends(s0, s, IdSet(ls[..i]), lb)
    && Current(s, sc, ls[i..], lb)
    && forall j | 0 <= j < i :: RoundDone(s, ls[j], nodes, limit, ports)
  }

  lemma ProgressStep(s0: State, s: State, t: State, sc: Scope, ls: seq<Listener>, i: nat, lb: string,
                     nodes: seq<Node>, limit: Option<nat>, ports: seq<ServicePort>)
    requires i < |ls| && DistinctListeners(ls) && Progress(s0, s, sc, ls, i, lb, nodes, limit, ports)
    requires OnlyBackends(s, t, {ls[i].id}, lb)
    ensures OnlyBackends(s0, t, IdSet(ls), lb)
    ensures RoundDone(t, ls[i], nodes, limit, ports) ==> Progress(s0, t, sc, ls, i + 1, lb, nodes, limit, ports)
  {
    OnlyBackendsTransitive(s0, s, t, IdSet(ls[..i]), {ls[i].id}, lb);
    IdSetStep(ls, i);
    IdSetPrefix(ls, i + 1);
    RestStaysCurrent(s, t, sc, ls, lb, i);
    DoneStaysDone(s, t, ls, lb, i, nodes, limit, ports);
  }

  lemma ProgressNow(s0: State, s: State, sc: Scope, ls: seq<Listener>, i: nat, lb: string,
                    nodes: seq<Node>, limit: Option<nat>, ports: seq<ServicePort>)
    requires i < |ls| && Progress(s0, s, sc, ls, i, lb, nodes, limit, ports)
    ensures ls[i].id in s.listeners && s.listeners[ls[i].id] == ls[i] && ls[i].spec.lb == lb && Mine(sc, s, ls[i].id)
  {
  }

  ghost predicate PortsKnown(ls: seq<Listener>, ports: seq<ServicePort>) {
    forall i | 0 <= i < |ls| :: NodePortFor(ls[i], ports).Some?
  }

  ghost predicate AllFit(ls: seq<Listener>, nodes: seq<Node>, limit: Option<nat>) {
    forall i | 0 <= i < |ls| :: Fits(ls[i].backends, nodes, limit)
  }

  lemma ProgressEnds(s0: State, s: State, sc: Scope, ls: seq<Listener>, lb: string,
                     nodes: seq<Node>, limit: Option<nat>, ports: seq<ServicePort>)
    requires Progress(s0, s, sc, ls, |ls|, lb, nodes, limit, ports)
    ensures OnlyBackends(s0, s, IdSet(ls), lb) && AllDone(s, ls, nodes, limit, ports)
  {
  }

  lemma ProgressStarts(s: State, sc: Scope, ls: seq<Listener>, lb: string,
                       nodes: seq<Node>, limit: Option<nat>, ports: seq<ServicePort>)
    requires Current(s, sc, ls, lb)
    ensures Progress(s, s, sc, ls, 0, lb, nodes, limit, ports)
  {
  }

  /** What the loop has led to after i listeners. */
  ghost predicate SoFar(was: View, now: View, modified: bool, ls: seq<Listener>, i: nat, lb: string, nodes: seq<Node>,
                        limit: Option<nat>, ports: seq<ServicePort>, sc: Scope, ids: set<string>)
    requires i <= |ls|
  {
    && Went(was, now, sc, ids) && BackendCalls(now.log, |was.log|)
    && Progress(was.st, now.st, sc, ls, i, lb, nodes, limit, ports)
    && (!modified ==> now.log == was.log && now.st == was.st)
    && (AllFit(ls, nodes, limit) ==> !modified && now == was)
  }

  /** What the whole loop has led to, complete or broken off. */
  ghost predicate AllRounds(was: View, now: View, ok: bool, modified: bool, ls: seq<Listener>, lb: string,
                            nodes: seq<Node>, limit: Option<nat>, ports: seq<ServicePort>, sc: Scope,
                            ids: set<string>) {
    && Went(was, now, sc, ids) && BackendCalls(now.log, |was.log|)
    && OnlyBackends(was.st, now.st, IdSet(ls), lb)
    && (ok ==> AllDone(now.st, ls, nodes, limit, ports))
    && (ok && !modified ==> now.log == was.log && now.st == was.st)
    && (AllFit(ls, nodes, limit) ==> ok && !modified && now == was)
    && (!ok ==> now.faults > was.faults || !PortsKnown(ls, ports))
  }

  /** One turn of the loop. */
  lemma SoFarStep(was: View, mid: View, now: View, ok: bool, modified: bool, changed: bool, ls: seq<Listener>, i: nat,
                  lb: string, nodes: seq<Node>, limit: Option<nat>, ports: seq<ServicePort>, sc: Scope,
                  ids: set<string>)
    requires i < |ls| && DistinctListeners(ls) && SoFar(was, mid, modified, ls, i, lb, nodes, limit, ports, sc, ids)
    requires RoundRun(mid, now, ok, ls[i], !changed, nodes, limit, ports, sc, ids) && ls[i].spec.lb == lb
    requires mid.st.listeners[ls[i].id] == ls[i] && (Fits(ls[i].backends, nodes, limit) ==> !changed)
    ensures ok ==> SoFar(was, now, modified || changed, ls, i + 1, lb, nodes, limit, ports, sc, ids)
    ensures !ok ==> AllRounds(was, now, ok, modified || changed, ls, lb, nodes, limit, ports, sc, ids)
  {
    WentOn(was, mid, now, sc, ids);
    JoinBackendCalls(mid.log, now.log, |was.log|);
    ProgressStep(was.st, mid.st, now.st, sc, ls, i, lb, nodes, limit, ports);
    assert AllFit(ls, nodes, limit) ==> Fits(ls[i].backends, nodes, limit);
    assert PortsKnown(ls, ports) ==> NodePortFor(ls[i], ports).Some?;
  }

  /** Brings the backends of all given listeners of a service in line with the nodes. */
  method ReconcileAll(client: Cloud, reader: Reader, ls: seq<Listener>, nodes: seq<Node>, count: int,
                      policy: TrafficPolicy, ports: seq<ServicePort>, ghost lb: string, ghost limit: Option<nat>,
                      ghost sc: Scope, ghost ids: set<string>)
    returns (ok: bool, modified: bool)
    requires client.Valid() && Ready(client.st, sc, ids, nodes) && reader.Fair()
    requires limit == LimitOf(policy, count) && 0 <= count && (limit.Some? ==> count <= |nodes|)
    requires Current(client.st, sc, ls, lb)
    modifies client, reader
    ensures client.Valid()
    ensures AllRounds(old(client.Now()), client.Now(), ok, modified, ls, lb, nodes, limit, ports, sc, ids)
  {
    ghost var was := client.Now();
    ok, modified := true, false;
    ProgressStarts(was.st, sc, ls, lb, nodes, limit, ports);
    for i := 0 to |ls|
      invariant client.Valid()
      invariant SoFar(was, client.Now(), modified, ls, i, lb, nodes, limit, ports, sc, ids)
    {
      ghost var mid, before := client.Now(), modified;
      ProgressNow(was.st, mid.st, sc, ls, i, lb, nodes, limit, ports);
      var listener := new LoadBalancerListener(ls[i]);
      var changed;
      ok, changed := ReconcileBackends(client, reader, listener, nodes, count, policy, ports, limit, sc, ids);
      modified := modified || changed;
      SoFarStep(was, mid, client.Now(), ok, before, changed, ls, i, lb, nodes, limit, ports, sc, ids);
      if !ok { return; }
    }
    ProgressEnds(was.st, client.st, sc, ls, lb, nodes, limit, ports);
  }
}
