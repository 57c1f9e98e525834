/** What it means to bring the listeners of a service in line with its ports: deleting the stale ones,
    adding the missing ones and keeping the rest leads to one listener per port. */
module SyncLaws {
  import opened Wrappers
  import opened GoStrings
  import opened Apis
  import opened Sequences
  import opened CloudModel
  import opened Listeners
  import opened ListenerLaws
  import opened Backends
  import opened BackendLaws
  import opened Discipline
  import opened BackendRuns
  import opened ListenerRuns

  // ---------- Frames ----------

  /** Only the listeners with ids in `list`, all on `lb`, may have gone. */
  ghost predicate OnlyDropped(s: State, t: State, lb: string, list: seq<nat>) {
    && (forall k | k in t.listeners :: k in s.listeners && t.listeners[k] == s.listeners[k])
    && (forall k | k in s.listeners && k !in list :: k in t.listeners)
    && PendingOnly(s, t, lb) && t.eips == s.eips
  }

  /** Outside of `lb` nothing has changed, and of `lb` itself only its listeners and the pending mark. */
  ghost predicate OnlyOn(s: State, t: State, lb: string) {
    && (forall k | k in s.listeners && s.listeners[k].spec.lb != lb ::
        k in t.listeners && t.listeners[k] == s.listeners[k])
    && (forall k | k in t.listeners && t.listeners[k].spec.lb != lb ::
        k in s.listeners && s.listeners[k] == t.listeners[k])
    && PendingOnly(s, t, lb) && t.eips == s.eips
  }

  lemma OnlyOnTransitive(s: State, t: State, u: State, lb: string)
    requires OnlyOn(s, t, lb) && OnlyOn(t, u, lb)
    ensures OnlyOn(s, u, lb)
  {
  }

  lemma DroppedOnlyOn(s: State, t: State, lb: string, list: seq<nat>)
    requires OnlyDropped(s, t, lb, list) && forall k | k in list && k in s.listeners :: s.listeners[k].spec.lb == lb
    ensures OnlyOn(s, t, lb)
  {
  }

  lemma AddedOnlyOn(s: State, t: State, lb: string, specs: seq<ListenerSpec>)
    requires OnlyAdded(s, t, lb, specs)
    ensures OnlyOn(s, t, lb)
  {
  }

  lemma BackendsOnlyOn(s: State, t: State, ks: set<nat>, lb: string)
    requires OnlyBackends(s, t, ks, lb) && forall k | k in ks && k in s.listeners :: s.listeners[k].spec.lb == lb
    ensures OnlyOn(s, t, lb)
  {
  }

  // ---------- The selections ----------

  /** All own listeners on the load balancer are among those given. */
  ghost predicate AllOwn(s: State, lb: string, prefix: string, ls: seq<Listener>) {
    forall k | OwnOn(s, k, lb, prefix) :: Present(ls, k)
  }

  lemma UnservedMembers(ports: seq<ServicePort>, ls: seq<Listener>, a: Attrs)
    ensures forall p | p in Unserved(ports, ls, a) :: p in ports && !Served(p, ls, a)
    ensures forall p | p in ports && !Served(p, ls, a) :: p in Unserved(ports, ls, a)
  {
    PickMembers(ports, NotServedBy(ls, a));
  }

  lemma KeptMembers(ports: seq<ServicePort>, ls: seq<Listener>, a: Attrs)
    ensures forall l | l in Kept(ls, ports, a) :: l in ls && Wanted(l, ports, a)
    ensures forall l | l in ls && Wanted(l, ports, a) :: l in Kept(ls, ports, a)
    ensures forall l | l in Stale(ls, ports, a) :: l in ls && !Wanted(l, ports, a)
    ensures forall l | l in ls && !Wanted(l, ports, a) :: l in Stale(ls, ports, a)
  {
    PickMembers(ls, WantedFor(ports, a));
    PickMembers(ls, NotWantedFor(ports, a));
  }

  /** What holds of the service ports holds of those that are not served. */
  lemma UnservedOK(ports: seq<ServicePort>, ls: seq<Listener>, a: Attrs)
    requires PortsOK(a, ports)
    ensures PortsOK(a, Unserved(ports, ls, a)) && |Unserved(ports, ls, a)| <= |ports|
  {
    var keep := NotServedBy(ls, a);
    var u := Unserved(ports, ls, a);
    UnservedMembers(ports, ls, a);
    forall i | 0 <= i < |u| ensures TransportKept(a, u[i]) { assert u[i] in u; }
    forall i, j | 0 <= i < j < |u| ensures u[i].port != u[j].port || u[i].protocol != u[j].protocol {
      PickOrder(ports, keep, i, j);
    }
    PickCount(ports, keep, (p: ServicePort) => !keep(p));
  }

  lemma StaleIds(ls: seq<Listener>, ports: seq<ServicePort>, a: Attrs, k: nat)
    requires DistinctListeners(ls) && Present(ls, k)
    ensures k in ListenerIds(Stale(ls, ports, a))
            || exists i | 0 <= i < |ls| :: ls[i].id == k && Wanted(ls[i], ports, a)
  {
    KeptMembers(ports, ls, a);
    var i :| 0 <= i < |ls| && ls[i].id == k;
    if !Wanted(ls[i], ports, a) {
      var stale := Stale(ls, ports, a);
      assert ls[i] in stale;
      var j :| 0 <= j < |stale| && stale[j] == ls[i];
      assert ListenerIds(stale)[j] == k;
    }
  }

  /** A kept listener is not stale, nor does another listener share its id. */
  lemma KeptNotStale(ls: seq<Listener>, ports: seq<ServicePort>, a: Attrs, l: Listener)
    requires DistinctListeners(ls) && l in Kept(ls, ports, a)
    ensures l.id !in ListenerIds(Stale(ls, ports, a))
  {
    KeptMembers(ports, ls, a);
    var stale := Stale(ls, ports, a);
    var x :| 0 <= x < |ls| && ls[x] == l;
    forall j | 0 <= j < |stale| ensures stale[j].id != l.id {
      assert stale[j] in stale;
      var y :| 0 <= y < |ls| && ls[y] == stale[j];
      assert x != y;
    }
  }

  // ---------- Convergence ----------

  /** A kept listener whose round is done fits its port. */
  lemma KeptFits(t: State, l: Listener, a: Attrs, ports: seq<ServicePort>, i: nat, nodes: seq<Node>, limit: Option<nat>)
    requires PortsOK(a, ports) && i < |ports| && Matches(l, a, ports[i])
    requires RoundDone(t, l, nodes, limit, ports) && t.listeners[l.id].spec == l.spec
    ensures FitFor(t.listeners[l.id], a, ports[i], nodes, limit) && NodePortFor(l, ports) == Some(ports[i].nodePort)
  {
    MatchKnowsPort(l, a, ports, i);
  }

  /** A listener that matches a port leads to its node port. */
  lemma MatchKnowsPort(l: Listener, a: Attrs, ports: seq<ServicePort>, i: nat)
    requires PortsOK(a, ports) && i < |ports| && Matches(l, a, ports[i])
    ensures NodePortFor(l, ports) == Some(ports[i].nodePort)
  {
    assert TransportKept(a, ports[i]);
    NodePortFoundIff(a, "", "", ports, i);
  }

  /** The states a synchronisation passes through: stale listeners dropped, missing ones added,
      kept ones brought in line. */
  ghost predicate Passed(s: State, t1: State, t2: State, t3: State, lb: string, name: string, a: Attrs,
                         ls: seq<Listener>, ports: seq<ServicePort>, nodes: seq<Node>, limit: Option<nat>) {
    && OnlyDropped(s, t1, lb, ListenerIds(Stale(ls, ports, a)))
    && (forall k | k in ListenerIds(Stale(ls, ports, a)) :: k !in t1.listeners)
    && OnlyAdded(t1, t2, lb, SpecsFor(a, lb, name, Unserved(ports, ls, a)))
    && AllMade(t1, t2, lb, name, a, Unserved(ports, ls, a), nodes, limit)
    && OnlyBackends(t2, t3, IdSet(Kept(ls, ports, a)), lb)
    && AllDone(t3, Kept(ls, ports, a), nodes, limit, ports)
  }

  /** Where a listener that is kept stands through all phases. */
  lemma KeptThrough(s: State, t1: State, t2: State, t3: State, sc: Scope, lb: string, name: string, a: Attrs,
                    ls: seq<Listener>, ports: seq<ServicePort>, nodes: seq<Node>, limit: Option<nat>, l: Listener,
                    i: nat)
    requires Current(s, sc, ls, lb) && PortsOK(a, ports)
    requires Passed(s, t1, t2, t3, lb, name, a, ls, ports, nodes, limit)
    requires l in ls && i < |ports| && Matches(l, a, ports[i])
    ensures OwnOn(t3, l.id, lb, sc.prefix) && FitFor(t3.listeners[l.id], a, ports[i], nodes, limit)
  {
    KeptMembers(ports, ls, a);
    assert Wanted(l, ports, a);
    KeptNotStale(ls, ports, a, l);
    var x :| 0 <= x < |ls| && ls[x] == l;
    var kept := Kept(ls, ports, a);
    var j :| 0 <= j < |kept| && kept[j] == l;
    assert RoundDone(t3, kept[j], nodes, limit, ports);
    KeptFits(t3, l, a, ports, i, nodes, limit);
  }

  /** A listener added for a port is there in the end. */
  lemma AddedThrough(t1: State, t2: State, t3: State, sc: Scope, lb: string, name: string, a: Attrs, ls: seq<Listener>,
                     ports: seq<ServicePort>, nodes: seq<Node>, limit: Option<nat>, k: nat)
    requires OnlyBackends(t2, t3, IdSet(Kept(ls, ports, a)), lb)
    requires forall i | 0 <= i < |Kept(ls, ports, a)| :: Kept(ls, ports, a)[i].id in t1.listeners
    requires k in t2.listeners && k !in t1.listeners
    ensures k in t3.listeners && t3.listeners[k] == t2.listeners[k]
  {
  }

  lemma KeptPresent(s: State, t1: State, sc: Scope, lb: string, a: Attrs, ls: seq<Listener>, ports: seq<ServicePort>)
    requires Current(s, sc, ls, lb) && OnlyDropped(s, t1, lb, ListenerIds(Stale(ls, ports, a)))
    ensures forall i | 0 <= i < |Kept(ls, ports, a)| :: Kept(ls, ports, a)[i].id in t1.listeners
    ensures Current(t1, sc, Kept(ls, ports, a), lb)
  {
    var kept := Kept(ls, ports, a);
    KeptMembers(ports, ls, a);
    forall i | 0 <= i < |kept|
      ensures kept[i].id in t1.listeners && t1.listeners[kept[i].id] == kept[i] && Mine(sc, t1, kept[i].id)
      ensures kept[i] in ls && kept[i].spec.lb == lb
    {
      assert kept[i] in kept;
      KeptNotStale(ls, ports, a, kept[i]);
      var x :| 0 <= x < |ls| && ls[x] == kept[i];
    }
    forall i, j | 0 <= i < j < |kept| ensures kept[i].id != kept[j].id {
      PickOrder(ls, WantedFor(ports, a), i, j);
    }
  }

  lemma UnservedPortServed(s: State, t1: State, t2: State, t3: State, sc: Scope, lb: string, name: string, a: Attrs,
                           ls: seq<Listener>, ports: seq<ServicePort>, nodes: seq<Node>, limit: Option<nat>,
                           p: ServicePort)
    requires Current(s, sc, ls, lb) && HasPrefix(name, sc.prefix) && p in ports && !Served(p, ls, a)
    requires Passed(s, t1, t2, t3, lb, name, a, ls, ports, nodes, limit)
    ensures PortServed(t3, lb, sc.prefix, a, p, nodes, limit)
  {
    UnservedMembers(ports, ls, a);
    var u := Unserved(ports, ls, a);
    assert p in u;
    var j :| 0 <= j < |u| && u[j] == p;
    assert NewlyServed(t1, t2, lb, name, a, u[j], nodes, limit);
    var k :| k in t2.listeners && k !in t1.listeners && t2.listeners[k].spec.lb == lb
      && t2.listeners[k].spec.name == name
             && FitFor(t2.listeners[k], a, p, nodes, limit);
    KeptPresent(s, t1, sc, lb, a, ls, ports);
    AddedThrough(t1, t2, t3, sc, lb, name, a, ls, ports, nodes, limit, k);
    assert OwnOn(t3, k, lb, sc.prefix);
  }

  lemma PortServedInTheEnd(s: State, t1: State, t2: State, t3: State, sc: Scope, lb: string, name: string, a: Attrs,
                           ls: seq<Listener>, ports: seq<ServicePort>, nodes: seq<Node>, limit: Option<nat>, i: nat)
    requires Current(s, sc, ls, lb) && PortsOK(a, ports) && HasPrefix(name, sc.prefix) && i < |ports|
    requires Passed(s, t1, t2, t3, lb, name, a, ls, ports, nodes, limit)
    ensures PortServed(t3, lb, sc.prefix, a, ports[i], nodes, limit)
  {
    if Served(ports[i], ls, a) {
      var x :| 0 <= x < |ls| && Matches(ls[x], a, ports[i]);
      KeptThrough(s, t1, t2, t3, sc, lb, name, a, ls, ports, nodes, limit, ls[x], i);
    } else {
      UnservedPortServed(s, t1, t2, t3, sc, lb, name, a, ls, ports, nodes, limit, ports[i]);
    }
  }

  lemma ListenerWantedInTheEnd(s: State, t1: State, t2: State, t3: State, sc: Scope, lb: string, name: string, a: Attrs,
                               ls: seq<Listener>, ports: seq<ServicePort>, nodes: seq<Node>, limit: Option<nat>, k: nat)
    requires Current(s, sc, ls, lb) && PortsOK(a, ports) && AllOwn(s, lb, sc.prefix, ls)
    requires Passed(s, t1, t2, t3, lb, name, a, ls, ports, nodes, limit)
    requires OwnOn(t3, k, lb, sc.prefix)
    ensures ListenerWanted(t3.listeners[k], a, ports, nodes, limit)
  {
    if k in t1.listeners {
      assert OwnOn(s, k, lb, sc.prefix) && Present(ls, k);
      StaleIds(ls, ports, a, k);
      var x :| 0 <= x < |ls| && ls[x].id == k && Wanted(ls[x], ports, a);
      var i :| 0 <= i < |ports| && Matches(ls[x], a, ports[i]);
      KeptThrough(s, t1, t2, t3, sc, lb, name, a, ls, ports, nodes, limit, ls[x], i);
    } else {
      var u := Unserved(ports, ls, a);
      KeptPresent(s, t1, sc, lb, a, ls, ports);
      AddedThrough(t1, t2, t3, sc, lb, name, a, ls, ports, nodes, limit, k);
      assert ListenerWanted(t2.listeners[k], a, u, nodes, limit);
      var j :| 0 <= j < |u| && FitFor(t2.listeners[k], a, u[j], nodes, limit);
      UnservedMembers(ports, ls, a);
      assert u[j] in u && u[j] in ports;
      var i :| 0 <= i < |ports| && ports[i] == u[j];
      assert FitFor(t3.listeners[k], a, ports[i], nodes, limit);
    }
  }

  /** Whatever listeners a service had: dropping the stale ones, adding the missing ones and bringing
      the kept ones in line converges. */
  lemma SyncConverges(s: State, t1: State, t2: State, t3: State, sc: Scope, lb: string, name: string, a: Attrs,
                      ls: seq<Listener>, ports: seq<ServicePort>, nodes: seq<Node>, limit: Option<nat>)
    requires Current(s, sc, ls, lb) && PortsOK(a, ports) && AllOwn(s, lb, sc.prefix, ls) && HasPrefix(name, sc.prefix)
    requires Passed(s, t1, t2, t3, lb, name, a, ls, ports, nodes, limit)
    ensures Converged(t3, lb, sc.prefix, a, ports, nodes, limit)
  {
    forall i | 0 <= i < |ports| ensures PortServed(t3, lb, sc.prefix, a, ports[i], nodes, limit) {
      PortServedInTheEnd(s, t1, t2, t3, sc, lb, name, a, ls, ports, nodes, limit, i);
    }
    forall k | OwnOn(t3, k, lb, sc.prefix) ensures ListenerWanted(t3.listeners[k], a, ports, nodes, limit) {
      ListenerWantedInTheEnd(s, t1, t2, t3, sc, lb, name, a, ls, ports, nodes, limit, k);
    }
  }

  // ---------- Rest ----------

  /** Somebody has to stand behind a listener for it to be recognised. */
  lemma FitMatches(l: Listener, a: Attrs, p: ServicePort, nodes: seq<Node>, limit: Option<nat>)
    requires FitFor(l, a, p, nodes, limit) && nodes != [] && limit != Some(0)
    ensures Matches(l, a, p)
  {
    if limit.None? { assert HasName(l.backends, InstanceID(nodes[0])); }
    assert l.backends != [] && Some(l.backends[0].port) == Some(p.nodePort);
  }

  lemma ListenerAtRest(s: State, sc: Scope, lb: string, a: Attrs, ls: seq<Listener>, ports: seq<ServicePort>,
                       nodes: seq<Node>, limit: Option<nat>, x: nat)
    requires Current(s, sc, ls, lb) && nodes != [] && limit != Some(0) && x < |ls|
    requires Converged(s, lb, sc.prefix, a, ports, nodes, limit)
    ensures Wanted(ls[x], ports, a) && Fits(ls[x].backends, nodes, limit)
  {
    assert OwnOn(s, ls[x].id, lb, sc.prefix);
    assert ListenerWanted(s.listeners[ls[x].id], a, ports, nodes, limit);
    var i :| 0 <= i < |ports| && FitFor(ls[x], a, ports[i], nodes, limit);
    FitMatches(ls[x], a, ports[i], nodes, limit);
  }

  lemma PortAtRest(s: State, sc: Scope, lb: string, a: Attrs, ls: seq<Listener>, ports: seq<ServicePort>,
                   nodes: seq<Node>, limit: Option<nat>, i: nat)
    requires Current(s, sc, ls, lb) && AllOwn(s, lb, sc.prefix, ls) && nodes != [] && limit != Some(0) && i < |ports|
    requires Converged(s, lb, sc.prefix, a, ports, nodes, limit)
    ensures Served(ports[i], ls, a)
  {
    assert PortServed(s, lb, sc.prefix, a, ports[i], nodes, limit);
    var k :| OwnOn(s, k, lb, sc.prefix) && FitFor(s.listeners[k], a, ports[i], nodes, limit);
    assert Present(ls, k);
    var x :| 0 <= x < |ls| && ls[x].id == k;
    FitMatches(ls[x], a, ports[i], nodes, limit);
  }

  /** Converged listeners leave nothing to do. */
  lemma ConvergedIsAtRest(s: State, sc: Scope, lb: string, a: Attrs, ls: seq<Listener>, ports: seq<ServicePort>,
                          nodes: seq<Node>, limit: Option<nat>)
    requires Current(s, sc, ls, lb) && AllOwn(s, lb, sc.prefix, ls) && nodes != [] && limit != Some(0)
    requires Converged(s, lb, sc.prefix, a, ports, nodes, limit)
    ensures Unserved(ports, ls, a) == [] && Stale(ls, ports, a) == [] && Kept(ls, ports, a) == ls
    ensures AllFit(ls, nodes, limit)
  {
    forall x | 0 <= x < |ls| ensures Wanted(ls[x], ports, a) && Fits(ls[x].backends, nodes, limit) {
      ListenerAtRest(s, sc, lb, a, ls, ports, nodes, limit, x);
    }
    forall i | 0 <= i < |ports| ensures Served(ports[i], ls, a) {
      PortAtRest(s, sc, lb, a, ls, ports, nodes, limit, i);
    }
    PickNone(ports, NotServedBy(ls, a));
    PickNone(ls, NotWantedFor(ports, a));
    PickAll(ls, WantedFor(ports, a));
  }

  /** With no node to serve from, a listener that is just right reads as node port 0 and is not recognised. */
  lemma BareListenerUnknown(l: Listener, a: Attrs, p: ServicePort, q: ServicePort, limit: Option<nat>)
    requires FitFor(l, a, p, [], limit) && q.nodePort != 0
    ensures !Matches(l, a, q)
  {
  }

  /** Being converged is being at rest exactly when there is a node to serve from; without one the next
      run makes every listener anew. */
  lemma RestIffNodes(s: State, sc: Scope, lb: string, a: Attrs, ls: seq<Listener>, ports: seq<ServicePort>,
                     nodes: seq<Node>, limit: Option<nat>)
    requires Current(s, sc, ls, lb) && AllOwn(s, lb, sc.prefix, ls) && limit != Some(0)
    requires Converged(s, lb, sc.prefix, a, ports, nodes, limit)
    requires ports != [] && forall i | 0 <= i < |ports| :: ports[i].nodePort != 0
    ensures Unserved(ports, ls, a) == [] && Stale(ls, ports, a) == [] <==> nodes != []
    ensures nodes == [] ==> Unserved(ports, ls, a) == ports && Stale(ls, ports, a) == ls
  {
    if nodes != [] {
      ConvergedIsAtRest(s, sc, lb, a, ls, ports, nodes, limit);
    } else {
      AllAnew(s, sc, lb, a, ls, ports, limit);
    }
  }

  lemma AllAnew(s: State, sc: Scope, lb: string, a: Attrs, ls: seq<Listener>, ports: seq<ServicePort>,
                limit: Option<nat>)
    requires Current(s, sc, ls, lb) && Converged(s, lb, sc.prefix, a, ports, [], limit)
    requires forall i | 0 <= i < |ports| :: ports[i].nodePort != 0
    ensures Unserved(ports, ls, a) == ports && Stale(ls, ports, a) == ls
  {
    forall x, i | 0 <= x < |ls| && 0 <= i < |ports| ensures !Matches(ls[x], a, ports[i]) {
      NothingMatches(s, sc, lb, a, ls, ports, limit, x, i);
    }
    PickAll(ports, NotServedBy(ls, a));
    PickAll(ls, NotWantedFor(ports, a));
  }

  lemma NothingMatches(s: State, sc: Scope, lb: string, a: Attrs, ls: seq<Listener>, ports: seq<ServicePort>,
                       limit: Option<nat>, x: nat, i: nat)
    requires Current(s, sc, ls, lb) && Converged(s, lb, sc.prefix, a, ports, [], limit)
    requires x < |ls| && i < |ports| && ports[i].nodePort != 0
    ensures !Matches(ls[x], a, ports[i])
  {
    assert OwnOn(s, ls[x].id, lb, sc.prefix);
    assert ListenerWanted(s.listeners[ls[x].id], a, ports, [], limit);
    var j :| 0 <= j < |ports| && FitFor(ls[x], a, ports[j], [], limit);
    BareListenerUnknown(ls[x], a, ports[j], ports[i], limit);
  }

  // ---------- Delete before add ----------

  /** No listener asked for takes a port and transport that an own listener still holds. */
  ghost predicate NoOwnClash(s: State, lb: string, prefix: string, specs: seq<ListenerSpec>) {
    forall k, i {:trigger OwnOn(s, k, lb, prefix), specs[i]} |
      OwnOn(s, k, lb, prefix) && 0 <= i < |specs| :: !Clash(specs[i], s.listeners[k].spec)
  }

  /** Every creation of listeners from `from` on. */
  ghost predicate NeverClashes(log: seq<Step>, from: nat, prefix: string) {
    forall j | from <= j < |log| && log[j].call.CreateListeners? ::
      NoOwnClash(log[j].before, log[j].call.id, prefix, log[j].call.specs)
  }

  lemma JoinNeverClashes(log1: seq<Step>, log2: seq<Step>, from: nat, prefix: string)
    requires log1 <= log2 && NeverClashes(log2, |log1|, prefix)
    ensures NeverClashes(log1, from, prefix) ==> NeverClashes(log2, from, prefix)
  {
  }

  /** Without the power to create listeners there is nothing to clash. */
  lemma SettlingClashesNot(sc: Scope, ids: set<string>, log: seq<Step>, from: nat)
    requires AllDisciplined(sc, ids, log, from) && !sc.makes
    ensures NeverClashes(log, from, sc.prefix)
  {
    forall j | from <= j < |log| ensures !log[j].call.CreateListeners? {
      assert Disciplined(sc, ids, log[j]);
    }
  }

  /** A service port that was unserved is not that of a kept listener. */
  lemma UnservedApart(ls: seq<Listener>, a: Attrs, lb: string, name: string, ports: seq<ServicePort>, x: nat, j: nat)
    requires PortsOK(a, ports) && x < |ls| && Wanted(ls[x], ports, a) && j < |Unserved(ports, ls, a)|
    ensures !Clash(SpecFor(a, lb, name, Unserved(ports, ls, a)[j]), ls[x].spec)
  {
    var u := Unserved(ports, ls, a);
    var i :| 0 <= i < |ports| && Matches(ls[x], a, ports[i]);
    UnservedMembers(ports, ls, a);
    assert u[j] in u && u[j] in ports;
    var m :| 0 <= m < |ports| && ports[m] == u[j];
    assert TransportKept(a, ports[i]) && TransportKept(a, ports[m]);
    DifferentPortsApart(SpecFor(a, lb, name, u[j]), ls[x].spec, a, ports[m], ports[i]);
    assert Served(ports[i], ls, a) && !Served(ports[m], ls, a);
  }

  /** Once the stale listeners are gone, the missing ones clash with no own one, although a stale one
      may have held the very same port. */
  lemma DeleteBeforeAdd(s: State, t1: State, sc: Scope, lb: string, name: string, a: Attrs, ls: seq<Listener>,
                        ports: seq<ServicePort>)
    requires Current(s, sc, ls, lb) && PortsOK(a, ports) && AllOwn(s, lb, sc.prefix, ls)
    requires OnlyDropped(s, t1, lb, ListenerIds(Stale(ls, ports, a)))
    requires forall k | k in ListenerIds(Stale(ls, ports, a)) :: k !in t1.listeners
    ensures NoOwnClash(t1, lb, sc.prefix, SpecsFor(a, lb, name, Unserved(ports, ls, a)))
  {
    var u := Unserved(ports, ls, a);
    var specs := SpecsFor(a, lb, name, u);
    forall k, j | OwnOn(t1, k, lb, sc.prefix) && 0 <= j < |specs| ensures !Clash(specs[j], t1.listeners[k].spec) {
      assert OwnOn(s, k, lb, sc.prefix) && Present(ls, k);
      StaleIds(ls, ports, a, k);
      var x :| 0 <= x < |ls| && ls[x].id == k && Wanted(ls[x], ports, a);
      UnservedApart(ls, a, lb, name, ports, x, j);
    }
  }

  /** Another's listener on the load balancer holds the port and transport of one of the service ports. */
  ghost predicate ForeignClash(s: State, lb: string, prefix: string, a: Attrs, name: string, ports: seq<ServicePort>) {
    exists k, i :: k in s.listeners && !Own(s.listeners[k], prefix) && 0 <= i < |ports|
                   && Clash(SpecFor(a, lb, name, ports[i]), s.listeners[k].spec)
  }

  /** Where the service's listeners serve all its ports, no other's holds one. */
  lemma ConvergedUncontested(s: State, lb: string, prefix: string, a: Attrs, name: string, ports: seq<ServicePort>,
                             nodes: seq<Node>, limit: Option<nat>)
    requires s.Valid() && Converged(s, lb, prefix, a, ports, nodes, limit)
    ensures !ForeignClash(s, lb, prefix, a, name, ports)
  {
    forall k, i | k in s.listeners && !Own(s.listeners[k], prefix) && 0 <= i < |ports|
      ensures !Clash(SpecFor(a, lb, name, ports[i]), s.listeners[k].spec)
    {
      assert PortServed(s, lb, prefix, a, ports[i], nodes, limit);
      var m :| OwnOn(s, m, lb, prefix) && FitFor(s.listeners[m], a, ports[i], nodes, limit);
      assert m != k && !Clash(s.listeners[m].spec, s.listeners[k].spec);
    }
  }

  /** A run leaves the listeners of others where they are, and so in the way if they were. */
  lemma ContestedStays(sc: Scope, s: State, t: State, lb: string, a: Attrs, name: string, ports: seq<ServicePort>)
    requires Untouched(sc, s, t) && ForeignClash(s, lb, sc.prefix, a, name, ports)
    ensures ForeignClash(t, lb, sc.prefix, a, name, ports)
  {
    var k, i :| k in s.listeners && !Own(s.listeners[k], sc.prefix) && 0 <= i < |ports|
                && Clash(SpecFor(a, lb, name, ports[i]), s.listeners[k].spec);
    assert !Mine(sc, s, k) && k in t.listeners && t.listeners[k] == s.listeners[k];
  }

  /** The cloud refuses the missing listeners only for the sake of another's listener. */
  lemma RefusedForOthers(s: State, t1: State, sc: Scope, lb: string, name: string, a: Attrs, ls: seq<Listener>,
                         ports: seq<ServicePort>)
    requires PortsOK(a, ports) && lb in t1.lbs
    requires OnlyDropped(s, t1, lb, ListenerIds(Stale(ls, ports, a)))
    requires NoOwnClash(t1, lb, sc.prefix, SpecsFor(a, lb, name, Unserved(ports, ls, a)))
    requires !ForeignClash(s, lb, sc.prefix, a, name, ports)
    ensures Accepts(t1, CreateListeners(lb, SpecsFor(a, lb, name, Unserved(ports, ls, a))))
  {
    var u := Unserved(ports, ls, a);
    var specs := SpecsFor(a, lb, name, u);
    UnservedOK(ports, ls, a);
    UnservedMembers(ports, ls, a);
    forall i, k | 0 <= i < |specs| && k in t1.listeners ensures !Clash(specs[i], t1.listeners[k].spec) {
      if t1.listeners[k].spec.lb == lb {
        if Own(t1.listeners[k], sc.prefix) {
          assert OwnOn(t1, k, lb, sc.prefix) && !Clash(specs[i], t1.listeners[k].spec);
        } else {
          assert u[i] in u && u[i] in ports;
          var m :| 0 <= m < |ports| && ports[m] == u[i];
          assert k in s.listeners && !Own(s.listeners[k], sc.prefix) && specs[i] == SpecFor(a, lb, name, ports[m]);
        }
      }
    }
    forall i, j | 0 <= i < j < |specs| ensures !Clash(specs[i], specs[j]) {
      assert TransportKept(a, u[i]) && TransportKept(a, u[j]);
      DifferentPortsApart(specs[i], specs[j], a, u[i], u[j]);
    }
  }
}
