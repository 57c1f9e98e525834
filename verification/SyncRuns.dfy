/** Synchronising the listeners of a service with its ports: the part of `ensureLoadBalancer`
    (pkg/qingcloud/qingcloud.go) between the EIPs and the final `UpdateLB`. */
module SyncRuns {
  import opened Wrappers
  import opened GoStrings
  import opened Apis
  import opened Sequences
  import opened CloudModel
  import opened Random
  import opened ServiceConfig
  import opened Listeners
  import opened ListenerLaws
  import opened Backends
  import opened Discipline
  import opened BackendRuns
  import opened ListenerRuns
  import opened SyncLaws

  // ---------- Own listeners ----------

  function OwnBy(prefix: string): Listener -> bool {
    (l: Listener) => Own(l, prefix)
  }

  /** The load balancer may be shared; these are the listeners the service made. */
  method FilterListeners(listeners: seq<Listener>, prefix: string) returns (result: seq<nat>)
    ensures result == ListenerIds(Pick(listeners, OwnBy(prefix)))
  {
    result := [];
    ghost var own := [];
    for i := 0 to |listeners|
      invariant own == Pick(listeners[..i], OwnBy(prefix)) && result == ListenerIds(own)
    {
      PickStep(listeners, i, OwnBy(prefix));
      if HasPrefix(listeners[i].spec.name, prefix) {
        ListenerIdsSnoc(own, listeners[i]);
        result := result + [listeners[i].id];
        own := own + [listeners[i]];
      }
    }
    assert listeners[..|listeners|] == listeners;
  }

  ghost function OwnSet(s: State, lb: string, prefix: string): set<nat> {
    set k | k in s.listeners && OwnOn(s, k, lb, prefix)
  }

  /** The own listeners fit on one page of `GetListeners`. */
  ghost predicate OwnSmall(s: State, lb: string, prefix: string) {
    |OwnSet(s, lb, prefix)| <= PAGE_LIMIT
  }

  /** The filter finds exactly the own listeners of the load balancer, each once. */
  lemma FilterFindsOwn(s: State, lb: string, prefix: string, ls: seq<Listener>)
    requires ListsListeners(s, lb, ls)
    ensures var r := ListenerIds(Pick(ls, OwnBy(prefix)));
            (forall k :: k in r <==> OwnOn(s, k, lb, prefix)) && |r| == |OwnSet(s, lb, prefix)|
  {
    var own := Pick(ls, OwnBy(prefix));
    var r := ListenerIds(own);
    PickMembers(ls, OwnBy(prefix));
    forall k | k in r ensures OwnOn(s, k, lb, prefix) {
      var i :| 0 <= i < |r| && r[i] == k;
      assert own[i] in own;
    }
    forall k | OwnOn(s, k, lb, prefix) ensures k in r {
      assert Present(ls, k);
      var i :| 0 <= i < |ls| && ls[i].id == k;
      assert ls[i] in ls && ls[i] in own;
      var j :| 0 <= j < |own| && own[j] == ls[i];
      assert r[j] == k;
    }
    forall i, j | 0 <= i < j < |r| ensures r[i] != r[j] { PickOrder(ls, OwnBy(prefix), i, j); }
    DistinctCount(r);
    assert Elements(r) == OwnSet(s, lb, prefix);
  }

  /** What is read of the own listeners is theirs to work on; on one page it is all of them. */
  lemma FetchedCurrent(s: State, sc: Scope, lb: string, list: seq<nat>, ls: seq<Listener>)
    requires InScope(sc, s, lb) && forall k :: k in list <==> OwnOn(s, k, lb, sc.prefix)
    requires Fetched(s, list, ls)
    ensures Current(s, sc, ls, lb)
    ensures |list| <= PAGE_LIMIT ==> AllOwn(s, lb, sc.prefix, ls)
  {
  }

  // ---------- The phases ----------

  lemma DropEffect(s: State, lb: string, list: seq<nat>)
    requires forall k | k in list && k in s.listeners :: s.listeners[k].spec.lb == lb
    ensures var t := Apply(s, DeleteListeners(list));
            OnlyDropped(s, t, lb, list) && forall k | k in list :: k !in t.listeners
  {
  }

  /** What deleting listeners of the service has led to. */
  ghost predicate ListenersDropped(was: View, now: View, ok: bool, lb: string, list: seq<nat>, sc: Scope,
                                   ids: set<string>) {
    && Went(was, now, sc, ids) && OnlyDropped(was.st, now.st, lb, list) && NeverClashes(now.log, |was.log|, sc.prefix)
    && (forall j | |was.log| <= j < |now.log| :: now.log[j].call.DeleteListeners?)
    && (if ok then forall k | k in list :: k !in now.st.listeners else now.faults > was.faults)
    && (list == [] ==> ok && now == was)
  }

  /** Deletes listeners of the service. */
  method DropListeners(client: Cloud, list: seq<nat>, ghost lb: string, ghost sc: Scope, ghost ids: set<string>)
    returns (ok: bool)
    requires client.Valid() && Inv(client.st, sc.prefix, ids) && InScope(sc, client.st, lb)
    requires forall k | k in list :: OwnOn(client.st, k, lb, sc.prefix)
    modifies client
    ensures client.Valid() && ListenersDropped(old(client.Now()), client.Now(), ok, lb, list, sc, ids)
  {
    if |list| == 0 { return true; }
    ghost var s := client.st;
    ok := client.Invoke(DeleteListeners(list));
    DropEffect(s, lb, list);
    StepKeepsInv(sc, ids, client.log[|client.log| - 1]);
  }

  /** All ports can be generated, each by itself. */
  predicate CanServe(c: ListenerAttrs, ports: seq<ServicePort>) {
    AttrsParse(c) && forall i | 0 <= i < |ports| :: Generable(AttrsOf(c), ports[i])
  }

  lemma CanServeUnserved(c: ListenerAttrs, ports: seq<ServicePort>, ls: seq<Listener>)
    requires CanServe(c, ports) && Unserved(ports, ls, AttrsOf(c)) != []
    ensures CanGenerate(c, Unserved(ports, ls, AttrsOf(c)))
  {
    var u := Unserved(ports, ls, AttrsOf(c));
    UnservedMembers(ports, ls, AttrsOf(c));
    forall i | 0 <= i < |u| ensures Generable(AttrsOf(c), u[i]) { assert u[i] in u; }
  }

  /** Every port can be generated, or one of the service's listeners stands for it already. */
  ghost predicate MissingGenerable(s: State, lb: string, prefix: string, a: Attrs, ports: seq<ServicePort>) {
    forall i | 0 <= i < |ports| ::
      Generable(a, ports[i]) || exists k :: OwnOn(s, k, lb, prefix) && Matches(s.listeners[k], a, ports[i])
  }

  lemma GeneratedIfMissing(s: State, sc: Scope, lb: string, a: Attrs, ls: seq<Listener>, ports: seq<ServicePort>)
    requires Current(s, sc, ls, lb) && (Unserved(ports, ls, a) == [] || AllGenerable(a, Unserved(ports, ls, a)))
    ensures MissingGenerable(s, lb, sc.prefix, a, ports)
  {
    var u := Unserved(ports, ls, a);
    UnservedMembers(ports, ls, a);
    forall i | 0 <= i < |ports|
      ensures Generable(a, ports[i]) || exists k :: OwnOn(s, k, lb, sc.prefix) && Matches(s.listeners[k], a, ports[i])
    {
      if Served(ports[i], ls, a) {
        var x :| 0 <= x < |ls| && Matches(ls[x], a, ports[i]);
        assert OwnOn(s, ls[x].id, lb, sc.prefix) && Matches(s.listeners[ls[x].id], a, ports[i]);
      } else {
        assert ports[i] in u;
        var j :| 0 <= j < |u| && u[j] == ports[i];
        assert Generable(a, u[j]);
      }
    }
  }

  /** The state between dropping and adding. */
  ghost predicate Dropped(s: State, t1: State, lb: string, a: Attrs, ls: seq<Listener>, ports: seq<ServicePort>) {
    && OnlyDropped(s, t1, lb, ListenerIds(Stale(ls, ports, a)))
    && forall k | k in ListenerIds(Stale(ls, ports, a)) :: k !in t1.listeners
  }

  /** What creating the listeners that were missing among `ls` in s has led to. */
  ghost predicate MissingAdded(was: View, now: View, ok: bool, c: ListenerAttrs, lb: string, name: string, s: State,
                               ls: seq<Listener>, ports: seq<ServicePort>, nodes: seq<Node>, limit: Option<nat>,
                               sc: Scope, ids: set<string>) {
    var a, toAdd := AttrsOf(c), Unserved(ports, ls, AttrsOf(c));
    && Went(was, now, sc, ids) && OnlyAdded(was.st, now.st, lb, SpecsFor(a, lb, name, toAdd))
    && AsksOnly(now.log, |was.log|, c, name, ports)
    && (ok ==> MissingGenerable(s, lb, sc.prefix, a, ports))
    && (ok && |ports| <= PAGE_LIMIT && PortsOK(a, ports) ==>
         AllMade(was.st, now.st, lb, name, a, toAdd, nodes, limit))
    && (PortsOK(a, ports) && AllOwn(s, lb, sc.prefix, ls) ==>
         && NeverClashes(now.log, |was.log|, sc.prefix)
         && (!ok && CanServe(c, ports) ==> now.faults > was.faults || ForeignClash(s, lb, sc.prefix, a, name, ports)))
    && (toAdd == [] ==> ok && now == was)
  }

  lemma MissingAddedOf(was: View, now: View, ok: bool, c: ListenerAttrs, lb: string, name: string, s: State,
                       ls: seq<Listener>, ports: seq<ServicePort>, nodes: seq<Node>, limit: Option<nat>, sc: Scope,
                       ids: set<string>)
    requires Current(s, sc, ls, lb) && Dropped(s, was.st, lb, AttrsOf(c), ls, ports) && lb in was.st.lbs
    requires Unserved(ports, ls, AttrsOf(c)) != []
    requires ListenersCreated(was, now, ok, c, lb, name, Unserved(ports, ls, AttrsOf(c)), nodes, limit, sc, ids)
    ensures MissingAdded(was, now, ok, c, lb, name, s, ls, ports, nodes, limit, sc, ids)
  {
    AddMissingLaws(now.log, |was.log|, s, was.st, c, lb, name, ls, ports, sc);
    UnservedMembers(ports, ls, AttrsOf(c));
    AsksForMore(now.log, |was.log|, c, name, Unserved(ports, ls, AttrsOf(c)), ports);
    if ok { GeneratedIfMissing(s, sc, lb, AttrsOf(c), ls, ports); }
  }

  /** Creates the listeners for the ports not served. */
  method AddMissing(client: Cloud, reader: Reader, c: ListenerAttrs, lb: string, name: string, toAdd: seq<ServicePort>,
                    nodes: seq<Node>, count: int, policy: TrafficPolicy, ghost s: State, ghost ls: seq<Listener>,
                    ghost ports: seq<ServicePort>, ghost limit: Option<nat>, ghost sc: Scope, ghost ids: set<string>)
    returns (ok: bool)
    requires client.Valid() && Ready(client.st, sc, ids, nodes) && reader.Fair()
    requires limit == LimitOf(policy, count) && 0 <= count && (limit.Some? ==> count <= |nodes|)
    requires sc.makes && InScope(sc, client.st, lb) && HasPrefix(name, sc.prefix)
    requires Current(s, sc, ls, lb) && Dropped(s, client.st, lb, AttrsOf(c), ls, ports)
    requires toAdd == Unserved(ports, ls, AttrsOf(c))
    modifies client, reader
    ensures client.Valid()
    ensures MissingAdded(old(client.Now()), client.Now(), ok, c, lb, name, s, ls, ports, nodes, limit, sc, ids)
  {
    if |toAdd| == 0 {
      GeneratedIfMissing(s, sc, lb, AttrsOf(c), ls, ports);
      return true;
    }
    ghost var was := client.Now();
    ok := CreateListenersAndBackends(client, reader, c, lb, name, toAdd, nodes, count, policy, limit, sc, ids);
    MissingAddedOf(was, client.Now(), ok, c, lb, name, s, ls, ports, nodes, limit, sc, ids);
  }

  /** What the one request for listeners means, given the state it was made in. */
  lemma AddMissingLaws(log: seq<Step>, from: nat, s: State, t1: State, c: ListenerAttrs, lb: string, name: string,
                       ls: seq<Listener>, ports: seq<ServicePort>, sc: Scope)
    requires Current(s, sc, ls, lb) && Dropped(s, t1, lb, AttrsOf(c), ls, ports) && lb in t1.lbs
    requires Unserved(ports, ls, AttrsOf(c)) != []
    requires OneCreation(log, from, t1, lb, SpecsFor(AttrsOf(c), lb, name, Unserved(ports, ls, AttrsOf(c))))
    ensures CanServe(c, ports) ==> CanGenerate(c, Unserved(ports, ls, AttrsOf(c)))
    ensures PortsOK(AttrsOf(c), ports) ==> PortsOK(AttrsOf(c), Unserved(ports, ls, AttrsOf(c)))
                                           && |Unserved(ports, ls, AttrsOf(c))| <= |ports|
    ensures PortsOK(AttrsOf(c), ports) && AllOwn(s, lb, sc.prefix, ls) ==> NeverClashes(log, from, sc.prefix)
    ensures PortsOK(AttrsOf(c), ports) && AllOwn(s, lb, sc.prefix, ls)
            && !ForeignClash(s, lb, sc.prefix, AttrsOf(c), name, ports) ==>
              Accepts(t1, CreateListeners(lb, SpecsFor(AttrsOf(c), lb, name, Unserved(ports, ls, AttrsOf(c)))))
  {
    var a := AttrsOf(c);
    if CanServe(c, ports) { CanServeUnserved(c, ports, ls); }
    if PortsOK(a, ports) {
      UnservedOK(ports, ls, a);
      if AllOwn(s, lb, sc.prefix, ls) {
        DeleteBeforeAdd(s, t1, sc, lb, name, a, ls, ports);
        if !ForeignClash(s, lb, sc.prefix, a, name, ports) { RefusedForOthers(s, t1, sc, lb, name, a, ls, ports); }
      }
    }
  }

  /** The kept listeners, still as read after others were added. */
  lemma KeptCurrent(s: State, t1: State, t2: State, sc: Scope, lb: string, a: Attrs, ls: seq<Listener>,
                    ports: seq<ServicePort>, specs: seq<ListenerSpec>)
    requires Current(s, sc, ls, lb) && OnlyDropped(s, t1, lb, ListenerIds(Stale(ls, ports, a)))
             && OnlyAdded(t1, t2, lb, specs)
    ensures Current(t2, sc, Kept(ls, ports, a), lb)
  {
    KeptPresent(s, t1, sc, lb, a, ls, ports);
  }

  lemma KeptPortsKnown(ls: seq<Listener>, ports: seq<ServicePort>, a: Attrs)
    requires PortsOK(a, ports)
    ensures PortsKnown(Kept(ls, ports, a), ports)
  {
    var kept := Kept(ls, ports, a);
    KeptMembers(ports, ls, a);
    forall i | 0 <= i < |kept| ensures NodePortFor(kept[i], ports).Some? {
      assert kept[i] in kept;
      var j :| 0 <= j < |ports| && Matches(kept[i], a, ports[j]);
      MatchKnowsPort(kept[i], a, ports, j);
    }
  }

  /** All phases change nothing outside the load balancer. */
  lemma PhasesOnlyOn(s: State, t1: State, t2: State, t3: State, sc: Scope, lb: string, a: Attrs, ls: seq<Listener>,
                     ports: seq<ServicePort>, specs: seq<ListenerSpec>)
    requires Current(s, sc, ls, lb) && OnlyDropped(s, t1, lb, ListenerIds(Stale(ls, ports, a)))
    requires OnlyAdded(t1, t2, lb, specs) && OnlyBackends(t2, t3, IdSet(Kept(ls, ports, a)), lb)
    ensures OnlyOn(s, t3, lb)
  {
    StaleOnlyOn(s, t1, sc, lb, a, ls, ports);
    KeptCurrent(s, t1, t2, sc, lb, a, ls, ports, specs);
    AddedOnlyOn(t1, t2, lb, specs);
    BackendsOnlyOn(t2, t3, IdSet(Kept(ls, ports, a)), lb);
    OnlyOnTransitive(s, t1, t2, lb);
    OnlyOnTransitive(s, t2, t3, lb);
  }

  lemma StaleOnlyOn(s: State, t1: State, sc: Scope, lb: string, a: Attrs, ls: seq<Listener>, ports: seq<ServicePort>)
    requires Current(s, sc, ls, lb)
    ensures forall k | k in ListenerIds(Stale(ls, ports, a)) :: OwnOn(s, k, lb, sc.prefix)
    ensures OnlyDropped(s, t1, lb, ListenerIds(Stale(ls, ports, a))) ==> OnlyOn(s, t1, lb)
  {
    var stale := Stale(ls, ports, a);
    KeptMembers(ports, ls, a);
    forall i | 0 <= i < |stale| ensures OwnOn(s, stale[i].id, lb, sc.prefix) {
      assert stale[i] in stale;
      var x :| 0 <= x < |ls| && ls[x] == stale[i];
      assert Mine(sc, s, ls[x].id);
    }
    if OnlyDropped(s, t1, lb, ListenerIds(stale)) { DroppedOnlyOn(s, t1, lb, ListenerIds(stale)); }
  }

  // ---------- How many there are ----------

  /** Listener l is on the port, and of the protocol, that service port p asks for. */
  predicate OnPort(l: Listener, a: Attrs, p: ServicePort) {
    l.spec.port == p.port && l.spec.protocol == ProtocolFor(a, p)
  }

  /** The service's listeners are on its own ports. */
  ghost predicate OwnPorts(s: State, lb: string, prefix: string, a: Attrs, ports: seq<ServicePort>) {
    forall k | OwnOn(s, k, lb, prefix) :: exists i | 0 <= i < |ports| :: OnPort(s.listeners[k], a, ports[i])
  }

  /** From s to t the service has got no further listener. */
  ghost predicate NoneMore(s: State, t: State, lb: string, prefix: string) {
    forall k | OwnOn(t, k, lb, prefix) :: OwnOn(s, k, lb, prefix)
  }

  /** Wherever a run broke off, the service has no listener that it did not have, or listeners on its ports only. */
  ghost predicate Tidy(s: State, t: State, lb: string, prefix: string, a: Attrs, ports: seq<ServicePort>) {
    NoneMore(s, t, lb, prefix) || OwnPorts(t, lb, prefix, a, ports)
  }

  /** On one load balancer, two listeners on one port would clash: so there are no more listeners than ports. */
  lemma OwnPortsCount(s: State, lb: string, prefix: string, a: Attrs, ports: seq<ServicePort>)
    requires s.Valid() && OwnPorts(s, lb, prefix, a, ports)
    ensures |OwnSet(s, lb, prefix)| <= |ports|
  {
    var own, all := OwnSet(s, lb, prefix), Below(|ports|);
    var pairs := set k: nat, i: nat | k in own && i in all && OnPort(s.listeners[k], a, ports[i]) :: (k, i);
    forall k | k in own ensures exists i :: i in all && (k, i) in pairs {
      assert OwnOn(s, k, lb, prefix);
      var i :| 0 <= i < |ports| && OnPort(s.listeners[k], a, ports[i]);
      assert i in all && (k, i) in pairs;
    }
    forall k, m, i | (k, i) in pairs && (m, i) in pairs ensures k == m {
      if k != m { assert Clash(s.listeners[k].spec, s.listeners[m].spec); }
    }
    InjectionCount(own, all, pairs);
  }

  /** So one page still holds the listeners of the service. */
  lemma TidyStaysSmall(s: State, t: State, lb: string, prefix: string, a: Attrs, ports: seq<ServicePort>)
    requires t.Valid() && OwnSmall(s, lb, prefix) && |ports| <= PAGE_LIMIT && Tidy(s, t, lb, prefix, a, ports)
    ensures OwnSmall(t, lb, prefix)
  {
    if NoneMore(s, t, lb, prefix) {
      SubsetCount(OwnSet(t, lb, prefix), OwnSet(s, lb, prefix));
    } else {
      OwnPortsCount(t, lb, prefix, a, ports);
    }
  }

  /** Once the stale listeners are gone, what is kept and what is added is on the ports. */
  lemma AddedOnPorts(s: State, t1: State, t2: State, sc: Scope, lb: string, name: string, a: Attrs, ls: seq<Listener>,
                     ports: seq<ServicePort>)
    requires Current(s, sc, ls, lb) && AllOwn(s, lb, sc.prefix, ls) && Dropped(s, t1, lb, a, ls, ports)
    requires OnlyAdded(t1, t2, lb, SpecsFor(a, lb, name, Unserved(ports, ls, a)))
    ensures OwnPorts(t2, lb, sc.prefix, a, ports)
  {
    var u := Unserved(ports, ls, a);
    UnservedMembers(ports, ls, a);
    forall k | OwnOn(t2, k, lb, sc.prefix) ensures exists i | 0 <= i < |ports| :: OnPort(t2.listeners[k], a, ports[i]) {
      if k in t1.listeners {
        assert OwnOn(s, k, lb, sc.prefix) && Present(ls, k);
        StaleIds(ls, ports, a, k);
        var x :| 0 <= x < |ls| && ls[x].id == k && Wanted(ls[x], ports, a);
        var i :| 0 <= i < |ports| && Matches(ls[x], a, ports[i]);
        assert OnPort(t2.listeners[k], a, ports[i]);
      } else {
        var j :| 0 <= j < |u| && t2.listeners[k].spec == SpecFor(a, lb, name, u[j]);
        assert u[j] in u && u[j] in ports;
        var i :| 0 <= i < |ports| && ports[i] == u[j];
        assert OnPort(t2.listeners[k], a, ports[i]);
      }
    }
  }

  /** Listeners without any there before are on the ports they were made for. */
  lemma FreshOnPorts(s: State, t: State, lb: string, prefix: string, name: string, a: Attrs, ports: seq<ServicePort>)
    requires NoOwn(s, lb, prefix) && OnlyAdded(s, t, lb, SpecsFor(a, lb, name, ports))
    ensures OwnPorts(t, lb, prefix, a, ports)
  {
    forall k | OwnOn(t, k, lb, prefix) ensures exists i | 0 <= i < |ports| :: OnPort(t.listeners[k], a, ports[i]) {
      assert !OwnOn(s, k, lb, prefix) && t.listeners[k].spec in SpecsFor(a, lb, name, ports);
      var i :| 0 <= i < |ports| && t.listeners[k].spec == SpecFor(a, lb, name, ports[i]);
      assert OnPort(t.listeners[k], a, ports[i]);
    }
  }

  /** It makes no difference what backends there are. */
  lemma TidyByBackends(s: State, t: State, u: State, ks: set<nat>, lb: string, prefix: string, a: Attrs,
                       ports: seq<ServicePort>)
    requires Tidy(s, t, lb, prefix, a, ports) && OnlyBackends(t, u, ks, lb)
    ensures Tidy(s, u, lb, prefix, a, ports)
  {
    forall k | OwnOn(u, k, lb, prefix)
      ensures OwnOn(t, k, lb, prefix) && u.listeners[k].spec == t.listeners[k].spec
    {
    }
    if !NoneMore(s, t, lb, prefix) {
      forall k | OwnOn(u, k, lb, prefix) ensures exists i | 0 <= i < |ports| :: OnPort(u.listeners[k], a, ports[i]) {
        var i :| 0 <= i < |ports| && OnPort(t.listeners[k], a, ports[i]);
        assert OnPort(u.listeners[k], a, ports[i]);
      }
    }
  }

  // ---------- The synchronisation ----------

  /** What dropping the stale listeners, which led to t1, and adding the missing ones has led to. */
  ghost predicate DroppedAndAdded(was: View, now: View, ok: bool, t1: State, c: ListenerAttrs, lb: string, name: string,
                                  ls: seq<Listener>, ports: seq<ServicePort>, nodes: seq<Node>, limit: Option<nat>,
                                  sc: Scope, ids: set<string>) {
    var s, a := was.st, AttrsOf(c);
    var toAdd := Unserved(ports, ls, a);
    && Went(was, now, sc, ids) && AsksOnly(now.log, |was.log|, c, name, ports)
    && OnlyDropped(s, t1, lb, ListenerIds(Stale(ls, ports, a)))
       && OnlyAdded(t1, now.st, lb, SpecsFor(a, lb, name, toAdd))
    && (ok ==> Dropped(s, t1, lb, a, ls, ports) && MissingGenerable(s, lb, sc.prefix, a, ports))
    && (AllOwn(s, lb, sc.prefix, ls) ==> Tidy(s, now.st, lb, sc.prefix, a, ports))
    && (ok && |ports| <= PAGE_LIMIT && PortsOK(a, ports) ==> AllMade(t1, now.st, lb, name, a, toAdd, nodes, limit))
    && (PortsOK(a, ports) && AllOwn(s, lb, sc.prefix, ls) ==>
         && NeverClashes(now.log, |was.log|, sc.prefix)
         && (!ok && CanServe(c, ports) ==> now.faults > was.faults || ForeignClash(s, lb, sc.prefix, a, name, ports)))
    && (Stale(ls, ports, a) == [] && toAdd == [] ==> ok && now == was)
  }

  lemma DroppedThenAdded(was: View, mid: View, now: View, done: bool, ok: bool, c: ListenerAttrs, lb: string,
                         name: string, ls: seq<Listener>, ports: seq<ServicePort>, nodes: seq<Node>, limit: Option<nat>,
                         sc: Scope, ids: set<string>)
    requires Current(was.st, sc, ls, lb)
    requires ListenersDropped(was, mid, done, lb, ListenerIds(Stale(ls, ports, AttrsOf(c))), sc, ids)
    requires if done then MissingAdded(mid, now, ok, c, lb, name, was.st, ls, ports, nodes, limit, sc, ids)
             else now == mid && !ok
    ensures DroppedAndAdded(was, now, ok, mid.st, c, lb, name, ls, ports, nodes, limit, sc, ids)
  {
    if done {
      WentOn(was, mid, now, sc, ids);
      JoinAsks(mid.log, now.log, |was.log|, c, name, ports);
      if AllOwn(was.st, lb, sc.prefix, ls) {
        AddedOnPorts(was.st, mid.st, now.st, sc, lb, name, AttrsOf(c), ls, ports);
      }
      if NeverClashes(now.log, |mid.log|, sc.prefix) { JoinNeverClashes(mid.log, now.log, |was.log|, sc.prefix); }
    }
  }

  /** Drops the stale listeners, then adds the missing ones. */
  method DropAndAdd(client: Cloud, reader: Reader, c: ListenerAttrs, lb: string, name: string,
                    toDelete: seq<nat>, toAdd: seq<ServicePort>, nodes: seq<Node>, count: int, policy: TrafficPolicy,
                    ghost ls: seq<Listener>, ghost ports: seq<ServicePort>, ghost limit: Option<nat>, ghost sc: Scope,
                    ghost ids: set<string>)
    returns (ok: bool, ghost t1: State)
    requires client.Valid() && Ready(client.st, sc, ids, nodes) && reader.Fair()
    requires limit == LimitOf(policy, count) && 0 <= count && (limit.Some? ==> count <= |nodes|)
    requires sc.makes && InScope(sc, client.st, lb) && HasPrefix(name, sc.prefix)
    requires Current(client.st, sc, ls, lb)
    requires toDelete == ListenerIds(Stale(ls, ports, AttrsOf(c))) && toAdd == Unserved(ports, ls, AttrsOf(c))
    modifies client, reader
    ensures client.Valid()
    ensures DroppedAndAdded(old(client.Now()), client.Now(), ok, t1, c, lb, name, ls, ports, nodes, limit, sc, ids)
  {
    ghost var was := client.Now();
    StaleOnlyOn(was.st, was.st, sc, lb, AttrsOf(c), ls, ports);
    var done := DropListeners(client, toDelete, lb, sc, ids);
    ghost var mid := client.Now();
    t1, ok := client.st, false;
    if done {
      ok := AddMissing(client, reader, c, lb, name, toAdd, nodes, count, policy, was.st, ls, ports, limit, sc, ids);
    }
    DroppedThenAdded(was, mid, client.Now(), done, ok, c, lb, name, ls, ports, nodes, limit, sc, ids);
  }

  /** What was achieved when the kept listeners have been brought in line as well. */
  lemma AllPhases(s: State, t1: State, t2: State, t3: State, sc: Scope, lb: string, name: string, a: Attrs,
                  ls: seq<Listener>, ports: seq<ServicePort>, nodes: seq<Node>, limit: Option<nat>)
    requires Current(s, sc, ls, lb) && HasPrefix(name, sc.prefix)
    requires Dropped(s, t1, lb, a, ls, ports)
    requires OnlyAdded(t1, t2, lb, SpecsFor(a, lb, name, Unserved(ports, ls, a)))
    requires OnlyBackends(t2, t3, IdSet(Kept(ls, ports, a)), lb)
    ensures OnlyOn(s, t3, lb)
    ensures && PortsOK(a, ports) && AllOwn(s, lb, sc.prefix, ls)
            && AllMade(t1, t2, lb, name, a, Unserved(ports, ls, a), nodes, limit)
            && AllDone(t3, Kept(ls, ports, a), nodes, limit, ports) ==>
              Converged(t3, lb, sc.prefix, a, ports, nodes, limit)
  {
    PhasesOnlyOn(s, t1, t2, t3, sc, lb, a, ls, ports, SpecsFor(a, lb, name, Unserved(ports, ls, a)));
    if && PortsOK(a, ports) && AllOwn(s, lb, sc.prefix, ls)
       && AllMade(t1, t2, lb, name, a, Unserved(ports, ls, a), nodes, limit)
       && AllDone(t3, Kept(ls, ports, a), nodes, limit, ports)
    {
      SyncConverges(s, t1, t2, t3, sc, lb, name, a, ls, ports, nodes, limit);
    }
  }

  /** What bringing the kept listeners in line has led to, where from s stale ones were dropped, which led to
      t1, and missing ones added. */
  ghost predicate KeptAdjusted(was: View, now: View, ok: bool, modified: bool, s: State, t1: State, lb: string,
                               name: string, a: Attrs, ls: seq<Listener>, ports: seq<ServicePort>, nodes: seq<Node>,
                               limit: Option<nat>, sc: Scope, ids: set<string>) {
    && Went(was, now, sc, ids) && BackendCalls(now.log, |was.log|) && OnlyOn(s, now.st, lb)
    && OnlyBackends(was.st, now.st, IdSet(Kept(ls, ports, a)), lb)
    && (ok && !modified ==> now.log == was.log && now.st == was.st)
    && (ok && PortsOK(a, ports) && AllOwn(s, lb, sc.prefix, ls)
        && AllMade(t1, was.st, lb, name, a, Unserved(ports, ls, a), nodes, limit) ==>
         Converged(now.st, lb, sc.prefix, a, ports, nodes, limit))
    && (!ok && PortsOK(a, ports) ==> now.faults > was.faults)
    && (AllFit(Kept(ls, ports, a), nodes, limit) ==> ok && !modified && now.faults == was.faults)
  }

  /** Brings the backends of the kept listeners in line, after others were dropped and added. */
  method AdjustKept(client: Cloud, reader: Reader, toKeep: seq<Listener>, nodes: seq<Node>, count: int,
                    policy: TrafficPolicy, ports: seq<ServicePort>, ghost lb: string, ghost name: string,
                    ghost a: Attrs, ghost ls: seq<Listener>, ghost s: State, ghost t1: State, ghost limit: Option<nat>,
                    ghost sc: Scope, ghost ids: set<string>)
    returns (ok: bool, modified: bool)
    requires client.Valid() && Ready(client.st, sc, ids, nodes) && reader.Fair()
    requires limit == LimitOf(policy, count) && 0 <= count && (limit.Some? ==> count <= |nodes|)
    requires Current(s, sc, ls, lb) && HasPrefix(name, sc.prefix) && toKeep == Kept(ls, ports, a)
    requires Dropped(s, t1, lb, a, ls, ports)
    requires OnlyAdded(t1, client.st, lb, SpecsFor(a, lb, name, Unserved(ports, ls, a)))
    modifies client, reader
    ensures client.Valid()
    ensures KeptAdjusted(old(client.Now()), client.Now(), ok, modified, s, t1, lb, name, a, ls, ports, nodes, limit,
                         sc, ids)
  {
    ghost var t2 := client.st;
    KeptCurrent(s, t1, t2, sc, lb, a, ls, ports, SpecsFor(a, lb, name, Unserved(ports, ls, a)));
    if PortsOK(a, ports) { KeptPortsKnown(ls, ports, a); }
    ok, modified := ReconcileAll(client, reader, toKeep, nodes, count, policy, ports, lb, limit, sc, ids);
    AllPhases(s, t1, t2, client.st, sc, lb, name, a, ls, ports, nodes, limit);
  }

  lemma BackendCallsClashNot(log: seq<Step>, from: nat, prefix: string)
    requires BackendCalls(log, from)
    ensures NeverClashes(log, from, prefix)
  {
  }

  /** What replacing the listeners `ls` by those the ports ask for has led to. */
  ghost predicate ListenersReplaced(was: View, now: View, ok: bool, modified: bool, c: ListenerAttrs, lb: string,
                                    name: string, ls: seq<Listener>, ports: seq<ServicePort>, nodes: seq<Node>,
                                    limit: Option<nat>, sc: Scope, ids: set<string>) {
    var s, t, a := was.st, now.st, AttrsOf(c);
    && Went(was, now, sc, ids) && OnlyOn(s, t, lb) && AsksOnly(now.log, |was.log|, c, name, ports)
    && (ok && !modified ==> now.log == was.log && t == s)
    && (ok ==> MissingGenerable(s, lb, sc.prefix, a, ports))
    && (AllOwn(s, lb, sc.prefix, ls) ==> Tidy(s, t, lb, sc.prefix, a, ports))
    && (PortsOK(a, ports) && AllOwn(s, lb, sc.prefix, ls) ==>
         && NeverClashes(now.log, |was.log|, sc.prefix)
         && (ok && |ports| <= PAGE_LIMIT ==> Converged(t, lb, sc.prefix, a, ports, nodes, limit))
         && (!ok && CanServe(c, ports) ==> now.faults > was.faults || ForeignClash(s, lb, sc.prefix, a, name, ports)))
    && (Converged(s, lb, sc.prefix, a, ports, nodes, limit) && AllOwn(s, lb, sc.prefix, ls) && nodes != [] ==>
         ok && !modified && now == was)
  }

  /** Dropping and adding failed. */
  lemma NotReplaced(was: View, now: View, t1: State, modified: bool, c: ListenerAttrs, lb: string, name: string,
                    ls: seq<Listener>, ports: seq<ServicePort>, nodes: seq<Node>, limit: Option<nat>, sc: Scope,
                    ids: set<string>)
    requires Current(was.st, sc, ls, lb) && limit != Some(0)
    requires DroppedAndAdded(was, now, false, t1, c, lb, name, ls, ports, nodes, limit, sc, ids)
    ensures ListenersReplaced(was, now, false, modified, c, lb, name, ls, ports, nodes, limit, sc, ids)
  {
    var s, a := was.st, AttrsOf(c);
    StaleOnlyOn(s, t1, sc, lb, a, ls, ports);
    AddedOnlyOn(t1, now.st, lb, SpecsFor(a, lb, name, Unserved(ports, ls, a)));
    OnlyOnTransitive(s, t1, now.st, lb);
    if Converged(s, lb, sc.prefix, a, ports, nodes, limit) && AllOwn(s, lb, sc.prefix, ls) && nodes != [] {
      ConvergedIsAtRest(s, sc, lb, a, ls, ports, nodes, limit);
    }
  }

  /** Calls on backends add nothing to be said of listeners asked for. */
  lemma AdjustedCalls(was: View, mid: View, now: View, c: ListenerAttrs, name: string, ports: seq<ServicePort>,
                      sc: Scope, ids: set<string>)
    requires Went(was, mid, sc, ids) && Went(mid, now, sc, ids) && BackendCalls(now.log, |mid.log|)
    requires AsksOnly(mid.log, |was.log|, c, name, ports)
    ensures Went(was, now, sc, ids) && AsksOnly(now.log, |was.log|, c, name, ports)
    ensures NeverClashes(mid.log, |was.log|, sc.prefix) ==> NeverClashes(now.log, |was.log|, sc.prefix)
  {
    WentOn(was, mid, now, sc, ids);
    BackendCallsClashNot(now.log, |mid.log|, sc.prefix);
    JoinNeverClashes(mid.log, now.log, |was.log|, sc.prefix);
    JoinAsks(mid.log, now.log, |was.log|, c, name, ports);
  }

  lemma AddedThenAdjusted(was: View, mid: View, now: View, t1: State, ok: bool, changed: bool, modified: bool,
                          c: ListenerAttrs, lb: string, name: string, ls: seq<Listener>, ports: seq<ServicePort>,
                          nodes: seq<Node>, limit: Option<nat>, sc: Scope, ids: set<string>)
    requires Current(was.st, sc, ls, lb) && limit != Some(0)
    requires DroppedAndAdded(was, mid, true, t1, c, lb, name, ls, ports, nodes, limit, sc, ids)
    requires KeptAdjusted(mid, now, ok, changed, was.st, t1, lb, name, AttrsOf(c), ls, ports, nodes, limit, sc, ids)
    requires modified <==> Stale(ls, ports, AttrsOf(c)) != [] || Unserved(ports, ls, AttrsOf(c)) != [] || changed
    ensures ListenersReplaced(was, now, ok, modified, c, lb, name, ls, ports, nodes, limit, sc, ids)
  {
    var s, a := was.st, AttrsOf(c);
    AdjustedCalls(was, mid, now, c, name, ports, sc, ids);
    if AllOwn(s, lb, sc.prefix, ls) {
      TidyByBackends(s, mid.st, now.st, IdSet(Kept(ls, ports, a)), lb, sc.prefix, a, ports);
    }
    if Converged(s, lb, sc.prefix, a, ports, nodes, limit) && AllOwn(s, lb, sc.prefix, ls) && nodes != [] {
      ConvergedIsAtRest(s, sc, lb, a, ls, ports, nodes, limit);
    }
  }

  /** Deletes, adds and adjusts until the listeners given are those the ports ask for. */
  method ReplaceListeners(client: Cloud, reader: Reader, c: ListenerAttrs, lb: string, name: string,
                          listeners: seq<Listener>, ports: seq<ServicePort>, nodes: seq<Node>, count: int,
                          policy: TrafficPolicy, ghost limit: Option<nat>, ghost sc: Scope, ghost ids: set<string>)
    returns (ok: bool, modified: bool)
    requires client.Valid() && Ready(client.st, sc, ids, nodes) && reader.Fair()
    requires limit == LimitOf(policy, count) && 0 <= count && (limit.Some? ==> count <= |nodes|)
    requires sc.makes && InScope(sc, client.st, lb) && HasPrefix(name, sc.prefix)
    requires Current(client.st, sc, listeners, lb)
    modifies client, reader
    ensures client.Valid()
    ensures ListenersReplaced(old(client.Now()), client.Now(), ok, modified, c, lb, name, listeners, ports, nodes,
                              limit, sc, ids)
  {
    ghost var was, a := client.Now(), AttrsOf(c);
    var toDelete, toAdd, toKeep := DiffListeners(listeners, c, ports);
    ghost var t1;
    ok, t1 := DropAndAdd(client, reader, c, lb, name, toDelete, toAdd, nodes, count, policy, listeners, ports, limit,
                         sc, ids);
    ghost var mid := client.Now();
    modified := |toDelete| > 0 || |toAdd| > 0;
    if !ok {
      NotReplaced(was, mid, t1, modified, c, lb, name, listeners, ports, nodes, limit, sc, ids);
      return;
    }
    var changed;
    ok, changed :=
      AdjustKept(client, reader, toKeep, nodes, count, policy, ports, lb, name, a, listeners, was.st, t1, limit, sc,
                 ids);
    modified := modified || changed;
    AddedThenAdjusted(was, mid, client.Now(), t1, ok, changed, modified, c, lb, name, listeners, ports, nodes, limit,
                      sc, ids);
  }

  // ---------- A service without listeners ----------

  lemma NothingServed(ports: seq<ServicePort>, a: Attrs)
    ensures Unserved(ports, [], a) == ports && Stale([], ports, a) == [] && Kept([], ports, a) == []
  {
    PickAll(ports, NotServedBy([], a));
  }

  ghost predicate NoOwn(s: State, lb: string, prefix: string) {
    forall k :: !OwnOn(s, k, lb, prefix)
  }

  lemma FreshConverges(s: State, t: State, a: Attrs, lb: string, name: string, ports: seq<ServicePort>,
                       nodes: seq<Node>, limit: Option<nat>, sc: Scope)
    requires NoOwn(s, lb, sc.prefix) && HasPrefix(name, sc.prefix)
    requires OnlyAdded(s, t, lb, SpecsFor(a, lb, name, ports)) && AllMade(s, t, lb, name, a, ports, nodes, limit)
    ensures Converged(t, lb, sc.prefix, a, ports, nodes, limit)
  {
    forall i | 0 <= i < |ports| ensures PortServed(t, lb, sc.prefix, a, ports[i], nodes, limit) {
      assert NewlyServed(s, t, lb, name, a, ports[i], nodes, limit);
      var k :| k in t.listeners && k !in s.listeners && t.listeners[k].spec.lb == lb && t.listeners[k].spec.name == name
               && FitFor(t.listeners[k], a, ports[i], nodes, limit);
      assert OwnOn(t, k, lb, sc.prefix);
    }
    forall k | OwnOn(t, k, lb, sc.prefix) ensures ListenerWanted(t.listeners[k], a, ports, nodes, limit) {
      assert !OwnOn(s, k, lb, sc.prefix);
    }
  }

  /** Making all listeners anew is the case of a synchronisation that finds none. */
  lemma FreshLaws(log: seq<Step>, from: nat, s: State, t: State, c: ListenerAttrs, lb: string, name: string,
                  ports: seq<ServicePort>, nodes: seq<Node>, limit: Option<nat>, sc: Scope)
    requires NoOwn(s, lb, sc.prefix) && lb in s.lbs && HasPrefix(name, sc.prefix)
    requires OneCreation(log, from, s, lb, SpecsFor(AttrsOf(c), lb, name, ports))
    requires OnlyAdded(s, t, lb, SpecsFor(AttrsOf(c), lb, name, ports))
    ensures OnlyOn(s, t, lb)
    ensures PortsOK(AttrsOf(c), ports) && AllMade(s, t, lb, name, AttrsOf(c), ports, nodes, limit) ==>
              Converged(t, lb, sc.prefix, AttrsOf(c), ports, nodes, limit)
    ensures PortsOK(AttrsOf(c), ports) && ports != [] ==> NeverClashes(log, from, sc.prefix)
    ensures PortsOK(AttrsOf(c), ports) && ports != [] && !ForeignClash(s, lb, sc.prefix, AttrsOf(c), name, ports) ==>
              Accepts(s, CreateListeners(lb, SpecsFor(AttrsOf(c), lb, name, ports)))
    ensures ports != [] ==> !Converged(s, lb, sc.prefix, AttrsOf(c), ports, nodes, limit)
  {
    var a := AttrsOf(c);
    NothingServed(ports, a);
    AddedOnlyOn(s, t, lb, SpecsFor(a, lb, name, ports));
    if ports != [] {
      AddMissingLaws(log, from, s, s, c, lb, name, [], ports, sc);
      assert !PortServed(s, lb, sc.prefix, a, ports[0], nodes, limit);
    }
    if PortsOK(a, ports) && AllMade(s, t, lb, name, a, ports, nodes, limit) {
      FreshConverges(s, t, a, lb, name, ports, nodes, limit, sc);
    }
  }

  /** What making all listeners of a service has led to. */
  ghost predicate ListenersMade(was: View, now: View, ok: bool, c: ListenerAttrs, lb: string, name: string,
                                ports: seq<ServicePort>, nodes: seq<Node>, limit: Option<nat>, sc: Scope,
                                ids: set<string>) {
    var s, t, a := was.st, now.st, AttrsOf(c);
    && Went(was, now, sc, ids) && OnlyOn(s, t, lb) && Tidy(s, t, lb, sc.prefix, a, ports)
    && AsksOnly(now.log, |was.log|, c, name, ports)
    && (ok ==> CanServe(c, ports))
    && (ok && |ports| <= PAGE_LIMIT && PortsOK(a, ports) ==> Converged(t, lb, sc.prefix, a, ports, nodes, limit))
    && (ports != [] ==> !Converged(s, lb, sc.prefix, a, ports, nodes, limit))
    && (PortsOK(a, ports) && ports != [] ==>
         && NeverClashes(now.log, |was.log|, sc.prefix)
         && (!ok && CanServe(c, ports) ==> now.faults > was.faults || ForeignClash(s, lb, sc.prefix, a, name, ports)))
  }

  lemma CreatedIsMade(was: View, now: View, ok: bool, c: ListenerAttrs, lb: string, name: string,
                      ports: seq<ServicePort>, nodes: seq<Node>, limit: Option<nat>, sc: Scope, ids: set<string>)
    requires NoOwn(was.st, lb, sc.prefix) && lb in was.st.lbs && HasPrefix(name, sc.prefix)
    requires ListenersCreated(was, now, ok, c, lb, name, ports, nodes, limit, sc, ids)
    ensures ListenersMade(was, now, ok, c, lb, name, ports, nodes, limit, sc, ids)
  {
    FreshOnPorts(was.st, now.st, lb, sc.prefix, name, AttrsOf(c), ports);
    FreshLaws(now.log, |was.log|, was.st, now.st, c, lb, name, ports, nodes, limit, sc);
  }

  /** Without listeners of its own, the service gets all of them made. */
  method MakeListeners(client: Cloud, reader: Reader, c: ListenerAttrs, lb: string, name: string,
                       ports: seq<ServicePort>, nodes: seq<Node>, count: int, policy: TrafficPolicy,
                       ghost limit: Option<nat>, ghost sc: Scope, ghost ids: set<string>)
    returns (ok: bool)
    requires client.Valid() && Ready(client.st, sc, ids, nodes) && reader.Fair()
    requires limit == LimitOf(policy, count) && 0 <= count && (limit.Some? ==> count <= |nodes|)
    requires sc.makes && InScope(sc, client.st, lb) && HasPrefix(name, sc.prefix) && NoOwn(client.st, lb, sc.prefix)
    modifies client, reader
    ensures client.Valid()
    ensures ListenersMade(old(client.Now()), client.Now(), ok, c, lb, name, ports, nodes, limit, sc, ids)
  {
    ghost var was := client.Now();
    ok := CreateListenersAndBackends(client, reader, c, lb, name, ports, nodes, count, policy, limit, sc, ids);
    CreatedIsMade(was, client.Now(), ok, c, lb, name, ports, nodes, limit, sc, ids);
  }

  // ---------- The whole ----------

  /** What the guarantees of a synchronisation rest on, beside the invariant: the transports are kept,
      and pages of 100 hold the ports and the own listeners. */
  ghost predicate WithinLimits(s: State, lb: string, prefix: string, a: Attrs, ports: seq<ServicePort>) {
    PortsOK(a, ports) && 0 < |ports| <= PAGE_LIMIT && OwnSmall(s, lb, prefix)
  }

  /** What synchronising the listeners of load balancer `lb` with the service ports and the nodes has led to. */
  ghost predicate ListenersSynced(was: View, now: View, ok: bool, modified: bool, conf: Config, lb: string,
                                  ports: seq<ServicePort>, nodes: seq<Node>, limit: Option<nat>, sc: Scope,
                                  ids: set<string>) {
    var s, t, a := was.st, now.st, AttrsOf(conf.listener);
    && Went(was, now, sc, ids) && OnlyOn(s, t, lb)
    && AsksOnly(now.log, |was.log|, conf.listener, conf.listenerName, ports)
    && (ok && !modified ==> now.log == was.log && t == s)
    && (ok ==> MissingGenerable(s, lb, sc.prefix, a, ports))
    && (OwnSmall(s, lb, sc.prefix) ==> Tidy(s, t, lb, sc.prefix, a, ports))
    && (WithinLimits(s, lb, sc.prefix, a, ports) ==>
         && NeverClashes(now.log, |was.log|, sc.prefix)
         && (ok ==> Converged(t, lb, sc.prefix, a, ports, nodes, limit))
         && (!ok && CanServe(conf.listener, ports) ==>
              now.faults > was.faults || ForeignClash(s, lb, sc.prefix, a, conf.listenerName, ports))
         && (nodes != [] && Converged(s, lb, sc.prefix, a, ports, nodes, limit) ==> !modified && Quiet(was, now, ok)))
  }

  /** The listeners could not be read. */
  lemma UnreadIsSynced(was: View, now: View, conf: Config, lb: string, ports: seq<ServicePort>, nodes: seq<Node>,
                       limit: Option<nat>, sc: Scope, ids: set<string>)
    requires Inv(was.st, sc.prefix, ids) && now.st == was.st && now.log == was.log && now.faults > was.faults
    ensures ListenersSynced(was, now, false, false, conf, lb, ports, nodes, limit, sc, ids)
  {
  }

  /** There were none. */
  lemma MadeIsSynced(was: View, now: View, ok: bool, conf: Config, lb: string, ports: seq<ServicePort>,
                     nodes: seq<Node>, limit: Option<nat>, sc: Scope, ids: set<string>)
    requires ListenersMade(was, now, ok, conf.listener, lb, conf.listenerName, ports, nodes, limit, sc, ids)
    ensures ListenersSynced(was, now, ok, true, conf, lb, ports, nodes, limit, sc, ids)
  {
  }

  /** The listeners `ls` were read, and replaced where they did not fit. */
  lemma ReplacedIsSynced(was: View, mid: View, now: View, ok: bool, modified: bool, conf: Config, lb: string,
                         ls: seq<Listener>, ports: seq<ServicePort>, nodes: seq<Node>, limit: Option<nat>, sc: Scope,
                         ids: set<string>)
    requires mid == was.(faults := mid.faults) && was.faults <= mid.faults
    requires OwnSmall(was.st, lb, sc.prefix) ==> AllOwn(was.st, lb, sc.prefix, ls)
    requires ListenersReplaced(mid, now, ok, modified, conf.listener, lb, conf.listenerName, ls, ports, nodes, limit,
                               sc, ids)
    ensures ListenersSynced(was, now, ok, modified, conf, lb, ports, nodes, limit, sc, ids)
  {
  }

  /** Brings the listeners of the service on load balancer `lb` in line with the service ports and the nodes. */
  method SyncListeners(client: Cloud, reader: Reader, conf: Config, lb: string, present: seq<Listener>,
                       ports: seq<ServicePort>, nodes: seq<Node>, policy: TrafficPolicy, ghost limit: Option<nat>,
                       ghost sc: Scope, ghost ids: set<string>)
    returns (ok: bool, modified: bool)
    requires client.Valid() && Ready(client.st, sc, ids, nodes) && reader.Fair()
    requires limit == LimitOf(policy, conf.backendCountResult) && 0 <= conf.backendCountResult
    requires limit.Some? ==> conf.backendCountResult <= |nodes|
    requires sc.makes && InScope(sc, client.st, lb) && conf.listenerName == sc.prefix
    requires ListsListeners(client.st, lb, present)
    modifies client, reader
    ensures client.Valid()
    ensures ListenersSynced(old(client.Now()), client.Now(), ok, modified, conf, lb, ports, nodes, limit, sc, ids)
  {
    ghost var was := client.Now();
    var listenerIDs := FilterListeners(present, conf.listenerName);
    FilterFindsOwn(client.st, lb, sc.prefix, present);
    if |listenerIDs| <= 0 {
      ok := MakeListeners(client, reader, conf.listener, lb, conf.listenerName, ports, nodes, conf.backendCountResult,
                          policy, limit, sc, ids);
      modified := true;
      MadeIsSynced(was, client.Now(), ok, conf, lb, ports, nodes, limit, sc, ids);
    } else {
      var listeners := client.GetListeners(listenerIDs);
      if listeners.Err? {
        UnreadIsSynced(was, client.Now(), conf, lb, ports, nodes, limit, sc, ids);
        return false, false;
      }
      ghost var mid := client.Now();
      FetchedCurrent(client.st, sc, lb, listenerIDs, listeners.value);
      ok, modified := ReplaceListeners(client, reader, conf.listener, lb, conf.listenerName, listeners.value, ports,
                                       nodes, conf.backendCountResult, policy, limit, sc, ids);
      ReplacedIsSynced(was, mid, client.Now(), ok, modified, conf, lb, listeners.value, ports, nodes, limit, sc, ids);
    }
  }
}
