/** The load balancer itself: which one a configuration names, its attributes and EIPs, and
    applying what is pending on it (pkg/qingcloud/qingcloud.go). */
module Balancers {
  import opened Wrappers
  import opened Apis
  import opened CloudModel
  import opened ServiceConfig
  import opened Discipline
  import opened Eips

  // ---------- Which one ----------

  /** No two load balancers answer to the configuration. */
  ghost predicate Unambiguous(s: State, conf: Config) {
    forall id, other {:trigger Names(conf, s, id), Names(conf, s, other)} |
      Names(conf, s, id) && Names(conf, s, other) :: id == other
  }

  // ---------- Attributes ----------

  ghost predicate AttrSettled(conf: Config, lb: LB) {
    && (conf.nodeCount.Some? ==> lb.nodeCount == conf.nodeCount.value)
    && (conf.internalIP.Some? ==> conf.internalIP.value in lb.privateIPs)
  }

  /** The private addresses of a load balancer once they are as the configuration wants them. */
  function SettledIPs(conf: Config, lb: LB): seq<string> {
    if conf.internalIP.Some? && conf.internalIP.value !in lb.privateIPs then [conf.internalIP.value] else lb.privateIPs
  }

  /** The load balancer once its attributes are as the configuration wants them. */
  function SettledLB(conf: Config, lb: LB): LB {
    lb.(nodeCount := if conf.nodeCount.Some? then conf.nodeCount.value else lb.nodeCount,
        privateIPs := SettledIPs(conf, lb))
  }

  predicate SameAttrs(a: LB, b: LB) {
    a.nodeCount == b.nodeCount && a.privateIPs == b.privateIPs
  }

  /** Settling changes nothing exactly when the attributes are settled, and leaves them so. */
  lemma SettledLBIff(conf: Config, lb: LB)
    ensures SettledLB(conf, lb) == lb <==> AttrSettled(conf, lb)
    ensures AttrSettled(conf, SettledLB(conf, lb))
  {
  }

  /** The attributes to change, if any. */
  method NeedUpdateAttr(conf: Config, spec: LBSpec) returns (update: bool, count: Option<int>, ip: Option<string>)
    ensures count == if conf.nodeCount.Some? && conf.nodeCount.value != spec.nodeCount then conf.nodeCount else None
    ensures ip == if conf.internalIP.Some? && conf.internalIP.value !in spec.privateIPs then conf.internalIP else None
    ensures update <==> count.Some? || ip.Some?
  {
    update, count, ip := false, None, None;
    if conf.nodeCount.Some? && conf.nodeCount.value != spec.nodeCount {
      update, count := true, conf.nodeCount;
    }
    if conf.internalIP.Some? {
      var found := false;
      for i := 0 to |spec.privateIPs|
        invariant !found
        invariant conf.internalIP.value !in spec.privateIPs[..i]
      {
        assert spec.privateIPs[..i + 1] == spec.privateIPs[..i] + [spec.privateIPs[i]];
        if spec.privateIPs[i] == conf.internalIP.value {
          found := true;
          break;
        }
      }
      assert spec.privateIPs[..|spec.privateIPs|] == spec.privateIPs;
      if !found {
        update, ip := true, conf.internalIP;
      }
    }
  }

  /** Of load balancer `id` only attributes, EIPs and the pending mark may have changed; of the rest only the pool. */
  ghost predicate OnlyBalancer(s: State, t: State, id: string) {
    && t.listeners == s.listeners && t.lbs.Keys == s.lbs.Keys
    && (forall x | x in s.lbs && x != id :: t.lbs[x] == s.lbs[x])
    && (id in s.lbs ==> t.lbs[id].name == s.lbs[id].name && t.lbs[id].listed == s.lbs[id].listed)
  }

  /** What settling the attributes of load balancer `id` has led to: no change when they were settled. */
  ghost predicate AttrUpdated(was: View, now: View, ok: bool, modified: bool, id: string, conf: Config,
                              ids: set<string>) {
    var s, t := was.st, now.st;
    && Went(was, now, EipFree(SettlingScope(conf)), ids)
    && OnlyBalancer(s, t, id) && id in s.lbs && t.lbs[id].eips == s.lbs[id].eips && t.eips == s.eips
    && (modified <==> !AttrSettled(conf, s.lbs[id]))
    && (SameAttrs(t.lbs[id], SettledLB(conf, s.lbs[id])) || (!ok && SameAttrs(t.lbs[id], s.lbs[id])))
    && (if ok then AttrSettled(conf, t.lbs[id]) else now.faults > was.faults)
    && (!modified ==> ok && now == was)
  }

  /** The one call that changes attributes. */
  lemma AttrsModified(was: View, now: View, ok: bool, id: string, count: Option<int>, ip: Option<string>, conf: Config,
                      ids: set<string>)
    requires now.log == was.log + [Step(ModifyLB(id, count, ip), was.st, now.st)]
    requires Outcome(was.st, ModifyLB(id, count, ip), ok, now.st)
    requires now.faults >= was.faults && (ok || now.faults > was.faults)
    requires Inv(was.st, conf.listenerName, ids) && now.st.Valid() && Names(conf, was.st, id)
    requires count == if conf.nodeCount.Some? && conf.nodeCount.value != was.st.lbs[id].nodeCount then conf.nodeCount
                      else None
    requires ip == if conf.internalIP.Some? && conf.internalIP.value !in was.st.lbs[id].privateIPs then conf.internalIP
                   else None
    requires count.Some? || ip.Some?
    ensures AttrUpdated(was, now, ok, true, id, conf, ids)
  {
    NamedIsInScope(conf, was.st, id);
    InvByListeners(was.st, now.st, conf.listenerName, ids);
  }

  method SettleAttr(client: Cloud, conf: Config, id: string, spec: LBSpec, ghost ids: set<string>)
    returns (ok: bool, modified: bool)
    requires client.Valid() && Inv(client.st, conf.listenerName, ids)
    requires SpecOf(client.st, id, spec) && Names(conf, client.st, id)
    modifies client
    ensures client.Valid() && AttrUpdated(old(client.Now()), client.Now(), ok, modified, id, conf, ids)
  {
    ok := true;
    var count, ip;
    modified, count, ip := NeedUpdateAttr(conf, spec);
    if modified {
      ghost var was := client.Now();
      ok := client.Invoke(ModifyLB(id, count, ip));
      AttrsModified(was, client.Now(), ok, id, count, ip, conf, ids);
    }
  }

  // ---------- Attributes and EIPs ----------

  lemma EipsLeaveNames(conf: Config, s: State, t: State, id: string)
    requires OnlyBalancer(s, t, id)
    ensures forall x :: Names(conf, t, x) <==> Names(conf, s, x)
    ensures Unambiguous(s, conf) <==> Unambiguous(t, conf)
  {
  }

  /** What EIPs can be had does not depend on attributes. */
  lemma AttrLeavesEips(conf: Config, s: State, t: State, id: string)
    requires OnlyBalancer(s, t, id) && t.eips == s.eips && id in s.lbs && t.lbs[id].eips == s.lbs[id].eips
    ensures EipsObtainable(conf, s, id) <==> EipsObtainable(conf, t, id)
    ensures MayAllocate(conf, s) <==> MayAllocate(conf, t)
  {
    forall e ensures Free(s, e) <==> Free(t, e) ensures Offered(s, e) <==> Offered(t, e) {
      assert forall x | x in t.lbs :: t.lbs[x].eips == s.lbs[x].eips;
    }
  }

  /** How far settling has come, wherever it broke off: the attributes go first, and EIPs that are as the
      configuration wants them are left alone. */
  ghost predicate HalfSettled(conf: Config, was: LB, now: LB) {
    && SameName(now, was)
    && (SameAttrs(now, SettledLB(conf, was)) || (SameAttrs(now, was) && now.eips == was.eips))
    && (EipSettled(conf, was.eips) && SourceOK(conf) ==> now.eips == was.eips)
  }

  /** What settling attributes and EIPs has led to. The status read last is the first one when no
      EIP was changed. */
  ghost predicate Settlement(was: View, now: View, ok: bool, modified: bool, first: LBStatus, last: LBStatus,
                             conf: Config, ids: set<string>) {
    var s, t, id := was.st, now.st, first.id;
    && Went(was, now, SettlingScope(conf), ids) && Names(conf, s, id)
    && OnlyBalancer(s, t, id) && NeverBare(now.log, |was.log|, id, s.lbs[id].eips, t.lbs[id].eips)
    && PoolKept(s, t) && HalfSettled(conf, s.lbs[id], t.lbs[id])
    && Allocations(now.log, |was.log|, conf.reuseLBID == "" && s.lbs[id].eips == {} && MayAllocate(conf, s))
    && (ok ==> EipsObtainable(conf, s, id) && NewHeld(s, t, id))
    && (ok && conf.reuseLBID == "" ==> EipGoal(conf, s.lbs[id].eips, t.lbs[id].eips))
    && (ok && EipSettled(conf, s.lbs[id].eips) && SourceOK(conf) ==> last == first)
    && (ok ==>
         && AttrSettled(conf, t.lbs[id]) && EipSettled(conf, t.lbs[id].eips)
         && SameAttrs(t.lbs[id], SettledLB(conf, s.lbs[id]))
         && Names(conf, t, last.id) && ListsListeners(t, last.id, last.listeners)
         && (modified <==> !AttrSettled(conf, s.lbs[id]))
         && (!modified ==> t.lbs[id].pending == s.lbs[id].pending)
         && (VIPsOf(t, last.id, last.vip) || (last == first && modified && EipSettled(conf, s.lbs[id].eips))))
    && (AttrSettled(conf, s.lbs[id]) && EipSettled(conf, s.lbs[id].eips) && SourceOK(conf) ==>
         ok && !modified && now == was && last == first)
    && (!ok && SourceOK(conf) && EipsObtainable(conf, s, id) ==> now.faults > was.faults)
  }

  /** The calls of the two steps are those of both. */
  lemma AttrThenEipsCalls(was: View, mid: View, now: View, ok: bool, done: bool, modified: bool, first: LBStatus,
                          last: LBStatus, conf: Config, ids: set<string>, origin: State)
    requires Chained(origin, was.log, was.st) && Chained(origin, mid.log, mid.st)
    requires AttrUpdated(was, mid, done, modified, first.id, conf, ids)
             && EipsUpdated(mid, now, ok, first, last, conf, ids)
    ensures Went(was, now, SettlingScope(conf), ids)
    ensures NeverBare(now.log, |was.log|, first.id, was.st.lbs[first.id].eips, now.st.lbs[first.id].eips)
    ensures Allocations(now.log, |was.log|,
                        conf.reuseLBID == "" && was.st.lbs[first.id].eips == {} && MayAllocate(conf, mid.st))
  {
    var small, id := EipFree(SettlingScope(conf)), first.id;
    NeverAllocates(small, ids, mid.log, |was.log|);
    JoinAllocations(mid.log, now.log, |was.log|, false,
                    conf.reuseLBID == "" && was.st.lbs[id].eips == {} && MayAllocate(conf, mid.st));
    RunKeepsEips(small, ids, origin, was.log, was.st, mid.log, mid.st, id);
    WiderDisciplined(small, SettlingScope(conf), ids, mid.log, |was.log|);
    WentOn(was, mid, now, SettlingScope(conf), ids);
    JoinNeverBare(|was.log|, mid.log, now.log, id, was.st.lbs[id].eips, now.st.lbs[id].eips);
  }

  /** When the attributes cannot be changed, the EIPs are not looked at. */
  lemma AttrFailed(was: View, now: View, modified: bool, status: LBStatus, conf: Config, ids: set<string>,
                   origin: State)
    requires Chained(origin, was.log, was.st) && Chained(origin, now.log, now.st) && Names(conf, was.st, status.id)
    requires AttrUpdated(was, now, false, modified, status.id, conf, ids)
    ensures Settlement(was, now, false, modified, status, status, conf, ids)
  {
    var small := EipFree(SettlingScope(conf));
    RunKeepsEips(small, ids, origin, was.log, was.st, now.log, now.st, status.id);
    NeverAllocates(small, ids, now.log, |was.log|);
    WiderDisciplined(small, SettlingScope(conf), ids, now.log, |was.log|);
  }

  lemma AttrThenEips(was: View, mid: View, now: View, ok: bool, modified: bool, first: LBStatus, last: LBStatus,
                     conf: Config, ids: set<string>, origin: State)
    requires Chained(origin, was.log, was.st) && Chained(origin, mid.log, mid.st) && Names(conf, was.st, first.id)
    requires AttrUpdated(was, mid, true, modified, first.id, conf, ids)
             && EipsUpdated(mid, now, ok, first, last, conf, ids)
    requires VIPsOf(was.st, first.id, first.vip)
    ensures Settlement(was, now, ok, modified, first, last, conf, ids)
  {
    AttrThenEipsCalls(was, mid, now, ok, true, modified, first, last, conf, ids, origin);
    AttrLeavesEips(conf, was.st, mid.st, first.id);
    if ok && conf.reuseLBID == "" {
      var eips := now.st.lbs[first.id].eips;
      GoalSettles(conf, mid.st.lbs[first.id].eips, eips, eips);
    }
  }

  /** Attributes first, then EIPs, after which the status of `lb` may have been read anew. */
  method SettleBalancer(client: Cloud, conf: Config, lb: LoadBalancer, ghost ids: set<string>)
    returns (ok: bool, modified: bool)
    requires client.Valid() && Inv(client.st, conf.listenerName, ids)
    requires SnapshotOf(client.st, lb.status.id, lb.spec, lb.status) && Names(conf, client.st, lb.status.id)
    modifies client, lb`status
    ensures client.Valid()
    ensures Settlement(old(client.Now()), client.Now(), ok, modified, old(lb.status), lb.status, conf, ids)
  {
    ghost var was := client.Now();
    ok, modified := SettleAttr(client, conf, lb.status.id, lb.spec, ids);
    ghost var mid := client.Now();
    if !ok {
      AttrFailed(was, mid, modified, lb.status, conf, ids, client.origin);
      return;
    }
    EipsLeaveNames(conf, was.st, mid.st, lb.status.id);
    ok := UpdateLBEip(client, conf, lb, ids);
    AttrThenEips(was, mid, client.Now(), ok, modified, old(lb.status), lb.status, conf, ids, client.origin);
  }

  // ---------- Addresses ----------

  /** Whether a run on this load balancer comes to see an address of it. The addresses are read before anything
      is changed, and anew only once EIPs were changed. */
  ghost predicate StaysAddressed(conf: Config, lb: LB) {
    if EipSettled(conf, lb.eips) then HasVIP(lb)
    else PrivateVIPs(SettledIPs(conf, lb)) != [] || KeepsEip(conf, lb.eips)
  }

  /** A load balancer with an address loses it exactly when it is not reused, becomes internal without an EIP
      annotation, and has EIPs but no other address. */
  lemma LosesAddressIff(conf: Config, lb: LB)
    requires HasVIP(lb) && (conf.eip.ids.Some? ==> conf.eip.ids.value != [])
    ensures !StaysAddressed(conf, lb) <==>
            && conf.reuseLBID == "" && conf.eip.ids.None? && conf.eip.source.None?
            && conf.networkType == NETWORK_INTERNAL && lb.eips != {} && PrivateVIPs(SettledIPs(conf, lb)) == []
  {
  }

  /** The addresses a run has read once attributes and EIPs are settled. */
  lemma AddressSeen(was: View, now: View, modified: bool, first: LBStatus, last: LBStatus, conf: Config,
                    ids: set<string>)
    requires Settlement(was, now, true, modified, first, last, conf, ids) && VIPsOf(was.st, first.id, first.vip)
    requires SourceOK(conf) && Unambiguous(was.st, conf)
    ensures last.id == first.id
    ensures last.vip != [] <==> StaysAddressed(conf, was.st.lbs[first.id])
  {
    EipsLeaveNames(conf, was.st, now.st, first.id);
    if EipSettled(conf, was.st.lbs[first.id].eips) {
      VIPsThere(was.st, first.id, first.vip);
    } else {
      GoalKeeps(conf, was.st.lbs[first.id].eips, now.st.lbs[first.id].eips);
      VIPsThere(now.st, last.id, last.vip);
    }
  }

  // ---------- Applying ----------

  /** Nothing but the pending mark of load balancer `id` differs. */
  ghost predicate OnlyPending(s: State, t: State, id: string) {
    && t.listeners == s.listeners && t.lbs.Keys == s.lbs.Keys && t.eips == s.eips
    && (forall x | x in s.lbs && x != id :: t.lbs[x] == s.lbs[x])
    && (id in s.lbs ==> t.lbs[id] == s.lbs[id].(pending := t.lbs[id].pending))
  }

  /** What applying the changes of load balancer `id` has led to. */
  ghost predicate ChangesApplied(was: View, now: View, ok: bool, id: string, sc: Scope, ids: set<string>) {
    && Went(was, now, sc, ids) && now.log == was.log + [Step(UpdateLB(id), was.st, now.st)]
    && OnlyPending(was.st, now.st, id) && id in was.st.lbs
    && (if ok then !now.st.lbs[id].pending else now.faults > was.faults)
  }

  /** The last step of every run that changed something. */
  method ApplyChanges(client: Cloud, id: string, ghost sc: Scope, ghost ids: set<string>) returns (ok: bool)
    requires client.Valid() && Inv(client.st, sc.prefix, ids) && InScope(sc, client.st, id)
    modifies client
    ensures client.Valid() && ChangesApplied(old(client.Now()), client.Now(), ok, id, sc, ids)
  {
    ghost var s := client.st;
    ok := client.Invoke(UpdateLB(id));
    InvByListeners(s, client.st, sc.prefix, ids);
  }
}
