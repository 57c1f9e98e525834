/** `ensureLoadBalancerDeleted` (pkg/qingcloud/qingcloud.go) on the load balancer it found: the
    listeners of the service go, and with them the load balancer when nobody else is on it. */
module DeleteRuns {
  import opened Apis
  import opened Sequences
  import opened CloudModel
  import opened ServiceConfig
  import opened Discipline
  import opened ListenerRuns
  import opened SyncLaws
  import opened SyncRuns
  import opened Balancers
  import opened EnsureRuns

  // ---------- What may be deleted ----------

  /** All listeners on load balancer `id` belong to the service. */
  ghost predicate OnlyOwn(s: State, id: string, prefix: string) {
    forall k | k in s.listeners && s.listeners[k].spec.lb == id :: Own(s.listeners[k], prefix)
  }

  /** The EIPs of load balancer `id` that this controller allocated. */
  ghost predicate AllocatedOf(s: State, id: string, eips: seq<string>) {
    id in s.lbs && forall e :: e in eips <==> e in s.lbs[id].eips && e in s.eips && s.eips[e].name == ALLOCATED_EIP_NAME
  }

  /** Of the EIPs exactly those have gone that load balancer `id` held and this controller had allocated. */
  ghost predicate AllocatedReleased(s: State, t: State, id: string)
    requires id in s.lbs
  {
    && (forall e :: e in t.eips <==>
          e in s.eips && !(e in s.lbs[id].eips && s.eips[e].name == ALLOCATED_EIP_NAME))
    && (forall e | e in t.eips :: t.eips[e] == s.eips[e])
  }

  /** As many own listeners as listeners: there are no others. */
  lemma NoOthers(s: State, id: string, prefix: string, ls: seq<Listener>)
    requires ListsListeners(s, id, ls)
    ensures |ls| - |Pick(ls, OwnBy(prefix))| > 0 <==> !OnlyOwn(s, id, prefix)
  {
    var others := Pick(ls, (l: Listener) => !Own(l, prefix));
    PickCount(ls, OwnBy(prefix), (l: Listener) => !Own(l, prefix));
    PickMembers(ls, (l: Listener) => !Own(l, prefix));
    if others != [] {
      assert others[0] in others && others[0] in ls;
      var i :| 0 <= i < |ls| && ls[i] == others[0];
      assert s.listeners[ls[i].id] == ls[i] && !Own(ls[i], prefix);
    } else {
      forall k | k in s.listeners && s.listeners[k].spec.lb == id ensures Own(s.listeners[k], prefix) {
        assert Present(ls, k);
        var i :| 0 <= i < |ls| && ls[i].id == k;
        assert ls[i] in ls;
      }
    }
  }

  // ---------- Only listeners ----------

  /** From `s` to `t` exactly the own listeners of load balancer `id` have gone. */
  ghost predicate OwnRemoved(s: State, t: State, id: string, prefix: string) {
    && (forall k :: k in t.listeners <==> k in s.listeners && !OwnOn(s, k, id, prefix))
    && (forall k | k in t.listeners :: t.listeners[k] == s.listeners[k])
    && t.eips == s.eips && LBKept(s, t, id)
  }

  lemma DroppedIsRemoved(s: State, t: State, u: State, id: string, prefix: string, list: seq<nat>)
    requires OnlyDropped(s, t, id, list) && forall k :: k in list <==> OwnOn(s, k, id, prefix)
    requires forall k | k in list :: k !in t.listeners
    requires OnlyPending(t, u, id)
    ensures OwnRemoved(s, u, id, prefix) && NoOwn(u, id, prefix)
  {
  }

  /** From `from` on listeners were deleted, and that applied. */
  ghost predicate ListenerDeletion(log: seq<Step>, from: nat) {
    forall j | from <= j < |log| :: log[j].call.DeleteListeners? || log[j].call.UpdateLB?
  }

  method DeleteOwnListeners(client: Cloud, id: string, list: seq<nat>, ghost sc: Scope, ghost ids: set<string>)
    returns (ok: bool)
    requires client.Valid() && Inv(client.st, sc.prefix, ids) && InScope(sc, client.st, id)
    requires forall k :: k in list <==> OwnOn(client.st, k, id, sc.prefix)
    modifies client
    ensures client.Valid() && old(client.log) <= client.log && client.faults >= old(client.faults)
    ensures AllDisciplined(sc, ids, client.log, |old(client.log)|) && Inv(client.st, sc.prefix, ids)
    ensures ListenerDeletion(client.log, |old(client.log)|)
    ensures ok ==> OwnRemoved(old(client.st), client.st, id, sc.prefix) && NoOwn(client.st, id, sc.prefix)
    ensures ok ==> !client.st.lbs[id].pending || client.st == old(client.st)
    ensures !ok ==> client.faults > old(client.faults)
    ensures list == [] ==> ok && client.Now() == old(client.Now())
  {
    if |list| <= 0 { return true; }
    ghost var s := client.st;
    ok := DropListeners(client, list, id, sc, ids);
    ghost var t, log1 := client.st, client.log;
    if !ok { return; }
    ok := ApplyChanges(client, id, sc, ids);
    JoinDisciplined(sc, ids, log1, client.log, |old(client.log)|);
    DroppedIsRemoved(s, t, client.st, id, sc.prefix, list);
  }

  // ---------- The load balancer ----------

  /** From `from` on: load balancer `id`, on which only the service was, is deleted; once that has
      succeeded, the EIPs this controller had allocated for it are released; nothing else. */
  ghost predicate BalancerDeletion(log: seq<Step>, from: nat, id: string, prefix: string) {
    && from < |log| <= from + 2
    && log[from].call == DeleteLB(id) && OnlyOwn(log[from].before, id, prefix)
    && (|log| == from + 2 ==>
         && id !in log[from].after.lbs
         && log[from + 1].call.ReleaseEIPs? && AllocatedOf(log[from].before, id, log[from + 1].call.eips))
  }

  /** Load balancer `id` has gone with the listeners on it, and of the others none. */
  ghost predicate BalancerGone(s: State, t: State, id: string) {
    && (forall x :: x in t.lbs <==> x in s.lbs && x != id)
    && (forall x | x in t.lbs :: t.lbs[x] == s.lbs[x])
    && (forall k :: k in t.listeners <==> k in s.listeners && s.listeners[k].spec.lb != id)
    && (forall k | k in t.listeners :: t.listeners[k] == s.listeners[k])
  }

  lemma DeleteLBEffect(s: State, id: string, prefix: string)
    ensures var t := Apply(s, DeleteLB(id));
            BalancerGone(s, t, id) && NoOwn(t, id, prefix) && t.eips == s.eips
  {
  }

  /** Once the load balancer is gone, nobody holds the EIPs it had. */
  lemma GoneIsFree(s: State, id: string, eips: seq<string>)
    requires s.Valid() && AllocatedOf(s, id, eips)
    ensures Accepts(Apply(s, DeleteLB(id)), ReleaseEIPs(eips))
  {
    var t := Apply(s, DeleteLB(id));
    forall e, x | e in eips && x in t.lbs ensures e !in t.lbs[x].eips {
      assert Apart(s.lbs[id], s.lbs[x]);
    }
  }

  method DeleteBalancer(client: Cloud, id: string, created: seq<string>, ghost sc: Scope, ghost ids: set<string>)
    returns (ok: bool)
    requires client.Valid() && Inv(client.st, sc.prefix, ids) && InScope(sc, client.st, id) && sc.deletes
    requires OnlyOwn(client.st, id, sc.prefix) && AllocatedOf(client.st, id, created)
    modifies client
    ensures client.Valid() && old(client.log) <= client.log && client.faults >= old(client.faults)
    ensures AllDisciplined(sc, ids, client.log, |old(client.log)|) && Inv(client.st, sc.prefix, ids)
    ensures BalancerDeletion(client.log, |old(client.log)|, id, sc.prefix)
    ensures ok ==> BalancerGone(old(client.st), client.st, id) && NoOwn(client.st, id, sc.prefix)
    ensures ok ==> AllocatedReleased(old(client.st), client.st, id)
    ensures !ok ==> client.faults > old(client.faults)
  {
    ghost var s, from := client.st, |client.log|;
    ok := client.Invoke(DeleteLB(id));
    ghost var t, log1 := client.st, client.log;
    DeleteLBEffect(s, id, sc.prefix);
    GoneIsFree(s, id, created);
    StepKeepsInv(sc, ids, log1[from]);
    if !ok { return; }
    if |created| > 0 {
      ok := client.Invoke(ReleaseEIPs(created));
      assert client.log[from] == log1[from];
      StepKeepsInv(sc, ids, client.log[from + 1]);
      JoinDisciplined(sc, ids, log1, client.log, from);
    }
  }

  // ---------- The run ----------

  /** The service shares load balancer `id`: it names it by id, or others have listeners on it. */
  ghost predicate SharedWith(conf: Config, s: State, id: string) {
    conf.reuseLBID != "" || !OnlyOwn(s, id, conf.listenerName)
  }

  /** What a deletion on load balancer `id` has led to. */
  ghost predicate FoundDeletion(was: View, now: View, ok: bool, id: string, conf: Config, ids: set<string>) {
    var s, t, prefix := was.st, now.st, conf.listenerName;
    && Went(was, now, DeletionScope(conf), ids) && id in s.lbs
    && (if SharedWith(conf, s, id) then ListenerDeletion(now.log, |was.log|)
        else BalancerDeletion(now.log, |was.log|, id, prefix))
    && (ok ==>
         && NoOwn(t, id, prefix)
         && (if SharedWith(conf, s, id) then OwnRemoved(s, t, id, prefix) && (!t.lbs[id].pending || t == s)
             else BalancerGone(s, t, id) && AllocatedReleased(s, t, id)))
    && (!ok ==> now.faults > was.faults)
    && (SharedWith(conf, s, id) && NoOwn(s, id, prefix) ==> ok && now == was)
  }

  /** The run on the load balancer that was found. */
  method DeleteFound(client: Cloud, conf: Config, lb: LoadBalancer, ghost ids: set<string>) returns (ok: bool)
    requires client.Valid() && Inv(client.st, conf.listenerName, ids)
    requires InScope(DeletionScope(conf), client.st, lb.status.id) && StatusOf(client.st, lb.status.id, lb.status)
    modifies client
    ensures client.Valid()
    ensures FoundDeletion(old(client.Now()), client.Now(), ok, lb.status.id, conf, ids)
  {
    ghost var s, sc := client.st, DeletionScope(conf);
    var listeners := FilterListeners(lb.status.listeners, conf.listenerName);
    FilterFindsOwn(s, lb.status.id, sc.prefix, lb.status.listeners);
    NoOthers(s, lb.status.id, sc.prefix, lb.status.listeners);
    if conf.reuseLBID != "" || |lb.status.listeners| - |listeners| > 0 {
      ok := DeleteOwnListeners(client, lb.status.id, listeners, sc, ids);
    } else {
      ok := DeleteBalancer(client, lb.status.id, lb.status.createdEIPs, sc, ids);
    }
  }
}
