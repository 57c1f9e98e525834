/** The controller that cleans up after a Service that is no longer of type LoadBalancer
    (pkg/controllers/service/cloud_service_controller.go). */
module ServiceController {
  import opened Wrappers
  import opened Apis
  import opened Naming
  import opened CloudModel
  import opened ServiceConfig
  import opened Discipline
  import opened ListenerRuns
  import opened SyncRuns
  import opened Balancers
  import opened DeleteRuns
  import opened Provider
  import opened Theorems

  /** Whether the old snapshot of an updated Service has to be cleaned up. */
  predicate NeedClean(was: Service, now: Service) {
    && was.isLoadBalancer && was.annotations != map[] && !now.isLoadBalancer
    && Get(was.annotations, LB_POLICY) == REUSE_EXISTING_LB && Get(was.annotations, LB_ID) != ""
    && !(Get(now.annotations, LB_POLICY) == Get(was.annotations, LB_POLICY)
         && Get(now.annotations, LB_ID) == Get(was.annotations, LB_ID))
  }

  /** A service that reused a load balancer and is no longer of type LoadBalancer. */
  predicate LeftReusedBalancer(was: Service, now: Service) {
    && was.isLoadBalancer && !now.isLoadBalancer
    && Get(was.annotations, LB_POLICY) == REUSE_EXISTING_LB && Get(was.annotations, LB_ID) != ""
    && now.ns == was.ns && now.name == was.name
  }

  /** The controller steps in exactly when the deletion of the new snapshot would look elsewhere. */
  lemma CleanIffNotFoundAgain(qc: CloudConfig, was: Service, now: Service)
    requires LeftReusedBalancer(was, now)
    ensures NeedClean(was, now) <==> DeletionConfig(qc, now).reuseLBID != Get(was.annotations, LB_ID)
  {
  }

  /** The snapshot whose deletion is responsible for the old load balancer. */
  function Responsible(was: Service, now: Service): Service {
    if NeedClean(was, now) then was else now
  }

  /** Whichever snapshot is responsible, its deletion looks for the old load balancer, under the old name prefix. */
  lemma ResponsibleTargetsOld(qc: CloudConfig, was: Service, now: Service, s: State, id: string)
    requires LeftReusedBalancer(was, now)
    ensures var d := DeletionConfig(qc, Responsible(was, now));
            && d.listenerName == ListenerName(was.ns, was.name)
            && (Names(d, s, id) <==> id in s.lbs && id == Get(was.annotations, LB_ID))
  {
  }

  /** What a successful deletion has led to: there was nothing to look at, or it is done. */
  ghost predicate DeletionDone(s: State, t: State, id: Option<string>, conf: Config) {
    if id.None? then t == s && forall x :: !Names(conf, s, x) else Deleted(s, t, id.value, conf)
  }

  /** The queued work: deletes what the old snapshot has in the cloud. */
  method HandleServiceUpdate(cloud: QingCloud, svc: Service, ghost ids: set<string>)
    returns (ok: bool, ghost id: Option<string>)
    requires cloud.client.Valid() && Inv(cloud.client.st, ListenerName(svc.ns, svc.name), ids)
    modifies cloud.client
    ensures cloud.client.Valid()
    ensures DeletionRun(old(cloud.client.Now()), cloud.client.Now(), ok, id, DeletionConfig(cloud.config, svc), ids)
  {
    ok, id := cloud.EnsureLoadBalancerDeleted(svc, ids);
  }

  // ---------- When the load balancer changes ----------

  /** The snapshots deleted when a service is updated: by this controller, and by Kubernetes. */
  function Deletions(was: Service, now: Service): set<Service> {
    (if NeedClean(was, now) then {was} else {})
    + (if was.isLoadBalancer && !now.isLoadBalancer then {now} else {})
  }

  /** In every state of the cloud, the deletion of the snapshot looks for load balancer `lb`. */
  ghost predicate Targets(qc: CloudConfig, svc: Service, lb: string) {
    forall s: State, id :: Names(DeletionConfig(qc, svc), s, id) <==> id in s.lbs && id == lb
  }

  /** A service that reused a load balancer is deleted from it exactly when it leaves type LoadBalancer: not when
      it moves to another load balancer. */
  lemma OldTargetedIff(qc: CloudConfig, was: Service, now: Service)
    requires was.isLoadBalancer && now.ns == was.ns && now.name == was.name
    requires Get(was.annotations, LB_POLICY) == REUSE_EXISTING_LB && Get(was.annotations, LB_ID) != ""
    ensures (exists svc | svc in Deletions(was, now) :: Targets(qc, svc, Get(was.annotations, LB_ID))) <==>
            !now.isLoadBalancer
  {
    if !now.isLoadBalancer {
      var svc := Responsible(was, now);
      forall s: State, id
        ensures Names(DeletionConfig(qc, svc), s, id) <==> id in s.lbs && id == Get(was.annotations, LB_ID)
      {
        ResponsibleTargetsOld(qc, was, now, s, id);
      }
      assert svc in Deletions(was, now);
    }
  }

  /** A service moves to another load balancer, by another id and not to one of the name it left: the ensure run
      that follows, whatever becomes of it, leaves all listeners on the old one as they were, its own included. */
  lemma MoveBalancer(qc: CloudConfig, was: Service, q: Request, before: View, after: View, r: Result<seq<string>>,
                     id: string, ids: set<string>, origin: State)
    requires Chained(origin, before.log, before.st) && Chained(origin, after.log, after.st)
    requires Inv(before.st, ListenerName(q.svc.ns, q.svc.name), ids) && q.svc.ns == was.ns && q.svc.name == was.name
    requires EnsureRun(before, after, r, id, q, ConfigOf(qc, q.svc), ids)
    requires Get(was.annotations, LB_ID) in before.st.lbs
    requires Get(was.annotations, LB_ID) != ConfigOf(qc, q.svc).reuseLBID
    requires ConfigOf(qc, q.svc).lbName == "" ||
             before.st.lbs[Get(was.annotations, LB_ID)].name != ConfigOf(qc, q.svc).lbName
    ensures Spared(before.st, after.st, Get(was.annotations, LB_ID))
  {
    var c := ConfigOf(qc, q.svc);
    ConfigSound(qc, q.svc);
    RunUntouched(ScopeOfConfig(c), ids, origin, before.log, before.st, after.log, after.st);
    UntouchedSpares(ScopeOfConfig(c), before.st, after.st, Get(was.annotations, LB_ID));
  }

  /** What is out of scope is spared, if nothing of the run's own was added to it. */
  lemma UntouchedSpares(sc: Scope, s: State, t: State, lb: string)
    requires Untouched(sc, s, t) && lb in s.lbs && !InScope(sc, s, lb)
    ensures Spared(s, t, lb)
  {
  }

  // ---------- Both deletions ----------

  /** From s to t load balancer `id` and its listeners have stayed as they were. */
  ghost predicate Spared(s: State, t: State, id: string) {
    && id in s.lbs && id in t.lbs && t.lbs[id] == s.lbs[id]
    && (forall k :: k in t.listeners && t.listeners[k].spec.lb == id <==>
        k in s.listeners && s.listeners[k].spec.lb == id)
    && (forall k | k in t.listeners && t.listeners[k].spec.lb == id :: t.listeners[k] == s.listeners[k])
  }

  /** A deletion spares every other load balancer, and keeps the names of those it leaves. */
  lemma DeletionSpares(s: State, t: State, id: Option<string>, conf: Config, lb: string)
    requires DeletionDone(s, t, id, conf) && lb in s.lbs && id != Some(lb)
    ensures Spared(s, t, lb)
  {
  }

  lemma DeletionKeepsNames(s: State, t: State, id: Option<string>, conf: Config, other: Config)
    requires DeletionDone(s, t, id, conf)
    ensures forall x | x in t.lbs :: x in s.lbs && (Names(other, t, x) <==> Names(other, s, x))
  {
  }

  /** What a deletion makes of the load balancer it was about. */
  lemma DeletionClears(s: State, t: State, lb: string, conf: Config)
    requires DeletionDone(s, t, Some(lb), conf)
    ensures NoOwn(t, lb, conf.listenerName) && (lb in t.lbs <==> SharedWith(conf, s, lb))
    ensures lb in t.lbs ==> ForeignSame(s, t, lb, conf.listenerName)
  {
  }

  /** From s to u the service has left load balancer `lb`. It stands unless the snapshot Kubernetes has deleted
      goes by a name that this load balancer bears, and nobody else is on it; then it goes. */
  ghost predicate Abandoned(s: State, u: State, lb: string, conf: Config) {
    && NoOwn(u, lb, conf.listenerName)
    && (lb in u.lbs ==> ForeignSame(s, u, lb, conf.listenerName))
    && (!Names(conf, s, lb) || SharedWith(conf, s, lb) ==> lb in u.lbs)
    && (Names(conf, s, lb) && Unambiguous(s, conf) ==> (lb in u.lbs <==> SharedWith(conf, s, lb)))
  }

  /** The deletion of a snapshot that names `lb` by id is about `lb`, and leaves it standing. */
  lemma NamedIsCleared(s: State, t: State, id: Option<string>, lb: string, conf: Config)
    requires lb in s.lbs && conf.reuseLBID == lb != "" && DeletionDone(s, t, id, conf)
    ensures NoOwn(t, lb, conf.listenerName) && ForeignSame(s, t, lb, conf.listenerName)
    ensures t.lbs.Keys == s.lbs.Keys
  {
    assert Names(conf, s, lb);
    DeletionClears(s, t, lb, conf);
  }

  lemma ForeignSameTwice(s: State, t: State, u: State, lb: string, prefix: string)
    requires ForeignSame(s, t, lb, prefix) && ForeignSame(t, u, lb, prefix)
    ensures ForeignSame(s, u, lb, prefix)
  {
  }

  lemma SparedIsForeignSame(s: State, t: State, u: State, lb: string, prefix: string)
    requires ForeignSame(s, t, lb, prefix) && NoOwn(t, lb, prefix) && Spared(t, u, lb)
    ensures ForeignSame(s, u, lb, prefix) && NoOwn(u, lb, prefix)
  {
  }

  lemma SparedThenForeignSame(s: State, t: State, u: State, lb: string, prefix: string)
    requires Spared(s, t, lb) && ForeignSame(t, u, lb, prefix)
    ensures ForeignSame(s, u, lb, prefix)
  {
  }

  /** First the deletion of the old snapshot, then that of the new one. */
  lemma CleanedThenDeleted(s: State, t: State, u: State, lb: string, found: Option<string>, other: Option<string>,
                           oldConf: Config, newConf: Config)
    requires lb in s.lbs && oldConf.reuseLBID == lb != "" && oldConf.listenerName == newConf.listenerName
    requires DeletionDone(s, t, found, oldConf) && DeletionDone(t, u, other, newConf)
    ensures Abandoned(s, u, lb, newConf)
  {
    var prefix := newConf.listenerName;
    NamedIsCleared(s, t, found, lb, oldConf);
    DeletionKeepsNames(s, t, found, oldConf, newConf);
    assert SharedWith(newConf, t, lb) <==> SharedWith(newConf, s, lb);
    if other == Some(lb) {
      DeletionClears(t, u, lb, newConf);
      if lb in u.lbs { ForeignSameTwice(s, t, u, lb, prefix); }
    } else {
      DeletionSpares(t, u, other, newConf, lb);
      SparedIsForeignSame(s, t, u, lb, prefix);
    }
  }

  /** First the deletion of the new snapshot, then that of the old one. */
  lemma DeletedThenCleaned(s: State, t: State, u: State, lb: string, other: Option<string>, found: Option<string>,
                           oldConf: Config, newConf: Config)
    requires lb in s.lbs && oldConf.reuseLBID == lb != "" && oldConf.listenerName == newConf.listenerName
    requires DeletionDone(s, t, other, newConf) && DeletionDone(t, u, found, oldConf)
    ensures Abandoned(s, u, lb, newConf)
  {
    if other == Some(lb) { DeletionClears(s, t, lb, newConf); } else { DeletionSpares(s, t, other, newConf, lb); }
    if lb in t.lbs {
      NamedIsCleared(t, u, found, lb, oldConf);
      if other == Some(lb) {
        ForeignSameTwice(s, t, u, lb, newConf.listenerName);
      } else {
        SparedThenForeignSame(s, t, u, lb, newConf.listenerName);
      }
    } else {
      assert found.None?;
    }
  }

  /** What a deletion leaves is clean, for its snapshot. */
  lemma DoneIsClean(s: State, t: State, id: Option<string>, conf: Config)
    requires DeletionDone(s, t, id, conf) && Unambiguous(s, conf)
    ensures Clean(t, conf)
  {
    if id.Some? { DeletedIsClean(s, t, id.value, conf); }
  }

  /** What is clean for one snapshot stays so when another one of the service is deleted. */
  lemma CleanStays(s: State, t: State, id: Option<string>, conf: Config, other: Config)
    requires Clean(s, other) && DeletionDone(s, t, id, conf) && conf.listenerName == other.listenerName
    ensures Clean(t, other)
  {
    DeletionKeepsNames(s, t, id, conf, other);
    forall x | Names(other, t, x) ensures SharedWith(other, t, x) && NoOwn(t, x, other.listenerName) {
      if id == Some(x) {
        DeletionClears(s, t, x, conf);
        assert OnlyOwn(t, x, conf.listenerName) <==> OnlyOwn(s, x, conf.listenerName);
      } else {
        DeletionSpares(s, t, id, conf, x);
        assert OnlyOwn(t, x, conf.listenerName) <==> OnlyOwn(s, x, conf.listenerName);
        assert forall k :: OwnOn(t, k, x, conf.listenerName) ==> OwnOn(s, k, x, conf.listenerName);
      }
    }
  }

  /** In either order, with or without the deletion of the old snapshot. */
  lemma BothClean(s: State, t: State, u: State, v: State, found: Option<string>, other: Option<string>,
                  oldConf: Config, newConf: Config, cleanFirst: bool, clean: bool)
    requires Unambiguous(s, newConf) && oldConf.listenerName == newConf.listenerName
    requires if clean && cleanFirst then DeletionDone(s, t, found, oldConf) else t == s
    requires DeletionDone(t, u, other, newConf)
    requires if clean && !cleanFirst then DeletionDone(u, v, found, oldConf) else v == u
    ensures Clean(v, newConf)
  {
    if clean && cleanFirst { DeletionKeepsNames(s, t, found, oldConf, newConf); }
    DoneIsClean(t, u, other, newConf);
    if clean && !cleanFirst { CleanStays(u, v, found, oldConf, newConf); }
  }

  /** A deletion, or none at all, led from one view to the next. */
  ghost predicate DeletionOrNone(due: bool, was: View, now: View, ok: bool, id: Option<string>, conf: Config,
                                 ids: set<string>) {
    if due then DeletionRun(was, now, ok, id, conf, ids) else now == was && ok
  }

  /** A service leaves type LoadBalancer: this controller cleans up after the old snapshot when it has to, and
      Kubernetes has the new one deleted, in either order. */
  ghost predicate Leaving(qc: CloudConfig, was: Service, now: Service, cleanFirst: bool, v0: View, v1: View, v2: View,
                          v3: View, cleaned: bool, deleted: bool, found: Option<string>, other: Option<string>,
                          ids: set<string>) {
    var oldConf, newConf := DeletionConfig(qc, was), DeletionConfig(qc, now);
    && DeletionOrNone(NeedClean(was, now) && cleanFirst, v0, v1, cleaned || !cleanFirst, found, oldConf, ids)
    && DeletionRun(v1, v2, deleted, other, newConf, ids)
    && DeletionOrNone(NeedClean(was, now) && !cleanFirst, v2, v3, cleaned || cleanFirst, found, oldConf, ids)
  }

  /** Without a fault both succeed. */
  lemma LeavesUnlessFault(qc: CloudConfig, was: Service, now: Service, cleanFirst: bool, v0: View, v1: View, v2: View,
                          v3: View, cleaned: bool, deleted: bool, found: Option<string>, other: Option<string>,
                          ids: set<string>)
    requires Leaving(qc, was, now, cleanFirst, v0, v1, v2, v3, cleaned, deleted, found, other, ids)
    ensures !(cleaned && deleted) ==> v3.faults > v0.faults
  {
  }

  /** Once both have succeeded, nothing of the service is on the old load balancer, all else there is as it was, and a
      further deletion would have nothing to do. */
  lemma LeaveBalancer(qc: CloudConfig, was: Service, now: Service, cleanFirst: bool, v0: View, v1: View, v2: View,
                      v3: View, found: Option<string>, other: Option<string>, ids: set<string>)
    requires LeftReusedBalancer(was, now)
    requires Leaving(qc, was, now, cleanFirst, v0, v1, v2, v3, true, true, found, other, ids)
    ensures Get(was.annotations, LB_ID) in v0.st.lbs ==>
              Abandoned(v0.st, v3.st, Get(was.annotations, LB_ID), DeletionConfig(qc, now))
    ensures Unambiguous(v0.st, DeletionConfig(qc, now)) ==> Clean(v3.st, DeletionConfig(qc, now))
  {
    var oldConf, newConf, lb := DeletionConfig(qc, was), DeletionConfig(qc, now), Get(was.annotations, LB_ID);
    CleanIffNotFoundAgain(qc, was, now);
    if Unambiguous(v0.st, newConf) {
      BothClean(v0.st, v1.st, v2.st, v3.st, found, other, oldConf, newConf, cleanFirst, NeedClean(was, now));
    }
    if lb in v0.st.lbs {
      if !NeedClean(was, now) {
        NamedIsCleared(v0.st, v2.st, other, lb, newConf);
      } else if cleanFirst {
        CleanedThenDeleted(v0.st, v1.st, v2.st, lb, found, other, oldConf, newConf);
      } else {
        DeletedThenCleaned(v0.st, v2.st, v3.st, lb, other, found, oldConf, newConf);
      }
    }
  }

  /** Whatever becomes of a deletion, no listener of others has gone or changed, and nothing has come. */
  lemma DeletionLeavesOthers(was: View, now: View, ok: bool, id: Option<string>, conf: Config, ids: set<string>,
                      origin: State)
    requires Chained(origin, was.log, was.st) && Chained(origin, now.log, now.st)
    requires Inv(was.st, conf.listenerName, ids) && DeletionRun(was, now, ok, id, conf, ids)
    ensures Fewer(was.st, now.st)
    ensures forall k | k in was.st.listeners && !Own(was.st.listeners[k], conf.listenerName) ::
              k in now.st.listeners && now.st.listeners[k] == was.st.listeners[k]
  {
    RunUntouched(DeletionScope(conf), ids, origin, was.log, was.st, now.log, now.st);
  }
}
