/** Services that share the cloud, and may share a load balancer: what the runs of one mean for the others. */
module Neighbours {
  import opened Wrappers
  import opened GoStrings
  import opened Apis
  import opened Naming
  import opened CloudModel
  import opened ServiceConfig
  import opened Listeners
  import opened Discipline
  import opened Eips
  import opened BackendRuns
  import opened ListenerRuns
  import opened SyncRuns
  import opened Balancers
  import opened Provider
  import opened Theorems

  // ---------- Listeners ----------

  /** Two services, told apart by namespace and name. */
  predicate Different(a: Service, b: Service) {
    Label(a.ns) && Label(a.name) && Label(b.ns) && Label(b.name) && (a.ns, a.name) != (b.ns, b.name)
  }

  /** From s to t the listeners of a service, with all their backends, have stayed as they were. */
  ghost predicate SameOwn(s: State, t: State, prefix: string) {
    && (forall k | k in s.listeners && Own(s.listeners[k], prefix) ::
        k in t.listeners && t.listeners[k] == s.listeners[k])
    && (forall k | k in t.listeners && Own(t.listeners[k], prefix) ::
        k in s.listeners && t.listeners[k] == s.listeners[k])
  }

  /** The listeners of another service are after a run what they were. */
  lemma OthersUnharmed(sc: Scope, svc: Service, other: Service, s: State, t: State)
    requires Different(svc, other)
    requires sc.prefix == ListenerName(svc.ns, svc.name) && Untouched(sc, s, t)
    ensures SameOwn(s, t, ListenerName(other.ns, other.name))
  {
    NoSharedName(svc, other);
  }

  lemma NoSharedName(a: Service, b: Service)
    requires Different(a, b)
    ensures forall x :: !(HasPrefix(x, ListenerName(a.ns, a.name)) && HasPrefix(x, ListenerName(b.ns, b.name)))
  {
    forall x ensures !(HasPrefix(x, ListenerName(a.ns, a.name)) && HasPrefix(x, ListenerName(b.ns, b.name))) {
      if HasPrefix(x, ListenerName(a.ns, a.name)) && HasPrefix(x, ListenerName(b.ns, b.name)) {
        OwnerUnique(x, a.ns, a.name, b.ns, b.name);
      }
    }
  }

  // ---------- What a run relies on ----------

  /** The scope of the runs of a service: ensure or update runs, or deletions. */
  ghost predicate RunsOf(qc: CloudConfig, svc: Service, sc: Scope) {
    sc == ScopeOfConfig(ConfigOf(qc, svc)) || sc == DeletionScope(DeletionConfig(qc, svc))
  }

  /** No run of a service makes a load balancer of the name another one looks for. */
  lemma NamesApart(qc: CloudConfig, runner: Service, svc: Service, sc: Scope)
    requires Different(runner, svc) && RunsOf(qc, runner, sc)
    ensures sc.prefix == ListenerName(runner.ns, runner.name)
    ensures ConfigOf(qc, svc).lbName == "" || sc.lbName != ConfigOf(qc, svc).lbName
  {
    ConfigSound(qc, runner);
    if LBName(qc.clusterID, runner) == LBName(qc.clusterID, svc) { LBNameUnique(qc.clusterID, runner, svc); }
  }

  lemma KeptManageable(s: State, t: State, name: string, conf: Config, ports: seq<ServicePort>)
    requires s.Valid() && SameOwn(s, t, conf.listenerName) && NamesFixed(s, t, name)
    requires conf.reuseLBID != "" || conf.lbName == "" || name != conf.lbName
    requires Manageable(s, conf, ports)
    ensures Manageable(t, conf, ports)
  {
    forall id | Names(conf, t, id)
      ensures (id in s.lbs ==> Names(conf, s, id)) && OwnSmall(t, id, conf.listenerName)
    {
      assert OwnSet(t, id, conf.listenerName) == OwnSet(s, id, conf.listenerName);
      if id in s.lbs {
        assert Names(conf, s, id);
      } else {
        OwnSetNowhere(s, id, conf.listenerName);
      }
    }
  }

  /** What one service relies on is kept by every run of another, cut short or not, whether or not the two share a
      load balancer: the load balancer of the one stays the only one it names, and its listeners do not become
      more. */
  lemma OthersKeepManageable(qc: CloudConfig, runner: Service, svc: Service, sc: Scope, ids: set<string>,
                             origin: State, log0: seq<Step>, s: State, log: seq<Step>, now: State)
    requires log0 <= log && Chained(origin, log0, s) && Chained(origin, log, now)
    requires AllDisciplined(sc, ids, log, |log0|) && Inv(s, sc.prefix, ids)
    requires Different(runner, svc) && RunsOf(qc, runner, sc)
    requires Manageable(s, ConfigOf(qc, svc), svc.ports)
    ensures Manageable(now, ConfigOf(qc, svc), svc.ports)
  {
    ConfigSound(qc, svc);
    NamesApart(qc, runner, svc, sc);
    RunUntouched(sc, ids, origin, log0, s, log, now);
    RunFixesNames(sc, ids, origin, log0, s, log, now);
    OthersUnharmed(sc, runner, svc, s, now);
    KeptManageable(s, now, sc.lbName, ConfigOf(qc, svc), svc.ports);
  }

  lemma OwnSetNowhere(s: State, id: string, prefix: string)
    requires s.Valid() && id !in s.lbs
    ensures OwnSet(s, id, prefix) == {}
  {
    forall k | k in s.listeners ensures s.listeners[k].spec.lb != id { assert s.ListenerValid(k); }
  }

  /** And the invariant with it. */
  lemma OthersKeepReady(qc: CloudConfig, runner: Service, svc: Service, sc: Scope, ids: set<string>, nodes: seq<Node>,
                        origin: State, log0: seq<Step>, s: State, log: seq<Step>, now: State)
    requires log0 <= log && Chained(origin, log0, s) && Chained(origin, log, now) && now.Valid()
    requires AllDisciplined(sc, ids, log, |log0|) && Inv(s, sc.prefix, ids)
    requires Different(runner, svc) && RunsOf(qc, runner, sc)
    requires Ready(s, ScopeOfConfig(ConfigOf(qc, svc)), ids, nodes)
    ensures Ready(now, ScopeOfConfig(ConfigOf(qc, svc)), ids, nodes)
  {
    ConfigSound(qc, svc);
    NamesApart(qc, runner, svc, sc);
    RunUntouched(sc, ids, origin, log0, s, log, now);
    NoSharedName(runner, svc);
    OthersKeepInv(sc, ids, s, now, svc.ns, svc.name);
  }

  // ---------- Rest ----------

  /** The load balancer that `conf` names, if a run for `other` works on it, has after that the attributes that
      `conf` asks for. */
  ghost predicate Bearable(s: State, other: Config, conf: Config) {
    forall id | Names(other, s, id) && Names(conf, s, id) :: AttrSettled(conf, SettledLB(other, s.lbs[id]))
  }

  lemma ConvergedByOwn(s: State, t: State, lb: string, prefix: string, a: Attrs, ports: seq<ServicePort>,
                       nodes: seq<Node>, limit: Option<nat>)
    requires SameOwn(s, t, prefix) && Converged(s, lb, prefix, a, ports, nodes, limit)
    ensures Converged(t, lb, prefix, a, ports, nodes, limit)
  {
    forall i | 0 <= i < |ports| ensures PortServed(t, lb, prefix, a, ports[i], nodes, limit) {
      assert PortServed(s, lb, prefix, a, ports[i], nodes, limit);
      var k :| OwnOn(s, k, lb, prefix) && FitFor(s.listeners[k], a, ports[i], nodes, limit);
      assert OwnOn(t, k, lb, prefix) && FitFor(t.listeners[k], a, ports[i], nodes, limit);
    }
    forall k | OwnOn(t, k, lb, prefix) ensures ListenerWanted(t.listeners[k], a, ports, nodes, limit) {
      assert OwnOn(s, k, lb, prefix);
    }
  }

  /** What a run for `other` leaves of the load balancer that `conf` names. */
  lemma StillNamed(s: State, t: State, other: Config, conf: Config, id: string)
    requires BalancersKept(s, t, other) && Names(conf, s, id)
    requires SourceOK(other) && (other.reuseLBID != "" || conf.reuseLBID != "" || other.lbName != conf.lbName)
    ensures Names(conf, t, id)
    ensures conf.reuseLBID == "" ==> t.lbs[id].eips == s.lbs[id].eips
    ensures !Names(other, s, id) ==> SameAttrs(t.lbs[id], s.lbs[id])
    ensures Names(other, s, id) ==>
              SameAttrs(t.lbs[id], s.lbs[id]) || SameAttrs(t.lbs[id], SettledLB(other, s.lbs[id]))
  {
  }

  lemma StillFulfilled(s: State, t: State, other: Config, q: Request, conf: Config, id: string)
    requires BalancersKept(s, t, other) && SameOwn(s, t, conf.listenerName) && Names(conf, s, id)
    requires SourceOK(other) && (other.reuseLBID != "" || conf.reuseLBID != "" || other.lbName != conf.lbName)
    requires Fulfilled(s, id, q, conf) && Bearable(s, other, conf)
    ensures Names(conf, t, id) && Fulfilled(t, id, q, conf)
  {
    StillNamed(s, t, other, conf, id);
    ConvergedByOwn(s, t, id, conf.listenerName, AttrsOf(conf.listener), q.svc.ports, Workers(q, conf),
                   WorkerLimit(q, conf));
  }

  /** A successful run leaves the attributes of its load balancer settled: unless the other bears that, it is not
      at rest any more. */
  lemma UnbearableDisturbs(s: State, t: State, q: Request, c: Config, id: string, other: Request, o: Config)
    requires BalancersKept(s, t, c) && Ensured(s, t, id, q, c) && Manageable(s, c, q.svc.ports)
    requires SourceOK(c) && (c.reuseLBID != "" || o.reuseLBID != "" || c.lbName != o.lbName)
    requires Unambiguous(t, o) && AtRest(t, other, o)
    ensures Bearable(s, c, o)
  {
    forall x | Names(c, s, x) && Names(o, s, x) ensures AttrSettled(o, SettledLB(c, s.lbs[x])) {
      StillNamed(s, t, c, o, x);
      SettledLBIff(c, s.lbs[x]);
      assert x == id && Fulfilled(t, id, q, c);
      assert SameAttrs(t.lbs[x], SettledLB(c, s.lbs[x]));
    }
  }

  /** A service at rest stays at rest, whatever becomes of another's ensure run, if it can bear the attributes that
      the other asks for; once such a run succeeds, only then. */
  lemma RestAmongOthers(qc: CloudConfig, q: Request, other: Request, was: View, now: View, r: Result<seq<string>>,
                        id: string, ids: set<string>, origin: State)
    requires Different(q.svc, other.svc) && Chained(origin, was.log, was.st) && Chained(origin, now.log, now.st)
    requires Inv(was.st, ListenerName(q.svc.ns, q.svc.name), ids)
    requires EnsureRun(was, now, r, id, q, ConfigOf(qc, q.svc), ids)
    requires AtRest(was.st, other, ConfigOf(qc, other.svc))
    requires Manageable(was.st, ConfigOf(qc, other.svc), other.svc.ports)
    ensures Bearable(was.st, ConfigOf(qc, q.svc), ConfigOf(qc, other.svc)) ==>
              AtRest(now.st, other, ConfigOf(qc, other.svc))
    ensures r.Ok? && Manageable(was.st, ConfigOf(qc, q.svc), q.svc.ports) ==>
              (AtRest(now.st, other, ConfigOf(qc, other.svc)) <==>
               Bearable(was.st, ConfigOf(qc, q.svc), ConfigOf(qc, other.svc)))
  {
    var c, o, s, t := ConfigOf(qc, q.svc), ConfigOf(qc, other.svc), was.st, now.st;
    ConfigSound(qc, q.svc);
    ConfigSound(qc, other.svc);
    NamesApart(qc, q.svc, other.svc, ScopeOfConfig(c));
    RunUntouched(ScopeOfConfig(c), ids, origin, was.log, s, now.log, t);
    OthersUnharmed(ScopeOfConfig(c), q.svc, other.svc, s, t);
    OthersKeepManageable(qc, q.svc, other.svc, ScopeOfConfig(c), ids, origin, was.log, s, now.log, t);
    if Bearable(s, c, o) {
      var x :| Names(o, s, x) && Fulfilled(s, x, other, o);
      StillFulfilled(s, t, c, other, o, x);
    } else if r.Ok? && Manageable(s, c, q.svc.ports) && AtRest(t, other, o) {
      UnbearableDisturbs(s, t, q, c, id, other, o);
    }
  }

  /** Another's update never disturbs it. */
  lemma RestAmongUpdates(qc: CloudConfig, q: Request, other: Request, was: View, now: View, ok: bool, id: string,
                         ids: set<string>, origin: State)
    requires Different(q.svc, other.svc) && Chained(origin, was.log, was.st) && Chained(origin, now.log, now.st)
    requires Inv(was.st, ListenerName(q.svc.ns, q.svc.name), ids)
    requires UpdateDone(was, now, ok, id, q, ConfigOf(qc, q.svc), ids)
    requires AtRest(was.st, other, ConfigOf(qc, other.svc))
    ensures AtRest(now.st, other, ConfigOf(qc, other.svc))
  {
    var c, o, s, t := ConfigOf(qc, q.svc), ConfigOf(qc, other.svc), was.st, now.st;
    ConfigSound(qc, q.svc);
    ConfigSound(qc, other.svc);
    RunUntouched(ScopeOfConfig(c), ids, origin, was.log, s, now.log, t);
    OthersUnharmed(ScopeOfConfig(c), q.svc, other.svc, s, t);
    var x :| Names(o, s, x) && Fulfilled(s, x, other, o);
    ConvergedByOwn(s, t, x, o.listenerName, AttrsOf(o.listener), other.svc.ports, Workers(other, o),
                   WorkerLimit(other, o));
    assert Names(o, t, x) && Fulfilled(t, x, other, o);
  }

  // ---------- Two on one load balancer ----------

  /** Two services that reuse one load balancer. */
  ghost predicate Sharing(qc: CloudConfig, one: Service, two: Service) {
    && Different(one, two) && Parses(one) && Parses(two)
    && ConfigOf(qc, one).policy == REUSE_EXISTING_LB && ConfigOf(qc, two).policy == REUSE_EXISTING_LB
    && ConfigOf(qc, one).reuseLBID == ConfigOf(qc, two).reuseLBID
  }

  /** What the two rely on beforehand. */
  ghost predicate BothFit(s: State, qc: CloudConfig, one: Request, two: Request, ids: set<string>) {
    && Ready(s, ScopeOfConfig(ConfigOf(qc, one.svc)), ids, one.nodes)
    && Ready(s, ScopeOfConfig(ConfigOf(qc, two.svc)), ids, two.nodes)
    && Manageable(s, ConfigOf(qc, one.svc), one.svc.ports) && Manageable(s, ConfigOf(qc, two.svc), two.svc.ports)
    && ConfigOf(qc, one.svc).reuseLBID in s.lbs
  }

  /** A run of one keeps that, whatever becomes of it. */
  lemma TurnKeepsFit(qc: CloudConfig, one: Request, two: Request, was: View, now: View, r: Result<seq<string>>,
                     id: string, ids: set<string>, origin: State)
    requires Sharing(qc, one.svc, two.svc) && BothFit(was.st, qc, one, two, ids)
    requires Chained(origin, was.log, was.st) && Chained(origin, now.log, now.st)
    requires EnsureRun(was, now, r, id, one, ConfigOf(qc, one.svc), ids)
    ensures BothFit(now.st, qc, one, two, ids) && BothFit(now.st, qc, two, one, ids)
  {
    var sc := ScopeOfConfig(ConfigOf(qc, one.svc));
    OthersKeepManageable(qc, one.svc, two.svc, sc, ids, origin, was.log, was.st, now.log, now.st);
    OthersKeepReady(qc, one.svc, two.svc, sc, ids, two.nodes, origin, was.log, was.st, now.log, now.st);
  }

  /** The two ask for the same attributes, where both ask for any. */
  predicate Compatible(a: Config, b: Config) {
    && (a.nodeCount.Some? && b.nodeCount.Some? ==> a.nodeCount == b.nodeCount)
    && (a.internalIP.Some? && b.internalIP.Some? ==> a.internalIP == b.internalIP)
  }

  lemma CompatibleIsBearable(s: State, q: Request, conf: Config, other: Config)
    requires Compatible(conf, other) && Unambiguous(s, conf) && AtRest(s, q, conf)
    ensures Bearable(s, other, conf)
  {
  }

  /** Two services that share a load balancer and ask for the same attributes come to rest together: once a run of
      each has succeeded, one after the other, neither has anything left to do. */
  lemma EnsureBoth(qc: CloudConfig, one: Request, two: Request, was: View, mid: View, now: View,
                   first: Result<seq<string>>, second: Result<seq<string>>, id: string, other: string,
                   ids: set<string>, origin: State)
    requires Sharing(qc, one.svc, two.svc) && BothFit(was.st, qc, one, two, ids)
    requires Chained(origin, was.log, was.st) && Chained(origin, mid.log, mid.st) && Chained(origin, now.log, now.st)
    requires EnsureRun(was, mid, first, id, one, ConfigOf(qc, one.svc), ids) && first.Ok?
    requires EnsureRun(mid, now, second, other, two, ConfigOf(qc, two.svc), ids) && second.Ok?
    requires Choosable(one, ConfigOf(qc, one.svc)) && Workers(one, ConfigOf(qc, one.svc)) != []
    requires Choosable(two, ConfigOf(qc, two.svc)) && Workers(two, ConfigOf(qc, two.svc)) != []
    requires Compatible(ConfigOf(qc, one.svc), ConfigOf(qc, two.svc))
    ensures AtRest(now.st, one, ConfigOf(qc, one.svc)) && AtRest(now.st, two, ConfigOf(qc, two.svc))
  {
    TurnKeepsFit(qc, one, two, was, mid, first, id, ids, origin);
    EnsuredIsAtRest(was.st, mid.st, id, one, ConfigOf(qc, one.svc));
    TurnsRest(qc, one, two, mid, now, second, other, ids, origin);
  }

  lemma TurnsRest(qc: CloudConfig, one: Request, two: Request, mid: View, now: View, r: Result<seq<string>>,
                  id: string, ids: set<string>, origin: State)
    requires Sharing(qc, one.svc, two.svc) && BothFit(mid.st, qc, one, two, ids)
    requires Chained(origin, mid.log, mid.st) && Chained(origin, now.log, now.st)
    requires Compatible(ConfigOf(qc, one.svc), ConfigOf(qc, two.svc)) && AtRest(mid.st, one, ConfigOf(qc, one.svc))
    requires EnsureRun(mid, now, r, id, two, ConfigOf(qc, two.svc), ids) && r.Ok?
    requires Choosable(two, ConfigOf(qc, two.svc)) && Workers(two, ConfigOf(qc, two.svc)) != []
    ensures AtRest(now.st, one, ConfigOf(qc, one.svc)) && AtRest(now.st, two, ConfigOf(qc, two.svc))
  {
    var c, d := ConfigOf(qc, one.svc), ConfigOf(qc, two.svc);
    FoundAgainIff(mid.st, now.st, id, two, d);
    EnsuredIsAtRest(mid.st, now.st, id, two, d);
    CompatibleIsBearable(mid.st, one, c, d);
    RestAmongOthers(qc, two, one, mid, now, r, id, ids, origin);
  }

  /** The load balancer reused has the node count asked for. */
  predicate CountSet(s: State, conf: Config) {
    && conf.nodeCount.Some? && conf.reuseLBID in s.lbs
    && s.lbs[conf.reuseLBID].nodeCount == conf.nodeCount.value
  }

  /** What a successful run makes of the node count; if that was another one, the run has issued a call. */
  lemma TurnChanges(q: Request, conf: Config, was: View, now: View, r: Result<seq<string>>, id: string, lb: string,
                    ids: set<string>, origin: State)
    requires Chained(origin, was.log, was.st) && Chained(origin, now.log, now.st)
    requires EnsureRun(was, now, r, id, q, conf, ids) && r.Ok? && Manageable(was.st, conf, q.svc.ports)
    requires Names(conf, was.st, lb) && conf.reuseLBID == lb && conf.nodeCount.Some?
    ensures CountSet(now.st, conf) && (!CountSet(was.st, conf) ==> |now.log| > |was.log|)
  {
    assert Fulfilled(now.st, id, q, conf) && Names(conf, was.st, id) && id == lb;
    ChainedAt(origin, was.log, was.st, now.log, now.st);
  }

  /** One of the turns. */
  lemma TakeTurn(qc: CloudConfig, one: Request, two: Request, was: View, now: View, r: Result<seq<string>>,
                 id: string, ids: set<string>, origin: State)
    requires Sharing(qc, one.svc, two.svc) && BothFit(was.st, qc, one, two, ids)
    requires Chained(origin, was.log, was.st) && Chained(origin, now.log, now.st)
    requires EnsureRun(was, now, r, id, one, ConfigOf(qc, one.svc), ids) && r.Ok?
    requires ConfigOf(qc, one.svc).nodeCount.Some?
    ensures BothFit(now.st, qc, two, one, ids) && |now.log| >= |was.log| && CountSet(now.st, ConfigOf(qc, one.svc))
    ensures !CountSet(was.st, ConfigOf(qc, one.svc)) ==> |now.log| > |was.log|
  {
    TurnKeepsFit(qc, one, two, was, now, r, id, ids, origin);
    TurnChanges(one, ConfigOf(qc, one.svc), was, now, r, id, ConfigOf(qc, one.svc).reuseLBID, ids, origin);
  }

  /** Two that share a load balancer and ask for different node counts. */
  ghost predicate AtOdds(qc: CloudConfig, one: Service, two: Service) {
    && Sharing(qc, one, two)
    && ConfigOf(qc, one).nodeCount.Some? && ConfigOf(qc, two).nodeCount.Some?
    && ConfigOf(qc, one).nodeCount != ConfigOf(qc, two).nodeCount
  }

  /** What suits the one does not suit the other. */
  lemma CountsApart(qc: CloudConfig, one: Service, two: Service, s: State)
    requires AtOdds(qc, one, two) && CountSet(s, ConfigOf(qc, two))
    ensures !CountSet(s, ConfigOf(qc, one))
  {
  }

  /** A successful run of the one, then one of the other. */
  ghost predicate Round(qc: CloudConfig, one: Request, two: Request, was: View, mid: View, now: View, ids: set<string>,
                        origin: State) {
    && Chained(origin, was.log, was.st) && Chained(origin, mid.log, mid.st) && Chained(origin, now.log, now.st)
    && (exists vip, id :: EnsureRun(was, mid, Ok(vip), id, one, ConfigOf(qc, one.svc), ids))
    && (exists vip, id :: EnsureRun(mid, now, Ok(vip), id, two, ConfigOf(qc, two.svc), ids))
  }

  lemma TakeRound(qc: CloudConfig, one: Request, two: Request, was: View, mid: View, now: View, ids: set<string>,
                  origin: State)
    requires AtOdds(qc, one.svc, two.svc) && BothFit(was.st, qc, one, two, ids)
    requires Round(qc, one, two, was, mid, now, ids, origin)
    ensures BothFit(now.st, qc, one, two, ids) && CountSet(now.st, ConfigOf(qc, two.svc))
    ensures |now.log| >= |was.log| + 1
    ensures CountSet(was.st, ConfigOf(qc, two.svc)) ==> |now.log| >= |was.log| + 2
  {
    var vip, id :| EnsureRun(was, mid, Ok(vip), id, one, ConfigOf(qc, one.svc), ids);
    TakeTurn(qc, one, two, was, mid, Ok(vip), id, ids, origin);
    var other, lb :| EnsureRun(mid, now, Ok(other), lb, two, ConfigOf(qc, two.svc), ids);
    TakeTurn(qc, two, one, mid, now, Ok(other), lb, ids, origin);
    CountsApart(qc, two.svc, one.svc, mid.st);
    if CountSet(was.st, ConfigOf(qc, two.svc)) { CountsApart(qc, one.svc, two.svc, was.st); }
  }

  /** Two services that share a load balancer and ask for different node counts undo each other: however often they
      take turns, every run but the first issues a call. */
  lemma {:induction false} TakeTurns(qc: CloudConfig, one: Request, two: Request, views: seq<View>, mids: seq<View>,
                                     ids: set<string>, origin: State, n: nat)
    requires |views| == |mids| + 1 && n <= |mids|
    requires AtOdds(qc, one.svc, two.svc) && BothFit(views[0].st, qc, one, two, ids)
    requires forall i | 0 <= i < |mids| :: Round(qc, one, two, views[i], mids[i], views[i + 1], ids, origin)
    ensures BothFit(views[n].st, qc, one, two, ids)
    ensures n > 0 ==> CountSet(views[n].st, ConfigOf(qc, two.svc))
    ensures n > 0 ==> |views[n].log| >= |views[0].log| + 2 * n - 1
  {
    if n > 0 {
      TakeTurns(qc, one, two, views, mids, ids, origin, n - 1);
      assert Round(qc, one, two, views[n - 1], mids[n - 1], views[n - 1 + 1], ids, origin);
      TakeRound(qc, one, two, views[n - 1], mids[n - 1], views[n], ids, origin);
    }
  }
}
