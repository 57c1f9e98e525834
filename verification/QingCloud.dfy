/** The provider: the runs Kubernetes asks for, from the annotations of a Service to the cloud
    (pkg/qingcloud/qingcloud.go). */
module Provider {
  import opened Wrappers
  import opened Apis
  import opened Sequences
  import opened Naming
  import opened CloudModel
  import opened Random
  import opened ServiceConfig
  import opened Listeners
  import opened ListenerLaws
  import opened Backends
  import opened NodeFilter
  import opened Discipline
  import opened Eips
  import opened BackendRuns
  import opened ListenerRuns
  import opened SyncLaws
  import opened SyncRuns
  import opened Balancers
  import opened EnsureRuns
  import opened UpdateRuns
  import opened DeleteRuns

  // ---------- What is asked of a run ----------

  /** A service with what the cluster knows for it: the nodes, and the endpoints if there are any. */
  datatype Request = Request(svc: Service, nodes: seq<Node>, endpoints: Option<Endpoints>)

  predicate Choosable(q: Request, conf: Config) {
    CanFilter(q.svc.policy, q.endpoints, conf)
  }

  /** The nodes the service is to be served from. */
  function Workers(q: Request, conf: Config): seq<Node>
    requires Choosable(q, conf)
  {
    Chosen(q.svc.policy, q.nodes, q.endpoints, conf)
  }

  /** How many of them. */
  ghost function WorkerLimit(q: Request, conf: Config): Option<nat>
    requires Choosable(q, conf)
  {
    LimitOf(q.svc.policy, CountFor(q.svc.policy, q.nodes, q.endpoints, conf))
  }

  /** Load balancer `id` is all that the request asks for. */
  ghost predicate Fulfilled(s: State, id: string, q: Request, conf: Config) {
    Choosable(q, conf) && Settled(s, id, conf, q.svc.ports, Workers(q, conf), WorkerLimit(q, conf))
  }

  /** What the guarantees of a run rest on, beside the invariant: one load balancer answers to the
      configuration, the protocol annotation keeps the transports, and one page holds the ports as
      well as the listeners that are there. */
  ghost predicate Manageable(s: State, conf: Config, ports: seq<ServicePort>) {
    && Unambiguous(s, conf) && PortsOK(AttrsOf(conf.listener), ports) && 0 < |ports| <= PAGE_LIMIT
    && forall id | Names(conf, s, id) :: OwnSmall(s, id, conf.listenerName)
  }

  /** Everything is as the request asks, and there is a node to serve from. */
  ghost predicate AtRest(s: State, q: Request, conf: Config) {
    && Choosable(q, conf) && Workers(q, conf) != []
    && exists id :: Names(conf, s, id) && Fulfilled(s, id, q, conf)
  }

  /** Nothing stands in the way of a run: the load balancer named can be settled or, where there is none
      and none is named by id, made. */
  ghost predicate Doable(s: State, q: Request, conf: Config) {
    && Choosable(q, conf)
    && (forall id | Names(conf, s, id) :: Feasible(s, id, conf, q.svc.ports))
    && ((forall id :: !Names(conf, s, id)) ==> conf.policy == EXCLUSIVE && Makeable(s, conf, q.svc.ports))
  }

  /** No id is given, or that of a load balancer there is. */
  predicate Refindable(conf: Config, s: State) {
    conf.reuseLBID == "" || conf.reuseLBID in s.lbs
  }

  /** Whatever a run makes of this load balancer, an address is there to be seen, now or next time. */
  ghost predicate AddressSure(conf: Config, lb: LB) {
    && (PrivateVIPs(SettledIPs(conf, lb)) != [] || KeepsEip(conf, lb.eips))
    && (EipSettled(conf, lb.eips) ==> HasVIP(lb))
  }

  /** The load balancer a run finds, or makes, is sure of an address. */
  ghost predicate Addressable(s: State, conf: Config) {
    && (forall id | Names(conf, s, id) :: AddressSure(conf, s.lbs[id]))
    && ((forall id :: !Names(conf, s, id)) ==> GivesAddress(conf))
  }

  // ---------- Configurations ----------

  /** What every configuration read from annotations satisfies. */
  lemma ConfigSound(qc: CloudConfig, svc: Service)
    ensures var c := ConfigOf(qc, svc);
            && SourceOK(c) && EipIdsOK(c) && c.backendCountResult == 0
               && c.listenerName == ListenerName(svc.ns, svc.name)
            && (c.lbName != "" <==> c.policy == EXCLUSIVE)
            && (c.policy == EXCLUSIVE || c.policy == REUSE_EXISTING_LB || c.policy == "")
  {
  }

  /** Where the run goes on to make a load balancer, it has a name for it. */
  lemma NotFoundIsNamed(qc: CloudConfig, svc: Service, s: State)
    requires var c := ConfigOf(qc, svc);
             && (forall id :: !Names(c, s, id)) && c.policy != REUSE_EXISTING_LB
             && (c.reuseLBID != "" || c.lbName != "")
             && (c.policy == "" && c.reuseLBID != "" ==> c.reuseLBID in s.lbs)
    ensures ConfigOf(qc, svc).lbName != "" && ConfigOf(qc, svc).policy == EXCLUSIVE
  {
    var c := ConfigOf(qc, svc);
    ConfigSound(qc, svc);
    assert !Names(c, s, c.reuseLBID);
  }

  lemma WorkersReady(s: State, sc: Scope, ids: set<string>, q: Request, conf: Config)
    requires Ready(s, sc, ids, q.nodes) && Choosable(q, conf) && conf.backendCountResult == 0
    ensures Ready(s, sc, ids, Workers(q, conf))
    ensures 0 <= CountFor(q.svc.policy, q.nodes, q.endpoints, conf) <= |Workers(q, conf)|
  {
    CountIsAvailable(q.svc.policy, q.nodes, q.endpoints, conf);
    var workers := Workers(q, conf);
    forall i | 0 <= i < |workers| ensures InstanceID(workers[i]) in ids { assert workers[i] in workers
                                                                         && workers[i] in q.nodes; }
  }

  // ---------- What an ensure run achieves ----------

  /** When a change is left pending by a successful run that led from s to t: never when none was pending
      before and, with a node to serve from, exactly when one was and the run found nothing to do. */
  ghost predicate PendingLeft(s: State, t: State, id: string, q: Request, conf: Config) {
    && Choosable(q, conf) && id in t.lbs
    && (Unambiguous(s, conf) && (forall x | Names(conf, s, x) :: !s.lbs[x].pending) ==> !t.lbs[id].pending)
    && (Manageable(s, conf, q.svc.ports) && Workers(q, conf) != [] ==>
         (t.lbs[id].pending <==>
          Names(conf, s, id) && s.lbs[id].pending && AttrSettled(conf, s.lbs[id])
          && Serves(s, id, conf, q.svc.ports, Workers(q, conf), WorkerLimit(q, conf))))
  }

  /** The EIPs of load balancer `id` are those it is to have, from those it had, or from none if it was made. */
  ghost predicate EipsInTheEnd(s: State, t: State, id: string, conf: Config)
    requires id in t.lbs
  {
    if id in s.lbs then EipsReached(conf, s.lbs[id].eips, t.lbs[id].eips) else EipGoal(conf, {}, t.lbs[id].eips)
  }

  /** From s a successful run has led to t, with the load balancer of the service being `id`. It is
      found again except when the annotations name another one that does not exist. An EIP that was allocated
      is on it. */
  ghost predicate Ensured(s: State, t: State, id: string, q: Request, conf: Config) {
    && id in t.lbs
    && (Names(conf, t, id) <==> conf.reuseLBID == "" || conf.reuseLBID == id)
    && ((exists x :: Names(conf, s, x)) ==> Names(conf, s, id) && Names(conf, t, id))
    && ((forall x :: !Names(conf, s, x)) ==> id !in s.lbs && t.lbs.Keys == s.lbs.Keys + {id})
    && (Unambiguous(s, conf) ==> Unambiguous(t, conf) && NewHeld(s, t, id) && EipsInTheEnd(s, t, id, conf))
    && (Manageable(s, conf, q.svc.ports) ==> Fulfilled(t, id, q, conf))
    && PendingLeft(s, t, id, q, conf)
  }

  /** A run may allocate an EIP: in an automatic mode that finds or looks for none on offer, for a load balancer that
      is not reused and has none. */
  ghost predicate AllocatesFor(s: State, conf: Config) {
    && MayAllocate(conf, s)
    && (Unambiguous(s, conf) ==> forall x | Names(conf, s, x) :: conf.reuseLBID == "" && s.lbs[x].eips == {})
  }

  /** Every load balancer is there still, under its name; the one named has its attributes settled or as they were,
      before any EIP is changed, and of the others at most the pending mark differs. */
  ghost predicate BalancersKept(s: State, t: State, conf: Config) {
    forall x | x in s.lbs ::
      && x in t.lbs
      && if Names(conf, s, x) then HalfSettled(conf, s.lbs[x], t.lbs[x])
         else t.lbs[x] == s.lbs[x].(pending := t.lbs[x].pending)
  }

  /** The calls of a run, whether it succeeds or not: disciplined ones, among them at most one allocation of an EIP
      and that only when it is needed, no deletion of a load balancer or EIP, no creation of a listener where the
      service still holds the port, and none after which a load balancer that had an EIP and ends with one has none.
      No other load balancer and no EIP of the pool is lost or changed, and every listener asked for is as made for
      one of the ports. */
  ghost predicate WellRun(was: View, now: View, q: Request, conf: Config, ids: set<string>) {
    var s, t := was.st, now.st;
    && Went(was, now, ScopeOfConfig(conf), ids) && NoDeletion(now.log, |was.log|)
    && Allocations(now.log, |was.log|, AllocatesFor(s, conf)) && BalancersKept(s, t, conf) && PoolKept(s, t)
    && AsksOnly(now.log, |was.log|, conf.listener, conf.listenerName, q.svc.ports)
    && (Manageable(s, conf, q.svc.ports) ==> NeverClashes(now.log, |was.log|, conf.listenerName))
    && (Unambiguous(s, conf) ==> forall x | Names(conf, s, x) ::
         x in t.lbs && NeverBare(now.log, |was.log|, x, s.lbs[x].eips, t.lbs[x].eips))
  }

  /** Before a run on load balancer `id`: it comes to see no address of it, and there is more to do than
      to change EIPs. */
  ghost predicate Unaddressed(s: State, id: string, q: Request, conf: Config) {
    && Choosable(q, conf) && Names(conf, s, id) && !StaysAddressed(conf, s.lbs[id])
    && !NothingElse(s, id, conf, q.svc.ports, Workers(q, conf), WorkerLimit(q, conf))
  }

  /** The run saw no address: of the load balancer it found, which could be told beforehand, or of the one it
      made, because the configuration gives none and the cloud gave none. */
  ghost predicate SawNoAddress(was: View, now: View, id: string, q: Request, conf: Config) {
    if exists x :: Names(conf, was.st, x) then Unaddressed(was.st, id, q, conf)
    else !GivesAddress(conf) && CreatedBare(now.log, |was.log|, id)
  }

  /** What a run leaves, wherever it broke off, is as fit for a run as what it found. */
  ghost predicate StaysFit(s: State, t: State, q: Request, conf: Config) {
    Manageable(s, conf, q.svc.ports) ==>
      && Manageable(t, conf, q.svc.ports)
      && (Refindable(conf, s) ==>
           && Refindable(conf, t)
           && (Doable(s, q, conf) ==> Doable(t, q, conf))
           && (Addressable(s, conf) ==> Addressable(t, conf)))
  }

  /** What no run succeeds without: the EIPs the load balancer named still needs can be had, no other's listener
      holds one of the ports there, and what is missing among the own ones can be generated; or else, where there is
      none, it can be made. */
  ghost predicate Unobstructed(s: State, q: Request, conf: Config) {
    && Choosable(q, conf)
    && (forall id | Names(conf, s, id) ::
         && EipsObtainable(conf, s, id) && !Contested(s, id, conf, q.svc.ports)
         && Generates(s, id, conf, q.svc.ports))
    && ((forall id :: !Names(conf, s, id)) ==> conf.policy == EXCLUSIVE && Makeable(s, conf, q.svc.ports))
  }

  /** When a run fails: where nothing stands in its way, by a fault or for want of an address; and always where it is
      obstructed, or for want of an address to see on the load balancer found, unless there is nothing to do but to
      change EIPs. */
  ghost predicate FailsAsTold(was: View, now: View, r: Result<seq<string>>, id: string, q: Request, conf: Config) {
    Manageable(was.st, conf, q.svc.ports) ==>
      && (r.Err? && Doable(was.st, q, conf) ==> now.faults > was.faults || SawNoAddress(was, now, id, q, conf))
      && (r.Ok? ==> Unobstructed(was.st, q, conf))
      && (Choosable(q, conf) && Workers(q, conf) != [] ==> forall x | Unaddressed(was.st, x, q, conf) :: r.Err?)
  }

  /** What a run that succeeds has achieved; at rest there is no call, and without a choice of nodes neither. */
  ghost predicate AnswersAsAsked(was: View, now: View, r: Result<seq<string>>, id: string, q: Request, conf: Config) {
    var s, t := was.st, now.st;
    && (r.Ok? ==> Ensured(s, t, id, q, conf) && Answers(s, t, id, conf, r.value))
    && (AtRest(s, q, conf) && Manageable(s, conf, q.svc.ports) ==> Quiet(was, now, r.Ok?))
    && (!Choosable(q, conf) ==> r.Err? && now.log == was.log && t == s)
  }

  /** What an ensure run has led to, with the load balancer of the service being `id`. */
  ghost predicate EnsureRun(was: View, now: View, r: Result<seq<string>>, id: string, q: Request, conf: Config,
                            ids: set<string>) {
    && WellRun(was, now, q, conf, ids) && StaysFit(was.st, now.st, q, conf)
    && AnswersAsAsked(was, now, r, id, q, conf) && FailsAsTold(was, now, r, id, q, conf)
  }

  /** Nothing but faults happened from one moment to the other. */
  ghost predicate Idle(was: View, now: View) {
    now == was.(faults := now.faults) && was.faults <= now.faults
  }

  /** A run that has issued no call. */
  lemma IdleIsWellRun(was: View, now: View, q: Request, conf: Config, ids: set<string>)
    requires Idle(was, now) && Inv(was.st, conf.listenerName, ids)
    ensures WellRun(was, now, q, conf, ids)
  {
  }

  /** A run that gave up before its first call: a read failed, there is nothing to work on and nothing may
      be made, or the nodes cannot be chosen. */
  lemma GivenUp(was: View, now: View, id: string, q: Request, conf: Config, ids: set<string>)
    requires Idle(was, now) && Inv(was.st, conf.listenerName, ids)
    requires || now.faults > was.faults || !Choosable(q, conf)
             || (conf.policy != EXCLUSIVE && forall x :: !Names(conf, was.st, x))
    ensures EnsureRun(was, now, Err(Failed), id, q, conf, ids)
  {
    IdleIsWellRun(was, now, q, conf, ids);
  }

  /** Reading first makes no difference. */
  lemma ReadFirst(was: View, mid: View, now: View, r: Result<seq<string>>, id: string, q: Request, conf: Config,
                  ids: set<string>)
    requires Idle(was, mid) && EnsureRun(mid, now, r, id, q, conf, ids)
    ensures EnsureRun(was, now, r, id, q, conf, ids)
  {
  }

  /** The configuration as a run uses it once the nodes are chosen. */
  ghost function Counted(q: Request, conf: Config): Config
    requires Choosable(q, conf)
  {
    conf.(backendCountResult := CountFor(q.svc.policy, q.nodes, q.endpoints, conf))
  }

  lemma CountedSame(q: Request, conf: Config, s: State)
    requires Choosable(q, conf)
    ensures ScopeOfConfig(Counted(q, conf)) == ScopeOfConfig(conf)
    ensures forall id :: Names(Counted(q, conf), s, id) <==> Names(conf, s, id)
    ensures Unambiguous(s, Counted(q, conf)) <==> Unambiguous(s, conf)
    ensures forall id :: Limits(s, id, Counted(q, conf), q.svc.ports) <==> Limits(s, id, conf, q.svc.ports)
    ensures forall id :: Feasible(s, id, Counted(q, conf), q.svc.ports) <==> Feasible(s, id, conf, q.svc.ports)
    ensures forall id, nodes, limit ::
              Settled(s, id, Counted(q, conf), q.svc.ports, nodes, limit) <==>
                Settled(s, id, conf, q.svc.ports, nodes, limit)
  {
  }

  /** What was brought about on a load balancer found is what the request asks for. */
  lemma BroughtIsEnsured(s: State, t: State, id0: string, id: string, q: Request, conf: Config)
    requires Choosable(q, conf) && Names(conf, s, id0) && forall x :: Names(conf, t, x) <==> Names(conf, s, x)
    requires Brought(s, t, id0, id, Counted(q, conf), q.svc.ports, Workers(q, conf), WorkerLimit(q, conf))
    requires NewHeld(s, t, id0) && id0 in t.lbs && EipsReached(conf, s.lbs[id0].eips, t.lbs[id0].eips)
    ensures Ensured(s, t, id, q, conf)
  {
    CountedSame(q, conf, s);
    CountedSame(q, conf, t);
    if Manageable(s, conf, q.svc.ports) { assert Limits(s, id0, conf, q.svc.ports); }
  }

  lemma NewEnsured(s: State, t: State, id: string, q: Request, conf: Config)
    requires Choosable(q, conf) && conf.lbName != "" && forall x :: !Names(conf, s, x)
    requires BalancerAdded(s, t, id, conf) && !t.lbs[id].pending && NewHeld(s, t, id)
    requires |q.svc.ports| <= PAGE_LIMIT && PortsOK(AttrsOf(conf.listener), q.svc.ports) ==>
               Settled(t, id, conf, q.svc.ports, Workers(q, conf), WorkerLimit(q, conf))
    ensures Ensured(s, t, id, q, conf)
  {
    forall x | Names(conf, t, x) ensures x == if conf.reuseLBID == "" then id else conf.reuseLBID {
      assert !Names(conf, s, x);
    }
  }

  /** A run that nothing stands in the way of finds a load balancer nothing stands in the way of. */
  lemma DoableFound(s: State, id: string, q: Request, conf: Config)
    requires Doable(s, q, conf) && Manageable(s, conf, q.svc.ports) && Names(conf, s, id)
    ensures Unambiguous(s, Counted(q, conf)) && Limits(s, id, Counted(q, conf), q.svc.ports)
    ensures Feasible(s, id, Counted(q, conf), q.svc.ports)
  {
    CountedSame(q, conf, s);
  }

  /** What is at rest is the load balancer that the run finds. */
  lemma AtRestFound(s: State, id: string, q: Request, conf: Config)
    requires AtRest(s, q, conf) && Manageable(s, conf, q.svc.ports) && Names(conf, s, id)
    ensures Limits(s, id, Counted(q, conf), q.svc.ports)
    ensures Settled(s, id, Counted(q, conf), q.svc.ports, Workers(q, conf), WorkerLimit(q, conf))
  {
  }

  lemma FoundIsWellRun(was: View, now: View, id0: string, q: Request, conf: Config, ids: set<string>)
    requires Choosable(q, conf) && Names(conf, was.st, id0)
    requires ExistingCalls(was, now, id0, Counted(q, conf), q.svc.ports, ids)
    ensures WellRun(was, now, q, conf, ids)
  {
    CountedSame(q, conf, was.st);
    WithoutDeletion(ScopeOfConfig(conf), ids, now.log, |was.log|);
    if Manageable(was.st, conf, q.svc.ports) { assert Limits(was.st, id0, conf, q.svc.ports); }
  }

  // ---------- What a run leaves for the next one ----------

  /** An EIP nobody held, or only the load balancer worked on did, is free once that one lacks it. */
  lemma StaysFree(s: State, t: State, id: string, e: string)
    requires s.Valid() && id in s.lbs && OthersKept(s, t, id) && PoolKept(s, t)
    requires Free(s, e) || e in s.lbs[id].eips
    requires e !in t.lbs[id].eips
    ensures Free(t, e) && (Offered(s, e) ==> Offered(t, e))
  {
    forall x | x in t.lbs ensures e !in t.lbs[x].eips {
      if x != id && e in s.lbs[id].eips { assert Apart(s.lbs[id], s.lbs[x]); }
    }
  }

  lemma FeasibleStays(s: State, t: State, id: string, conf: Config, ports: seq<ServicePort>, sc: Scope)
    requires s.Valid() && Untouched(sc, s, t) && sc.prefix == conf.listenerName
    requires id in s.lbs && OthersKept(s, t, id) && PoolKept(s, t) && HalfSettled(conf, s.lbs[id], t.lbs[id])
    requires Feasible(s, id, conf, ports)
    ensures Feasible(t, id, conf, ports)
  {
    var have := t.lbs[id].eips;
    if conf.reuseLBID == "" {
      if conf.eip.ids.Some? {
        forall e | e in conf.eip.ids.value && e !in have ensures Free(t, e) { StaysFree(s, t, id, e); }
      } else if conf.eip.source == Some(USE_AVAILABLE_ONLY) && have == {} {
        assert s.lbs[id].eips == {};
        var e :| Offered(s, e);
        StaysFree(s, t, id, e);
      }
    }
  }

  lemma AddressStays(conf: Config, was: LB, now: LB)
    requires AddressSure(conf, was) && HalfSettled(conf, was, now) && SourceOK(conf) && EipIdsOK(conf)
    ensures AddressSure(conf, now)
  {
    if conf.eip.ids.Some? { assert conf.eip.ids.value[0] in Elements(conf.eip.ids.value); }
  }

  /** A run on a load balancer that was found keeps what `Manageable` asks for. */
  lemma FoundStaysManageable(was: View, now: View, id0: string, q: Request, conf: Config, ids: set<string>)
    requires Choosable(q, conf) && Names(conf, was.st, id0)
    requires ExistingCalls(was, now, id0, Counted(q, conf), q.svc.ports, ids)
    requires Manageable(was.st, conf, q.svc.ports)
    ensures Manageable(now.st, conf, q.svc.ports)
    ensures forall x :: Names(conf, now.st, x) <==> x == id0
  {
    CountedSame(q, conf, was.st);
    CountedSame(q, conf, now.st);
    assert Limits(was.st, id0, conf, q.svc.ports);
  }

  lemma FoundFrame(was: View, now: View, id0: string, q: Request, conf: Config, ids: set<string>)
    requires Choosable(q, conf) && Names(conf, was.st, id0)
    requires ExistingCalls(was, now, id0, Counted(q, conf), q.svc.ports, ids)
    ensures Names(conf, now.st, id0) && OthersKept(was.st, now.st, id0) && PoolKept(was.st, now.st)
    ensures HalfSettled(conf, was.st.lbs[id0], now.st.lbs[id0])
    ensures Went(was, now, ScopeOfConfig(conf), ids)
  {
    CountedSame(q, conf, now.st);
  }

  /** Where nothing stood in the way, nothing stands in the way the next time. */
  lemma FoundStaysDoable(was: View, now: View, id0: string, q: Request, conf: Config, ids: set<string>, origin: State)
    requires Chained(origin, was.log, was.st) && Chained(origin, now.log, now.st)
    requires Inv(was.st, conf.listenerName, ids)
    requires Choosable(q, conf) && Names(conf, was.st, id0)
    requires ExistingCalls(was, now, id0, Counted(q, conf), q.svc.ports, ids)
    requires Manageable(was.st, conf, q.svc.ports) && Doable(was.st, q, conf)
    ensures Doable(now.st, q, conf)
  {
    FoundStaysManageable(was, now, id0, q, conf, ids);
    FoundFrame(was, now, id0, q, conf, ids);
    RunUntouched(ScopeOfConfig(conf), ids, origin, was.log, was.st, now.log, now.st);
    FeasibleStays(was.st, now.st, id0, conf, q.svc.ports, ScopeOfConfig(conf));
    DoableByOne(now.st, id0, q, conf);
  }

  lemma DoableByOne(s: State, id: string, q: Request, conf: Config)
    requires Choosable(q, conf) && (forall x :: Names(conf, s, x) <==> x == id) && Feasible(s, id, conf, q.svc.ports)
    ensures Doable(s, q, conf)
  {
    assert Names(conf, s, id);
  }

  lemma FoundStaysAddressable(was: View, now: View, id0: string, q: Request, conf: Config, ids: set<string>)
    requires Choosable(q, conf) && Names(conf, was.st, id0) && SourceOK(conf) && EipIdsOK(conf)
    requires ExistingCalls(was, now, id0, Counted(q, conf), q.svc.ports, ids)
    requires Manageable(was.st, conf, q.svc.ports) && Addressable(was.st, conf)
    ensures Addressable(now.st, conf)
  {
    FoundStaysManageable(was, now, id0, q, conf, ids);
    FoundFrame(was, now, id0, q, conf, ids);
    AddressStays(conf, was.st.lbs[id0], now.st.lbs[id0]);
  }

  lemma FoundStaysFit(was: View, now: View, id0: string, q: Request, conf: Config, ids: set<string>, origin: State)
    requires Chained(origin, was.log, was.st) && Chained(origin, now.log, now.st)
    requires Inv(was.st, conf.listenerName, ids)
    requires Choosable(q, conf) && Names(conf, was.st, id0) && SourceOK(conf) && EipIdsOK(conf)
    requires ExistingCalls(was, now, id0, Counted(q, conf), q.svc.ports, ids)
    ensures StaysFit(was.st, now.st, q, conf)
  {
    if Manageable(was.st, conf, q.svc.ports) {
      FoundStaysManageable(was, now, id0, q, conf, ids);
      if Doable(was.st, q, conf) { FoundStaysDoable(was, now, id0, q, conf, ids, origin); }
      if Addressable(was.st, conf) { FoundStaysAddressable(was, now, id0, q, conf, ids); }
    }
  }

  lemma MakeableStays(s: State, t: State, conf: Config, ports: seq<ServicePort>)
    requires Makeable(s, conf, ports) && t.lbs == s.lbs && PoolKept(s, t)
    ensures Makeable(t, conf, ports)
  {
    forall e ensures (Free(s, e) ==> Free(t, e)) && (Offered(s, e) ==> Offered(t, e)) {
      assert Attached(t, e) <==> Attached(s, e);
    }
  }

  lemma AddedIsFeasible(s: State, t: State, id: string, conf: Config, ports: seq<ServicePort>, sc: Scope)
    requires s.Valid() && Untouched(sc, s, t) && sc.prefix == conf.listenerName
    requires BalancerAdded(s, t, id, conf) && Makeable(s, conf, ports)
    ensures Feasible(t, id, conf, ports)
    ensures GivesAddress(conf) ==> AddressSure(conf, t.lbs[id])
  {
    forall k | k in t.listeners && !Own(t.listeners[k], sc.prefix) ensures t.listeners[k].spec.lb != id {
      assert s.ListenerValid(k);
    }
  }

  /** A run that found none. */
  lemma MadeStaysFit(was: View, now: View, id: string, q: Request, conf: Config, ids: set<string>, origin: State)
    requires Chained(origin, was.log, was.st) && Chained(origin, now.log, now.st)
    requires Inv(was.st, conf.listenerName, ids) && Went(was, now, ScopeOfConfig(conf), ids)
    requires Choosable(q, conf) && conf.lbName != "" && forall x :: !Names(conf, was.st, x)
    requires AddedOrNot(was.st, now.st, id, conf, q.svc.ports)
    ensures StaysFit(was.st, now.st, q, conf)
  {
    var s, t, sc := was.st, now.st, ScopeOfConfig(conf);
    RunUntouched(sc, ids, origin, was.log, s, now.log, t);
    forall x | Names(conf, t, x) ensures x == id && BalancerAdded(s, t, id, conf) { assert !Names(conf, s, x); }
    if Refindable(conf, s) {
      assert conf.reuseLBID == "" by { assert !Names(conf, s, conf.reuseLBID); }
      if Doable(s, q, conf) {
        if t.lbs == s.lbs {
          forall x ensures !Names(conf, t, x) { assert !Names(conf, s, x); }
          MakeableStays(s, t, conf, q.svc.ports);
        } else {
          assert Names(conf, t, id);
          AddedIsFeasible(s, t, id, conf, q.svc.ports, sc);
        }
      }
    }
  }

  // ---------- The two branches ----------

  /** Where nothing stands in the way, only a fault or a missing address makes the branch fail. */
  lemma FoundFailure(was: View, now: View, r: Result<seq<string>>, id0: string, id: string, q: Request, conf: Config,
                     ids: set<string>)
    requires Choosable(q, conf) && Names(conf, was.st, id0) && r.Err? && SourceOK(conf)
    requires ExistingRun(was, now, r, id0, id, Counted(q, conf), q.svc.ports, Workers(q, conf), WorkerLimit(q, conf),
                         ids)
    requires Doable(was.st, q, conf) && Manageable(was.st, conf, q.svc.ports)
    ensures now.faults > was.faults || Unaddressed(was.st, id0, q, conf)
  {
    DoableFound(was.st, id0, q, conf);
  }

  /** Without an address to see, the branch fails if there is anything to do. */
  lemma FoundUnaddressed(was: View, now: View, r: Result<seq<string>>, id0: string, id: string, q: Request,
                         conf: Config, ids: set<string>)
    requires Choosable(q, conf) && Names(conf, was.st, id0) && SourceOK(conf) && Workers(q, conf) != []
    requires ExistingRun(was, now, r, id0, id, Counted(q, conf), q.svc.ports, Workers(q, conf),
                         WorkerLimit(q, conf), ids)
    requires Manageable(was.st, conf, q.svc.ports) && Unaddressed(was.st, id0, q, conf)
    ensures r.Err?
  {
    CountedSame(q, conf, was.st);
    assert Limits(was.st, id0, conf, q.svc.ports);
  }

  /** A branch that succeeded found nothing in its way. */
  lemma FoundUnobstructed(was: View, now: View, r: Result<seq<string>>, id0: string, id: string, q: Request,
                          conf: Config, ids: set<string>, origin: State)
    requires Chained(origin, was.log, was.st) && Chained(origin, now.log, now.st)
    requires Inv(was.st, conf.listenerName, ids)
    requires Choosable(q, conf) && Names(conf, was.st, id0) && r.Ok?
    requires ExistingRun(was, now, r, id0, id, Counted(q, conf), q.svc.ports, Workers(q, conf), WorkerLimit(q, conf),
                         ids)
    requires Manageable(was.st, conf, q.svc.ports)
    ensures Unobstructed(was.st, q, conf)
  {
    var a, ports := AttrsOf(conf.listener), q.svc.ports;
    CountedSame(q, conf, was.st);
    assert Limits(was.st, id0, conf, ports) && Serves(now.st, id0, conf, ports, Workers(q, conf), WorkerLimit(q, conf));
    RunUntouched(ScopeOfConfig(conf), ids, origin, was.log, was.st, now.log, now.st);
    ConvergedUncontested(now.st, id0, conf.listenerName, a, conf.listenerName, ports, Workers(q, conf),
                         WorkerLimit(q, conf));
    if Contested(was.st, id0, conf, ports) {
      ContestedStays(ScopeOfConfig(conf), was.st, now.st, id0, a, conf.listenerName, ports);
    }
  }

  lemma FoundFails(was: View, now: View, r: Result<seq<string>>, id0: string, id: string, q: Request, conf: Config,
                   ids: set<string>, origin: State)
    requires Chained(origin, was.log, was.st) && Chained(origin, now.log, now.st)
    requires Inv(was.st, conf.listenerName, ids)
    requires Choosable(q, conf) && Names(conf, was.st, id0) && SourceOK(conf)
    requires ExistingRun(was, now, r, id0, id, Counted(q, conf), q.svc.ports, Workers(q, conf), WorkerLimit(q, conf),
                         ids)
    ensures FailsAsTold(was, now, r, id0, q, conf)
  {
    if Manageable(was.st, conf, q.svc.ports) {
      if r.Err? && Doable(was.st, q, conf) { FoundFailure(was, now, r, id0, id, q, conf, ids); }
      if r.Ok? { FoundUnobstructed(was, now, r, id0, id, q, conf, ids, origin); }
      if Workers(q, conf) != [] && Unaddressed(was.st, id0, q, conf) {
        FoundUnaddressed(was, now, r, id0, id, q, conf, ids);
      }
    }
  }

  /** At rest there is no call. */
  lemma FoundQuiet(was: View, now: View, r: Result<seq<string>>, id0: string, id: string, q: Request, conf: Config,
                   ids: set<string>)
    requires Choosable(q, conf) && Names(conf, was.st, id0) && SourceOK(conf)
    requires ExistingRun(was, now, r, id0, id, Counted(q, conf), q.svc.ports, Workers(q, conf), WorkerLimit(q, conf),
                         ids)
    requires AtRest(was.st, q, conf) && Manageable(was.st, conf, q.svc.ports)
    ensures Quiet(was, now, r.Ok?)
  {
    AtRestFound(was.st, id0, q, conf);
  }

  lemma FoundAnswers(was: View, now: View, r: Result<seq<string>>, id0: string, id: string, q: Request, conf: Config,
                     ids: set<string>)
    requires Choosable(q, conf) && Names(conf, was.st, id0) && SourceOK(conf)
    requires ExistingRun(was, now, r, id0, id, Counted(q, conf), q.svc.ports, Workers(q, conf), WorkerLimit(q, conf),
                         ids)
    ensures AnswersAsAsked(was, now, r, id, q, conf)
  {
    if AtRest(was.st, q, conf) && Manageable(was.st, conf, q.svc.ports) {
      FoundQuiet(was, now, r, id0, id, q, conf, ids);
    }
    if r.Ok? {
      CountedSame(q, conf, was.st);
      CountedSame(q, conf, now.st);
      BroughtIsEnsured(was.st, now.st, id0, id, q, conf);
    }
  }

  /** The branch for a load balancer that was found, in terms of the request. */
  lemma FoundIsEnsureRun(was: View, now: View, r: Result<seq<string>>, id0: string, id: string, q: Request,
                         conf: Config, ids: set<string>, origin: State)
    requires Chained(origin, was.log, was.st) && Chained(origin, now.log, now.st)
    requires Inv(was.st, conf.listenerName, ids)
    requires Choosable(q, conf) && Names(conf, was.st, id0) && SourceOK(conf) && EipIdsOK(conf)
    requires ExistingRun(was, now, r, id0, id, Counted(q, conf), q.svc.ports, Workers(q, conf), WorkerLimit(q, conf),
                         ids)
    ensures EnsureRun(was, now, r, if r.Ok? then id else id0, q, conf, ids)
  {
    FoundIsWellRun(was, now, id0, q, conf, ids);
    FoundStaysFit(was, now, id0, q, conf, ids, origin);
    FoundAnswers(was, now, r, id0, id, q, conf, ids);
    FoundFails(was, now, r, id0, id, q, conf, ids, origin);
  }

  lemma MadeIsWellRun(was: View, now: View, r: Result<seq<string>>, id: string, q: Request, conf: Config,
                      ids: set<string>)
    requires Choosable(q, conf) && forall x :: !Names(conf, was.st, x)
    requires NewRun(was, now, r, id, Counted(q, conf), q.svc.ports, Workers(q, conf), WorkerLimit(q, conf), ids)
    ensures WellRun(was, now, q, conf, ids)
  {
    WithoutDeletion(ScopeOfConfig(conf), ids, now.log, |was.log|);
  }

  lemma MadeFails(was: View, now: View, r: Result<seq<string>>, id: string, q: Request, conf: Config, ids: set<string>)
    requires Choosable(q, conf) && conf.policy == EXCLUSIVE && SourceOK(conf) && forall x :: !Names(conf, was.st, x)
    requires NewRun(was, now, r, id, Counted(q, conf), q.svc.ports, Workers(q, conf), WorkerLimit(q, conf), ids)
    ensures FailsAsTold(was, now, r, id, q, conf)
  {
  }

  lemma MadeFrame(was: View, now: View, r: Result<seq<string>>, id: string, q: Request, conf: Config, ids: set<string>)
    requires Choosable(q, conf)
    requires NewRun(was, now, r, id, Counted(q, conf), q.svc.ports, Workers(q, conf), WorkerLimit(q, conf), ids)
    ensures AddedOrNot(was.st, now.st, id, conf, q.svc.ports) && Went(was, now, ScopeOfConfig(conf), ids)
  {
  }

  /** The branch for a load balancer that is made, in terms of the request. */
  lemma MadeIsEnsureRun(was: View, now: View, r: Result<seq<string>>, id: string, q: Request, conf: Config,
                        ids: set<string>, origin: State)
    requires Chained(origin, was.log, was.st) && Chained(origin, now.log, now.st)
    requires Inv(was.st, conf.listenerName, ids)
    requires Choosable(q, conf) && conf.lbName != "" && forall x :: !Names(conf, was.st, x)
    requires conf.policy == EXCLUSIVE && SourceOK(conf)
    requires NewRun(was, now, r, id, Counted(q, conf), q.svc.ports, Workers(q, conf), WorkerLimit(q, conf), ids)
    ensures EnsureRun(was, now, r, id, q, conf, ids)
  {
    MadeIsWellRun(was, now, r, id, q, conf, ids);
    MadeFrame(was, now, r, id, q, conf, ids);
    MadeStaysFit(was, now, id, q, conf, ids, origin);
    MadeFails(was, now, r, id, q, conf, ids);
    MadeAnswers(was, now, r, id, q, conf, ids);
  }

  lemma MadeAnswers(was: View, now: View, r: Result<seq<string>>, id: string, q: Request, conf: Config,
                    ids: set<string>)
    requires Choosable(q, conf) && conf.lbName != "" && forall x :: !Names(conf, was.st, x)
    requires NewRun(was, now, r, id, Counted(q, conf), q.svc.ports, Workers(q, conf), WorkerLimit(q, conf), ids)
    ensures AnswersAsAsked(was, now, r, id, q, conf)
  {
    if r.Ok? { NewEnsured(was.st, now.st, id, q, conf); }
  }

  // ---------- What an update run achieves ----------

  /** The listeners of the service on load balancer `id` follow the nodes. */
  ghost predicate Following(s: State, id: string, q: Request, conf: Config) {
    Choosable(q, conf) && AllFollow(s, id, conf.listenerName, Workers(q, conf), WorkerLimit(q, conf))
  }

  /** From s a successful update has led to t on load balancer `id`. */
  ghost predicate Updated(s: State, t: State, id: string, q: Request, conf: Config) {
    && Choosable(q, conf) && Names(conf, s, id) && LBKept(s, t, id)
    && (OwnSmall(s, id, conf.listenerName) ==> Following(t, id, q, conf))
    && (OwnSmall(s, id, conf.listenerName) && PortsOK(AttrsOf(conf.listener), q.svc.ports)
        && Listening(s, id, conf.listenerName, AttrsOf(conf.listener), q.svc.ports) ==>
          Converged(t, id, conf.listenerName, AttrsOf(conf.listener), q.svc.ports, Workers(q, conf),
                    WorkerLimit(q, conf)))
    && (!t.lbs[id].pending || t == s)
  }

  /** Nothing stands in the way of an update: there is a load balancer, and its own listeners have node ports. */
  ghost predicate Updatable(s: State, q: Request, conf: Config) {
    && Choosable(q, conf) && (exists id :: Names(conf, s, id))
    && (forall id | Names(conf, s, id) :: OwnPortsKnown(s, id, conf.listenerName, q.svc.ports))
  }

  /** Of load balancers and EIPs at most pending marks differ. */
  ghost predicate OnlyMarks(s: State, t: State) {
    && t.lbs.Keys == s.lbs.Keys && t.eips == s.eips
    && forall x | x in s.lbs :: t.lbs[x] == s.lbs[x].(pending := t.lbs[x].pending)
  }

  /** What an update run achieves, when it fails, and when there is nothing to do. */
  ghost predicate UpdatesAsAsked(was: View, now: View, ok: bool, id: string, q: Request, conf: Config) {
    var s, t := was.st, now.st;
    && (ok ==> Updated(s, t, id, q, conf))
    && (!ok && Updatable(s, q, conf) ==> now.faults > was.faults)
    && (ok ==> Names(conf, s, id) && Choosable(q, conf)
               && (Workers(q, conf) != [] && OwnSmall(s, id, conf.listenerName) ==>
                    OwnPortsKnown(s, id, conf.listenerName, q.svc.ports)))
    && ((forall x | Names(conf, s, x) :: Following(s, x, q, conf)) ==> now.log == was.log && t == s)
  }

  /** What an update run has led to, with `id` being the load balancer that was found, if any. */
  ghost predicate UpdateDone(was: View, now: View, ok: bool, id: string, q: Request, conf: Config, ids: set<string>) {
    && Went(was, now, ScopeOfConfig(conf), ids) && UpdateCalls(now.log, |was.log|) && SpecsKept(was.st, now.st)
    && OnlyMarks(was.st, now.st)
    && StaysFit(was.st, now.st, q, conf) && UpdatesAsAsked(was, now, ok, id, q, conf)
  }

  /** An update that gave up before its first call. */
  lemma NotUpdated(was: View, now: View, id: string, q: Request, conf: Config, ids: set<string>)
    requires Idle(was, now) && Inv(was.st, conf.listenerName, ids)
    requires now.faults > was.faults || !Choosable(q, conf) || forall x :: !Names(conf, was.st, x)
    ensures UpdateDone(was, now, false, id, q, conf, ids)
  {
  }

  /** Where only backends change, and the pending mark, all stays as fit as it was. */
  lemma KeptStaysFit(s: State, t: State, id: string, q: Request, conf: Config, sc: Scope)
    requires s.Valid() && Untouched(sc, s, t) && sc.prefix == conf.listenerName
    requires Names(conf, s, id) && SpecsKept(s, t) && LBKept(s, t, id) && SourceOK(conf) && EipIdsOK(conf)
    ensures StaysFit(s, t, q, conf)
  {
    NamesKept(conf, s, t, id);
    if Manageable(s, conf, q.svc.ports) {
      FewerStaysManageable(s, t, conf, q.svc.ports);
      if Doable(s, q, conf) {
        FeasibleStays(s, t, id, conf, q.svc.ports, sc);
        DoableByOne(t, id, q, conf);
      }
      if Addressable(s, conf) {
        AddressStays(conf, s.lbs[id], t.lbs[id]);
        assert Names(conf, t, id);
      }
    }
  }

  /** With no more load balancers and listeners than before, all stays manageable. */
  lemma FewerStaysManageable(s: State, t: State, conf: Config, ports: seq<ServicePort>)
    requires Manageable(s, conf, ports) && Fewer(s, t)
    ensures Manageable(t, conf, ports)
  {
    forall id | Names(conf, t, id) ensures Names(conf, s, id) && OwnSmall(t, id, conf.listenerName) {
      assert Names(conf, s, id);
      SubsetCount(OwnSet(t, id, conf.listenerName), OwnSet(s, id, conf.listenerName));
    }
  }

  /** The run on the load balancer found, in terms of the request. */
  lemma RunIsUpdate(was: View, now: View, ok: bool, id: string, q: Request, conf: Config, ids: set<string>,
                    origin: State)
    requires Chained(origin, was.log, was.st) && Chained(origin, now.log, now.st)
    requires Inv(was.st, conf.listenerName, ids)
    requires Choosable(q, conf) && Names(conf, was.st, id) && SourceOK(conf) && EipIdsOK(conf)
    requires UpdateRun(was, now, ok, id, Counted(q, conf), q.svc.ports, Workers(q, conf), WorkerLimit(q, conf), ids)
    ensures UpdateDone(was, now, ok, id, q, conf, ids)
  {
    RunUpdates(was, now, ok, id, q, conf, ids);
    UpdateFrame(was, now, ok, id, q, conf, ids);
    RunUntouched(ScopeOfConfig(conf), ids, origin, was.log, was.st, now.log, now.st);
    KeptStaysFit(was.st, now.st, id, q, conf, ScopeOfConfig(conf));
  }

  lemma UpdateFrame(was: View, now: View, ok: bool, id: string, q: Request, conf: Config, ids: set<string>)
    requires Choosable(q, conf) && Names(conf, was.st, id)
    requires UpdateRun(was, now, ok, id, Counted(q, conf), q.svc.ports, Workers(q, conf), WorkerLimit(q, conf), ids)
    ensures Went(was, now, ScopeOfConfig(conf), ids) && UpdateCalls(now.log, |was.log|)
    ensures SpecsKept(was.st, now.st) && LBKept(was.st, now.st, id) && OnlyMarks(was.st, now.st)
  {
  }

  lemma RunUpdates(was: View, now: View, ok: bool, id: string, q: Request, conf: Config, ids: set<string>)
    requires Choosable(q, conf) && Names(conf, was.st, id)
    requires UpdateRun(was, now, ok, id, Counted(q, conf), q.svc.ports, Workers(q, conf), WorkerLimit(q, conf), ids)
    ensures UpdatesAsAsked(was, now, ok, id, q, conf)
  {
    if ok { FollowedIsUpdated(was, now, id, q, conf, ids); }
    if forall x | Names(conf, was.st, x) :: Following(was.st, x, q, conf) {
      assert Following(was.st, id, q, conf);
    }
  }

  lemma FollowedIsUpdated(was: View, now: View, id: string, q: Request, conf: Config, ids: set<string>)
    requires Choosable(q, conf) && Names(conf, was.st, id)
    requires UpdateRun(was, now, true, id, Counted(q, conf), q.svc.ports, Workers(q, conf), WorkerLimit(q, conf), ids)
    ensures Updated(was.st, now.st, id, q, conf)
  {
  }

  lemma ReadThenUpdate(was: View, mid: View, now: View, ok: bool, id: string, q: Request, conf: Config,
                       ids: set<string>)
    requires Idle(was, mid) && UpdateDone(mid, now, ok, id, q, conf, ids)
    ensures UpdateDone(was, now, ok, id, q, conf, ids)
  {
  }

  // ---------- Deletion ----------

  /** The configuration of a deletion: it looks at two annotations only, and at the id only under reuse-lb. */
  function DeletionConfig(qc: CloudConfig, svc: Service): Config {
    var a := svc.annotations;
    Config(NO_EIP, None, None, None, None, NO_ATTRS, "", "", 0, "", "",
           if Get(a, LB_POLICY) == REUSE_EXISTING_LB then Get(a, LB_ID) else "",
           LBName(qc.clusterID, svc), ListenerName(svc.ns, svc.name))
  }

  /** The calls of a deletion on load balancer `id`, found in state s. */
  ghost predicate DeletionCalls(log: seq<Step>, from: nat, s: State, id: string, conf: Config) {
    if SharedWith(conf, s, id) then ListenerDeletion(log, from) else BalancerDeletion(log, from, id, conf.listenerName)
  }

  /** From s a successful deletion has led to t. */
  ghost predicate Deleted(s: State, t: State, id: string, conf: Config) {
    && Names(conf, s, id) && NoOwn(t, id, conf.listenerName)
    && (if SharedWith(conf, s, id)
        then OwnRemoved(s, t, id, conf.listenerName) && (!t.lbs[id].pending || t == s)
        else BalancerGone(s, t, id) && AllocatedReleased(s, t, id))
  }

  /** Nothing is left to delete. */
  ghost predicate Clean(s: State, conf: Config) {
    forall id | Names(conf, s, id) :: SharedWith(conf, s, id) && NoOwn(s, id, conf.listenerName)
  }

  /** On load balancer `id` there are in t exactly the listeners that were there in s and are not the
      service's, and its EIPs are the same. */
  ghost predicate ForeignSame(s: State, t: State, id: string, prefix: string) {
    && (forall k :: k in t.listeners && t.listeners[k].spec.lb == id <==>
                    k in s.listeners && s.listeners[k].spec.lb == id && !Own(s.listeners[k], prefix))
    && (forall k | k in t.listeners && t.listeners[k].spec.lb == id :: t.listeners[k] == s.listeners[k])
    && id in s.lbs && id in t.lbs && t.lbs[id].eips == s.lbs[id].eips
  }

  lemma DeletionMakesNothing(log: seq<Step>, from: nat, s: State, id: string, conf: Config)
    requires DeletionCalls(log, from, s, id, conf)
    ensures NothingMade(log, from)
  {
  }

  /** What a deletion has led to, with `id` being the load balancer that was found, if any. */
  ghost predicate DeletionRun(was: View, now: View, ok: bool, id: Option<string>, conf: Config, ids: set<string>) {
    var s, t := was.st, now.st;
    && Went(was, now, DeletionScope(conf), ids) && Fewer(s, t)
    && (id.None? ==> now.log == was.log && t == s && (ok ==> forall x :: !Names(conf, s, x)))
    && (id.Some? ==> Names(conf, s, id.value) && DeletionCalls(now.log, |was.log|, s, id.value, conf))
    && (if ok then id.Some? ==> Deleted(s, t, id.value, conf) else now.faults > was.faults)
    && (Clean(s, conf) ==> Quiet(was, now, ok))
  }

  /** The deletion on the load balancer that was found after some reading. */
  lemma FoundIsDeletionRun(was: View, mid: View, now: View, ok: bool, id: string, conf: Config, ids: set<string>,
                           origin: State)
    requires Chained(origin, was.log, was.st) && Chained(origin, now.log, now.st)
    requires Idle(was, mid) && Names(conf, was.st, id) && FoundDeletion(mid, now, ok, id, conf, ids)
    ensures DeletionRun(was, now, ok, Some(id), conf, ids)
  {
    DeletionMakesNothing(now.log, |was.log|, was.st, id, conf);
    RunIsFewer(origin, was.log, was.st, now.log, now.st);
  }

  class QingCloud {
    const config: CloudConfig
    const client: Cloud
    const reader: Reader

    constructor (config: CloudConfig, client: Cloud, reader: Reader)
      ensures this.config == config && this.client == client && this.reader == reader
    {
      this.config, this.client, this.reader := config, client, reader;
    }

    /** Reads the configuration, then looks its load balancer up. */
    method GetLoadBalancer(svc: Service) returns (conf: LoadBalancerConfig?, r: Result<LoadBalancer>)
      requires client.Valid()
      modifies client`faults
      ensures client.faults >= old(client.faults)
      ensures conf != null <==> Parses(svc)
      ensures conf != null ==> fresh(conf) && conf.fields == ConfigOf(config, svc)
      ensures r.Ok? ==> conf != null && fresh(r.value) && Names(conf.fields, client.st, r.value.status.id)
                        && SnapshotOf(client.st, r.value.status.id, r.value.spec, r.value.status)
      ensures r == Err(ResourceNotFound) ==> conf != null && forall id :: !Names(conf.fields, client.st, id)
      ensures r == Err(ResourceNotFound) ==> conf.fields.reuseLBID != "" || conf.fields.lbName != ""
      ensures r == Err(Failed) && conf != null && (conf.fields.reuseLBID != "" || conf.fields.lbName != "") ==>
                client.faults > old(client.faults)
    {
      var parsed := ParseServiceLBConfig(config, svc);
      if parsed.Err? { return null, Err(parsed.error); }
      conf := parsed.value;
      if conf.fields.reuseLBID != "" {
        r := client.GetLoadBalancerByID(conf.fields.reuseLBID);
      } else if conf.fields.lbName != "" {
        r := client.GetLoadBalancerByName(conf.fields.lbName);
      } else {
        r := Err(Failed);
      }
    }

    /** Creates the load balancer of a service, or brings the one it has in line. */
    method EnsureLoadBalancer(q: Request, ghost ids: set<string>) returns (r: Result<seq<string>>, ghost id: string)
      requires client.Valid() && reader.Fair()
      requires Ready(client.st, ScopeOfConfig(ConfigOf(config, q.svc)), ids, q.nodes)
      requires ConfigOf(config, q.svc).policy == "" && ConfigOf(config, q.svc).reuseLBID != "" ==>
                 ConfigOf(config, q.svc).reuseLBID in client.st.lbs
      modifies client, reader
      ensures client.Valid()
      ensures if Parses(q.svc) then EnsureRun(old(client.Now()), client.Now(), r, id, q, ConfigOf(config, q.svc), ids)
              else r.Err? && Idle(old(client.Now()), client.Now())
    {
      id := "";
      ghost var was := client.Now();
      var conf, lb := GetLoadBalancer(q.svc);
      if conf == null { return Err(Failed), ""; }
      ghost var c, mid := conf.fields, client.Now();
      ConfigSound(config, q.svc);
      if lb.Err? {
        assert lb.error.Failed? ==> lb == Err(Failed);
        assert lb.error.ResourceNotFound? ==> lb == Err(ResourceNotFound);
        if lb.error.ResourceNotFound? && conf.fields.policy != REUSE_EXISTING_LB && conf.fields.policy != SHARED {
          // The load balancer is going to be made.
          NotFoundIsNamed(config, q.svc, client.st);
        } else {
          GivenUp(was, mid, "", q, c, ids);
          return Err(Failed), "";
        }
      }
      r, id := EnsureChosen(conf, lb, q, c, ids);
      ReadFirst(was, mid, client.Now(), r, id, q, c, ids);
    }

    /** The rest of an ensure run once the load balancer is known, or known to be missing: chooses the
        nodes, then goes one of two ways. */
    method EnsureChosen(conf: LoadBalancerConfig, lb: Result<LoadBalancer>, q: Request, ghost c: Config,
                        ghost ids: set<string>)
      returns (r: Result<seq<string>>, ghost id: string)
      requires client.Valid() && reader.Fair() && conf.fields == c
      requires Ready(client.st, ScopeOfConfig(c), ids, q.nodes)
      requires SourceOK(c) && EipIdsOK(c) && c.backendCountResult == 0
      requires lb.Ok? ==> Names(c, client.st, lb.value.status.id)
                          && SnapshotOf(client.st, lb.value.status.id, lb.value.spec, lb.value.status)
      requires lb.Err? ==> c.lbName != "" && c.policy == EXCLUSIVE && forall x :: !Names(c, client.st, x)
      modifies client, reader, conf, if lb.Ok? then {lb.value} else {}
      ensures client.Valid() && EnsureRun(old(client.Now()), client.Now(), r, id, q, c, ids)
    {
      var nodes := FilterNodes(q.svc.policy, q.nodes, q.endpoints, conf);
      if nodes.Err? {
        GivenUp(client.Now(), client.Now(), "", q, c, ids);
        return Err(Failed), "";
      }
      WorkersReady(client.st, ScopeOfConfig(c), ids, q, c);
      if lb.Ok? {
        r, id := EnsureFound(conf, lb.value, nodes.value, q, c, ids);
      } else {
        r, id := EnsureMade(conf, nodes.value, q, c, ids);
      }
    }

    /** The rest of an ensure run on a load balancer that was found. */
    method EnsureFound(conf: LoadBalancerConfig, lb: LoadBalancer, nodes: seq<Node>, q: Request, ghost c: Config,
                       ghost ids: set<string>)
      returns (r: Result<seq<string>>, ghost id: string)
      requires client.Valid() && reader.Fair()
      requires Choosable(q, c) && conf.fields == Counted(q, c) && nodes == Workers(q, c)
      requires Ready(client.st, ScopeOfConfig(c), ids, nodes) && 0 <= conf.fields.backendCountResult <= |nodes|
      requires SourceOK(c) && EipIdsOK(c)
      requires SnapshotOf(client.st, lb.status.id, lb.spec, lb.status) && Names(c, client.st, lb.status.id)
      modifies client, reader, lb`status
      ensures client.Valid() && EnsureRun(old(client.Now()), client.Now(), r, id, q, c, ids)
    {
      ghost var was, id0, limit := client.Now(), lb.status.id, WorkerLimit(q, c);
      r := EnsureExisting(client, reader, conf.fields, lb, q.svc.ports, nodes, q.svc.policy, limit, ids);
      id := if r.Ok? then lb.status.id else id0;
      FoundIsEnsureRun(was, client.Now(), r, id0, lb.status.id, q, c, ids, client.origin);
    }

    /** The rest of an ensure run that found no load balancer. */
    method EnsureMade(conf: LoadBalancerConfig, nodes: seq<Node>, q: Request, ghost c: Config, ghost ids: set<string>)
      returns (r: Result<seq<string>>, ghost id: string)
      requires client.Valid() && reader.Fair()
      requires Choosable(q, c) && conf.fields == Counted(q, c) && nodes == Workers(q, c)
      requires Ready(client.st, ScopeOfConfig(c), ids, nodes) && 0 <= conf.fields.backendCountResult <= |nodes|
      requires SourceOK(c) && EipIdsOK(c)
      requires c.lbName != "" && c.policy == EXCLUSIVE && forall x :: !Names(c, client.st, x)
      modifies client, reader, conf
      ensures client.Valid() && EnsureRun(old(client.Now()), client.Now(), r, id, q, c, ids)
    {
      ghost var was, limit := client.Now(), WorkerLimit(q, c);
      r, id := EnsureNew(client, reader, conf, q.svc.ports, nodes, q.svc.policy, Counted(q, c), limit, ids);
      MadeIsEnsureRun(was, client.Now(), r, id, q, c, ids, client.origin);
    }

    /** Makes the listeners of a service follow the nodes, and changes nothing else. */
    method UpdateLoadBalancer(q: Request, ghost ids: set<string>) returns (ok: bool, ghost id: string)
      requires client.Valid() && reader.Fair()
      requires Ready(client.st, ScopeOfConfig(ConfigOf(config, q.svc)), ids, q.nodes)
      modifies client, reader
      ensures client.Valid()
      ensures if Parses(q.svc) then UpdateDone(old(client.Now()), client.Now(), ok, id, q, ConfigOf(config, q.svc), ids)
              else !ok && Idle(old(client.Now()), client.Now())
    {
      ghost var was := client.Now();
      var conf, lb := GetLoadBalancer(q.svc);
      if conf == null { return false, ""; }
      ConfigSound(config, q.svc);
      if lb.Err? {
        assert lb.error.Failed? ==> lb == Err(Failed);
        assert lb.error.ResourceNotFound? ==> lb == Err(ResourceNotFound);
        NotUpdated(was, client.Now(), "", q, conf.fields, ids);
        return false, "";
      }
      ok, id := UpdateRead(conf, lb.value, q, conf.fields, was, ids);
    }

    /** The rest of an update run once its load balancer was read. */
    method UpdateRead(conf: LoadBalancerConfig, lb: LoadBalancer, q: Request, ghost c: Config, ghost was: View,
                      ghost ids: set<string>)
      returns (ok: bool, ghost id: string)
      requires client.Valid() && reader.Fair() && conf.fields == c && c.backendCountResult == 0
      requires SourceOK(c) && EipIdsOK(c) && Idle(was, client.Now())
      requires Ready(client.st, ScopeOfConfig(c), ids, q.nodes)
      requires Names(c, client.st, lb.status.id) && StatusOf(client.st, lb.status.id, lb.status)
      modifies client, reader, conf
      ensures client.Valid() && UpdateDone(was, client.Now(), ok, id, q, c, ids)
    {
      ghost var mid := client.Now();
      id := lb.status.id;
      ok := UpdateChosen(conf, lb, q, c, ids);
      ReadThenUpdate(was, mid, client.Now(), ok, id, q, c, ids);
    }

    /** The rest of an update run on the load balancer that was found. */
    method UpdateChosen(conf: LoadBalancerConfig, lb: LoadBalancer, q: Request, ghost c: Config, ghost ids: set<string>)
      returns (ok: bool)
      requires client.Valid() && reader.Fair() && conf.fields == c && c.backendCountResult == 0
      requires SourceOK(c) && EipIdsOK(c)
      requires Ready(client.st, ScopeOfConfig(c), ids, q.nodes)
      requires Names(c, client.st, lb.status.id) && StatusOf(client.st, lb.status.id, lb.status)
      modifies client, reader, conf
      ensures client.Valid() && UpdateDone(old(client.Now()), client.Now(), ok, lb.status.id, q, c, ids)
    {
      ghost var was, id := client.Now(), lb.status.id;
      var nodes := FilterNodes(q.svc.policy, q.nodes, q.endpoints, conf);
      if nodes.Err? {
        NotUpdated(was, was, id, q, c, ids);
        return false;
      }
      WorkersReady(was.st, ScopeOfConfig(c), ids, q, c);
      ok := UpdateWorkers(conf.fields, lb, nodes.value, q, c, ids);
    }

    /** The rest of an update run once the nodes are chosen. */
    method UpdateWorkers(conf: Config, lb: LoadBalancer, nodes: seq<Node>, q: Request, ghost c: Config,
                         ghost ids: set<string>)
      returns (ok: bool)
      requires client.Valid() && reader.Fair()
      requires Choosable(q, c) && conf == Counted(q, c) && nodes == Workers(q, c)
      requires Ready(client.st, ScopeOfConfig(c), ids, nodes) && 0 <= conf.backendCountResult <= |nodes|
      requires SourceOK(c) && EipIdsOK(c)
      requires Names(c, client.st, lb.status.id) && StatusOf(client.st, lb.status.id, lb.status)
      modifies client, reader
      ensures client.Valid() && UpdateDone(old(client.Now()), client.Now(), ok, lb.status.id, q, c, ids)
    {
      ghost var was, id := client.Now(), lb.status.id;
      NamedIsInScope(c, was.st, id);
      ok := UpdateFound(client, reader, conf, lb.status.id, lb.status.listeners, q.svc.ports, nodes, q.svc.policy,
                        WorkerLimit(q, c), ids);
      RunIsUpdate(was, client.Now(), ok, id, q, c, ids, client.origin);
    }

    method ParseServiceLBAndEIP(svc: Service) returns (conf: LoadBalancerConfig)
      ensures fresh(conf) && conf.fields == DeletionConfig(config, svc)
      ensures conf.fields.listenerName == "listener_" + svc.ns + "_" + svc.name + "_"
      ensures NameOfOwn(config, svc, conf.fields.lbName)
      ensures Annotated(svc.annotations, LB_POLICY, "reuse-lb") && LB_ID in svc.annotations ==>
                conf.fields.reuseLBID == svc.annotations[LB_ID]
      ensures !Annotated(svc.annotations, LB_POLICY, "reuse-lb") || LB_ID !in svc.annotations ==>
                conf.fields.reuseLBID == ""
    {
      NameOfOwnIff(config, svc, LBName(config.clusterID, svc));
      conf := new LoadBalancerConfig();
      conf.fields := conf.fields.(listenerName := ListenerName(svc.ns, svc.name));
      conf.fields := conf.fields.(lbName := LBName(config.clusterID, svc));
      if |svc.annotations| > 0 {
        if Get(svc.annotations, LB_POLICY) == REUSE_EXISTING_LB {
          conf.fields := conf.fields.(reuseLBID := Get(svc.annotations, LB_ID));
        }
      }
    }

    method GetLoadBalancerBeforeDelete(svc: Service) returns (conf: LoadBalancerConfig, r: Result<LoadBalancer>)
      requires client.Valid()
      modifies client`faults
      ensures client.faults >= old(client.faults)
      ensures fresh(conf) && conf.fields == DeletionConfig(config, svc)
      ensures r.Ok? ==> fresh(r.value) && Names(conf.fields, client.st, r.value.status.id)
                        && SnapshotOf(client.st, r.value.status.id, r.value.spec, r.value.status)
      ensures r == Err(ResourceNotFound) ==> forall id :: !Names(conf.fields, client.st, id)
      ensures r == Err(Failed) ==> client.faults > old(client.faults)
    {
      conf := ParseServiceLBAndEIP(svc);
      assert conf.fields.lbName[0] == 'k';
      if conf.fields.reuseLBID != "" {
        r := client.GetLoadBalancerByID(conf.fields.reuseLBID);
      } else if conf.fields.lbName != "" {
        r := client.GetLoadBalancerByName(conf.fields.lbName);
      } else {
        r := Err(Failed);
      }
    }

    /** Removes what the service has in the cloud. Success with `id` None means there was no load balancer. */
    method EnsureLoadBalancerDeleted(svc: Service, ghost ids: set<string>) returns (ok: bool, ghost id: Option<string>)
      requires client.Valid() && Inv(client.st, ListenerName(svc.ns, svc.name), ids)
      modifies client
      ensures client.Valid()
      ensures DeletionRun(old(client.Now()), client.Now(), ok, id, DeletionConfig(config, svc), ids)
    {
      ghost var was := client.Now();
      var conf, lb := GetLoadBalancerBeforeDelete(svc);
      id := None;
      if lb.Err? { return lb.error.ResourceNotFound?, None; }
      ghost var mid, found := client.Now(), lb.value.status.id;
      NamedIsInScope(conf.fields, client.st, lb.value.status.id);
      ok := DeleteFound(client, conf.fields, lb.value, ids);
      id := Some(found);
      FoundIsDeletionRun(was, mid, client.Now(), ok, found, conf.fields, ids, client.origin);
    }
  }
}
