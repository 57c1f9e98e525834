/** The two branches of `ensureLoadBalancer` (pkg/qingcloud/qingcloud.go): the load balancer
    exists, or it is made. */
module EnsureRuns {
  import opened Wrappers
  import opened Apis
  import opened CloudModel
  import opened Random
  import opened ServiceConfig
  import opened Listeners
  import opened ListenerLaws
  import opened Backends
  import opened Discipline
  import opened Eips
  import opened BackendRuns
  import opened ListenerRuns
  import opened SyncLaws
  import opened SyncRuns
  import opened Balancers

  // ---------- What a run is for ----------

  /** The listeners of the service on load balancer `id` are as the configuration and the nodes ask. */
  ghost predicate Serves(s: State, id: string, conf: Config, ports: seq<ServicePort>, nodes: seq<Node>,
                         limit: Option<nat>) {
    Converged(s, id, conf.listenerName, AttrsOf(conf.listener), ports, nodes, limit)
  }

  /** Load balancer `id` is all the configuration asks for. */
  ghost predicate Settled(s: State, id: string, conf: Config, ports: seq<ServicePort>, nodes: seq<Node>,
                          limit: Option<nat>) {
    && id in s.lbs && AttrSettled(conf, s.lbs[id]) && EipSettled(conf, s.lbs[id].eips)
    && Serves(s, id, conf, ports, nodes, limit)
  }

  ghost predicate Limits(s: State, id: string, conf: Config, ports: seq<ServicePort>) {
    WithinLimits(s, id, conf.listenerName, AttrsOf(conf.listener), ports)
  }

  /** Another's listener is where one of the service is to be. */
  ghost predicate Contested(s: State, id: string, conf: Config, ports: seq<ServicePort>) {
    ForeignClash(s, id, conf.listenerName, AttrsOf(conf.listener), conf.listenerName, ports)
  }

  /** What is missing among the service's listeners can be generated. */
  ghost predicate Generates(s: State, id: string, conf: Config, ports: seq<ServicePort>) {
    MissingGenerable(s, id, conf.listenerName, AttrsOf(conf.listener), ports)
  }

  ghost predicate Countable(conf: Config, nodes: seq<Node>, limit: Option<nat>) {
    0 <= conf.backendCountResult && (limit.Some? ==> conf.backendCountResult <= |nodes|)
  }

  /** Nothing stands in the way of settling load balancer `id`. */
  ghost predicate Feasible(s: State, id: string, conf: Config, ports: seq<ServicePort>) {
    && SourceOK(conf) && EipsObtainable(conf, s, id) && CanServe(conf.listener, ports)
    && !Contested(s, id, conf, ports)
  }

  /** Beside EIPs, nothing is to be changed on load balancer `id`. */
  ghost predicate NothingElse(s: State, id: string, conf: Config, ports: seq<ServicePort>, nodes: seq<Node>,
                              limit: Option<nat>) {
    id in s.lbs && nodes != [] && AttrSettled(conf, s.lbs[id]) && Serves(s, id, conf, ports, nodes, limit)
  }

  /** Being converged is a matter of the listeners alone. */
  lemma ConvergedByListeners(s: State, t: State, lb: string, prefix: string, a: Attrs, ports: seq<ServicePort>,
                             nodes: seq<Node>, limit: Option<nat>)
    requires t.listeners == s.listeners
    ensures Converged(s, lb, prefix, a, ports, nodes, limit) <==> Converged(t, lb, prefix, a, ports, nodes, limit)
  {
  }

  lemma LimitsByListeners(s: State, t: State, id: string, conf: Config, ports: seq<ServicePort>)
    requires t.listeners == s.listeners
    ensures Limits(s, id, conf, ports) <==> Limits(t, id, conf, ports)
    ensures Contested(s, id, conf, ports) <==> Contested(t, id, conf, ports)
    ensures Generates(s, id, conf, ports) <==> Generates(t, id, conf, ports)
  {
    assert OwnSet(s, id, conf.listenerName) == OwnSet(t, id, conf.listenerName);
  }

  /** Load balancer `id` keeps its name, attributes and EIPs, and all else but listeners stays. */
  ghost predicate LBKept(s: State, t: State, id: string) {
    && t.lbs.Keys == s.lbs.Keys && (forall x | x in s.lbs && x != id :: t.lbs[x] == s.lbs[x])
    && (id in s.lbs ==> t.lbs[id] == s.lbs[id].(pending := t.lbs[id].pending)) && t.eips == s.eips
  }

  // ---------- The end of a run ----------

  /** What the end of a run has led to: a run that has changed something needs an address and applies it. */
  ghost predicate Applied(was: View, now: View, r: Result<seq<string>>, id: string, vip: seq<string>, changed: bool,
                          sc: Scope, ids: set<string>) {
    && Went(was, now, sc, ids) && NeverClashes(now.log, |was.log|, sc.prefix) && AsksNone(now.log, |was.log|)
    && OnlyPending(was.st, now.st, id) && id in was.st.lbs
    && (!changed ==> r.Ok? && now == was)
    && (r.Ok? ==> r.value == vip && (changed ==> vip != [])
                  && now.st.lbs[id].pending == (was.st.lbs[id].pending && !changed))
    && (r.Err? ==> now.faults > was.faults || vip == [])
  }

  method ApplyIfChanged(client: Cloud, id: string, vip: seq<string>, changed: bool, ghost sc: Scope,
                        ghost ids: set<string>)
    returns (r: Result<seq<string>>)
    requires client.Valid() && Inv(client.st, sc.prefix, ids) && InScope(sc, client.st, id)
    modifies client
    ensures client.Valid() && Applied(old(client.Now()), client.Now(), r, id, vip, changed, sc, ids)
  {
    if !changed { return Ok(vip); }
    if |vip| <= 0 { return Err(Failed); }
    var ok := ApplyChanges(client, id, sc, ids);
    r := if ok then Ok(vip) else Err(Failed);
  }

  lemma SyncedThenApplied(s: State, t: State, u: State, id: string)
    requires OnlyOn(s, t, id) && OnlyPending(t, u, id)
    ensures LBKept(s, u, id)
  {
  }

  // ---------- The listeners ----------

  /** What working on the listeners of load balancer `id`, and applying that, has led to; `modified` is whether
      the run had changed something before. */
  ghost predicate Synced(was: View, now: View, r: Result<seq<string>>, id: string, vip: seq<string>, modified: bool,
                         conf: Config, ports: seq<ServicePort>, nodes: seq<Node>, limit: Option<nat>, sc: Scope,
                         ids: set<string>) {
    var s, t := was.st, now.st;
    && Went(was, now, sc, ids) && LBKept(s, t, id) && id in s.lbs
    && AsksOnly(now.log, |was.log|, conf.listener, conf.listenerName, ports)
    && (OwnSmall(s, id, conf.listenerName) ==> Tidy(s, t, id, conf.listenerName, AttrsOf(conf.listener), ports))
    && (Limits(s, id, conf, ports) ==> NeverClashes(now.log, |was.log|, sc.prefix))
    && (r.Ok? && vip == [] ==> !modified && (Limits(s, id, conf, ports) ==> Serves(s, id, conf, ports, nodes, limit)))
    && (r.Ok? ==> Generates(s, id, conf, ports))
    && (r.Ok? ==>
         && r.value == vip && (t.lbs[id].pending ==> !modified && s.lbs[id].pending)
         && (Limits(s, id, conf, ports) ==> Serves(t, id, conf, ports, nodes, limit))
         && (nodes != [] && Limits(s, id, conf, ports) ==>
              (t.lbs[id].pending <==> !modified && s.lbs[id].pending && Serves(s, id, conf, ports, nodes, limit))))
    && (r.Err? && Limits(s, id, conf, ports) && CanServe(conf.listener, ports) ==>
         now.faults > was.faults || vip == [] || Contested(s, id, conf, ports))
    && (!modified && nodes != [] && Limits(s, id, conf, ports) && Serves(s, id, conf, ports, nodes, limit) ==>
         Quiet(was, now, r.Ok?))
  }

  lemma SyncedOf(was: View, mid: View, now: View, r: Result<seq<string>>, id: string, vip: seq<string>, ok: bool,
                 changed: bool, modified: bool, conf: Config, ports: seq<ServicePort>, nodes: seq<Node>,
                 limit: Option<nat>, sc: Scope, ids: set<string>)
    requires ListenersSynced(was, mid, ok, changed, conf, id, ports, nodes, limit, sc, ids) && id in was.st.lbs
    requires sc.prefix == conf.listenerName
    requires if ok then Applied(mid, now, r, id, vip, modified || changed, sc, ids) else now == mid && r.Err?
    ensures Synced(was, now, r, id, vip, modified, conf, ports, nodes, limit, sc, ids)
  {
    if ok { AppliedOf(was, mid, now, r, id, vip, changed, modified, conf, ports, nodes, limit, sc, ids); }
  }

  lemma AppliedOf(was: View, mid: View, now: View, r: Result<seq<string>>, id: string, vip: seq<string>, changed: bool,
                  modified: bool, conf: Config, ports: seq<ServicePort>, nodes: seq<Node>, limit: Option<nat>,
                  sc: Scope, ids: set<string>)
    requires ListenersSynced(was, mid, true, changed, conf, id, ports, nodes, limit, sc, ids) && id in was.st.lbs
    requires sc.prefix == conf.listenerName && Applied(mid, now, r, id, vip, modified || changed, sc, ids)
    ensures Synced(was, now, r, id, vip, modified, conf, ports, nodes, limit, sc, ids)
  {
    SyncedThenApplied(was.st, mid.st, now.st, id);
    ConvergedByListeners(mid.st, now.st, id, conf.listenerName, AttrsOf(conf.listener), ports, nodes, limit);
    TidyByListeners(was.st, mid.st, now.st, id, conf.listenerName, AttrsOf(conf.listener), ports);
    AppliedCalls(was, mid, now, conf, ports, sc, ids);
  }

  /** Applying adds nothing to be said of listeners asked for. */
  lemma AppliedCalls(was: View, mid: View, now: View, conf: Config, ports: seq<ServicePort>, sc: Scope,
                     ids: set<string>)
    requires Went(was, mid, sc, ids) && Went(mid, now, sc, ids)
    requires AsksOnly(mid.log, |was.log|, conf.listener, conf.listenerName, ports)
    requires AsksNone(now.log, |mid.log|) && NeverClashes(now.log, |mid.log|, sc.prefix)
    ensures Went(was, now, sc, ids) && AsksOnly(now.log, |was.log|, conf.listener, conf.listenerName, ports)
    ensures NeverClashes(mid.log, |was.log|, sc.prefix) ==> NeverClashes(now.log, |was.log|, sc.prefix)
  {
    WentOn(was, mid, now, sc, ids);
    JoinNeverClashes(mid.log, now.log, |was.log|, sc.prefix);
    JoinAsks(mid.log, now.log, |was.log|, conf.listener, conf.listenerName, ports);
  }

  lemma TidyByListeners(s: State, t: State, u: State, lb: string, prefix: string, a: Attrs, ports: seq<ServicePort>)
    requires u.listeners == t.listeners
    ensures Tidy(s, t, lb, prefix, a, ports) <==> Tidy(s, u, lb, prefix, a, ports)
  {
    assert forall k :: OwnOn(t, k, lb, prefix) <==> OwnOn(u, k, lb, prefix);
  }

  /** Synchronises the listeners; when anything was changed in the run, the changes are applied. */
  method SyncAndApply(client: Cloud, reader: Reader, conf: Config, lb: LoadBalancer, ports: seq<ServicePort>,
                      nodes: seq<Node>, policy: TrafficPolicy, modified: bool, ghost sc: Scope,
                      ghost limit: Option<nat>, ghost ids: set<string>)
    returns (r: Result<seq<string>>)
    requires client.Valid() && Ready(client.st, sc, ids, nodes) && reader.Fair()
    requires limit == LimitOf(policy, conf.backendCountResult) && Countable(conf, nodes, limit)
    requires sc == EipFree(ScopeOfConfig(conf)) && InScope(sc, client.st, lb.status.id)
    requires ListsListeners(client.st, lb.status.id, lb.status.listeners)
    modifies client, reader
    ensures client.Valid()
    ensures Synced(old(client.Now()), client.Now(), r, lb.status.id, lb.status.vip, modified, conf, ports, nodes,
                   limit, sc, ids)
  {
    ghost var was, id, vip := client.Now(), lb.status.id, lb.status.vip;
    var ok, changed :=
      SyncListeners(client, reader, conf, lb.status.id, lb.status.listeners, ports, nodes, policy, limit, sc, ids);
    ghost var mid := client.Now();
    r := Err(Failed);
    if ok { r := ApplyIfChanged(client, lb.status.id, lb.status.vip, modified || changed, sc, ids); }
    SyncedOf(was, mid, client.Now(), r, id, vip, ok, changed, modified, conf, ports, nodes, limit, sc, ids);
  }

  // ---------- The load balancer exists ----------

  /** What a successful run on load balancer `id0` has led to, with the load balancer read last being `id`. */
  ghost predicate Brought(s: State, t: State, id0: string, id: string, conf: Config, ports: seq<ServicePort>,
                          nodes: seq<Node>, limit: Option<nat>)
    requires id0 in s.lbs
  {
    && Names(conf, t, id)
    && (Unambiguous(s, conf) ==>
         && id == id0
         && (Limits(s, id, conf, ports) ==> Settled(t, id, conf, ports, nodes, limit))
         && (!s.lbs[id].pending ==> !t.lbs[id].pending)
         && (nodes != [] && Limits(s, id, conf, ports) ==>
              (t.lbs[id].pending <==>
               s.lbs[id].pending && AttrSettled(conf, s.lbs[id]) && Serves(s, id, conf, ports, nodes, limit))))
  }

  /** The addresses returned: those of load balancer `id` now or, when its attributes were changed after it
      was read and its EIPs were not, those it had then. */
  ghost predicate Answers(s: State, t: State, id: string, conf: Config, vip: seq<string>) {
    || VIPsOf(t, id, vip)
    || (Names(conf, s, id) && !AttrSettled(conf, s.lbs[id]) && EipSettled(conf, s.lbs[id].eips) && VIPsOf(s, id, vip))
  }

  /** The balancer settled, then the listeners: what is left pending. */
  lemma PendingInTheEnd(s: State, s1: State, t: State, id: string, conf: Config, ports: seq<ServicePort>,
                        nodes: seq<Node>, limit: Option<nat>, modified: bool)
    requires id in s.lbs && OnlyBalancer(s, s1, id) && LBKept(s1, t, id)
    requires modified <==> !AttrSettled(conf, s.lbs[id])
    requires !modified ==> s1.lbs[id].pending == s.lbs[id].pending
    requires nodes != [] && Limits(s1, id, conf, ports) ==>
               (t.lbs[id].pending <==> !modified && s1.lbs[id].pending && Serves(s1, id, conf, ports, nodes, limit))
    ensures nodes != [] && Limits(s, id, conf, ports) ==>
              (t.lbs[id].pending <==>
               s.lbs[id].pending && AttrSettled(conf, s.lbs[id]) && Serves(s, id, conf, ports, nodes, limit))
  {
    LimitsByListeners(s, s1, id, conf, ports);
    ConvergedByListeners(s, s1, id, conf.listenerName, AttrsOf(conf.listener), ports, nodes, limit);
  }

  /** The balancer settled, then the listeners: what holds in the end. */
  lemma SettledThenSynced(s: State, s1: State, t: State, id0: string, id: string, conf: Config, ports: seq<ServicePort>,
                          nodes: seq<Node>, limit: Option<nat>, modified: bool)
    requires Names(conf, s, id0) && OnlyBalancer(s, s1, id0) && Names(conf, s1, id) && LBKept(s1, t, id)
    requires AttrSettled(conf, s1.lbs[id0]) && EipSettled(conf, s1.lbs[id0].eips)
    requires modified <==> !AttrSettled(conf, s.lbs[id0])
    requires !modified ==> s1.lbs[id0].pending == s.lbs[id0].pending
    requires Limits(s1, id, conf, ports) ==> Serves(t, id, conf, ports, nodes, limit)
    requires !t.lbs[id].pending || (!modified && s1.lbs[id].pending)
    requires nodes != [] && Limits(s1, id, conf, ports) ==>
               (t.lbs[id].pending <==> !modified && s1.lbs[id].pending && Serves(s1, id, conf, ports, nodes, limit))
    ensures Brought(s, t, id0, id, conf, ports, nodes, limit)
  {
    EipsLeaveNames(conf, s, s1, id0);
    if id == id0 {
      LimitsByListeners(s, s1, id, conf, ports);
      PendingInTheEnd(s, s1, t, id, conf, ports, nodes, limit, modified);
    }
  }

  lemma NamesKept(conf: Config, s: State, t: State, id: string)
    requires LBKept(s, t, id)
    ensures forall x :: Names(conf, t, x) <==> Names(conf, s, x)
  {
  }

  /** The addresses read are still those of the load balancer once its listeners are synchronised. */
  lemma VIPsKept(s: State, t: State, id: string, vip: seq<string>)
    requires VIPsOf(s, id, vip) && LBKept(s, t, id)
    ensures VIPsOf(t, id, vip)
  {
  }

  lemma ThenNeverBare(from: nat, log1: seq<Step>, log2: seq<Step>, id: string, was: set<string>, now: set<string>)
    requires log1 <= log2 && NeverBare(log1, from, id, was, now) && SameEips(log2, |log1|, id, now)
    ensures NeverBare(log2, from, id, was, now)
  {
  }

  /** The calls of a run that settles the balancer, then works on the listeners. */
  lemma RunCalls(conf: Config, ids: set<string>, origin: State, was: View, mid: View, now: View, id: string)
    requires Chained(origin, mid.log, mid.st) && Chained(origin, now.log, now.st) && id in was.st.lbs
             && id in mid.st.lbs
    requires Went(was, mid, SettlingScope(conf), ids) && Went(mid, now, EipFree(ScopeOfConfig(conf)), ids)
    requires NeverBare(mid.log, |was.log|, id, was.st.lbs[id].eips, mid.st.lbs[id].eips)
    ensures Went(was, now, ScopeOfConfig(conf), ids) && id in now.st.lbs
    ensures NeverBare(now.log, |was.log|, id, was.st.lbs[id].eips, now.st.lbs[id].eips)
    ensures NeverClashes(now.log, |mid.log|, conf.listenerName) ==> NeverClashes(now.log, |was.log|, conf.listenerName)
  {
    var small, big := EipFree(ScopeOfConfig(conf)), ScopeOfConfig(conf);
    WiderDisciplined(SettlingScope(conf), big, ids, mid.log, |was.log|);
    WiderDisciplined(small, big, ids, now.log, |mid.log|);
    JoinDisciplined(big, ids, mid.log, now.log, |was.log|);
    RunKeepsEips(small, ids, origin, mid.log, mid.st, now.log, now.st, id);
    ThenNeverBare(|was.log|, mid.log, now.log, id, was.st.lbs[id].eips, mid.st.lbs[id].eips);
    SettlingClashesNot(SettlingScope(conf), ids, mid.log, |was.log|);
    if NeverClashes(now.log, |mid.log|, conf.listenerName) {
      JoinNeverClashes(mid.log, now.log, |was.log|, conf.listenerName);
    }
  }

  /** Of load balancers other than `id` at most the pending mark differs. */
  ghost predicate OthersKept(s: State, t: State, id: string) {
    && t.lbs.Keys == s.lbs.Keys
    && (forall x | x in s.lbs && x != id :: t.lbs[x] == s.lbs[x].(pending := t.lbs[x].pending))
  }

  /** The calls of a run on load balancer `id0`, whatever became of it. */
  ghost predicate ExistingCalls(was: View, now: View, id0: string, conf: Config, ports: seq<ServicePort>,
                                ids: set<string>) {
    var s, t := was.st, now.st;
    && Went(was, now, ScopeOfConfig(conf), ids) && id0 in s.lbs && id0 in t.lbs
    && (forall x :: Names(conf, t, x) <==> Names(conf, s, x))
    && OthersKept(s, t, id0) && PoolKept(s, t) && HalfSettled(conf, s.lbs[id0], t.lbs[id0])
    && NeverBare(now.log, |was.log|, id0, s.lbs[id0].eips, t.lbs[id0].eips)
    && Allocations(now.log, |was.log|, conf.reuseLBID == "" && s.lbs[id0].eips == {} && MayAllocate(conf, s))
    && AsksOnly(now.log, |was.log|, conf.listener, conf.listenerName, ports)
    && (Unambiguous(s, conf) && Limits(s, id0, conf, ports) ==>
         NeverClashes(now.log, |was.log|, conf.listenerName) && Limits(t, id0, conf, ports))
  }

  /** What a run on the load balancer that was found, `id0`, has led to, with the one read last being `id`. */
  ghost predicate ExistingRun(was: View, now: View, r: Result<seq<string>>, id0: string, id: string, conf: Config,
                              ports: seq<ServicePort>, nodes: seq<Node>, limit: Option<nat>, ids: set<string>) {
    var s, t := was.st, now.st;
    && ExistingCalls(was, now, id0, conf, ports, ids)
    && (r.Ok? ==>
         && Brought(s, t, id0, id, conf, ports, nodes, limit) && Answers(s, t, id, conf, r.value)
         && EipsObtainable(conf, s, id0) && NewHeld(s, t, id0)
         && (SourceOK(conf) ==> EipsReached(conf, s.lbs[id0].eips, t.lbs[id0].eips)))
    && (nodes != [] && SourceOK(conf) && Limits(s, id0, conf, ports) && Settled(s, id0, conf, ports, nodes, limit) ==>
         Quiet(was, now, r.Ok?))
    && (Unambiguous(s, conf) && r.Ok? ==> Generates(s, id0, conf, ports))
    && (Unambiguous(s, conf) && Limits(s, id0, conf, ports) && SourceOK(conf) ==>
         && (r.Err? && Feasible(s, id0, conf, ports) ==>
              || now.faults > was.faults
              || (!StaysAddressed(conf, s.lbs[id0]) && !NothingElse(s, id0, conf, ports, nodes, limit)))
         && (!StaysAddressed(conf, s.lbs[id0]) && nodes != [] && !NothingElse(s, id0, conf, ports, nodes, limit) ==>
              r.Err?))
  }

  /** Without the power to create listeners none are asked for. */
  lemma SettlingAsksNone(sc: Scope, ids: set<string>, log: seq<Step>, from: nat)
    requires AllDisciplined(sc, ids, log, from) && !sc.makes
    ensures AsksNone(log, from)
  {
    forall j | from <= j < |log| ensures !log[j].call.CreateListeners? { assert Disciplined(sc, ids, log[j]); }
  }

  /** The balancer could not be settled. */
  lemma UnsettledRun(was: View, now: View, r: Result<seq<string>>, modified: bool, first: LBStatus, last: LBStatus,
                     conf: Config, ports: seq<ServicePort>, nodes: seq<Node>, limit: Option<nat>, ids: set<string>,
                     origin: State)
    requires Chained(origin, now.log, now.st) && r.Err?
    requires Settlement(was, now, false, modified, first, last, conf, ids)
    ensures ExistingRun(was, now, r, first.id, last.id, conf, ports, nodes, limit, ids)
  {
    RunCalls(conf, ids, origin, was, now, now, first.id);
    SettlingAsksNone(SettlingScope(conf), ids, now.log, |was.log|);
    EipsLeaveNames(conf, was.st, now.st, first.id);
    LimitsByListeners(was.st, now.st, first.id, conf, ports);
  }

  /** The balancer was settled, and the listeners were worked on. */
  ghost predicate BothDone(was: View, mid: View, now: View, r: Result<seq<string>>, modified: bool, first: LBStatus,
                           last: LBStatus, conf: Config, ports: seq<ServicePort>, nodes: seq<Node>,
                           limit: Option<nat>, ids: set<string>) {
    && Settlement(was, mid, true, modified, first, last, conf, ids) && VIPsOf(was.st, first.id, first.vip)
    && Synced(mid, now, r, last.id, last.vip, modified, conf, ports, nodes, limit, EipFree(ScopeOfConfig(conf)), ids)
  }

  /** What stays as it was on either side, and how far the balancer got. */
  lemma SettledFrame(was: View, mid: View, now: View, r: Result<seq<string>>, modified: bool, first: LBStatus,
                     last: LBStatus, conf: Config, ports: seq<ServicePort>, nodes: seq<Node>, limit: Option<nat>,
                     ids: set<string>)
    requires BothDone(was, mid, now, r, modified, first, last, conf, ports, nodes, limit, ids)
    ensures var s, t, id0 := was.st, now.st, first.id;
            && id0 in s.lbs && id0 in t.lbs && (forall x :: Names(conf, t, x) <==> Names(conf, s, x))
            && OthersKept(s, t, id0) && PoolKept(s, t) && HalfSettled(conf, s.lbs[id0], t.lbs[id0])
            && t.lbs[id0].eips == mid.st.lbs[id0].eips
  {
    EipsLeaveNames(conf, was.st, mid.st, first.id);
    NamesKept(conf, mid.st, now.st, last.id);
  }

  lemma SettledLimits(was: View, mid: View, now: View, r: Result<seq<string>>, modified: bool, first: LBStatus,
                      last: LBStatus, conf: Config, ports: seq<ServicePort>, nodes: seq<Node>, limit: Option<nat>,
                      ids: set<string>)
    requires BothDone(was, mid, now, r, modified, first, last, conf, ports, nodes, limit, ids)
    requires Unambiguous(was.st, conf) && Limits(was.st, first.id, conf, ports)
    ensures Limits(now.st, first.id, conf, ports) && NeverClashes(now.log, |mid.log|, conf.listenerName)
  {
    EipsLeaveNames(conf, was.st, mid.st, first.id);
    LimitsByListeners(was.st, mid.st, first.id, conf, ports);
    SyncedSmall(mid, now, r, last.id, last.vip, modified, conf, ports, nodes, limit, EipFree(ScopeOfConfig(conf)), ids);
  }

  lemma SettledCalls(was: View, mid: View, now: View, r: Result<seq<string>>, modified: bool, first: LBStatus,
                     last: LBStatus, conf: Config, ports: seq<ServicePort>, nodes: seq<Node>, limit: Option<nat>,
                     ids: set<string>, origin: State)
    requires Chained(origin, mid.log, mid.st) && Chained(origin, now.log, now.st)
    requires BothDone(was, mid, now, r, modified, first, last, conf, ports, nodes, limit, ids)
    ensures ExistingCalls(was, now, first.id, conf, ports, ids)
  {
    RunCalls(conf, ids, origin, was, mid, now, first.id);
    SettlingAsksNone(SettlingScope(conf), ids, mid.log, |was.log|);
    JoinAsks(mid.log, now.log, |was.log|, conf.listener, conf.listenerName, ports);
    NeverAllocates(EipFree(ScopeOfConfig(conf)), ids, now.log, |mid.log|);
    JoinAllocations(mid.log, now.log, |was.log|,
                    conf.reuseLBID == "" && was.st.lbs[first.id].eips == {} && MayAllocate(conf, was.st), false);
    SettledFrame(was, mid, now, r, modified, first, last, conf, ports, nodes, limit, ids);
    if Unambiguous(was.st, conf) && Limits(was.st, first.id, conf, ports) {
      SettledLimits(was, mid, now, r, modified, first, last, conf, ports, nodes, limit, ids);
    }
  }

  lemma SyncedSmall(was: View, now: View, r: Result<seq<string>>, id: string, vip: seq<string>, modified: bool,
                    conf: Config, ports: seq<ServicePort>, nodes: seq<Node>, limit: Option<nat>, sc: Scope,
                    ids: set<string>)
    requires Synced(was, now, r, id, vip, modified, conf, ports, nodes, limit, sc, ids)
    requires Limits(was.st, id, conf, ports)
    ensures Limits(now.st, id, conf, ports)
  {
    TidyStaysSmall(was.st, now.st, id, conf.listenerName, AttrsOf(conf.listener), ports);
  }

  lemma SettledAnswer(was: View, mid: View, now: View, r: Result<seq<string>>, modified: bool, first: LBStatus,
                      last: LBStatus, conf: Config, ports: seq<ServicePort>, nodes: seq<Node>, limit: Option<nat>,
                      ids: set<string>)
    requires BothDone(was, mid, now, r, modified, first, last, conf, ports, nodes, limit, ids) && r.Ok?
    ensures Brought(was.st, now.st, first.id, last.id, conf, ports, nodes, limit)
    ensures Answers(was.st, now.st, last.id, conf, r.value)
    ensures EipsObtainable(conf, was.st, first.id) && NewHeld(was.st, now.st, first.id)
    ensures first.id in now.st.lbs
            && (SourceOK(conf) ==> EipsReached(conf, was.st.lbs[first.id].eips, now.st.lbs[first.id].eips))
    ensures Unambiguous(was.st, conf) ==> Generates(was.st, first.id, conf, ports)
  {
    EipsLeaveNames(conf, was.st, mid.st, first.id);
    LimitsByListeners(was.st, mid.st, first.id, conf, ports);
    NamesKept(conf, mid.st, now.st, last.id);
    SettledThenSynced(was.st, mid.st, now.st, first.id, last.id, conf, ports, nodes, limit, modified);
    if VIPsOf(mid.st, last.id, last.vip) { VIPsKept(mid.st, now.st, last.id, last.vip); }
  }

  /** Without a fault the listeners fail for want of an address alone. */
  lemma SettledFailure(was: View, mid: View, now: View, r: Result<seq<string>>, modified: bool, first: LBStatus,
                       last: LBStatus, conf: Config, ports: seq<ServicePort>, nodes: seq<Node>, limit: Option<nat>,
                       ids: set<string>)
    requires BothDone(was, mid, now, r, modified, first, last, conf, ports, nodes, limit, ids) && r.Err?
    requires Unambiguous(was.st, conf) && Limits(was.st, first.id, conf, ports)
    requires Feasible(was.st, first.id, conf, ports)
    ensures || now.faults > was.faults
            || (!StaysAddressed(conf, was.st.lbs[first.id])
                && !NothingElse(was.st, first.id, conf, ports, nodes, limit))
  {
    AddressSeen(was, mid, modified, first, last, conf, ids);
    LimitsByListeners(was.st, mid.st, first.id, conf, ports);
    ConvergedByListeners(was.st, mid.st, first.id, conf.listenerName, AttrsOf(conf.listener), ports, nodes, limit);
  }

  /** Without an address to see, a run that has anything to do fails. */
  lemma SettledUnaddressed(was: View, mid: View, now: View, r: Result<seq<string>>, modified: bool, first: LBStatus,
                           last: LBStatus, conf: Config, ports: seq<ServicePort>, nodes: seq<Node>,
                           limit: Option<nat>, ids: set<string>)
    requires BothDone(was, mid, now, r, modified, first, last, conf, ports, nodes, limit, ids) && SourceOK(conf)
    requires Unambiguous(was.st, conf) && Limits(was.st, first.id, conf, ports) && nodes != []
    requires !StaysAddressed(conf, was.st.lbs[first.id])
    requires !NothingElse(was.st, first.id, conf, ports, nodes, limit)
    ensures r.Err?
  {
    AddressSeen(was, mid, modified, first, last, conf, ids);
    LimitsByListeners(was.st, mid.st, first.id, conf, ports);
    ConvergedByListeners(was.st, mid.st, first.id, conf.listenerName, AttrsOf(conf.listener), ports, nodes, limit);
  }

  lemma SettledQuiet(was: View, mid: View, now: View, r: Result<seq<string>>, modified: bool, first: LBStatus,
                     last: LBStatus, conf: Config, ports: seq<ServicePort>, nodes: seq<Node>, limit: Option<nat>,
                     ids: set<string>)
    requires BothDone(was, mid, now, r, modified, first, last, conf, ports, nodes, limit, ids)
    requires nodes != [] && SourceOK(conf) && Limits(was.st, first.id, conf, ports)
    requires Settled(was.st, first.id, conf, ports, nodes, limit)
    ensures Quiet(was, now, r.Ok?)
  {
  }

  lemma SettledRun(was: View, mid: View, now: View, r: Result<seq<string>>, modified: bool, first: LBStatus,
                   last: LBStatus, conf: Config, ports: seq<ServicePort>, nodes: seq<Node>, limit: Option<nat>,
                   ids: set<string>, origin: State)
    requires Chained(origin, mid.log, mid.st) && Chained(origin, now.log, now.st)
    requires BothDone(was, mid, now, r, modified, first, last, conf, ports, nodes, limit, ids)
    ensures ExistingRun(was, now, r, first.id, last.id, conf, ports, nodes, limit, ids)
  {
    SettledCalls(was, mid, now, r, modified, first, last, conf, ports, nodes, limit, ids, origin);
    if nodes != [] && SourceOK(conf) && Limits(was.st, first.id, conf, ports)
       && Settled(was.st, first.id, conf, ports, nodes, limit)
    {
      SettledQuiet(was, mid, now, r, modified, first, last, conf, ports, nodes, limit, ids);
    }
    if Unambiguous(was.st, conf) && Limits(was.st, first.id, conf, ports) && SourceOK(conf) && nodes != []
       && !StaysAddressed(conf, was.st.lbs[first.id])
       && !NothingElse(was.st, first.id, conf, ports, nodes, limit)
    {
      SettledUnaddressed(was, mid, now, r, modified, first, last, conf, ports, nodes, limit, ids);
    }
    if r.Ok? {
      SettledAnswer(was, mid, now, r, modified, first, last, conf, ports, nodes, limit, ids);
    } else if Unambiguous(was.st, conf) && Limits(was.st, first.id, conf, ports)
              && Feasible(was.st, first.id, conf, ports)
    {
      SettledFailure(was, mid, now, r, modified, first, last, conf, ports, nodes, limit, ids);
    }
  }

  /** A balancer that was settled is ready for its listeners. */
  lemma SettledReady(was: View, now: View, modified: bool, first: LBStatus, last: LBStatus, conf: Config,
                     nodes: seq<Node>, ids: set<string>)
    requires Settlement(was, now, true, modified, first, last, conf, ids)
    requires Ready(was.st, ScopeOfConfig(conf), ids, nodes)
    ensures Ready(now.st, EipFree(ScopeOfConfig(conf)), ids, nodes)
    ensures InScope(EipFree(ScopeOfConfig(conf)), now.st, last.id)
    ensures ListsListeners(now.st, last.id, last.listeners)
  {
  }

  /** The listeners, once the balancer is settled. */
  method SyncSettled(client: Cloud, reader: Reader, conf: Config, lb: LoadBalancer, ports: seq<ServicePort>,
                     nodes: seq<Node>, policy: TrafficPolicy, modified: bool, ghost was: View, ghost first: LBStatus,
                     ghost limit: Option<nat>, ghost ids: set<string>)
    returns (r: Result<seq<string>>)
    requires client.Valid() && Ready(was.st, ScopeOfConfig(conf), ids, nodes) && reader.Fair()
    requires limit == LimitOf(policy, conf.backendCountResult) && Countable(conf, nodes, limit)
    requires VIPsOf(was.st, first.id, first.vip)
    requires Settlement(was, client.Now(), true, modified, first, lb.status, conf, ids)
    modifies client, reader
    ensures client.Valid()
    ensures ExistingRun(was, client.Now(), r, first.id, lb.status.id, conf, ports, nodes, limit, ids)
  {
    ghost var mid, origin, last := client.Now(), client.origin, lb.status;
    SettledReady(was, mid, modified, first, last, conf, nodes, ids);
    r := SyncAndApply(client, reader, conf, lb, ports, nodes, policy, modified, EipFree(ScopeOfConfig(conf)), limit,
                      ids);
    SettledRun(was, mid, client.Now(), r, modified, first, last, conf, ports, nodes, limit, ids, origin);
  }

  /** The branch for a load balancer that was found. */
  method EnsureExisting(client: Cloud, reader: Reader, conf: Config, lb: LoadBalancer, ports: seq<ServicePort>,
                        nodes: seq<Node>, policy: TrafficPolicy, ghost limit: Option<nat>, ghost ids: set<string>)
    returns (r: Result<seq<string>>)
    requires client.Valid() && Ready(client.st, ScopeOfConfig(conf), ids, nodes) && reader.Fair()
    requires limit == LimitOf(policy, conf.backendCountResult) && Countable(conf, nodes, limit)
    requires SnapshotOf(client.st, lb.status.id, lb.spec, lb.status) && Names(conf, client.st, lb.status.id)
    modifies client, reader, lb`status
    ensures client.Valid()
    ensures ExistingRun(old(client.Now()), client.Now(), r, old(lb.status.id), lb.status.id, conf, ports, nodes, limit,
                        ids)
  {
    ghost var was, first, origin := client.Now(), lb.status, client.origin;
    var ok, modified := SettleBalancer(client, conf, lb, ids);
    ghost var mid := client.Now();
    if !ok {
      r := Err(Failed);
      UnsettledRun(was, mid, r, modified, first, lb.status, conf, ports, nodes, limit, ids, origin);
      return;
    }
    r := SyncSettled(client, reader, conf, lb, ports, nodes, policy, modified, was, first, limit, ids);
  }

  // ---------- The load balancer is made ----------

  /** An EIP annotation names at least one EIP. */
  predicate EipIdsOK(conf: Config) {
    conf.eip.ids.Some? ==> conf.eip.ids.value != []
  }

  /** The EIPs a new load balancer is to have are those the configuration wants. */
  ghost predicate EipsChosen(conf: Config, eips: seq<string>) {
    if conf.eip.ids.Some? && conf.eip.ids.value != [] then eips == conf.eip.ids.value
    else if conf.eip.source.Some? then |eips| == 1
    else eips == []
  }

  /** The cloud has the EIPs a new load balancer is to have. */
  ghost predicate EipsToHave(s: State, conf: Config) {
    SourceOK(conf) && NeedsMet(conf, s, {})
  }

  /** What choosing the EIPs of a new load balancer has led to: at most the pool has grown. */
  ghost predicate EipsReady(was: View, now: View, ok: bool, eips: seq<string>, conf: Config, ids: set<string>) {
    && Went(was, now, SettlingScope(conf), ids) && PoolGrew(was.st, now.st)
    && Allocations(now.log, |was.log|, MayAllocate(conf, was.st))
    && (conf.eip.ids.Some? ==> now == was)
    && (ok ==>
         && EipsChosen(conf, eips) && NewAmong(was.st, now.st, eips)
         && (conf.eip.ids.None? && conf.eip.source == Some(USE_AVAILABLE_ONLY) ==> exists e :: Offered(was.st, e)))
    && (EipsToHave(was.st, conf) ==>
         (ok || now.faults > was.faults) && forall e | e in eips :: Free(now.st, e))
  }

  /** Fetches an EIP when the configuration leaves the choice to the controller, and notes it there. */
  method ChooseEips(client: Cloud, conf: LoadBalancerConfig, ghost c: Config, ghost ids: set<string>)
    returns (ok: bool, eips: seq<string>)
    requires client.Valid() && conf.fields == c && Inv(client.st, c.listenerName, ids) && EipIdsOK(c)
    modifies client, conf
    ensures client.Valid() && EipsReady(old(client.Now()), client.Now(), ok, eips, c, ids)
    ensures conf.fields == c.(eip := conf.fields.eip)
  {
    ok, eips := true, if conf.fields.eip.ids.Some? then conf.fields.eip.ids.value else [];
    if |eips| <= 0 && conf.fields.eip.source.Some? {
      ghost var s := client.st;
      var eip := PrepareEip(client, conf.fields.eip.source.value, SettlingScope(c), ids);
      InvByListeners(s, client.st, c.listenerName, ids);
      if eip.Err? { return false, []; }
      conf.fields := conf.fields.(eip := conf.fields.eip.(ids := Some([eip.value])));
      eips := [eip.value];
    }
  }

  /** A load balancer made for the configuration. */
  ghost predicate AsConfigured(conf: Config, lb: LB) {
    && lb.name == conf.lbName && lb.listed && AttrSettled(conf, lb) && EipGoal(conf, {}, lb.eips)
    && (conf.internalIP.Some? ==> lb.privateIPs == [conf.internalIP.value])
    && (conf.eip.ids.Some? || conf.eip.source.Some? ==> lb.eips != {})
  }

  /** The configuration sees to it that a load balancer made for it has an address: an EIP, or a private one
      outside the cloud's own network. Otherwise it is the cloud that chooses. */
  predicate GivesAddress(conf: Config) {
    || conf.eip.ids.Some? || conf.eip.source.Some?
    || (conf.internalIP.Some? && PrivateVIPs([conf.internalIP.value]) != [])
  }

  /** From `from` on load balancer `id` was created without an EIP, and got no address of use. */
  ghost predicate CreatedBare(log: seq<Step>, from: nat, id: string) {
    exists i | from <= i < |log| ::
      log[i].call.CreateLB? && log[i].call.id == id && log[i].call.eips == [] && PrivateVIPs(log[i].call.ips) == []
  }

  lemma CreatedBareLater(log1: seq<Step>, log2: seq<Step>, from: nat, later: nat, id: string)
    requires log1 <= log2 && from <= later && CreatedBare(log1, later, id)
    ensures CreatedBare(log2, from, id)
  {
    var i :| later <= i < |log1|
             && log1[i].call.CreateLB? && log1[i].call.id == id && log1[i].call.eips == []
             && PrivateVIPs(log1[i].call.ips) == [];
    assert log2[i] == log1[i];
  }

  /** Load balancer `id` stands in t, new, and as the configuration wants it but for its listeners. */
  ghost predicate Made(s: State, t: State, id: string, conf: Config) {
    && t.listeners == s.listeners && id !in s.lbs && t.lbs.Keys == s.lbs.Keys + {id}
    && (forall x | x in s.lbs :: t.lbs[x] == s.lbs[x])
    && (forall k | k in t.listeners :: t.listeners[k].spec.lb != id)
    && AsConfigured(conf, t.lbs[id]) && t.eips == s.eips
  }

  lemma CreateLBEffect(s: State, conf: Config, id: string, ips: seq<string>, eips: seq<string>)
    requires s.Valid() && EipsChosen(conf, eips) && EipIdsOK(conf)
             && (conf.internalIP.Some? ==> ips == [conf.internalIP.value])
    requires Accepts(s, Call.CreateLB(id, conf.lbName, conf.nodeCount, ips, eips))
    ensures Made(s, Apply(s, Call.CreateLB(id, conf.lbName, conf.nodeCount, ips, eips)), id, conf)
  {
    var t := Apply(s, Call.CreateLB(id, conf.lbName, conf.nodeCount, ips, eips));
    forall k | k in t.listeners ensures t.listeners[k].spec.lb != id { assert s.ListenerValid(k); }
    if eips != [] { assert eips[0] in t.lbs[id].eips; }
    if |eips| == 1 { assert t.lbs[id].eips == {eips[0]}; }
  }

  /** Load balancer `id` has these EIPs, which nobody held; the pool is the same. */
  ghost predicate Held(s: State, t: State, id: string, eips: seq<string>) {
    t.eips == s.eips && id in t.lbs && forall e | e in eips :: Free(s, e) && e in t.lbs[id].eips
  }

  /** What asking for a load balancer with these EIPs has led to. */
  ghost predicate Asked(was: View, now: View, ok: bool, id: string, eips: seq<string>, conf: Config, ids: set<string>) {
    && Went(was, now, SettlingScope(conf), ids)
    && (Made(was.st, now.st, id, conf) || (!ok && now.st == was.st)) && Allocations(now.log, |was.log|, false)
    && (ok ==> (conf.vxNetID.Some? || eips != []) && Held(was.st, now.st, id, eips))
    && (ok ==> HasVIP(now.st.lbs[id]) || (!GivesAddress(conf) && CreatedBare(now.log, |was.log|, id)))
    && (!ok && (conf.vxNetID.Some? || eips != []) && (forall e | e in eips :: Free(was.st, e)) ==>
         now.faults > was.faults)
  }

  /** Makes the load balancer; no listener of anybody is on it yet. Of the configuration `c` the EIPs
      may have been filled in since. */
  method MakeBalancer(client: Cloud, conf: Config, eips: seq<string>, ghost c: Config, ghost ids: set<string>)
    returns (r: Result<LoadBalancer>, ghost id: string)
    requires client.Valid() && Inv(client.st, c.listenerName, ids)
    requires conf == c.(eip := conf.eip) && EipsChosen(c, eips) && EipIdsOK(c)
    modifies client
    ensures client.Valid() && Asked(old(client.Now()), client.Now(), r.Ok?, id, eips, c, ids)
    ensures r.Ok? ==> fresh(r.value) && SnapshotOf(client.st, id, r.value.spec, r.value.status)
  {
    ghost var s := client.st;
    ghost var ips;
    r, id, ips := client.CreateLB(conf.lbName, conf.nodeCount, conf.vxNetID, conf.internalIP, eips);
    if client.log != old(client.log) {
      assert client.log == old(client.log) + [Step(Call.CreateLB(id, c.lbName, c.nodeCount, ips, eips), s, client.st)];
      StepKeepsInv(SettlingScope(c), ids, client.log[|client.log| - 1]);
      if client.st != s { CreateLBEffect(s, c, id, ips, eips); }
    }
    if r.Ok? { AskedFor(s, client.st, client.log, |old(client.log)|, c, id, ips, eips); }
  }

  /** A load balancer just made has an address, or the cloud gave it none where the configuration asks for none. */
  lemma AskedFor(s: State, t: State, log: seq<Step>, from: nat, conf: Config, id: string, ips: seq<string>,
                 eips: seq<string>)
    requires from < |log| && log[from].call == Call.CreateLB(id, conf.lbName, conf.nodeCount, ips, eips)
    requires Accepts(s, log[from].call) && t == Apply(s, log[from].call)
    requires EipsChosen(conf, eips) && EipIdsOK(conf) && (conf.internalIP.Some? ==> ips == [conf.internalIP.value])
    ensures HasVIP(t.lbs[id]) || (!GivesAddress(conf) && CreatedBare(log, from, id))
  {
    if eips != [] { assert eips[0] in t.lbs[id].eips; }
  }

  /** On a load balancer just made nobody is in the way. */
  lemma MadeIsEmpty(s: State, t: State, id: string, conf: Config, ports: seq<ServicePort>)
    requires Made(s, t, id, conf)
    ensures NoOwn(t, id, conf.listenerName) && !Contested(t, id, conf, ports)
  {
  }

  /** From s a load balancer has been added, the one the configuration asks for, and nothing taken away. */
  ghost predicate BalancerAdded(s: State, t: State, id: string, conf: Config) {
    && id !in s.lbs && t.lbs.Keys == s.lbs.Keys + {id} && AsConfigured(conf, t.lbs[id])
    && forall x | x in s.lbs :: t.lbs[x] == s.lbs[x]
  }

  /** At most that has happened, wherever a run broke off. */
  ghost predicate AddedOrNot(s: State, t: State, id: string, conf: Config, ports: seq<ServicePort>) {
    && PoolKept(s, t)
    && (t.lbs == s.lbs
        || (BalancerAdded(s, t, id, conf) && (|ports| <= PAGE_LIMIT ==> OwnSmall(t, id, conf.listenerName))))
  }

  lemma MadeThenFilled(s: State, t: State, u: State, id: string, conf: Config, ports: seq<ServicePort>,
                       nodes: seq<Node>, limit: Option<nat>)
    requires Made(s, t, id, conf) && LBKept(t, u, id)
    ensures BalancerAdded(s, u, id, conf)
    ensures Serves(u, id, conf, ports, nodes, limit) ==> Settled(u, id, conf, ports, nodes, limit)
  {
  }

  ghost predicate Servable(conf: Config, ports: seq<ServicePort>) {
    PortsOK(AttrsOf(conf.listener), ports) && CanServe(conf.listener, ports) && ports != []
  }

  /** Nothing stands in the way of making a load balancer: it has a network or an EIP, the cloud has the
      EIPs, and the listeners can be generated. */
  ghost predicate Makeable(s: State, conf: Config, ports: seq<ServicePort>) {
    && EipsToHave(s, conf) && Servable(conf, ports)
    && (conf.vxNetID.Some? || conf.eip.ids.Some? || conf.eip.source.Some?)
  }

  /** What filling load balancer `id`, just made, has led to. */
  ghost predicate Filled(was: View, now: View, r: Result<seq<string>>, id: string, conf: Config,
                         ports: seq<ServicePort>, nodes: seq<Node>, limit: Option<nat>, sc: Scope, ids: set<string>) {
    var s, t := was.st, now.st;
    && Went(was, now, sc, ids) && LBKept(s, t, id) && id in s.lbs
    && AsksOnly(now.log, |was.log|, conf.listener, conf.listenerName, ports)
    && (PortsOK(AttrsOf(conf.listener), ports) && ports != [] ==> NeverClashes(now.log, |was.log|, sc.prefix))
    && (r.Ok? ==>
         && !t.lbs[id].pending && r.value != [] && VIPsOf(t, id, r.value) && CanServe(conf.listener, ports)
         && (|ports| <= PAGE_LIMIT && PortsOK(AttrsOf(conf.listener), ports) ==>
             Serves(t, id, conf, ports, nodes, limit)))
    && (|ports| <= PAGE_LIMIT ==> OwnSmall(t, id, conf.listenerName))
    && (r.Err? && Servable(conf, ports) && !Contested(s, id, conf, ports) ==>
         now.faults > was.faults || !HasVIP(s.lbs[id]))
  }

  lemma FilledOf(was: View, mid: View, now: View, r: Result<seq<string>>, id: string, vip: seq<string>, ok: bool,
                 conf: Config, ports: seq<ServicePort>, nodes: seq<Node>, limit: Option<nat>, sc: Scope,
                 ids: set<string>)
    requires ListenersMade(was, mid, ok, conf.listener, id, conf.listenerName, ports, nodes, limit, sc, ids)
    requires sc.prefix == conf.listenerName && VIPsOf(was.st, id, vip) && NoOwn(was.st, id, sc.prefix)
    requires if ok then Applied(mid, now, r, id, vip, true, sc, ids) else now == mid && r.Err?
    ensures Filled(was, now, r, id, conf, ports, nodes, limit, sc, ids)
  {
    SyncedThenApplied(was.st, mid.st, now.st, id);
    VIPsKept(was.st, now.st, id, vip);
    VIPsThere(was.st, id, vip);
    FilledSmall(was.st, mid.st, now.st, id, conf, ports);
    ConvergedByListeners(mid.st, now.st, id, conf.listenerName, AttrsOf(conf.listener), ports, nodes, limit);
    if ok { AppliedCalls(was, mid, now, conf, ports, sc, ids); }
  }

  lemma FilledSmall(s: State, t: State, u: State, id: string, conf: Config, ports: seq<ServicePort>)
    requires NoOwn(s, id, conf.listenerName) && u.Valid() && u.listeners == t.listeners
    requires Tidy(s, t, id, conf.listenerName, AttrsOf(conf.listener), ports)
    ensures |ports| <= PAGE_LIMIT ==> OwnSmall(u, id, conf.listenerName)
  {
    assert OwnSet(s, id, conf.listenerName) == {};
    TidyByListeners(s, t, u, id, conf.listenerName, AttrsOf(conf.listener), ports);
    if |ports| <= PAGE_LIMIT { TidyStaysSmall(s, u, id, conf.listenerName, AttrsOf(conf.listener), ports); }
  }

  /** Fills a load balancer just made, and applies the changes. */
  method FillBalancer(client: Cloud, reader: Reader, conf: Config, lb: LoadBalancer, ports: seq<ServicePort>,
                      nodes: seq<Node>, policy: TrafficPolicy, ghost sc: Scope, ghost limit: Option<nat>,
                      ghost ids: set<string>)
    returns (r: Result<seq<string>>)
    requires client.Valid() && Ready(client.st, sc, ids, nodes) && reader.Fair()
    requires limit == LimitOf(policy, conf.backendCountResult) && Countable(conf, nodes, limit)
    requires sc == EipFree(ScopeOfConfig(conf)) && InScope(sc, client.st, lb.status.id)
    requires NoOwn(client.st, lb.status.id, conf.listenerName) && VIPsOf(client.st, lb.status.id, lb.status.vip)
    modifies client, reader
    ensures client.Valid()
    ensures Filled(old(client.Now()), client.Now(), r, lb.status.id, conf, ports, nodes, limit, sc, ids)
  {
    ghost var was, id, vip := client.Now(), lb.status.id, lb.status.vip;
    var ok := MakeListeners(client, reader, conf.listener, lb.status.id, conf.listenerName, ports, nodes,
                            conf.backendCountResult, policy, limit, sc, ids);
    ghost var mid := client.Now();
    r := Err(Failed);
    if ok { r := ApplyIfChanged(client, lb.status.id, lb.status.vip, true, sc, ids); }
    FilledOf(was, mid, client.Now(), r, id, vip, ok, conf, ports, nodes, limit, sc, ids);
  }

  /** What adding a load balancer has led to, with `id` being that one; `doable` is whether nothing stood in
      the way: only then it can succeed. */
  ghost predicate AddRun(was: View, now: View, r: Result<seq<string>>, id: string, doable: bool, conf: Config,
                         ports: seq<ServicePort>, nodes: seq<Node>, limit: Option<nat>, ids: set<string>) {
    var s, t := was.st, now.st;
    && Went(was, now, ScopeOfConfig(conf), ids) && AddedOrNot(s, t, id, conf, ports)
    && AsksOnly(now.log, |was.log|, conf.listener, conf.listenerName, ports)
    && (PortsOK(AttrsOf(conf.listener), ports) && ports != [] ==>
         NeverClashes(now.log, |was.log|, conf.listenerName))
    && (r.Ok? ==>
         && BalancerAdded(s, t, id, conf) && !t.lbs[id].pending && r.value != [] && VIPsOf(t, id, r.value)
         && (|ports| <= PAGE_LIMIT && PortsOK(AttrsOf(conf.listener), ports) ==>
              Settled(t, id, conf, ports, nodes, limit)))
    && (r.Ok? && SourceOK(conf) && PortsOK(AttrsOf(conf.listener), ports) && ports != [] ==> doable)
    && (r.Err? && doable ==>
         now.faults > was.faults || (!GivesAddress(conf) && CreatedBare(now.log, |was.log|, id)))
  }

  /** The same with these EIPs, which nobody allocates any more. */
  ghost predicate AddedWith(was: View, now: View, r: Result<seq<string>>, id: string, eips: seq<string>, conf: Config,
                            ports: seq<ServicePort>, nodes: seq<Node>, limit: Option<nat>, ids: set<string>) {
    && AddRun(was, now, r, id, MakeableWith(was.st, eips, conf, ports), conf, ports, nodes, limit, ids)
    && Allocations(now.log, |was.log|, false) && (r.Ok? ==> Held(was.st, now.st, id, eips))
  }

  /** What a run that found no load balancer has led to. */
  ghost predicate NewRun(was: View, now: View, r: Result<seq<string>>, id: string, conf: Config,
                         ports: seq<ServicePort>, nodes: seq<Node>, limit: Option<nat>, ids: set<string>) {
    && AddRun(was, now, r, id, Makeable(was.st, conf, ports), conf, ports, nodes, limit, ids)
    && Allocations(now.log, |was.log|, MayAllocate(conf, was.st)) && (r.Ok? ==> NewHeld(was.st, now.st, id))
  }

  /** With these EIPs, a load balancer can be added. */
  ghost predicate MakeableWith(s: State, eips: seq<string>, conf: Config, ports: seq<ServicePort>) {
    Servable(conf, ports) && (conf.vxNetID.Some? || eips != []) && forall e | e in eips :: Free(s, e)
  }

  /** Settling first, then the rest. */
  lemma SettlingThen(conf: Config, ids: set<string>, was: View, mid: View, now: View)
    requires Went(was, mid, SettlingScope(conf), ids) && Went(mid, now, ScopeOfConfig(conf), ids)
    ensures Went(was, now, ScopeOfConfig(conf), ids)
    ensures NeverClashes(now.log, |mid.log|, conf.listenerName) ==> NeverClashes(now.log, |was.log|, conf.listenerName)
    ensures forall ports | AsksOnly(now.log, |mid.log|, conf.listener, conf.listenerName, ports) ::
              AsksOnly(now.log, |was.log|, conf.listener, conf.listenerName, ports)
  {
    SettlingAsksNone(SettlingScope(conf), ids, mid.log, |was.log|);
    forall ports | AsksOnly(now.log, |mid.log|, conf.listener, conf.listenerName, ports)
      ensures AsksOnly(now.log, |was.log|, conf.listener, conf.listenerName, ports)
    {
      JoinAsks(mid.log, now.log, |was.log|, conf.listener, conf.listenerName, ports);
    }
    var settling, big, prefix := SettlingScope(conf), ScopeOfConfig(conf), conf.listenerName;
    WiderDisciplined(settling, big, ids, mid.log, |was.log|);
    WentOn(was, mid, now, big, ids);
    SettlingClashesNot(settling, ids, mid.log, |was.log|);
    if NeverClashes(now.log, |mid.log|, prefix) { JoinNeverClashes(mid.log, now.log, |was.log|, prefix); }
  }

  /** The load balancer could not be made. */
  lemma UnmadeRun(mid: View, now: View, r: Result<seq<string>>, id: string, eips: seq<string>, conf: Config,
                  ports: seq<ServicePort>, nodes: seq<Node>, limit: Option<nat>, ids: set<string>)
    requires Asked(mid, now, false, id, eips, conf, ids) && r.Err?
    ensures AddedWith(mid, now, r, id, eips, conf, ports, nodes, limit, ids)
  {
    SettlingThen(conf, ids, mid, now, now);
    if Made(mid.st, now.st, id, conf) {
      MadeIsEmpty(mid.st, now.st, id, conf, ports);
      assert OwnSet(now.st, id, conf.listenerName) == {};
    }
  }

  /** A load balancer was made and filled. */
  lemma MadeRun(mid: View, made: View, now: View, r: Result<seq<string>>, id: string, eips: seq<string>, conf: Config,
                ports: seq<ServicePort>, nodes: seq<Node>, limit: Option<nat>, ids: set<string>)
    requires Asked(mid, made, true, id, eips, conf, ids)
    requires Filled(made, now, r, id, conf, ports, nodes, limit, EipFree(ScopeOfConfig(conf)), ids)
    ensures AddedWith(mid, now, r, id, eips, conf, ports, nodes, limit, ids)
  {
    WiderDisciplined(EipFree(ScopeOfConfig(conf)), ScopeOfConfig(conf), ids, now.log, |made.log|);
    NeverAllocates(EipFree(ScopeOfConfig(conf)), ids, now.log, |made.log|);
    JoinAllocations(made.log, now.log, |mid.log|, false, false);
    SettlingThen(conf, ids, mid, made, now);
    MadeIsEmpty(mid.st, made.st, id, conf, ports);
    MadeThenFilled(mid.st, made.st, now.st, id, conf, ports, nodes, limit);
    if CreatedBare(made.log, |mid.log|, id) { CreatedBareLater(made.log, now.log, |mid.log|, |mid.log|, id); }
  }

  /** A load balancer just made is ready to be filled. */
  lemma FillReady(mid: View, made: View, id: string, eips: seq<string>, conf: Config, nodes: seq<Node>,
                  ids: set<string>)
    requires Ready(mid.st, ScopeOfConfig(conf), ids, nodes) && conf.lbName != ""
    requires Asked(mid, made, true, id, eips, conf, ids)
    ensures Ready(made.st, EipFree(ScopeOfConfig(conf)), ids, nodes)
    ensures InScope(EipFree(ScopeOfConfig(conf)), made.st, id) && NoOwn(made.st, id, conf.listenerName)
  {
  }

  /** Fills the load balancer that was made. */
  method FillMade(client: Cloud, reader: Reader, conf: Config, lb: LoadBalancer, ports: seq<ServicePort>,
                  nodes: seq<Node>, policy: TrafficPolicy, ghost mid: View, ghost id: string, ghost eips: seq<string>,
                  ghost c: Config, ghost limit: Option<nat>, ghost ids: set<string>)
    returns (r: Result<seq<string>>)
    requires client.Valid() && Ready(mid.st, ScopeOfConfig(c), ids, nodes) && reader.Fair()
    requires conf == c.(eip := conf.eip) && c.lbName != ""
    requires limit == LimitOf(policy, c.backendCountResult) && Countable(c, nodes, limit)
    requires Asked(mid, client.Now(), true, id, eips, c, ids)
    requires SnapshotOf(client.st, id, lb.spec, lb.status)
    modifies client, reader
    ensures client.Valid() && AddedWith(mid, client.Now(), r, id, eips, c, ports, nodes, limit, ids)
  {
    ghost var made := client.Now();
    FillReady(mid, made, id, eips, c, nodes, ids);
    r := FillBalancer(client, reader, conf, lb, ports, nodes, policy, EipFree(ScopeOfConfig(c)), limit, ids);
    MadeRun(mid, made, client.Now(), r, id, eips, c, ports, nodes, limit, ids);
  }

  /** Makes the load balancer and fills it. Of the configuration `c` the EIPs may have been filled in since. */
  method MakeAndFill(client: Cloud, reader: Reader, conf: Config, eips: seq<string>, ports: seq<ServicePort>,
                     nodes: seq<Node>, policy: TrafficPolicy, ghost c: Config, ghost limit: Option<nat>,
                     ghost ids: set<string>)
    returns (r: Result<seq<string>>, ghost id: string)
    requires client.Valid() && Ready(client.st, ScopeOfConfig(c), ids, nodes) && reader.Fair()
    requires conf == c.(eip := conf.eip) && EipsChosen(c, eips) && EipIdsOK(c) && c.lbName != ""
    requires limit == LimitOf(policy, c.backendCountResult) && Countable(c, nodes, limit)
    modifies client, reader
    ensures client.Valid()
    ensures AddedWith(old(client.Now()), client.Now(), r, id, eips, c, ports, nodes, limit, ids)
  {
    ghost var mid := client.Now();
    r := Err(Failed);
    var lb;
    lb, id := MakeBalancer(client, conf, eips, c, ids);
    ghost var made := client.Now();
    if lb.Err? {
      UnmadeRun(mid, made, r, id, eips, c, ports, nodes, limit, ids);
      return;
    }
    r := FillMade(client, reader, conf, lb.value, ports, nodes, policy, mid, id, eips, c, limit, ids);
  }

  /** Nothing was made, for want of the EIPs. */
  lemma WithoutEips(was: View, now: View, r: Result<seq<string>>, id: string, conf: Config, ports: seq<ServicePort>,
                    nodes: seq<Node>, limit: Option<nat>, ids: set<string>)
    requires EipsReady(was, now, false, [], conf, ids) && r.Err?
    ensures NewRun(was, now, r, id, conf, ports, nodes, limit, ids)
  {
    SettlingThen(conf, ids, was, now, now);
  }

  /** With the EIPs at hand, a load balancer was added. */
  lemma EipsThenAdded(was: View, mid: View, now: View, r: Result<seq<string>>, id: string, eips: seq<string>,
                      conf: Config, ports: seq<ServicePort>, nodes: seq<Node>, limit: Option<nat>, ids: set<string>)
    requires EipsReady(was, mid, true, eips, conf, ids) && EipIdsOK(conf)
    requires AddedWith(mid, now, r, id, eips, conf, ports, nodes, limit, ids)
    ensures NewRun(was, now, r, id, conf, ports, nodes, limit, ids)
  {
    SettlingThen(conf, ids, was, mid, now);
    JoinAllocations(mid.log, now.log, |was.log|, MayAllocate(conf, was.st), false);
    if CreatedBare(now.log, |mid.log|, id) { CreatedBareLater(now.log, now.log, |was.log|, |mid.log|, id); }
  }

  /** The branch for a load balancer that was not found. */
  method EnsureNew(client: Cloud, reader: Reader, conf: LoadBalancerConfig, ports: seq<ServicePort>, nodes: seq<Node>,
                   policy: TrafficPolicy, ghost c: Config, ghost limit: Option<nat>, ghost ids: set<string>)
    returns (r: Result<seq<string>>, ghost id: string)
    requires client.Valid() && Ready(client.st, ScopeOfConfig(c), ids, nodes) && reader.Fair()
    requires conf.fields == c && limit == LimitOf(policy, c.backendCountResult) && Countable(c, nodes, limit)
    requires c.lbName != "" && EipIdsOK(c)
    modifies client, reader, conf
    ensures client.Valid() && NewRun(old(client.Now()), client.Now(), r, id, c, ports, nodes, limit, ids)
  {
    ghost var was := client.Now();
    var ok, eips := ChooseEips(client, conf, c, ids);
    ghost var mid := client.Now();
    if !ok {
      r, id := Err(Failed), "";
      WithoutEips(was, mid, r, id, c, ports, nodes, limit, ids);
      return;
    }
    r, id := MakeAndFill(client, reader, conf.fields, eips, ports, nodes, policy, c, limit, ids);
    EipsThenAdded(was, mid, client.Now(), r, id, eips, c, ports, nodes, limit, ids);
  }
}
