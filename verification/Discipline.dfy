/** The discipline every mutating call of every run keeps, and what it means for the cloud:
    nothing that belongs to others is ever touched, and the state stays fit for the next run. */
module Discipline {
  import opened GoStrings
  import opened Apis
  import opened Sequences
  import opened Naming
  import opened CloudModel
  import opened ServiceConfig
  import opened BackendLaws

  /** What a run may call its own, listeners by name prefix and load balancers by id or name, and what
      it may do beside changing these: create listeners, change EIPs, allocate an EIP, delete a load balancer. */
  datatype Scope = Scope(
    prefix: string, reuseID: string, lbName: string, makes: bool, eips: bool, allocates: bool, deletes: bool)

  predicate Own(l: Listener, prefix: string) {
    HasPrefix(l.spec.name, prefix)
  }

  /** Load balancer `id` is one the configuration names. */
  predicate InScope(sc: Scope, s: State, id: string) {
    && id in s.lbs
    && ((sc.reuseID != "" && id == sc.reuseID) || (sc.lbName != "" && s.lbs[id].name == sc.lbName))
  }

  predicate Mine(sc: Scope, s: State, k: nat)
    requires k in s.listeners
  {
    Own(s.listeners[k], sc.prefix) && InScope(sc, s, s.listeners[k].spec.lb)
  }

  /** Different known nodes, all on one port. */
  ghost predicate WellKept(backends: seq<Backend>, ids: set<string>) {
    && DistinctNames(backends)
    && (forall i | 0 <= i < |backends| :: backends[i].name in ids)
    && (forall i, j | 0 <= i < j < |backends| :: backends[i].port == backends[j].port)
  }

  /** The cloud as a run may find it: the backends of every listener of the service are well kept. */
  ghost predicate Inv(s: State, prefix: string, ids: set<string>) {
    s.Valid() && forall k {:trigger WellKept(s.listeners[k].backends, ids)} |
      k in s.listeners && Own(s.listeners[k], prefix) :: WellKept(s.listeners[k].backends, ids)
  }

  ghost predicate Disciplined(sc: Scope, ids: set<string>, step: Step) {
    var s := step.before;
    match step.call
    case ModifyLB(id, _, _) => InScope(sc, s, id)
    case CreateLB(_, name, _, _, _) => name == sc.lbName
    case DeleteLB(id) =>
      && sc.deletes && InScope(sc, s, id)
      && forall k | k in s.listeners && s.listeners[k].spec.lb == id :: Own(s.listeners[k], sc.prefix)
    case UpdateLB(id) => InScope(sc, s, id)
    case AssociateEIPs(id, _) => sc.eips && InScope(sc, s, id)
    case DissociateEIPs(id, _) => sc.eips && InScope(sc, s, id)
    case AllocateEIP(_, _) => sc.allocates
    case ReleaseEIPs(eips) =>
      sc.deletes && forall e | e in eips && e in s.eips :: s.eips[e].name == ALLOCATED_EIP_NAME
    case CreateListeners(id, specs) =>
      sc.makes && InScope(sc, s, id) && forall i | 0 <= i < |specs| :: HasPrefix(specs[i].name, sc.prefix)
    case DeleteListeners(list) => forall k | k in list && k in s.listeners :: Mine(sc, s, k)
    case CreateBackends(l, requests) =>
      l in s.listeners ==>
        && Mine(sc, s, l) && (forall q | q in requests :: q.resource == q.name)
        && ((forall q | q in requests :: q.port.Some?)
            ==> WellKept(s.listeners[l].backends + NewBackends(l, s.next, requests), ids))
    case DeleteBackends(list) => forall b | b in list && b.listener in s.listeners :: Mine(sc, s, b.listener)
  }

  /** What the states before and after share: everything the run may not call its own. */
  ghost predicate Untouched(sc: Scope, s: State, t: State) {
    && (forall k | k in s.listeners && !Mine(sc, s, k) :: k in t.listeners && t.listeners[k] == s.listeners[k])
    && (forall k | k in t.listeners && !Own(t.listeners[k], sc.prefix) ::
        k in s.listeners && s.listeners[k] == t.listeners[k])
    && (forall k | k in t.listeners && t.listeners[k].spec.lb in s.lbs && !InScope(sc, s, t.listeners[k].spec.lb) ::
        k in s.listeners && s.listeners[k] == t.listeners[k])
    && (forall id | id in s.lbs && !InScope(sc, s, id) :: id in t.lbs && t.lbs[id] == s.lbs[id])
    && (forall e | e in s.eips && s.eips[e].name != ALLOCATED_EIP_NAME :: e in t.eips && t.eips[e] == s.eips[e])
  }

  /** An ensure or update run deletes no load balancer, and touches the EIPs of none that is reused. */
  ghost function ScopeOfConfig(conf: Config): Scope {
    Scope(conf.listenerName, conf.reuseLBID, conf.lbName, true, conf.reuseLBID == "", true, false)
  }

  /** While it settles the load balancer itself, it creates no listener. */
  ghost function SettlingScope(conf: Config): Scope {
    ScopeOfConfig(conf).(makes := false)
  }

  /** While it works on attributes or listeners, it changes no EIP and allocates none. */
  ghost function EipFree(sc: Scope): Scope {
    sc.(eips := false, allocates := false)
  }

  /** A deletion creates no listener, and deletes no load balancer that is reused. */
  ghost function DeletionScope(conf: Config): Scope {
    Scope(conf.listenerName, conf.reuseLBID, conf.lbName, false, false, false, conf.reuseLBID == "")
  }

  /** Load balancer `id` is the one `getLoadBalancer` looks for: by id if there is one, else by name. */
  predicate Names(conf: Config, s: State, id: string) {
    && id in s.lbs
    && if conf.reuseLBID != "" then id == conf.reuseLBID
       else conf.lbName != "" && s.lbs[id].listed && s.lbs[id].name == conf.lbName
  }

  lemma NamedIsInScope(conf: Config, s: State, id: string)
    requires Names(conf, s, id)
    ensures InScope(ScopeOfConfig(conf), s, id)
  {
  }

  // ---------- One step ----------

  lemma DeleteBackendsUntouched(sc: Scope, ids: set<string>, step: Step)
    requires step.before.Valid() && step.call.DeleteBackends? && Disciplined(sc, ids, step)
    requires step.after == Apply(step.before, step.call)
    ensures Untouched(sc, step.before, step.after)
  {
    var s, t, list := step.before, step.after, step.call.backends;
    forall k | k in s.listeners && !Mine(sc, s, k) ensures t.listeners[k] == s.listeners[k] {
      assert s.ListenerValid(k);
      PickAll(s.listeners[k].backends, NotIn(list));
    }
  }

  lemma ListenerCallUntouched(sc: Scope, ids: set<string>, step: Step)
    requires step.before.Valid() && Accepts(step.before, step.call) && Disciplined(sc, ids, step)
    requires step.call.CreateListeners? || step.call.DeleteListeners? || step.call.CreateBackends?
    requires step.after == Apply(step.before, step.call)
    ensures Untouched(sc, step.before, step.after)
  {
    var s, t := step.before, step.after;
    forall k | k in s.listeners ensures k < s.next { assert s.ListenerValid(k); }
  }

  lemma LBCallUntouched(sc: Scope, ids: set<string>, step: Step)
    requires step.before.Valid() && Accepts(step.before, step.call) && Disciplined(sc, ids, step)
    requires step.call.ModifyLB? || step.call.CreateLB? || step.call.UpdateLB? || step.call.AssociateEIPs?
          || step.call.DissociateEIPs? || step.call.AllocateEIP? || step.call.ReleaseEIPs? || step.call.DeleteLB?
    requires step.after == Apply(step.before, step.call)
    ensures Untouched(sc, step.before, step.after)
  {
  }

  /** A disciplined call, whatever became of it, touches nothing of others. */
  lemma StepUntouched(sc: Scope, ids: set<string>, step: Step)
    requires step.before.Valid() && Disciplined(sc, ids, step)
    requires Outcome(step.before, step.call, false, step.after)
    ensures Untouched(sc, step.before, step.after)
  {
    if step.after != step.before {
      match step.call
      case DeleteBackends(_) => DeleteBackendsUntouched(sc, ids, step);
      case CreateListeners(_, _) => ListenerCallUntouched(sc, ids, step);
      case DeleteListeners(_) => ListenerCallUntouched(sc, ids, step);
      case CreateBackends(_, _) => ListenerCallUntouched(sc, ids, step);
      case _ => LBCallUntouched(sc, ids, step);
    }
  }

  lemma UntouchedTransitive(sc: Scope, s: State, t: State, u: State)
    requires s.Valid() && Untouched(sc, s, t) && Untouched(sc, t, u)
    ensures Untouched(sc, s, u)
  {
    forall k | k in s.listeners && !Mine(sc, s, k)
      ensures k in u.listeners && u.listeners[k] == s.listeners[k]
    {
      assert s.ListenerValid(k);
      assert !Mine(sc, t, k);
    }
  }

  // ---------- The invariant ----------

  lemma WellKeptWithout(backends: seq<Backend>, list: seq<BackendID>, ids: set<string>)
    requires WellKept(backends, ids)
    ensures WellKept(Without(backends, list), ids)
  {
    var r := Without(backends, list);
    PickKeepsNames(backends, NotIn(list));
    PickMembers(backends, NotIn(list));
    forall i | 0 <= i < |r| ensures r[i].name in ids { assert r[i] in r; }
    forall i, j | 0 <= i < j < |r| ensures r[i].port == r[j].port {
      PickOrder(backends, NotIn(list), i, j);
    }
  }

  /** A disciplined call keeps the invariant of its own service. */
  lemma StepKeepsInv(sc: Scope, ids: set<string>, step: Step)
    requires Inv(step.before, sc.prefix, ids) && Disciplined(sc, ids, step)
    requires Outcome(step.before, step.call, false, step.after)
    ensures Inv(step.after, sc.prefix, ids)
  {
    var s, t := step.before, step.after;
    if t != s {
      ApplyValid(s, step.call);
      forall k | k in t.listeners && Own(t.listeners[k], sc.prefix)
        ensures WellKept(t.listeners[k].backends, ids)
      {
        ListenerAfter(s, step.call, k);
        if step.call.DeleteBackends? {
          WellKeptWithout(s.listeners[k].backends, step.call.backends, ids);
        }
      }
    }
  }

  /** The invariant is a matter of the listeners. */
  lemma InvByListeners(s: State, t: State, prefix: string, ids: set<string>)
    requires Inv(s, prefix, ids) && t.Valid() && t.listeners == s.listeners
    ensures Inv(t, prefix, ids)
  {
  }

  /** Where a listener comes from: it was there before, up to its backends, or was just created without any. */
  lemma ListenerAfter(s: State, c: Call, k: nat)
    requires s.Valid() && Accepts(s, c) && k in Apply(s, c).listeners
    ensures var l := Apply(s, c).listeners[k];
            match c
            case CreateBackends(m, requests) =>
              && k in s.listeners
              && var more := if k == m then NewBackends(m, s.next, requests) else [];
                 l == s.listeners[k].(backends := s.listeners[k].backends + more)
            case DeleteBackends(list) =>
              k in s.listeners && l == s.listeners[k].(backends := Without(s.listeners[k].backends, list))
            case CreateListeners(id, specs) => if k in s.listeners then l == s.listeners[k] else l.backends == []
            case _ => k in s.listeners && l == s.listeners[k]
  {
    if k in s.listeners { assert s.ListenerValid(k); }
  }

  /** What belongs to a service is nothing another service may call its own. */
  lemma OthersKeepInv(sc: Scope, ids: set<string>, s: State, t: State, ns: string, name: string)
    requires Untouched(sc, s, t) && t.Valid() && Inv(s, ListenerName(ns, name), ids)
    requires forall x :: !(HasPrefix(x, sc.prefix) && HasPrefix(x, ListenerName(ns, name)))
    ensures Inv(t, ListenerName(ns, name), ids)
  {
  }

  // ---------- Runs ----------

  /** The steps from `from` on are those of one service's runs. */
  ghost predicate AllDisciplined(sc: Scope, ids: set<string>, log: seq<Step>, from: nat) {
    forall i {:trigger Disciplined(sc, ids, log[i])} | from <= i < |log| :: Disciplined(sc, ids, log[i])
  }

  /** What every run and every part of one keeps to: it only adds calls, disciplined ones, and leaves the
      cloud fit for the next run. */
  ghost predicate Went(was: View, now: View, sc: Scope, ids: set<string>) {
    && was.log <= now.log && was.faults <= now.faults
    && AllDisciplined(sc, ids, now.log, |was.log|) && Inv(now.st, sc.prefix, ids)
  }

  lemma WentOn(was: View, mid: View, now: View, sc: Scope, ids: set<string>)
    requires Went(was, mid, sc, ids) && Went(mid, now, sc, ids)
    ensures Went(was, now, sc, ids)
  {
  }

  /** The same scope with more powers. */
  ghost predicate Wider(small: Scope, big: Scope) {
    && big == small.(makes := big.makes, eips := big.eips, allocates := big.allocates, deletes := big.deletes)
    && (small.makes ==> big.makes) && (small.eips ==> big.eips)
    && (small.allocates ==> big.allocates) && (small.deletes ==> big.deletes)
  }

  lemma WiderDisciplined(small: Scope, big: Scope, ids: set<string>, log: seq<Step>, from: nat)
    requires Wider(small, big) && AllDisciplined(small, ids, log, from)
    ensures AllDisciplined(big, ids, log, from)
  {
    forall i | from <= i < |log| ensures Disciplined(big, ids, log[i]) {
      assert Disciplined(small, ids, log[i]);
      SameMine(small, big, log[i].before);
    }
  }

  lemma SameMine(small: Scope, big: Scope, s: State)
    requires Wider(small, big)
    ensures forall id :: InScope(small, s, id) <==> InScope(big, s, id)
    ensures forall k | k in s.listeners :: Mine(small, s, k) <==> Mine(big, s, k)
  {
  }

  /** No load balancer is deleted and no EIP released. */
  ghost predicate NoDeletion(log: seq<Step>, from: nat) {
    forall i | from <= i < |log| :: !log[i].call.DeleteLB? && !log[i].call.ReleaseEIPs?
  }

  lemma WithoutDeletion(sc: Scope, ids: set<string>, log: seq<Step>, from: nat)
    requires AllDisciplined(sc, ids, log, from) && !sc.deletes
    ensures NoDeletion(log, from)
  {
    forall i | from <= i < |log| ensures !log[i].call.DeleteLB? && !log[i].call.ReleaseEIPs? {
      assert Disciplined(sc, ids, log[i]);
    }
  }

  // ---------- Allocations ----------

  /** From `from` on at most one EIP is allocated, and none unless that is allowed. */
  ghost predicate Allocations(log: seq<Step>, from: nat, allowed: bool) {
    forall i | from <= i < |log| && log[i].call.AllocateEIP? ::
      allowed && forall j | i < j < |log| :: !log[j].call.AllocateEIP?
  }

  lemma NeverAllocates(sc: Scope, ids: set<string>, log: seq<Step>, from: nat)
    requires AllDisciplined(sc, ids, log, from) && !sc.allocates
    ensures Allocations(log, from, false)
  {
    forall i | from <= i < |log| ensures !log[i].call.AllocateEIP? { assert Disciplined(sc, ids, log[i]); }
  }

  lemma JoinAllocations(log1: seq<Step>, log2: seq<Step>, from: nat, first: bool, second: bool)
    requires log1 <= log2 && from <= |log1| && !(first && second)
    requires Allocations(log1, from, first) && Allocations(log2, |log1|, second)
    ensures Allocations(log2, from, first || second)
  {
    forall i | from <= i < |log2| && log2[i].call.AllocateEIP?
      ensures (first || second) && forall j | i < j < |log2| :: !log2[j].call.AllocateEIP?
    {
      if i < |log1| {
        assert log1[i].call.AllocateEIP?;
        forall j | i < j < |log2| ensures !log2[j].call.AllocateEIP? {
          if j < |log1| { assert log1[j] == log2[j]; }
        }
      }
    }
  }

  // ---------- Nothing made ----------

  predicate SameName(a: LB, b: LB) {
    a.name == b.name && a.listed == b.listed
  }

  /** From s to t no load balancer and no listener has come, and none has got another name or specification. */
  ghost predicate Fewer(s: State, t: State) {
    && (forall id | id in t.lbs :: id in s.lbs && SameName(t.lbs[id], s.lbs[id]))
    && (forall k | k in t.listeners :: k in s.listeners && t.listeners[k].spec == s.listeners[k].spec)
  }

  ghost predicate NothingMade(log: seq<Step>, from: nat) {
    forall i | from <= i < |log| :: !log[i].call.CreateLB? && !log[i].call.CreateListeners?
  }

  lemma NoLBMade(s: State, c: Call)
    requires Accepts(s, c) && !c.CreateLB?
    ensures forall id | id in Apply(s, c).lbs :: id in s.lbs && SameName(Apply(s, c).lbs[id], s.lbs[id])
  {
  }

  lemma NoListenerMade(s: State, c: Call)
    requires Accepts(s, c) && !c.CreateListeners?
    ensures forall k | k in Apply(s, c).listeners ::
              k in s.listeners && Apply(s, c).listeners[k].spec == s.listeners[k].spec
  {
  }

  lemma StepIsFewer(step: Step)
    requires Outcome(step.before, step.call, false, step.after)
    requires !step.call.CreateLB? && !step.call.CreateListeners?
    ensures Fewer(step.before, step.after)
  {
    if step.after != step.before {
      NoLBMade(step.before, step.call);
      NoListenerMade(step.before, step.call);
    }
  }

  lemma {:induction false} FewerAt(origin: State, log: seq<Step>, now: State, from: nat, i: nat)
    requires Chained(origin, log, now) && from <= i < |log| && NothingMade(log, from)
    ensures Fewer(log[from].before, log[i].after)
  {
    assert StepOK(log, i);
    if i > from { FewerAt(origin, log, now, from, i - 1); }
    StepIsFewer(log[i]);
  }

  /** A run that makes nothing leaves no more than there was, wherever it broke off. */
  lemma RunIsFewer(origin: State, log0: seq<Step>, s: State, log: seq<Step>, now: State)
    requires log0 <= log && Chained(origin, log0, s) && Chained(origin, log, now) && NothingMade(log, |log0|)
    ensures Fewer(s, now)
  {
    ChainedAt(origin, log0, s, log, now);
    if |log0| < |log| { FewerAt(origin, log, now, |log0|, |log| - 1); }
  }

  // ---------- Names ----------

  /** From s to t every load balancer was there under the same name, or bears this one. */
  ghost predicate NamesFixed(s: State, t: State, name: string) {
    forall id | id in t.lbs ::
      (id in s.lbs && SameName(t.lbs[id], s.lbs[id])) || t.lbs[id].name == name
  }

  lemma StepFixesNames(sc: Scope, ids: set<string>, step: Step)
    requires Disciplined(sc, ids, step) && Outcome(step.before, step.call, false, step.after)
    ensures NamesFixed(step.before, step.after, sc.lbName)
  {
    if step.after != step.before && !step.call.CreateLB? { NoLBMade(step.before, step.call); }
  }

  lemma {:induction false} NamesFixedAt(sc: Scope, ids: set<string>, origin: State, log: seq<Step>, now: State,
                                        from: nat, i: nat)
    requires Chained(origin, log, now) && from <= i < |log| && AllDisciplined(sc, ids, log, from)
    ensures NamesFixed(log[from].before, log[i].after, sc.lbName)
  {
    assert StepOK(log, i);
    assert Disciplined(sc, ids, log[i]);
    if i > from { NamesFixedAt(sc, ids, origin, log, now, from, i - 1); }
    StepFixesNames(sc, ids, log[i]);
  }

  /** A run gives no load balancer another name, and makes none but under its own. */
  lemma RunFixesNames(sc: Scope, ids: set<string>, origin: State, log0: seq<Step>, s: State, log: seq<Step>, now: State)
    requires log0 <= log && Chained(origin, log0, s) && Chained(origin, log, now)
    requires AllDisciplined(sc, ids, log, |log0|)
    ensures NamesFixed(s, now, sc.lbName)
  {
    ChainedAt(origin, log0, s, log, now);
    if |log0| < |log| { NamesFixedAt(sc, ids, origin, log, now, |log0|, |log| - 1); }
  }

  // ---------- EIPs left alone ----------

  lemma StepKeepsEips(sc: Scope, ids: set<string>, step: Step, id: string)
    requires Disciplined(sc, ids, step) && Outcome(step.before, step.call, false, step.after)
    requires !sc.eips && !sc.deletes && id in step.before.lbs
    ensures id in step.after.lbs && step.after.lbs[id].eips == step.before.lbs[id].eips
  {
  }

  /** Where a run may not change EIPs, every load balancer is there at every step, with the EIPs it had. */
  lemma {:induction false} EipsKeptAt(sc: Scope, ids: set<string>, origin: State, log: seq<Step>, now: State, from: nat,
                                      i: nat, id: string)
    requires Chained(origin, log, now) && from <= i < |log|
    requires AllDisciplined(sc, ids, log, from) && !sc.eips && !sc.deletes && id in log[from].before.lbs
    ensures id in log[i].after.lbs && log[i].after.lbs[id].eips == log[from].before.lbs[id].eips
  {
    assert StepOK(log, i);
    assert Disciplined(sc, ids, log[i]);
    if i > from { EipsKeptAt(sc, ids, origin, log, now, from, i - 1, id); }
    StepKeepsEips(sc, ids, log[i], id);
  }

  /** At all steps from `from` on load balancer `id` has these EIPs. */
  ghost predicate SameEips(log: seq<Step>, from: nat, id: string, eips: set<string>) {
    forall i | from <= i < |log| :: id in log[i].after.lbs && log[i].after.lbs[id].eips == eips
  }

  lemma RunKeepsEips(sc: Scope, ids: set<string>, origin: State, log0: seq<Step>, s: State, log: seq<Step>, now: State,
                     id: string)
    requires log0 <= log && Chained(origin, log0, s) && Chained(origin, log, now)
    requires AllDisciplined(sc, ids, log, |log0|) && !sc.eips && !sc.deletes && id in s.lbs
    ensures SameEips(log, |log0|, id, s.lbs[id].eips)
    ensures id in now.lbs && now.lbs[id].eips == s.lbs[id].eips
  {
    ChainedAt(origin, log0, s, log, now);
    forall i | |log0| <= i < |log| ensures id in log[i].after.lbs && log[i].after.lbs[id].eips == s.lbs[id].eips {
      EipsKeptAt(sc, ids, origin, log, now, |log0|, i, id);
    }
  }

  /** Disciplined steps after disciplined steps. */
  lemma JoinDisciplined(sc: Scope, ids: set<string>, log1: seq<Step>, log2: seq<Step>, from: nat)
    requires log1 <= log2 && from <= |log1|
    requires AllDisciplined(sc, ids, log1, from) && AllDisciplined(sc, ids, log2, |log1|)
    ensures AllDisciplined(sc, ids, log2, from)
  {
  }

  /** Safety at every step: whatever happens to its calls, and wherever it is cut short, a run
      touches nothing of others and leaves what it may find again. */
  lemma {:induction false} RunIsSafe(sc: Scope, ids: set<string>, origin: State, log: seq<Step>, now: State, from: nat,
                                     i: nat)
    requires Chained(origin, log, now) && from <= i < |log|
    requires AllDisciplined(sc, ids, log, from) && Inv(log[from].before, sc.prefix, ids)
    ensures Untouched(sc, log[from].before, log[i].after)
    ensures Inv(log[i].before, sc.prefix, ids) && Inv(log[i].after, sc.prefix, ids)
  {
    assert StepOK(log, i);
    if i == from {
      StepUntouched(sc, ids, log[i]);
    } else {
      RunIsSafe(sc, ids, origin, log, now, from, i - 1);
      StepUntouched(sc, ids, log[i]);
      UntouchedTransitive(sc, log[from].before, log[i].before, log[i].after);
    }
    StepKeepsInv(sc, ids, log[i]);
  }

  /** A whole run, cut short or not, touches nothing of others. */
  lemma RunUntouched(sc: Scope, ids: set<string>, origin: State, log0: seq<Step>, s: State, log: seq<Step>, now: State)
    requires log0 <= log && Chained(origin, log0, s) && Chained(origin, log, now)
    requires AllDisciplined(sc, ids, log, |log0|) && Inv(s, sc.prefix, ids)
    ensures Untouched(sc, s, now)
  {
    ChainedAt(origin, log0, s, log, now);
    if |log0| < |log| {
      RunIsSafe(sc, ids, origin, log, now, |log0|, |log| - 1);
    }
  }

  /** The scopes of the runs of one service. */
  ghost predicate ScopeOf(sc: Scope, svc: Service) {
    sc.prefix == ListenerName(svc.ns, svc.name)
  }

  /** Over any history of runs of any services, in any order and with any failures, the cloud stays
      as each of them may find it: in particular the backends of a listener always share one port. */
  lemma {:induction false} InvariantOverAllRuns(origin: State, log: seq<Step>, now: State, scopes: seq<Scope>,
                                                services: seq<Service>, ids: set<string>, svc: Service, i: nat)
    requires Chained(origin, log, now) && |scopes| == |services| == |log| && i < |log|
    requires forall j | 0 <= j < |log| :: ScopeOf(scopes[j], services[j]) && Disciplined(scopes[j], ids, log[j])
    requires forall j | 0 <= j < |log| :: Label(services[j].ns) && Label(services[j].name)
    requires Label(svc.ns) && Label(svc.name) && Inv(origin, ListenerName(svc.ns, svc.name), ids)
    ensures Inv(log[i].before, ListenerName(svc.ns, svc.name), ids)
    ensures Inv(log[i].after, ListenerName(svc.ns, svc.name), ids)
  {
    assert StepOK(log, i);
    if i > 0 {
      InvariantOverAllRuns(origin, log, now, scopes, services, ids, svc, i - 1);
    }
    var runner := services[i];
    StepUntouched(scopes[i], ids, log[i]);
    if runner.ns == svc.ns && runner.name == svc.name {
      StepKeepsInv(scopes[i], ids, log[i]);
    } else {
      if log[i].after != log[i].before { ApplyValid(log[i].before, log[i].call); }
      forall x ensures !(HasPrefix(x, scopes[i].prefix) && HasPrefix(x, ListenerName(svc.ns, svc.name))) {
        if HasPrefix(x, scopes[i].prefix) && HasPrefix(x, ListenerName(svc.ns, svc.name)) {
          OwnerUnique(x, runner.ns, runner.name, svc.ns, svc.name);
        }
      }
      OthersKeepInv(scopes[i], ids, log[i].before, log[i].after, svc.ns, svc.name);
    }
  }
}
